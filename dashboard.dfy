/**
 * The patient dashboard (`src/Pages/Patient/Dashboard.js`): it loads the
 * dashboard payload through the authenticated client, shapes the week's
 * activity into seven graph points and two totals, reloads on focus when
 * the patient context asks for it or the day has changed, and marks a task
 * completed once the server accepts it.
 */
module Dashboard {
  import opened Wrappers
  import opened JsText
  import opened JsonModel
  import opened Http
  import opened Platform
  import FetchWithAuth

  const DashboardPath := "/users/dashboard/"

  /** One point of the weekly graph. */
  datatype Point = Point(x: string, y: Json)

  /** The graph's labels and the `weekData` fields they show, day by day. */
  const DayLabels: seq<string> := ["M", "T", "W", "Th", "F", "S", "Su"]
  const DayFields: seq<string> := ["mon", "tues", "wed", "thur", "fri", "sat", "sun"]

  /** `week.f` is an own field of an object holding a truthy value. */
  predicate Filled(week: Json, f: string) {
    week.JObj? && f in week.fields && Truthy(week.fields[f])
  }

  /** `weekData.f || 0`. */
  function Tally(week: Json, f: string): Json {
    Or(Prop(week, f), JNum(0))
  }

  /** The seven points of `setWeeklyData`. */
  function WeeklyPoints(week: Json): (p: seq<Point>)
    ensures |p| == |DayLabels| == 7
    ensures forall k :: 0 <= k < 7 ==> p[k].x == DayLabels[k]
    ensures forall k :: 0 <= k < 7 ==> p[k].y == if Filled(week, DayFields[k]) then week.fields[DayFields[k]] else JNum(0)
  {
    [Point("M", Tally(week, "mon")), Point("T", Tally(week, "tues")),
     Point("W", Tally(week, "wed")), Point("Th", Tally(week, "thur")),
     Point("F", Tally(week, "fri")), Point("S", Tally(week, "sat")),
     Point("Su", Tally(week, "sun"))]
  }

  /** The two totals of `setDailyData`: this week's, then all time's. */
  function DailyTotals(week: Json): (t: seq<Json>)
    ensures |t| == 2
    ensures t[0] == if Filled(week, "week") then week.fields["week"] else JNum(0)
    ensures t[1] == if Filled(week, "all_time") then week.fields["all_time"] else JNum(0)
  {
    [Tally(week, "week"), Tally(week, "all_time")]
  }

  /** What the screen shows: its state variables. */
  datatype Board = Board(
    videos: Json,
    tasks: Json,
    quote: Read,
    weekly: seq<Point>,
    daily: seq<Json>,
    loading: bool,
    error: Option<string>,
    graphKey: int)

  /** The `finally` of `fetchDashboardData`. */
  function Settled(b: Board): Board {
    b.(loading := false, graphKey := b.graphKey + 1)
  }

  /**
   * `fetchDashboardData()`. The lists and the quote are set before the week
   * is read, so a payload without `weekData` keeps them and records the
   * TypeError that reading `weekData.mon` throws.
   */
  function Loaded(w: World, b: Board): (World, Board) {
    var (w1, r) := FetchWithAuth.GetJson(w, DashboardPath, Options("GET", map[], None));
    (w1, Shaped(b, r))
  }

  /** The screen after the payload request ended with `r`. */
  function Shaped(b: Board, r: Outcome<Json>): Board {
    if r.Threw? then Settled(b.(error := Some(Message(r.error))))
    else if r.value.JNull? then Settled(b.(error := Some(Message(TypeError))))
    else
      var data := r.value;
      var b1 := b.(videos := Or(Prop(data, "generalVideos"), JArr([])),
                   tasks := Or(Prop(data, "tasks"), JArr([])),
                   quote := OptProp(Prop(data, "quote"), "quote_text"));
      var week := Prop(data, "weekData");
      if !week.Val? || week.v.JNull? then Settled(b1.(error := Some(Message(TypeError))))
      else Settled(b1.(weekly := WeeklyPoints(week.v), daily := DailyTotals(week.v)))
  }

  /** The focus effect's test: a pending refresh, or a day other than the remembered one. */
  predicate ShouldRefetch(w: World, today: int) {
    w.refresh || w.date != Some(today)
  }

  /** The focus effect on day `today`: reload, then clear the refresh flag and remember the day. */
  function Focused(w: World, b: Board, today: int): (World, Board) {
    if !ShouldRefetch(w, today) then (w, b)
    else
      var (w1, b1) := Loaded(w, b.(loading := true, error := None));
      var w2 := if w.refresh then WithRefresh(w1, false) else w1;
      var w3 := if w.date != Some(today) then WithDate(w2, today) else w2;
      (w3, b1)
  }

  /** `task.id === taskId` for JSON values; objects and arrays compare by identity, modelled as never equal. */
  predicate SameId(a: Json, b: Json) {
    a == b && !a.JArr? && !a.JObj?
  }

  predicate IsTask(item: Json, id: Json) {
    item.JObj? && "id" in item.fields && SameId(item.fields["id"], id)
  }

  /** `task.id === taskId ? { ...task, isCompleted: true } : task`. */
  function Marked(item: Json, id: Json): Json {
    if IsTask(item, id) then JObj(item.fields["isCompleted" := JBool(true)]) else item
  }

  /** The list update of `handleTask`; a value that is not an array is left as it is. */
  function Completed(tasks: Json, id: Json): Json {
    if tasks.JArr? then JArr(seq(|tasks.items|, k requires 0 <= k < |tasks.items| => Marked(tasks.items[k], id)))
    else tasks
  }

  function TaskPath(id: Json): string {
    "/users/tasks/update-completion/" + JsToString(id) + "/"
  }

  /** `handleTask(taskId)`: the update is applied only after an ok reply. */
  function TaskDone(w: World, b: Board, id: Json): (World, Board) {
    var (w1, res) := FetchWithAuth.AuthFetch(w, TaskPath(id), Options("POST", map[], None));
    if res.Threw? || !Ok(res.value.status) then (w1, b)
    else (w1, b.(tasks := Completed(b.tasks, id)))
  }

  class DashboardScreen {
    var dashboardData: Json
    var loading: bool
    var error: Option<string>
    var graphKey: int
    var weeklyData: seq<Point>
    var dailyData: seq<Json>
    var taskModuleData: Json
    var quote: Read

    constructor ()
      ensures Shown() == Board(JArr([]), JArr([]), Val(JStr("")), [], [], true, None, 0)
    {
      dashboardData, taskModuleData, quote := JArr([]), JArr([]), Val(JStr(""));
      weeklyData, dailyData := [], [];
      loading, error, graphKey := true, None, 0;
    }

    function Shown(): Board
      reads this
    {
      Board(dashboardData, taskModuleData, quote, weeklyData, dailyData, loading, error, graphKey)
    }

    method FetchDashboardData(dev: Device)
      modifies this, dev
      ensures (dev.State(), Shown()) == Loaded(old(dev.State()), old(Shown()))
    {
      var r := FetchWithAuth.GetJSON(dev, DashboardPath, Options("GET", map[], None));
      Receive(r);
    }

    /** The `try` body after `getJSON` returned, its `catch` and its `finally`. */
    method Receive(r: Outcome<Json>)
      modifies this
      ensures Shown() == Shaped(old(Shown()), r)
    {
      if r.Threw? {
        error := Some(Message(r.error));
      } else if r.value.JNull? {
        error := Some(Message(TypeError));
      } else {
        var data := r.value;
        dashboardData := Or(Prop(data, "generalVideos"), JArr([]));
        taskModuleData := Or(Prop(data, "tasks"), JArr([]));
        quote := OptProp(Prop(data, "quote"), "quote_text");
        var week := Prop(data, "weekData");
        if !week.Val? || week.v.JNull? {
          error := Some(Message(TypeError));
        } else {
          weeklyData := WeeklyPoints(week.v);
          dailyData := DailyTotals(week.v);
        }
      }
      loading := false;
      graphKey := graphKey + 1;
    }

    method OnFocus(dev: Device, today: int)
      modifies this, dev
      ensures (dev.State(), Shown()) == Focused(old(dev.State()), old(Shown()), today)
    {
      var refresh, date := dev.refresh, dev.date;
      if !(refresh || date != Some(today)) {
        return;
      }
      loading := true;
      error := None;
      FetchDashboardData(dev);
      if refresh {
        dev.SetRefresh(false);
      }
      if date != Some(today) {
        dev.SetDate(today);
      }
    }

    method HandleTask(dev: Device, taskId: Json)
      modifies this, dev
      ensures (dev.State(), Shown()) == TaskDone(old(dev.State()), old(Shown()), taskId)
    {
      var res := FetchWithAuth.Fetch(dev, TaskPath(taskId), Options("POST", map[], None));
      if res.Threw? || !Ok(res.value.status) {
        return;
      }
      taskModuleData := Completed(taskModuleData, taskId);
    }
  }

  // ---------------------------------------------------------------------------
  // Properties

  /** Every load, whatever its outcome, ends with the spinner off and the graph key one higher. */
  lemma LoadAlwaysSettles(w: World, b: Board)
    ensures Loaded(w, b).1.loading == false
    ensures Loaded(w, b).1.graphKey == b.graphKey + 1
    ensures Loaded(w, b).0 == FetchWithAuth.GetJson(w, DashboardPath, Options("GET", map[], None)).0
  {
  }

  /** A payload object fills the lists (empty when missing or falsy), the graph and the totals, and sets no error. */
  lemma PayloadShaping(w: World, b: Board, data: Json, week: Json)
    requires FetchWithAuth.GetJson(w, DashboardPath, Options("GET", map[], None)).1 == Done(data)
    requires data.JObj? && "weekData" in data.fields && data.fields["weekData"] == week && !week.JNull?
    ensures var b1 := Loaded(w, b).1;
      b1.error == b.error
      && b1.videos == (if Filled(data, "generalVideos") then data.fields["generalVideos"] else JArr([]))
      && b1.tasks == (if Filled(data, "tasks") then data.fields["tasks"] else JArr([]))
      && |b1.weekly| == 7 && (forall k :: 0 <= k < 7 ==> b1.weekly[k].x == DayLabels[k])
      && b1.daily == DailyTotals(week)
  {
  }

  /** A payload without a week keeps the old graph and records the error, yet still takes the lists. */
  lemma MissingWeekKeepsGraph(w: World, b: Board, data: Json)
    requires FetchWithAuth.GetJson(w, DashboardPath, Options("GET", map[], None)).1 == Done(data)
    requires data.JObj? && "weekData" !in data.fields
    ensures var b1 := Loaded(w, b).1;
      b1.weekly == b.weekly && b1.daily == b.daily && b1.error == Some(Message(TypeError))
      && b1.tasks == (if Filled(data, "tasks") then data.fields["tasks"] else JArr([]))
  {
  }

  /** A failed load changes only the error, the spinner and the graph key. */
  lemma FailedLoadKeepsContent(w: World, b: Board, e: JsError)
    requires FetchWithAuth.GetJson(w, DashboardPath, Options("GET", map[], None)).1 == Threw(e)
    ensures Loaded(w, b).1 == Settled(b.(error := Some(Message(e))))
  {
  }

  /**
   * Focus reloads exactly when the refresh flag is set or the day changed;
   * afterwards the flag is clear and the day remembered. Otherwise nothing
   * changes at all.
   */
  lemma FocusReloadsIff(w: World, b: Board, today: int)
    ensures var (w1, b1) := Focused(w, b, today);
      (b1.graphKey == b.graphKey + 1 <==> ShouldRefetch(w, today))
      && (!ShouldRefetch(w, today) ==> w1 == w && b1 == b)
      && (ShouldRefetch(w, today) ==> !w1.refresh && w1.date == Some(today) && !b1.loading && !ShouldRefetch(w1, today))
  {
    if ShouldRefetch(w, today) {
      var b0 := b.(loading := true, error := None);
      FetchWithAuth.ContextUntouched(w, DashboardPath, Options("GET", map[], None));
      var (w1, b1) := Loaded(w, b0);
      assert w1.refresh == w.refresh && w1.date == w.date;
      assert b1.graphKey == b.graphKey + 1;
    }
  }

  /** The update keeps the list's length, marks every matching task and leaves every other entry as it was. */
  lemma CompletionMarksOnlyMatches(items: seq<Json>, id: Json)
    ensures var r := Completed(JArr(items), id);
      r.JArr? && |r.items| == |items|
      && (forall k :: 0 <= k < |items| && !IsTask(items[k], id) ==> r.items[k] == items[k])
      && (forall k :: 0 <= k < |items| && IsTask(items[k], id) ==>
            Prop(r.items[k], "isCompleted") == Val(JBool(true))
            && r.items[k].fields - {"isCompleted"} == items[k].fields - {"isCompleted"})
  {
  }

  /** Marking a task twice is marking it once. */
  lemma CompletionIdempotent(tasks: Json, id: Json)
    ensures Completed(Completed(tasks, id), id) == Completed(tasks, id)
  {
    if tasks.JArr? {
      var once := Completed(tasks, id);
      var twice := Completed(once, id);
      assert |twice.items| == |once.items|;
      forall k | 0 <= k < |once.items|
        ensures twice.items[k] == once.items[k]
      {
        var item := tasks.items[k];
        if IsTask(item, id) {
          assert once.items[k].fields["isCompleted" := JBool(true)] == once.items[k].fields;
        }
      }
    }
  }

  /** A refused or failed update leaves the list as it was; an accepted one applies the update. */
  lemma TaskNeedsOk(w: World, b: Board, id: Json)
    ensures var (w1, res) := FetchWithAuth.AuthFetch(w, TaskPath(id), Options("POST", map[], None));
      var b1 := TaskDone(w, b, id).1;
      (res.Done? && Ok(res.value.status) ==> b1 == b.(tasks := Completed(b.tasks, id)))
      && (!(res.Done? && Ok(res.value.status)) ==> b1 == b)
  {
  }
}
