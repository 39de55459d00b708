/**
 * The nurse's patient search (`src/Pages/Nurse/PatientLookup.js`): a query
 * typed in one of two modes ('text' for name or e-mail, 'id' for the
 * numeric id, where everything but digits is dropped as it is typed) is
 * sent through the authenticated client; switching modes starts over.
 */
module PatientLookup {
  import opened Wrappers
  import opened JsText
  import opened JsonModel
  import opened Http
  import opened Platform
  import FetchWithAuth

  /** The screen's state variables. */
  datatype Search = Search(query: string, patients: Json, attempted: bool, mode: string, isLoading: bool)

  /** The query string is built by plain interpolation; nothing is escaped. */
  function SearchPath(mode: string, query: string): string {
    "/users/patients-list/?searchBy=" + mode + "&query=" + query
  }

  function SearchOptions(): Options {
    Options("GET", map[], None)
  }

  /** `text.replace(/[^0-9]/g, '')`. */
  function DigitsOnly(s: string): (r: string)
    ensures |r| <= |s|
    ensures forall k :: 0 <= k < |r| ==> IsDigit(r[k])
  {
    if s == [] then []
    else if IsDigit(s[0]) then [s[0]] + DigitsOnly(s[1..])
    else DigitsOnly(s[1..])
  }

  /** `onChangeText(text)`: the id mode keeps only the digits. */
  function Typed(s: Search, text: string): Search {
    s.(query := if s.mode == "id" then DigitsOnly(text) else text)
  }

  /** The three updates made before the request. */
  function Begun(s: Search): Search {
    s.(isLoading := true, patients := JArr([]), attempted := false)
  }

  /** What the `try`, `catch` and `finally` leave once `getJSON` ended with `r`. */
  function Finished(s: Search, r: Outcome<Json>): Search {
    s.(patients := if r.Done? then r.value else JArr([]), isLoading := false, attempted := true)
  }

  /** `searchPatients()`: nothing for an empty query, otherwise one `getJSON` call. */
  function Searched(w: World, s: Search): (World, Search) {
    if s.query == "" then (w, s)
    else
      var (w1, r) := FetchWithAuth.GetJson(w, SearchPath(s.mode, s.query), SearchOptions());
      (w1, Finished(Begun(s), r))
  }

  /** `handleSearchByChange(type)`. */
  function Switched(s: Search, kind: string): Search {
    s.(mode := kind, query := "", patients := JArr([]), attempted := false)
  }

  const DetailKeys: set<string> := {"id", "username", "email"}

  /**
   * The parameters `handleUserClick` passes to the details screen; a field
   * the record lacks is `undefined` there and has no entry here. `None`:
   * the record is `null` and reading `user.id` throws.
   */
  function DetailParams(user: Json): (p: Option<map<string, Json>>)
    ensures p.None? <==> user.JNull?
    ensures p.Some? ==> p.value.Keys <= DetailKeys
    ensures p.Some? && user.JObj? ==> p.value.Keys == DetailKeys * user.fields.Keys
    ensures p.Some? ==> forall k :: k in p.value ==> user.JObj? && k in user.fields && p.value[k] == user.fields[k]
  {
    if user.JNull? then None
    else if user.JObj? then Some(map k | k in DetailKeys * user.fields.Keys :: user.fields[k])
    else Some(map[])
  }

  class LookupScreen {
    var searchQuery: string
    var patients: Json
    var searchAttempted: bool
    var searchBy: string
    var isLoading: bool

    constructor ()
      ensures Form() == Search("", JArr([]), false, "text", false)
    {
      searchQuery, patients, searchAttempted := "", JArr([]), false;
      searchBy, isLoading := "text", false;
    }

    function Form(): Search
      reads this
    {
      Search(searchQuery, patients, searchAttempted, searchBy, isLoading)
    }

    method SearchPatients(dev: Device)
      modifies this, dev
      ensures (dev.State(), Form()) == Searched(old(dev.State()), old(Form()))
    {
      if searchQuery == "" {
        return;
      }
      Begin();
      var r := FetchWithAuth.GetJSON(dev, SearchPath(searchBy, searchQuery), SearchOptions());
      Finish(r);
    }

    method Begin()
      modifies this
      ensures Form() == Begun(old(Form()))
      ensures isLoading && patients == JArr([]) && !searchAttempted
    {
      isLoading := true;
      patients := JArr([]);
      searchAttempted := false;
    }

    method Finish(r: Outcome<Json>)
      modifies this
      ensures Form() == Finished(old(Form()), r)
      ensures !isLoading && searchAttempted
    {
      if r.Done? {
        patients := r.value;
      } else {
        patients := JArr([]);
      }
      isLoading := false;
      searchAttempted := true;
    }

    method HandleSearchByChange(kind: string)
      modifies this
      ensures Form() == Switched(old(Form()), kind)
    {
      searchBy := kind;
      searchQuery := "";
      patients := JArr([]);
      searchAttempted := false;
    }

    method OnChangeText(text: string)
      modifies this
      ensures Form() == Typed(old(Form()), text)
    {
      if searchBy == "id" {
        searchQuery := DigitsOnly(text);
      } else {
        searchQuery := text;
      }
    }

    method HandleUserClick(dev: Device, user: Json)
      modifies dev
      ensures var p := DetailParams(user);
        dev.State() == if p.Some? then Navigated(old(dev.State()), NavigateTo("PatientDetails", p.value)) else old(dev.State())
    {
      var p := DetailParams(user);
      if p.Some? {
        dev.Dispatch(NavigateTo("PatientDetails", p.value));
      }
    }
  }

  // ---------------------------------------------------------------------------
  // Properties

  /** An empty query sends nothing and changes nothing. */
  lemma EmptyQueryIsInert(w: World, s: Search)
    requires s.query == ""
    ensures Searched(w, s) == (w, s)
  {
  }

  /** A search ends with the spinner off and the attempt recorded; a failed one shows no results; the query and mode stay. */
  lemma SearchSettles(w: World, s: Search)
    requires s.query != ""
    ensures var (w1, s1) := Searched(w, s);
      var r := FetchWithAuth.GetJson(w, SearchPath(s.mode, s.query), SearchOptions()).1;
      !s1.isLoading && s1.attempted && s1.query == s.query && s1.mode == s.mode
      && (r.Threw? ==> s1.patients == JArr([]))
      && (r.Done? ==> s1.patients == r.value)
  {
  }

  /** While the request runs the spinner shows, the old results are gone and no attempt is reported. */
  lemma PendingState(s: Search)
    ensures Begun(s).isLoading && Begun(s).patients == JArr([]) && !Begun(s).attempted
    ensures Begun(s).query == s.query && Begun(s).mode == s.mode
  {
  }

  /** Switching modes starts over: a search right after it sends nothing. */
  lemma SwitchStartsOver(w: World, s: Search, kind: string)
    ensures var s1 := Switched(s, kind);
      s1.mode == kind && s1.query == "" && s1.patients == JArr([]) && !s1.attempted && s1.isLoading == s.isLoading
      && Searched(w, s1) == (w, s1)
  {
  }

  /** The filter distributes over concatenation: it keeps the digits in their original order. */
  lemma {:induction false} DigitsDistribute(a: string, b: string)
    ensures DigitsOnly(a + b) == DigitsOnly(a) + DigitsOnly(b)
  {
    if a == [] {
      assert a + b == b;
    } else {
      assert (a + b)[1..] == a[1..] + b;
      DigitsDistribute(a[1..], b);
    }
  }

  /** Every digit occurs as often after the filter as before, every other character not at all. */
  lemma {:induction false} DigitsCounted(s: string, c: char)
    ensures multiset(DigitsOnly(s))[c] == if IsDigit(c) then multiset(s)[c] else 0
  {
    if s != [] {
      DigitsCounted(s[1..], c);
      assert s == [s[0]] + s[1..];
      assert multiset(s) == multiset([s[0]]) + multiset(s[1..]);
    }
  }

  /** A text of digits only passes unchanged, so filtering twice is filtering once. */
  lemma {:induction false} DigitsKeptWhole(s: string)
    requires forall k :: 0 <= k < |s| ==> IsDigit(s[k])
    ensures DigitsOnly(s) == s
  {
    if s != [] {
      DigitsKeptWhole(s[1..]);
    }
  }

  lemma DigitsIdempotent(s: string)
    ensures DigitsOnly(DigitsOnly(s)) == DigitsOnly(s)
  {
    DigitsKeptWhole(DigitsOnly(s));
  }

  /** In id mode the query sent holds digits only; in text mode it is what was typed. */
  lemma TypedQuery(s: Search, text: string)
    ensures s.mode == "id" ==> forall k :: 0 <= k < |Typed(s, text).query| ==> IsDigit(Typed(s, text).query[k])
    ensures s.mode != "id" ==> Typed(s, text).query == text
    ensures Typed(s, text).mode == s.mode && Typed(s, text).patients == s.patients
  {
  }
}
