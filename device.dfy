/**
 * The phone the app runs on, as the credential code sees it: the secure
 * key-value store, the `userType` of the token context, the `refresh` and
 * `date` of the patient context, the navigation container, the alert
 * dialogs, the network and the biometric sensor.
 *
 * `World` is the state as a value and its functions are the reference
 * transitions; `Device` holds the same state in fields, and each of its
 * methods is proved to make the matching transition.
 *
 * The network is a script: each request takes the next reply, and once the
 * script is spent the server is unreachable. The biometric sensor answers
 * prompts from a script in the same way.
 */
module Platform {
  import opened Wrappers
  import opened JsonModel
  import opened Http

  /** A navigation action: a reset of the stack to Login, `replace(screen)`, or `navigate(screen, params)`. */
  datatype NavEvent =
    | ResetToLogin
    | ReplaceWith(screen: string)
    | NavigateTo(screen: string, params: map<string, Json>)

  datatype Alert = Alert(title: string, message: string)

  /** What the biometric hardware reports; `ProbeFailed` means one of the queries threw. */
  datatype Sensor = Sensor(hasHardware: bool, isEnrolled: bool, securityLevel: int) | ProbeFailed

  /** How one `authenticateAsync` prompt ends: success, a failure code, or a thrown error. */
  datatype PromptOutcome = Accepted | Rejected(code: string) | PromptCrashed

  datatype World = World(
    store: map<string, string>,
    userType: string,
    refresh: bool,
    date: Option<int>,
    nav: seq<NavEvent>,
    alerts: seq<Alert>,
    sent: seq<Request>,
    replies: seq<Reply>,
    sensor: Sensor,
    prompts: seq<PromptOutcome>,
    promptCount: nat)

  /** The four keys under which login tokens live. */
  const CredentialKeys: set<string> := {"accessPatient", "refreshPatient", "accessNurse", "refreshNurse"}

  datatype TokenKeys = TokenKeys(access: string, refresh: string)

  /** The keys a role's tokens use: "nurse" selects the nurse pair, any other role the patient pair. */
  function RoleKeys(userType: string): (k: TokenKeys)
    ensures k.access in CredentialKeys && k.refresh in CredentialKeys && k.access != k.refresh
    ensures userType == "nurse" <==> k == TokenKeys("accessNurse", "refreshNurse")
    ensures userType != "nurse" <==> k == TokenKeys("accessPatient", "refreshPatient")
  {
    if userType == "nurse" then TokenKeys("accessNurse", "refreshNurse") else TokenKeys("accessPatient", "refreshPatient")
  }

  /** `getSecureItem(key)`: the stored text, or `null`. */
  function Lookup(m: map<string, string>, key: string): Option<string> {
    if key in m then Some(m[key]) else None
  }

  /** Truthiness of a stored text: present and not empty. */
  predicate Present(v: Option<string>) {
    v.Some? && v.value != ""
  }

  function Stored(w: World, key: string, value: string): World {
    w.(store := w.store[key := value])
  }

  /**
   * `saveSecureItem(key, value)` for a value read out of a JSON reply: the
   * store accepts only text, and the wrapper swallows the rejection of
   * anything else.
   */
  function StoredValue(w: World, key: string, value: Read): World {
    if value.Val? && value.v.JStr? then Stored(w, key, value.v.s) else w
  }

  function Erased(w: World, key: string): World {
    w.(store := w.store - {key})
  }

  /** `clearTokens()`: all four credential keys removed. */
  function Cleared(w: World): World {
    w.(store := w.store - CredentialKeys)
  }

  function WithUserType(w: World, t: string): World {
    w.(userType := t)
  }

  function WithRefresh(w: World, b: bool): World {
    w.(refresh := b)
  }

  function WithDate(w: World, d: int): World {
    w.(date := Some(d))
  }

  function Navigated(w: World, e: NavEvent): World {
    w.(nav := w.nav + [e])
  }

  function Alerted(w: World, title: string, message: string): World {
    w.(alerts := w.alerts + [Alert(title, message)])
  }

  /** `fetch(req)`: the request is logged and the next scripted reply is taken. */
  function Exchange(w: World, req: Request): (World, Reply) {
    if w.replies == [] then (w.(sent := w.sent + [req]), Unreachable)
    else (w.(sent := w.sent + [req], replies := w.replies[1..]), w.replies[0])
  }

  /** `authenticateAsync()`: the prompt is counted and the next scripted outcome is taken. */
  function Prompted(w: World): (World, PromptOutcome) {
    if w.prompts == [] then (w.(promptCount := w.promptCount + 1), PromptCrashed)
    else (w.(promptCount := w.promptCount + 1, prompts := w.prompts[1..]), w.prompts[0])
  }

  /** The request log only grows. */
  lemma ExchangeLogs(w: World, req: Request)
    ensures Exchange(w, req).0.sent == w.sent + [req]
    ensures Exchange(w, req).0.store == w.store
    ensures Exchange(w, req).0 == w.(sent := w.sent + [req], replies := Exchange(w, req).0.replies)
  {
  }

  class Device {
    var store: map<string, string>
    var userType: string
    var refresh: bool
    var date: Option<int>
    var nav: seq<NavEvent>
    var alerts: seq<Alert>
    var sent: seq<Request>
    var replies: seq<Reply>
    var sensor: Sensor
    var prompts: seq<PromptOutcome>
    var promptCount: nat

    function State(): World
      reads this
    {
      World(store, userType, refresh, date, nav, alerts, sent, replies, sensor, prompts, promptCount)
    }

    constructor (w: World)
      ensures State() == w
    {
      store, userType, refresh, date := w.store, w.userType, w.refresh, w.date;
      nav, alerts, sent, replies := w.nav, w.alerts, w.sent, w.replies;
      sensor, prompts, promptCount := w.sensor, w.prompts, w.promptCount;
    }

    method GetSecureItem(key: string) returns (v: Option<string>)
      ensures v == Lookup(store, key)
    {
      v := if key in store then Some(store[key]) else None;
    }

    method SaveSecureItem(key: string, value: string)
      modifies this
      ensures State() == Stored(old(State()), key, value)
    {
      store := store[key := value];
    }

    method SaveSecureValue(key: string, value: Read)
      modifies this
      ensures State() == StoredValue(old(State()), key, value)
    {
      if value.Val? && value.v.JStr? {
        store := store[key := value.v.s];
      }
    }

    method DeleteSecureItem(key: string)
      modifies this
      ensures State() == Erased(old(State()), key)
    {
      store := store - {key};
    }

    method ClearTokens()
      modifies this
      ensures State() == Cleared(old(State()))
    {
      store := store - CredentialKeys;
    }

    method SetUserType(t: string)
      modifies this
      ensures State() == WithUserType(old(State()), t)
    {
      userType := t;
    }

    method SetRefresh(b: bool)
      modifies this
      ensures State() == WithRefresh(old(State()), b)
    {
      refresh := b;
    }

    method SetDate(d: int)
      modifies this
      ensures State() == WithDate(old(State()), d)
    {
      date := Some(d);
    }

    method Dispatch(e: NavEvent)
      modifies this
      ensures State() == Navigated(old(State()), e)
    {
      nav := nav + [e];
    }

    method ShowAlert(title: string, message: string)
      modifies this
      ensures State() == Alerted(old(State()), title, message)
    {
      alerts := alerts + [Alert(title, message)];
    }

    method Fetch(req: Request) returns (rep: Reply)
      modifies this
      ensures (State(), rep) == Exchange(old(State()), req)
    {
      sent := sent + [req];
      if replies == [] {
        rep := Unreachable;
      } else {
        rep := replies[0];
        replies := replies[1..];
      }
    }

    method AuthenticateAsync() returns (o: PromptOutcome)
      modifies this
      ensures (State(), o) == Prompted(old(State()))
    {
      promptCount := promptCount + 1;
      if prompts == [] {
        o := PromptCrashed;
      } else {
        o := prompts[0];
        prompts := prompts[1..];
      }
    }
  }
}
