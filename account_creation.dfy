/**
 * The nurse's account-creation screen (`src/Pages/Nurse/AccountCreation.js`):
 * the fields are normalised, checked by a fixed chain of rules whose first
 * failure alerts and stops, and only then sent to the registration endpoint;
 * the reply's status picks the alert.
 */
module AccountCreation {
  import opened Wrappers
  import opened JsText
  import opened JsonModel
  import opened Http
  import opened Platform
  import opened EmailRule
  import FetchWithAuth

  const RegisterPath := "/users/patient/register/"
  const MinPasswordLength := 8

  /** The characters `/[!@#$%^&*()\-=_+[\]{};':"\\|,.<>\/?]/` accepts. */
  const SpecialCharacters := "!@#$%^&*()-=_+[]{};':\"\\|,.<>/?"

  datatype Fields = Fields(email: string, username: string, password: string, confirmPassword: string)

  predicate AllLettersOrDigits(s: string) {
    forall k :: 0 <= k < |s| ==> IsLetterOrDigit(s[k])
  }

  predicate HasUpper(s: string) {
    exists k :: 0 <= k < |s| && IsUpper(s[k])
  }

  predicate HasDigit(s: string) {
    exists k :: 0 <= k < |s| && IsDigit(s[k])
  }

  predicate HasSpecial(s: string) {
    exists k :: 0 <= k < |s| && s[k] in SpecialCharacters
  }

  /** The alert texts of the rules, in the order they are checked. */
  const EmailRuleText := "Please enter a valid email address."
  const UsernameLengthText := "Username must be between 3 and 30 characters."
  const UsernameCharsText := "Username must contain only letters and numbers."
  const PasswordLengthText := "Password must be at least 8 characters long."
  const PasswordUpperText := "Password must contain at least one uppercase letter."
  const PasswordDigitText := "Password must contain at least one number."
  const PasswordSpecialText := "Password must contain at least one special character."
  const MismatchText := "Passwords do not match."

  /** The first rule the normalised fields break, as the text its alert shows; `None` when all hold. */
  function Rejection(f: Fields): Option<string> {
    FirstBroken(Normalize(f.email), Trim(f.username), f.password, f.confirmPassword)
  }

  /** The chain of checks on the address and user name as normalised, and the two passwords as typed. */
  function FirstBroken(email: string, username: string, password: string, confirmPassword: string): Option<string> {
    if !IsValidEmail(email) then Some(EmailRuleText)
    else if |username| < 3 || |username| > 30 then Some(UsernameLengthText)
    else if !AllLettersOrDigits(username) then Some(UsernameCharsText)
    else if |password| < MinPasswordLength then Some(PasswordLengthText)
    else if !HasUpper(password) then Some(PasswordUpperText)
    else if !HasDigit(password) then Some(PasswordDigitText)
    else if !HasSpecial(password) then Some(PasswordSpecialText)
    else if password != confirmPassword then Some(MismatchText)
    else None
  }

  /** The account rules stated on their own: what the screen promises to send. */
  ghost predicate Acceptable(f: Fields) {
    Sound(Normalize(f.email), Trim(f.username), f.password, f.confirmPassword)
  }

  ghost predicate Sound(email: string, username: string, password: string, confirmPassword: string) {
    MatchesEmailPattern(email)
    && 3 <= |username| <= 30 && AllLettersOrDigits(username)
    && |password| >= MinPasswordLength && HasUpper(password) && HasDigit(password) && HasSpecial(password)
    && password == confirmPassword
  }

  function RegistrationBody(f: Fields): Json {
    JObj(map["email" := JStr(Normalize(f.email)), "username" := JStr(Trim(f.username)),
             "password" := JStr(f.password), "password2" := JStr(f.confirmPassword)])
  }

  function RegistrationOptions(f: Fields): Options {
    Options("POST", map[], Some(RegistrationBody(f)))
  }

  const CreatedText := "Account created successfully!"
  const InvalidText := "Invalid input. Please review fields."
  const TooManyText := "Too many accounts created. Try again later."
  const ServerErrorText := "Server error. Please try again later."
  const NetworkTitle := "Network Error"
  const NetworkText := "Unable to reach server. Check your connection."

  /** The alert for a reply; the body is `{}` when it is not JSON. `None` means reading it threw. */
  function ReplyAlert(r: Response): Option<Alert> {
    var data := if r.body.Encoded? then r.body.value else JObj(map[]);
    if r.status == 201 then Some(Alert("Success", CreatedText))
    else if r.status == 400 then
      var m := Prop(data, "message");
      if m.NullDeref? then None else Some(Alert("Error", JsToString(Or(m, JStr(InvalidText)))))
    else if r.status == 429 then Some(Alert("Slow down", TooManyText))
    else Some(Alert("Error", ServerErrorText))
  }

  /** `handleSubmit()`: the world afterwards and the four fields afterwards. */
  function Submission(w: World, f: Fields): (World, Fields) {
    var rejection := Rejection(f);
    if rejection.Some? then (Alerted(w, "Invalid Input", rejection.value), f)
    else Registered(w, f)
  }

  /** `handleSubmit()` once every rule holds: the registration call and the answer to it. */
  function Registered(w: World, f: Fields): (World, Fields) {
    var (w1, res) := FetchWithAuth.AuthFetch(w, RegisterPath, RegistrationOptions(f));
    Answer(w1, res, f)
  }

  /** What the screen does with the outcome of the registration call. */
  function Answer(w: World, res: Outcome<Response>, f: Fields): (World, Fields) {
    if res.Threw? then (Alerted(w, NetworkTitle, NetworkText), f)
    else
      var a := ReplyAlert(res.value);
      if a.None? then (Alerted(w, NetworkTitle, NetworkText), f)
      else (Alerted(w, a.value.title, a.value.message), if res.value.status == 201 then Fields("", "", "", "") else f)
  }

  class CreationScreen {
    var email: string
    var username: string
    var password: string
    var confirmPassword: string
    var submitting: bool

    constructor ()
      ensures email == "" && username == "" && password == "" && confirmPassword == "" && !submitting
    {
      email, username, password, confirmPassword := "", "", "", "";
      submitting := false;
    }

    function Form(): Fields
      reads this
    {
      Fields(email, username, password, confirmPassword)
    }

    method HandleSubmit(dev: Device)
      modifies this, dev
      ensures (dev.State(), Form()) == Submission(old(dev.State()), old(Form()))
      ensures Rejection(old(Form())).None? ==> !submitting
      ensures Rejection(old(Form())).Some? ==> submitting == old(submitting)
    {
      var f := Form();
      var rejection := Rejection(f);
      if rejection.Some? {
        dev.ShowAlert("Invalid Input", rejection.value);
        return;
      }
      Register(dev, f);
    }

    /** The part of `handleSubmit()` after the checks: the spinner is on while the call runs. */
    method Register(dev: Device, f: Fields)
      modifies this, dev
      ensures (dev.State(), Form()) == Registered(old(dev.State()), f)
      ensures !submitting
    {
      submitting := true;
      var res := FetchWithAuth.Fetch(dev, RegisterPath, RegistrationOptions(f));
      var f1 := ShowAnswer(dev, res, f);
      email, username, password, confirmPassword := f1.email, f1.username, f1.password, f1.confirmPassword;
      submitting := false;
    }

    method ShowAnswer(dev: Device, res: Outcome<Response>, f: Fields) returns (f1: Fields)
      modifies dev
      ensures (dev.State(), f1) == Answer(old(dev.State()), res, f)
    {
      f1 := f;
      if res.Threw? {
        dev.ShowAlert(NetworkTitle, NetworkText);
        return;
      }
      var a := ReplyAlert(res.value);
      if a.None? {
        dev.ShowAlert(NetworkTitle, NetworkText);
        return;
      }
      dev.ShowAlert(a.value.title, a.value.message);
      if res.value.status == 201 {
        f1 := Fields("", "", "", "");
      }
    }
  }

  // ---------------------------------------------------------------------------
  // Properties

  /** The chain lets the fields through exactly when every account rule holds. */
  lemma RejectionIffBroken(f: Fields)
    ensures Rejection(f) == None <==> Acceptable(f)
  {
    FirstBrokenIffUnsound(Normalize(f.email), Trim(f.username), f.password, f.confirmPassword);
  }

  lemma FirstBrokenIffUnsound(email: string, username: string, password: string, confirmPassword: string)
    ensures FirstBroken(email, username, password, confirmPassword) == None <==> Sound(email, username, password, confirmPassword)
  {
    ValidIffMatches(email);
  }

  /** An address the pattern refuses is reported first, whatever the other fields hold. */
  lemma EmailCheckedFirst(f: Fields)
    requires !MatchesEmailPattern(Normalize(f.email))
    ensures Rejection(f) == Some(EmailRuleText)
  {
    ValidIffMatches(Normalize(f.email));
  }

  /** A strong password that differs from its confirmation is reported as a mismatch once the other rules pass. */
  lemma MismatchCheckedLast(f: Fields)
    requires MatchesEmailPattern(Normalize(f.email))
    requires 3 <= |Trim(f.username)| <= 30 && AllLettersOrDigits(Trim(f.username))
    requires |f.password| >= MinPasswordLength && HasUpper(f.password) && HasDigit(f.password) && HasSpecial(f.password)
    requires f.password != f.confirmPassword
    ensures Rejection(f) == Some(MismatchText)
  {
    ValidIffMatches(Normalize(f.email));
  }

  /** A rejected form sends nothing and keeps every field. */
  lemma RejectionSendsNothing(w: World, f: Fields)
    requires Rejection(f).Some?
    ensures var (w1, f1) := Submission(w, f);
      w1.sent == w.sent && w1.store == w.store && f1 == f
      && w1.alerts == w.alerts + [Alert("Invalid Input", Rejection(f).value)]
  {
  }

  /** An accepted form is sent normalised: trimmed lower-case e-mail, trimmed username, passwords verbatim. */
  lemma AcceptedFormIsSent(w: World, f: Fields)
    requires Acceptable(f)
    requires var keys := RoleKeys(w.userType);
      Present(Lookup(w.store, keys.access)) && Present(Lookup(w.store, keys.refresh))
    ensures var (w1, _) := Submission(w, f);
      |w1.sent| > |w.sent| && w1.sent[|w.sent|].path == RegisterPath
      && w1.sent[|w.sent|].body == Some(RegistrationBody(f))
  {
    RejectionIffBroken(f);
    assert Rejection(f) == None;
    var (w1, res) := FetchWithAuth.AuthFetch(w, RegisterPath, RegistrationOptions(f));
    FetchWithAuth.RequestBudget(w, RegisterPath, RegistrationOptions(f));
    assert Submission(w, f) == Registered(w, f) == Answer(w1, res, f);
    AnswerSendsNothing(w1, res, f);
  }

  /** Answering a reply only shows an alert and sets the fields. */
  lemma AnswerSendsNothing(w: World, res: Outcome<Response>, f: Fields)
    ensures Answer(w, res, f).0 == w.(alerts := Answer(w, res, f).0.alerts)
    ensures |Answer(w, res, f).0.alerts| == |w.alerts| + 1
  {
  }

  /** Status 201 empties the four fields; every other reply keeps them. */
  lemma OnlyCreationClears(w: World, f: Fields)
    requires Rejection(f) == None
    ensures var (w1, f1) := Submission(w, f);
      var res := FetchWithAuth.AuthFetch(w, RegisterPath, RegistrationOptions(f)).1;
      (res.Done? && res.value.status == 201 ==> f1 == Fields("", "", "", ""))
      && (!(res.Done? && res.value.status == 201) ==> f1 == f)
  {
    var (w1, res) := FetchWithAuth.AuthFetch(w, RegisterPath, RegistrationOptions(f));
    assert Submission(w, f) == Answer(w1, res, f);
  }

  /** The alert for each status: the server's message or the default on 400, the rate limit on 429, the server error otherwise. */
  lemma StatusMapping(m: string, status: int, body: Body)
    ensures ReplyAlert(Response(400, Encoded(JObj(map["message" := JStr(m)])))) ==
      Some(Alert("Error", if m != "" then m else InvalidText))
    ensures ReplyAlert(Response(400, Malformed(m))) == Some(Alert("Error", InvalidText))
    ensures ReplyAlert(Response(429, body)) == Some(Alert("Slow down", TooManyText))
    ensures status != 201 && status != 400 && status != 429 ==>
      ReplyAlert(Response(status, body)) == Some(Alert("Error", ServerErrorText))
  {
    assert Prop(JObj(map["message" := JStr(m)]), "message") == Val(JStr(m));
  }
}
