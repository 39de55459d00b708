/**
 * The patient biometric gatekeeper (`BiometricAuth`): the stored opt-in
 * preference, the failed-attempt counter, the time-boxed lockout that wipes
 * every credential after three failures, and the biometric prompt.
 *
 * The class of the source has only static members over the secure store, so
 * its operations are methods over the `Device`; each is proved to make the
 * transition of the reference function of the same name in `World` terms.
 * Clock readings (`Date.now()`), the ISO text of `new Date()`, the name of
 * the sensor type and the button the user taps come in as parameters.
 */
module BiometricAuth {
  import opened Wrappers
  import opened JsText
  import opened PrefCodec
  import opened Platform

  const PreferencesKey := "biometricPreferences"
  const FailedAttemptsKey := "biometricFailedAttempts"
  const LockoutTimestampKey := "biometricLockoutTimestamp"
  const MaxFailedAttempts := 3
  const LockoutDuration := 5 * 60 * 1000

  const LockoutTitle := "Security Lockout"
  const DisabledTitle := "Authentication Temporarily Disabled"
  const DisabledMessage := "Please try again later or log in with your username and password."
  const SetupTitle := "Secure Patient Login Setup"
  const QuestionHead := "Would you like to use "
  const QuestionTail := " for quick and secure access to your healthcare content? You can always change this in settings later."
  const LockoutMessage := "Too many failed authentication attempts. All stored credentials have been cleared for security. Please log in again with your username and password."

  /** What `authenticate()` resolves to. */
  datatype AuthResult =
    | Authenticated(userType: string)          // { success: true, userType, authType: 'biometric' }
    | LockedOut                                // 'LOCKED_OUT'
    | NotEnabled                               // 'NOT_ENABLED'
    | NotAvailable                             // 'NOT_AVAILABLE'
    | Cancelled(code: string)                  // 'UserCancel' or 'UserFallback'
    | LockoutTriggered                         // 'LOCKOUT_TRIGGERED'
    | Refused(code: string, failedAttempts: Number)
    | SystemError(lockoutTriggered: bool)      // 'SYSTEM_ERROR'

  /** The two buttons of the setup dialog. */
  datatype SetupChoice = NotNow | Enable

  // ---------------------------------------------------------------------------
  // Reference transitions

  /** `isAvailable()`: hardware present, a biometric enrolled and a security level above none; a failed query means no. */
  predicate Available(s: Sensor) {
    s.Sensor? && s.hasHardware && s.isEnrolled && s.securityLevel > 0
  }

  /** `getUserPreference()`: the stored record, or none when the key is empty or the text does not parse. */
  function StoredPreference(store: map<string, string>): Option<Pref> {
    var t := Lookup(store, PreferencesKey);
    if Present(t) then DecodePref(t.value) else None
  }

  /** `getFailedAttempts()`: the parsed counter, 0 when the key is empty. */
  function StoredAttempts(store: map<string, string>): Number {
    var t := Lookup(store, FailedAttemptsKey);
    if Present(t) then ParseInt(t.value) else Int(0)
  }

  /** `clearFailedAttempts()`. */
  function AttemptsCleared(w: World): World {
    Erased(w, FailedAttemptsKey)
  }

  /** `clearLockout()`: the timestamp, then the counter. */
  function LockoutCleared(w: World): World {
    AttemptsCleared(Erased(w, LockoutTimestampKey))
  }

  /** `isLockedOut()` at time `now`; an expired or unreadable lockout is cleared on the way. */
  function LockoutCheck(w: World, now: int): (World, bool) {
    var t := Lookup(w.store, LockoutTimestampKey);
    if !Present(t) then (w, false)
    else
      var at := ParseInt(t.value);
      if at.Int? && now - at.value < LockoutDuration then (w, true)
      else (LockoutCleared(w), false)
  }

  /** `initiateSecurityLockout()` at time `now`. */
  function SecurityLockout(w: World, now: int): World {
    var w1 := Cleared(w);
    var w2 := Stored(w1, LockoutTimestampKey, IntToString(now));
    var w3 := AttemptsCleared(w2);
    Alerted(w3, LockoutTitle, LockoutMessage)
  }

  /** `incrementFailedAttempts()` at time `now`: the new count is stored, and reaching the maximum locks out. */
  function AttemptCounted(w: World, now: int): (World, bool) {
    var n := Succ(StoredAttempts(w.store));
    var w1 := Stored(w, FailedAttemptsKey, NumberToString(n));
    if AtLeast(n, MaxFailedAttempts) then (SecurityLockout(w1, now), true) else (w1, false)
  }

  /** `setUserPreference(enabled, userType)` with `setupDate` the ISO text of the current time. */
  function PreferenceSet(w: World, enabled: bool, userType: string, setupDate: string): World {
    Stored(w, PreferencesKey, EncodePref(Pref(enabled, userType, setupDate, "1.0")))
  }

  /**
   * `authenticate()`; `checkTime` is the clock reading of the lockout check
   * and `failTime` the one a triggered lockout is stamped with.
   */
  function Authentication(w: World, checkTime: int, failTime: int): (World, AuthResult) {
    var (w1, locked) := LockoutCheck(w, checkTime);
    if locked then
      (Alerted(w1, DisabledTitle, DisabledMessage), LockedOut)
    else Unlocked(w1, failTime)
  }

  /** `authenticate()` once the lockout check has passed: the preference and the sensor decide whether the prompt appears. */
  function Unlocked(w: World, failTime: int): (World, AuthResult) {
    var pref := StoredPreference(w.store);
    if pref.None? || !pref.value.enabled then (w, NotEnabled)
    else if !Available(w.sensor) then (w, NotAvailable)
    else
      var (w2, outcome) := Prompted(w);
      Judged(w2, outcome, pref.value.userType, failTime)
  }

  /** What `authenticate()` makes of the prompt's outcome, for a preference saved for `userType`. */
  function Judged(w: World, outcome: PromptOutcome, userType: string, failTime: int): (World, AuthResult) {
    match outcome
    case Accepted => (LockoutCleared(AttemptsCleared(w)), Authenticated(userType))
    case Rejected(code) =>
      if code == "UserCancel" || code == "UserFallback" then (w, Cancelled(code))
      else
        var (w3, triggered) := AttemptCounted(w, failTime);
        if triggered then (w3, LockoutTriggered) else (w3, Refused(code, StoredAttempts(w3.store)))
    case PromptCrashed =>
      var (w3, triggered) := AttemptCounted(w, failTime);
      (w3, SystemError(triggered))
  }

  /** `promptForBiometricSetup(userType)` where the user taps `choice`. */
  function SetupPrompt(w: World, userType: string, biometricType: string, choice: SetupChoice, setupDate: string): (World, bool) {
    if userType != "patient" || !Available(w.sensor) then (w, false)
    else
      var w1 := Alerted(w, SetupTitle, SetupQuestion(biometricType));
      match choice
      case NotNow => (PreferenceSet(w1, false, userType, setupDate), false)
      case Enable => (PreferenceSet(w1, true, userType, setupDate), true)
  }

  function SetupQuestion(biometricType: string): string {
    QuestionHead + biometricType + QuestionTail
  }

  /** `shouldAttemptBiometricAuth(userType)` at time `now`, as a truth value. */
  function ShouldAttempt(w: World, userType: string, now: int): (World, bool) {
    if userType != "patient" then (w, false)
    else
      var pref := StoredPreference(w.store);
      var available := Available(w.sensor);
      var (w1, locked) := LockoutCheck(w, now);
      (w1, pref.Some? && pref.value.enabled && pref.value.userType == userType && available && !locked)
  }

  /** `disableBiometricAuth()`. */
  function Disabled(w: World): World {
    LockoutCleared(AttemptsCleared(Erased(w, PreferencesKey)))
  }

  /** `resetBiometricData()`. */
  function Reset(w: World): World {
    Erased(Erased(Erased(w, PreferencesKey), FailedAttemptsKey), LockoutTimestampKey)
  }

  // ---------------------------------------------------------------------------
  // The operations

  method IsAvailable(dev: Device) returns (b: bool)
    ensures b == Available(dev.sensor)
  {
    var s := dev.sensor;
    if s.ProbeFailed? {
      b := false;
    } else {
      b := s.hasHardware && s.isEnrolled && s.securityLevel > 0;
    }
  }

  method GetUserPreference(dev: Device) returns (p: Option<Pref>)
    ensures p == StoredPreference(dev.store)
  {
    var t := dev.GetSecureItem(PreferencesKey);
    p := if t.Some? && t.value != "" then DecodePref(t.value) else None;
  }

  method SetUserPreference(dev: Device, enabled: bool, userType: string, setupDate: string) returns (saved: bool)
    modifies dev
    ensures saved
    ensures dev.State() == PreferenceSet(old(dev.State()), enabled, userType, setupDate)
  {
    dev.SaveSecureItem(PreferencesKey, EncodePref(Pref(enabled, userType, setupDate, "1.0")));
    saved := true;
  }

  method GetFailedAttempts(dev: Device) returns (n: Number)
    ensures n == StoredAttempts(dev.store)
  {
    var t := dev.GetSecureItem(FailedAttemptsKey);
    n := if t.Some? && t.value != "" then ParseInt(t.value) else Int(0);
  }

  method ClearFailedAttempts(dev: Device)
    modifies dev
    ensures dev.State() == AttemptsCleared(old(dev.State()))
  {
    dev.DeleteSecureItem(FailedAttemptsKey);
  }

  method ClearLockout(dev: Device)
    modifies dev
    ensures dev.State() == LockoutCleared(old(dev.State()))
  {
    dev.DeleteSecureItem(LockoutTimestampKey);
    ClearFailedAttempts(dev);
  }

  method IsLockedOut(dev: Device, now: int) returns (locked: bool)
    modifies dev
    ensures (dev.State(), locked) == LockoutCheck(old(dev.State()), now)
  {
    var t := dev.GetSecureItem(LockoutTimestampKey);
    if t.None? || t.value == "" {
      return false;
    }
    var at := ParseInt(t.value);
    locked := at.Int? && now - at.value < LockoutDuration;
    if !locked {
      ClearLockout(dev);
    }
  }

  method InitiateSecurityLockout(dev: Device, now: int)
    modifies dev
    ensures dev.State() == SecurityLockout(old(dev.State()), now)
  {
    dev.ClearTokens();
    dev.SaveSecureItem(LockoutTimestampKey, IntToString(now));
    ClearFailedAttempts(dev);
    dev.ShowAlert(LockoutTitle, LockoutMessage);
  }

  method IncrementFailedAttempts(dev: Device, now: int) returns (triggered: bool)
    modifies dev
    ensures (dev.State(), triggered) == AttemptCounted(old(dev.State()), now)
  {
    var current := GetFailedAttempts(dev);
    var next := Succ(current);
    dev.SaveSecureItem(FailedAttemptsKey, NumberToString(next));
    triggered := AtLeast(next, MaxFailedAttempts);
    if triggered {
      InitiateSecurityLockout(dev, now);
    }
  }

  method PromptForBiometricSetup(dev: Device, userType: string, biometricType: string, choice: SetupChoice, setupDate: string)
    returns (enabled: bool)
    modifies dev
    ensures (dev.State(), enabled) == SetupPrompt(old(dev.State()), userType, biometricType, choice, setupDate)
  {
    if userType != "patient" {
      return false;
    }
    var available := IsAvailable(dev);
    if !available {
      return false;
    }
    dev.ShowAlert(SetupTitle, SetupQuestion(biometricType));
    ghost var asked := dev.State();
    assert asked == Alerted(old(dev.State()), SetupTitle, SetupQuestion(biometricType));
    match choice
    case NotNow =>
      var _ := SetUserPreference(dev, false, userType, setupDate);
      enabled := false;
    case Enable =>
      enabled := SetUserPreference(dev, true, userType, setupDate);
  }

  method Authenticate(dev: Device, checkTime: int, failTime: int) returns (r: AuthResult)
    modifies dev
    ensures (dev.State(), r) == Authentication(old(dev.State()), checkTime, failTime)
  {
    var locked := IsLockedOut(dev, checkTime);
    if locked {
      dev.ShowAlert(DisabledTitle, DisabledMessage);
      return LockedOut;
    }
    var pref := GetUserPreference(dev);
    if pref.None? || !pref.value.enabled {
      return NotEnabled;
    }
    var available := IsAvailable(dev);
    if !available {
      return NotAvailable;
    }
    var outcome := dev.AuthenticateAsync();
    match outcome
    case Accepted =>
      ClearFailedAttempts(dev);
      ClearLockout(dev);
      r := Authenticated(pref.value.userType);
    case Rejected(code) =>
      if code == "UserCancel" || code == "UserFallback" {
        r := Cancelled(code);
      } else {
        var triggered := IncrementFailedAttempts(dev, failTime);
        if triggered {
          r := LockoutTriggered;
        } else {
          var n := GetFailedAttempts(dev);
          r := Refused(code, n);
        }
      }
    case PromptCrashed =>
      var triggered := IncrementFailedAttempts(dev, failTime);
      r := SystemError(triggered);
  }

  method DisableBiometricAuth(dev: Device)
    modifies dev
    ensures dev.State() == Disabled(old(dev.State()))
  {
    dev.DeleteSecureItem(PreferencesKey);
    ClearFailedAttempts(dev);
    ClearLockout(dev);
  }

  method ResetBiometricData(dev: Device) returns (done: bool)
    modifies dev
    ensures done
    ensures dev.State() == Reset(old(dev.State()))
  {
    dev.DeleteSecureItem(PreferencesKey);
    dev.DeleteSecureItem(FailedAttemptsKey);
    dev.DeleteSecureItem(LockoutTimestampKey);
    done := true;
  }

  method ShouldAttemptBiometricAuth(dev: Device, userType: string, now: int) returns (attempt: bool)
    modifies dev
    ensures (dev.State(), attempt) == ShouldAttempt(old(dev.State()), userType, now)
  {
    if userType != "patient" {
      return false;
    }
    var pref := GetUserPreference(dev);
    var available := IsAvailable(dev);
    var locked := IsLockedOut(dev, now);
    attempt := pref.Some? && pref.value.enabled && pref.value.userType == userType && available && !locked;
  }
}
