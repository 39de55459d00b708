/** What the biometric gatekeeper guarantees, proved on its reference transitions. */
module BiometricLaws {
  import opened Wrappers
  import opened JsText
  import opened PrefCodec
  import opened Platform
  import opened BiometricAuth

  /** A lockout stamped at `at` holds exactly while less than five minutes have passed; once over, its record and the counter are gone. */
  lemma LockoutWindow(w: World, at: int, now: int)
    requires Lookup(w.store, LockoutTimestampKey) == Some(IntToString(at))
    ensures LockoutCheck(w, now).1 <==> now - at < LockoutDuration
    ensures LockoutCheck(w, now).1 ==> LockoutCheck(w, now).0 == w
    ensures !LockoutCheck(w, now).1 ==>
      LockoutCheck(w, now).0 == w.(store := w.store - {LockoutTimestampKey, FailedAttemptsKey})
  {
    var t := Lookup(w.store, LockoutTimestampKey);
    assert Present(t);
    ParseIntRoundTrip(at);
    assert ParseInt(t.value) == Int(at);
    if now - at < LockoutDuration {
      assert LockoutCheck(w, now) == (w, true);
    } else {
      assert LockoutCheck(w, now) == (LockoutCleared(w), false);
      assert w.store - {LockoutTimestampKey} - {FailedAttemptsKey} == w.store - {LockoutTimestampKey, FailedAttemptsKey};
    }
  }

  /** The lockout check touches nothing but the lockout record and the counter. */
  lemma LockoutCheckFrame(w: World, now: int)
    ensures var w1 := LockoutCheck(w, now).0;
      w1 == w.(store := w1.store)
      && (forall k :: k != LockoutTimestampKey && k != FailedAttemptsKey ==> Lookup(w1.store, k) == Lookup(w.store, k))
    ensures !Present(Lookup(w.store, LockoutTimestampKey)) ==> LockoutCheck(w, now) == (w, false)
  {
  }

  /** One counted failure: below the maximum the counter goes up by one; at the maximum every credential is wiped and the lockout is stamped. */
  lemma CountingFailure(w: World, k: int, now: int)
    requires StoredAttempts(w.store) == Int(k)
    ensures var (w1, triggered) := AttemptCounted(w, now);
      (triggered <==> k + 1 >= MaxFailedAttempts)
      && (!triggered ==> w1 == Stored(w, FailedAttemptsKey, IntToString(k + 1)) && StoredAttempts(w1.store) == Int(k + 1))
      && (triggered ==>
            (forall c :: c in CredentialKeys ==> c !in w1.store)
            && Lookup(w1.store, LockoutTimestampKey) == Some(IntToString(now))
            && FailedAttemptsKey !in w1.store
            && w1.alerts == w.alerts + [Alert(LockoutTitle, LockoutMessage)])
  {
    var n := Succ(StoredAttempts(w.store));
    var w1 := Stored(w, FailedAttemptsKey, NumberToString(n));
    assert NumberToString(n) == IntToString(k + 1);
    if k + 1 >= MaxFailedAttempts {
      assert AttemptCounted(w, now) == (SecurityLockout(w1, now), true);
      SecurityLockoutWipes(w1, now);
    } else {
      ParseIntRoundTrip(k + 1);
      assert AttemptCounted(w, now) == (w1, false);
      assert Lookup(w1.store, FailedAttemptsKey) == Some(IntToString(k + 1));
    }
  }

  /** The security lockout removes every credential and the counter, stamps the time and tells the user. */
  lemma SecurityLockoutWipes(w: World, now: int)
    ensures var w1 := SecurityLockout(w, now);
      (forall c :: c in CredentialKeys ==> c !in w1.store)
      && Lookup(w1.store, LockoutTimestampKey) == Some(IntToString(now))
      && FailedAttemptsKey !in w1.store
      && w1.alerts == w.alerts + [Alert(LockoutTitle, LockoutMessage)]
  {
    GatekeeperKeysDistinct();
  }

  /** A counted failure leaves the prompt script, the sensor and the navigation alone; it keeps the credentials unless it locks out, and a lockout leaves none. */
  lemma CountingFrame(w: World, now: int)
    ensures var (w1, triggered) := AttemptCounted(w, now);
      w1.promptCount == w.promptCount && w1.prompts == w.prompts && w1.sensor == w.sensor
      && (!triggered ==> forall c :: c in CredentialKeys ==> Lookup(w1.store, c) == Lookup(w.store, c))
      && (triggered ==> forall c :: c in CredentialKeys ==> c !in w1.store)
  {
    var n := Succ(StoredAttempts(w.store));
    var w1 := Stored(w, FailedAttemptsKey, NumberToString(n));
    GatekeeperKeysDistinct();
    if AtLeast(n, MaxFailedAttempts) {
      SecurityLockoutWipes(w1, now);
    } else {
      assert forall c :: c in CredentialKeys ==> Lookup(w1.store, c) == Lookup(w.store, c);
    }
  }

  /** Judging a prompt's outcome never reports a refusal that comes before the prompt, and counts no further prompt. */
  lemma JudgedFrame(w: World, outcome: PromptOutcome, userType: string, failTime: int)
    ensures var (w1, r) := Judged(w, outcome, userType, failTime);
      !(r.LockedOut? || r.NotEnabled? || r.NotAvailable?)
      && w1.promptCount == w.promptCount
      && (!(r.LockoutTriggered? || r == SystemError(true)) ==>
            forall c :: c in CredentialKeys ==> Lookup(w1.store, c) == Lookup(w.store, c))
      && ((r.LockoutTriggered? || r == SystemError(true)) ==> forall c :: c in CredentialKeys ==> c !in w1.store)
  {
    GatekeeperKeysDistinct();
    match outcome
    case Accepted =>
    case Rejected(code) =>
      if code != "UserCancel" && code != "UserFallback" {
        CountingFrame(w, failTime);
      }
    case PromptCrashed =>
      CountingFrame(w, failTime);
  }

  /** Past the lockout check, the prompt appears exactly when the user opted in and the sensor is usable. */
  lemma UnlockedPrompts(w: World, failTime: int)
    ensures var (w1, r) := Unlocked(w, failTime);
      var pref := StoredPreference(w.store);
      !r.LockedOut?
      && (r.NotEnabled? <==> pref.None? || !pref.value.enabled)
      && (r.NotAvailable? <==> pref.Some? && pref.value.enabled && !Available(w.sensor))
      && (w1.promptCount == w.promptCount + 1 <==> !(r.NotEnabled? || r.NotAvailable?))
      && (w1.promptCount == w.promptCount <==> (r.NotEnabled? || r.NotAvailable?))
      && (!(r.LockoutTriggered? || r == SystemError(true)) ==>
            forall c :: c in CredentialKeys ==> Lookup(w1.store, c) == Lookup(w.store, c))
      && ((r.LockoutTriggered? || r == SystemError(true)) ==> forall c :: c in CredentialKeys ==> c !in w1.store)
  {
    var pref := StoredPreference(w.store);
    if pref.Some? && pref.value.enabled && Available(w.sensor) {
      var (w2, outcome) := Prompted(w);
      JudgedFrame(w2, outcome, pref.value.userType, failTime);
    }
  }

  /** The prompt appears exactly when there is no live lockout, the user opted in and the sensor is usable. */
  lemma PromptOnlyWhenPermitted(w: World, checkTime: int, failTime: int)
    ensures var (w1, r) := Authentication(w, checkTime, failTime);
      var (w0, locked) := LockoutCheck(w, checkTime);
      var pref := StoredPreference(w0.store);
      (r.LockedOut? <==> locked)
      && (r.NotEnabled? <==> !locked && (pref.None? || !pref.value.enabled))
      && (r.NotAvailable? <==> !locked && pref.Some? && pref.value.enabled && !Available(w.sensor))
      && (w1.promptCount == w.promptCount + 1 <==> !(r.LockedOut? || r.NotEnabled? || r.NotAvailable?))
      && (w1.promptCount == w.promptCount <==> (r.LockedOut? || r.NotEnabled? || r.NotAvailable?))
  {
    var (w0, locked) := LockoutCheck(w, checkTime);
    LockoutCheckFrame(w, checkTime);
    if !locked {
      UnlockedPrompts(w0, failTime);
    }
  }

  /** The counter and the lockout record do not hold the preference or any credential. */
  lemma GatekeeperKeysDistinct()
    ensures PreferencesKey != FailedAttemptsKey && PreferencesKey != LockoutTimestampKey
    ensures FailedAttemptsKey !in CredentialKeys && LockoutTimestampKey !in CredentialKeys
    ensures PreferencesKey !in CredentialKeys
  {
  }

  /** A counted failure that does not lock out changes only the counter. */
  lemma CountingKeepsOthers(w: World, now: int)
    ensures var (w1, triggered) := AttemptCounted(w, now);
      !triggered ==> w1 == Stored(w, FailedAttemptsKey, NumberToString(Succ(StoredAttempts(w.store))))
  {
  }

  /** Credentials survive every authentication that does not trigger the lockout, and none survives one that does. */
  lemma CredentialsKeptUnlessLockout(w: World, checkTime: int, failTime: int)
    ensures var (w1, r) := Authentication(w, checkTime, failTime);
      (!(r.LockoutTriggered? || r == SystemError(true)) ==>
         forall c :: c in CredentialKeys ==> Lookup(w1.store, c) == Lookup(w.store, c))
      && ((r.LockoutTriggered? || r == SystemError(true)) ==>
         forall c :: c in CredentialKeys ==> c !in w1.store)
  {
    var (w0, locked) := LockoutCheck(w, checkTime);
    LockoutCheckFrame(w, checkTime);
    GatekeeperKeysDistinct();
    if !locked {
      UnlockedPrompts(w0, failTime);
    }
  }


  /** The world in which authentication shows the prompt and meets `outcome`: no lockout record, an enabled preference, a usable sensor. */
  predicate Meets(w: World, outcome: PromptOutcome) {
    LockoutTimestampKey !in w.store
    && StoredPreference(w.store).Some? && StoredPreference(w.store).value.enabled
    && Available(w.sensor)
    && w.prompts != [] && w.prompts[0] == outcome
  }

  /**
   * Authentication succeeds exactly when a prompt is shown and accepted; it
   * then reports the role the preference was saved for and forgets every
   * failure.
   */
  lemma SuccessResets(w: World, checkTime: int, failTime: int)
    ensures var (w1, r) := Authentication(w, checkTime, failTime);
      var pref := StoredPreference(w.store);
      (r.Authenticated? ==>
        FailedAttemptsKey !in w1.store && LockoutTimestampKey !in w1.store
        && pref.Some? && r.userType == pref.value.userType
        && w.prompts != [] && w.prompts[0] == Accepted)
      && (!LockoutCheck(w, checkTime).1 && pref.Some? && pref.value.enabled && Available(w.sensor)
          && w.prompts != [] && w.prompts[0] == Accepted
          ==> r == Authenticated(pref.value.userType))
  {
    var (w0, locked) := LockoutCheck(w, checkTime);
    LockoutCheckFrame(w, checkTime);
    assert Lookup(w0.store, PreferencesKey) == Lookup(w.store, PreferencesKey);
  }

  /** Cancelling, or choosing the password instead, returns that code and counts as no failure. */
  lemma CancelIsNoFailure(w: World, code: string, checkTime: int, failTime: int)
    requires Meets(w, Rejected(code)) && (code == "UserCancel" || code == "UserFallback")
    ensures var (w1, r) := Authentication(w, checkTime, failTime);
      r == Cancelled(code) && w1.store == w.store && w1.promptCount == w.promptCount + 1
  {
    LockoutCheckFrame(w, checkTime);
  }

  /** A prompt that throws is counted as a failure as well, and reports SYSTEM_ERROR with whether it triggered the lockout. */
  lemma CrashCounts(w: World, k: int, checkTime: int, failTime: int)
    requires LockoutTimestampKey !in w.store
    requires StoredPreference(w.store).Some? && StoredPreference(w.store).value.enabled && Available(w.sensor)
    requires w.prompts == [] || w.prompts[0] == PromptCrashed
    requires StoredAttempts(w.store) == Int(k)
    ensures var (w1, r) := Authentication(w, checkTime, failTime);
      r == SystemError(k + 1 >= MaxFailedAttempts)
      && (k + 1 < MaxFailedAttempts ==> w1.store == w.store[FailedAttemptsKey := IntToString(k + 1)])
      && (k + 1 >= MaxFailedAttempts ==> forall c :: c in CredentialKeys ==> c !in w1.store)
  {
    LockoutCheckFrame(w, checkTime);
    assert Authentication(w, checkTime, failTime) == Unlocked(w, failTime);
    var w2 := Prompted(w).0;
    assert w2.store == w.store;
    CountingFailure(w2, k, failTime);
  }

  /** The state a rejected prompt meets: no lockout record, an enabled preference, a usable sensor, and the next prompt rejected. */
  predicate ReadyToFail(w: World, code: string) {
    LockoutTimestampKey !in w.store
    && StoredPreference(w.store).Some? && StoredPreference(w.store).value.enabled
    && Available(w.sensor)
    && w.prompts != [] && w.prompts[0] == Rejected(code)
    && code != "UserCancel" && code != "UserFallback"
  }

  /** A rejected prompt below the threshold adds one to the counter and changes nothing else in the store. */
  lemma RejectedBelowLimit(w: World, code: string, k: int, checkTime: int, failTime: int)
    requires ReadyToFail(w, code) && StoredAttempts(w.store) == Int(k) && k + 1 < MaxFailedAttempts
    ensures var (w1, r) := Authentication(w, checkTime, failTime);
      r == Refused(code, Int(k + 1))
      && w1.store == w.store[FailedAttemptsKey := IntToString(k + 1)]
      && w1.sensor == w.sensor && w1.prompts == w.prompts[1..] && w1.promptCount == w.promptCount + 1
  {
    var w2 := RejectedPrompt(w, code, checkTime, failTime);
    CountingFailure(w2, k, failTime);
    var w3 := Stored(w2, FailedAttemptsKey, IntToString(k + 1));
    assert AttemptCounted(w2, failTime) == (w3, false);
    assert Authentication(w, checkTime, failTime) == (w3, Refused(code, StoredAttempts(w3.store)));
  }

  /** A world ready to fail passes the lockout check and the gate; the rest is the counting of the rejection, after the prompt. */
  lemma RejectedPrompt(w: World, code: string, checkTime: int, failTime: int) returns (w2: World)
    requires ReadyToFail(w, code)
    ensures w2 == w.(promptCount := w.promptCount + 1, prompts := w.prompts[1..])
    ensures Authentication(w, checkTime, failTime) == Judged(w2, Rejected(code), StoredPreference(w.store).value.userType, failTime)
    ensures Judged(w2, Rejected(code), StoredPreference(w.store).value.userType, failTime)
      == (var (w3, triggered) := AttemptCounted(w2, failTime);
          if triggered then (w3, LockoutTriggered) else (w3, Refused(code, StoredAttempts(w3.store))))
  {
    LockoutCheckFrame(w, checkTime);
    assert Authentication(w, checkTime, failTime) == Unlocked(w, failTime);
    w2 := Prompted(w).0;
  }

  /** The rejected prompt that reaches the threshold wipes every credential and stamps the lockout. */
  lemma RejectedAtLimit(w: World, code: string, k: int, checkTime: int, failTime: int)
    requires ReadyToFail(w, code) && StoredAttempts(w.store) == Int(k) && k + 1 >= MaxFailedAttempts
    ensures var (w1, r) := Authentication(w, checkTime, failTime);
      r == LockoutTriggered
      && (forall c :: c in CredentialKeys ==> c !in w1.store)
      && Lookup(w1.store, LockoutTimestampKey) == Some(IntToString(failTime))
      && FailedAttemptsKey !in w1.store
      && w1.promptCount == w.promptCount + 1
  {
    var w2 := RejectedPrompt(w, code, checkTime, failTime);
    CountingFailure(w2, k, failTime);
  }

  lemma PreferenceBesideCounter(m: map<string, string>, v: string)
    ensures StoredPreference(m[FailedAttemptsKey := v]) == StoredPreference(m)
  {
    assert Lookup(m[FailedAttemptsKey := v], PreferencesKey) == Lookup(m, PreferencesKey);
  }

  /**
   * Three rejected prompts in a row lock the patient out: the third wipes
   * every credential, and a fourth attempt within five minutes of it is
   * refused without showing the prompt.
   */
  lemma ThreeFailuresLockOut(w: World, c1: int, f1: int, c2: int, f2: int, c3: int, f3: int, c4: int, f4: int)
    requires LockoutTimestampKey !in w.store && FailedAttemptsKey !in w.store
    requires StoredPreference(w.store).Some? && StoredPreference(w.store).value.enabled
    requires Available(w.sensor)
    requires |w.prompts| >= 3
    requires forall i :: 0 <= i < 3 ==> w.prompts[i].Rejected? && w.prompts[i].code != "UserCancel" && w.prompts[i].code != "UserFallback"
    requires c4 - f3 < LockoutDuration
    ensures var (w1, r1) := Authentication(w, c1, f1);
      var (w2, r2) := Authentication(w1, c2, f2);
      var (w3, r3) := Authentication(w2, c3, f3);
      var (w4, r4) := Authentication(w3, c4, f4);
      r1 == Refused(w.prompts[0].code, Int(1))
      && r2 == Refused(w.prompts[1].code, Int(2))
      && r3 == LockoutTriggered
      && r4 == LockedOut
      && w4.promptCount == w.promptCount + 3
      && (forall c :: c in CredentialKeys ==> c !in w4.store)
  {
    var (w1, r1) := Authentication(w, c1, f1);
    NextReady(w, w.prompts[0].code, 0, c1, f1, w.prompts[1].code);
    var (w2, r2) := Authentication(w1, c2, f2);
    assert w1.prompts[1] == w.prompts[2];
    NextReady(w1, w.prompts[1].code, 1, c2, f2, w.prompts[2].code);
    var (w3, r3) := Authentication(w2, c3, f3);
    RejectedAtLimit(w2, w.prompts[2].code, 2, c3, f3);
    LockoutWindow(w3, f3, c4);
  }

  /** A rejection below the threshold leaves the next rejection ready to be counted. */
  lemma NextReady(w: World, code: string, k: int, checkTime: int, failTime: int, next: string)
    requires ReadyToFail(w, code) && StoredAttempts(w.store) == Int(k) && k + 1 < MaxFailedAttempts
    requires |w.prompts| >= 2 && w.prompts[1] == Rejected(next) && next != "UserCancel" && next != "UserFallback"
    ensures var (w1, r) := Authentication(w, checkTime, failTime);
      r == Refused(code, Int(k + 1)) && ReadyToFail(w1, next) && StoredAttempts(w1.store) == Int(k + 1)
      && w1.prompts == w.prompts[1..] && w1.promptCount == w.promptCount + 1
  {
    var (w1, r) := Authentication(w, checkTime, failTime);
    RejectedBelowLimit(w, code, k, checkTime, failTime);
    PreferenceBesideCounter(w.store, IntToString(k + 1));
    ParseIntRoundTrip(k + 1);
    assert Lookup(w1.store, FailedAttemptsKey) == Some(IntToString(k + 1));
    assert LockoutTimestampKey !in w1.store;
  }


  /** Setup is offered only to patients on a usable sensor, and stores the choice the user made. */
  lemma SetupRecordsChoice(w: World, userType: string, biometricType: string, choice: SetupChoice, setupDate: string)
    ensures var (w1, enabled) := SetupPrompt(w, userType, biometricType, choice, setupDate);
      ((userType != "patient" || !Available(w.sensor)) ==> w1 == w && !enabled)
      && ((userType == "patient" && Available(w.sensor)) ==>
            enabled == (choice == Enable)
            && StoredPreference(w1.store) == Some(Pref(choice == Enable, userType, setupDate, "1.0"))
            && (forall k :: k != PreferencesKey ==> Lookup(w1.store, k) == Lookup(w.store, k)))
  {
    if userType == "patient" && Available(w.sensor) {
      var p := Pref(choice == Enable, userType, setupDate, "1.0");
      var w0 := Alerted(w, SetupTitle, SetupQuestion(biometricType));
      assert SetupPrompt(w, userType, biometricType, choice, setupDate)
        == (PreferenceSet(w0, p.enabled, userType, setupDate), p.enabled);
      PreferenceStored(w0, p);
    }
  }

  /** Saving a preference record makes it the stored one and changes no other key. */
  lemma PreferenceStored(w: World, p: Pref)
    requires p.version == "1.0"
    ensures var w1 := PreferenceSet(w, p.enabled, p.userType, p.setupDate);
      StoredPreference(w1.store) == Some(p)
      && (forall k :: k != PreferencesKey ==> Lookup(w1.store, k) == Lookup(w.store, k))
  {
    DecodeEncode(p);
    var w1 := PreferenceSet(w, p.enabled, p.userType, p.setupDate);
    assert Lookup(w1.store, PreferencesKey) == Some(EncodePref(p));
  }

  /** When the gatekeeper says to try biometrics, authenticating at the same moment does show the prompt. */
  lemma ShouldAttemptMeansPrompt(w: World, userType: string, now: int, failTime: int)
    ensures ShouldAttempt(w, userType, now).1 ==>
      userType == "patient" && StoredPreference(w.store).value.userType == "patient"
      && Authentication(w, now, failTime).0.promptCount == w.promptCount + 1
    ensures userType != "patient" ==> ShouldAttempt(w, userType, now) == (w, false)
  {
    PromptOnlyWhenPermitted(w, now, failTime);
    var (w0, locked) := LockoutCheck(w, now);
    LockoutCheckFrame(w, now);
    assert Lookup(w0.store, PreferencesKey) == Lookup(w.store, PreferencesKey);
  }

  /** After disabling, the next authentication reports not enabled without prompting; reset leaves the same store. */
  lemma DisableForgets(w: World, checkTime: int, failTime: int)
    ensures Disabled(w).store == w.store - {PreferencesKey, FailedAttemptsKey, LockoutTimestampKey}
    ensures Reset(w) == Disabled(w)
    ensures Authentication(Disabled(w), checkTime, failTime) == (Disabled(w), NotEnabled)
  {
    assert w.store - {PreferencesKey} - {FailedAttemptsKey} - {LockoutTimestampKey}
      == w.store - {PreferencesKey, FailedAttemptsKey, LockoutTimestampKey};
    assert w.store - {PreferencesKey} - {FailedAttemptsKey} - {LockoutTimestampKey} - {FailedAttemptsKey}
      == w.store - {PreferencesKey, FailedAttemptsKey, LockoutTimestampKey};
  }
}
