/**
 * The password-recovery screen (`src/Pages/Login/PasswordRecovery.js`): the
 * address is normalised and checked by the shared e-mail rule, then sent
 * unauthenticated to the reset endpoint; the status picks the alert.
 */
module PasswordRecovery {
  import opened Wrappers
  import opened JsText
  import opened JsonModel
  import opened Http
  import opened Platform
  import opened EmailRule

  const ResetPath := "/users/password-reset/"
  const UnreachableText := "Unable to contact server. Please check your connection and try again."
  const SentPrefix := "If that account exists, a password reset link has been sent to "
  const SlowDownText := "Too many requests. Please try again in about an hour."
  const FailedText := "Failed to send recovery email. Please try again later."
  const InvalidEmailText := "Please enter a valid email address."
  function ResetRequest(email: string): Request {
    Request(ApiBase, ResetPath, "POST", JsonHeaders(), Some(JObj(map["email" := JStr(email)])))
  }

  /** The alert for the outcome of the reset request about `email`. */
  function RecoveryAlert(rep: Reply, email: string): Alert {
    if rep.Unreachable? then Alert("Network Error", UnreachableText)
    else if rep.response.status == 200 then Alert("Success", SentPrefix + email)
    else if rep.response.status == 429 then Alert("Slow down", SlowDownText)
    else Alert("Error", FailedText)
  }

  /** The screen's guard on an address once normalised. */
  predicate Acceptable(email: string) {
    email != "" && IsValidEmail(email)
  }

  /** The screen's guard on the typed address. */
  predicate Submittable(typed: string) {
    Acceptable(Normalize(typed))
  }

  /** `handlePasswordRecovery()` for the typed address. */
  function Recovery(w: World, typed: string): World {
    Requested(w, Normalize(typed))
  }

  /** What `handlePasswordRecovery()` does once the address has been normalised to `email`. */
  function Requested(w: World, email: string): World {
    if !Acceptable(email) then Alerted(w, "Error", InvalidEmailText)
    else
      var (w1, rep) := Exchange(w, ResetRequest(email));
      var a := RecoveryAlert(rep, email);
      Alerted(w1, a.title, a.message)
  }

  class RecoveryScreen {
    var email: string
    var isLoading: bool

    constructor ()
      ensures email == "" && !isLoading
    {
      email, isLoading := "", false;
    }

    method HandlePasswordRecovery(dev: Device)
      modifies this, dev
      ensures dev.State() == Recovery(old(dev.State()), old(email))
      ensures email == old(email)
      ensures Submittable(email) ==> !isLoading
      ensures !Submittable(email) ==> isLoading == old(isLoading)
    {
      var cleaned := Normalize(email);
      if !Acceptable(cleaned) {
        dev.ShowAlert("Error", InvalidEmailText);
        return;
      }
      isLoading := true;
      var rep := dev.Fetch(ResetRequest(cleaned));
      var a := RecoveryAlert(rep, cleaned);
      dev.ShowAlert(a.title, a.message);
      isLoading := false;
    }
  }

  // ---------------------------------------------------------------------------
  // Properties

  /** An address the pattern refuses sends nothing. */
  lemma InvalidSendsNothing(w: World, typed: string)
    requires !MatchesEmailPattern(Normalize(typed))
    ensures Recovery(w, typed) == Alerted(w, "Error", InvalidEmailText)
  {
    ValidIffMatches(Normalize(typed));
  }

  /** A valid address is sent once, normalised, and the alert names the normalised address on success. */
  lemma ValidSendsNormalized(w: World, typed: string)
    requires MatchesEmailPattern(Normalize(typed))
    ensures var w1 := Recovery(w, typed);
      w1.sent == w.sent + [ResetRequest(Normalize(typed))] && w1.store == w.store
      && (w.replies != [] && w.replies[0].Delivered? && w.replies[0].response.status == 200 ==>
            w1.alerts == w.alerts + [Alert("Success", SentPrefix + Normalize(typed))])
  {
    var email := Normalize(typed);
    ValidIffMatches(email);
    EmptyIsInvalid();
    assert Acceptable(email);
    AcceptedSends(w, email);
  }

  /** An accepted address is sent once, and a 200 reply announces the link for it. */
  lemma AcceptedSends(w: World, email: string)
    requires Acceptable(email)
    ensures var w1 := Requested(w, email);
      w1.sent == w.sent + [ResetRequest(email)] && w1.store == w.store
      && (w.replies != [] && w.replies[0].Delivered? && w.replies[0].response.status == 200 ==>
            w1.alerts == w.alerts + [Alert("Success", SentPrefix + email)])
  {
  }

  /** Typing the address differently in case or surrounding blanks sends the same request. */
  lemma SpellingInsensitive(w: World, typed: string)
    ensures Recovery(w, Normalize(typed)) == Recovery(w, typed)
  {
    NormalizeIdempotent(typed);
    assert Recovery(w, Normalize(typed)) == Requested(w, Normalize(Normalize(typed)));
  }

  /** The status mapping: 200 success, 429 slow down, a rejected fetch a network error, anything else failure. */
  lemma StatusMapping(email: string, status: int, body: Body)
    requires status != 200 && status != 429
    ensures RecoveryAlert(Delivered(Response(429, body)), email).title == "Slow down"
    ensures RecoveryAlert(Delivered(Response(200, body)), email).title == "Success"
    ensures RecoveryAlert(Unreachable, email).title == "Network Error"
    ensures RecoveryAlert(Delivered(Response(status, body)), email) == Alert("Error", FailedText)
  {
  }
}
