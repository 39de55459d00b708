/**
 * The legacy patient settings screen (`Pages/Patient/PatientSettings.js`):
 * its own logout with one refresh and one retry after a 401, its own token
 * refresh and token helpers over the patient pair, the settings load, and
 * the password change guarded by the confirmation check.
 */
module PatientSettingsLegacy {
  import opened Wrappers
  import opened JsText
  import opened JsonModel
  import opened Http
  import opened Platform

  const RefreshPath := "/users/token/refresh/"
  const LogoutPath := "/users/logout/"
  const SettingsPath := "/users/user-settings/"
  const ChangePath := "/users/change-password/"
  const MismatchText := "New password and confirm password do not match"
  const ChangeFailedText := "Error changing password"
  const NoAccessText := "No access token found"
  const NoRefreshText := "No refresh token found"
  const RefreshFailedText := "Failed to refresh token"
  const StatusPrefix := "HTTP error! Status: "
  const Blacklisted := "Token is blacklisted"

  /** `getTokens()`: the two patient tokens, each `null` when missing. */
  function Tokens(w: World): (Option<string>, Option<string>) {
    (Lookup(w.store, "accessPatient"), Lookup(w.store, "refreshPatient"))
  }

  /** `clearTokens()`: only the patient pair is deleted. */
  function PatientCleared(w: World): (w1: World)
    ensures w1.store.Keys == w.store.Keys - {"accessPatient", "refreshPatient"}
    ensures forall k :: k in w1.store ==> w1.store[k] == w.store[k]
    ensures w1 == w.(store := w1.store)
  {
    Erased(Erased(w, "accessPatient"), "refreshPatient")
  }

  /** A token in a template literal: a missing one prints as "null". */
  function TokenText(t: Option<string>): string {
    if t.Some? then t.value else "null"
  }

  function RefreshRequest(refreshToken: string): Request {
    Request(ApiBase, RefreshPath, "POST", JsonHeaders(), Some(JObj(map["refresh" := JStr(refreshToken)])))
  }

  function LogoutRequest(accessToken: string, refreshToken: string): Request {
    Request(ApiBase, LogoutPath, "POST", BearerHeaders(accessToken), Some(JObj(map["refresh" := JStr(refreshToken)])))
  }

  function SettingsRequest(accessToken: string): Request {
    Request(ApiBase, SettingsPath, "GET", BearerHeaders(accessToken), None)
  }

  function ChangePasswordRequest(accessToken: string, oldPassword: string, newPassword: string): Request {
    Request(ApiBase, ChangePath, "POST", BearerHeaders(accessToken),
      Some(JObj(map["old_password" := JStr(oldPassword), "new_password" := JStr(newPassword)])))
  }

  /** Whether a body's field `k` is the text "Token is blacklisted". */
  predicate SaysBlacklisted(body: Body, k: string) {
    body.Encoded? && Prop(body.value, k) == Val(JStr(Blacklisted))
  }

  /**
   * `refreshAccessToken(refreshToken)`: an ok reply saves and yields its
   * `access`; a refusal whose `detail` says the token is blacklisted clears
   * the patient tokens; everything else yields `null` (modelled as `JNull`,
   * as is a missing `access`).
   */
  function PatientRefresh(w: World, refreshToken: string): (World, Json) {
    var (w1, rep) := Exchange(w, RefreshRequest(refreshToken));
    if rep.Unreachable? then (w1, JNull)
    else if !Ok(rep.response.status) then
      (if SaysBlacklisted(rep.response.body, "detail") then PatientCleared(w1) else w1, JNull)
    else if rep.response.body.Malformed? then (w1, JNull)
    else
      var access := Prop(rep.response.body.value, "access");
      if access.NullDeref? then (w1, JNull)
      else (StoredValue(w1, "accessPatient", access), if access.Val? then access.v else JNull)
  }

  /** What `Logout()` does with the last response: a blacklisted 401 or an ok reply clears the tokens. */
  function Settle(w: World, response: Response): World {
    if response.status == 401 then (if SaysBlacklisted(response.body, "error") then PatientCleared(w) else w)
    else if Ok(response.status) then PatientCleared(w)
    else w
  }

  /** `Logout()`: every failure is logged and swallowed. */
  function PatientLogout(w: World): World {
    var (at, rt) := Tokens(w);
    if !Present(rt) then w
    else
      var (w1, first) := Exchange(w, LogoutRequest(TokenText(at), rt.value));
      if first.Unreachable? then w1
      else if first.response.status != 401 then Settle(w1, first.response)
      else Retried(w1, first.response, rt.value)
  }

  /** `Logout()` after a 401 `first`: one refresh, and with a new token one more logout request. */
  function Retried(w: World, first: Response, refreshToken: string): World {
    var (w1, renewed) := PatientRefresh(w, refreshToken);
    if !Truthy(renewed) then Settle(w1, first)
    else
      var (w2, second) := Exchange(w1, LogoutRequest(JsToString(renewed), refreshToken));
      if second.Unreachable? then w2 else Settle(w2, second.response)
  }

  /** `mainLogout()`: the logout, then Login replaces the screen. */
  function LoggedOutToLogin(w: World): World {
    Navigated(PatientLogout(w), ReplaceWith("Login"))
  }

  /** The profile fields the screen shows once the settings are loaded. */
  datatype Profile = Profile(username: Read, id: Read, email: Read)

  /**
   * `fetchSettingsData()`. After a 401 the refreshed access token is saved,
   * but the request is not sent again, so the stale 401 reaches the status
   * check and the load fails.
   */
  function SettingsLoad(w: World): (World, Outcome<Profile>) {
    var token := Lookup(w.store, "accessPatient");
    if !Present(token) then (w, Threw(Failed(NoAccessText)))
    else
      var (w1, first) := Exchange(w, SettingsRequest(token.value));
      if first.Unreachable? then (w1, Threw(NetworkFailure))
      else
        var (w2, failure) := if first.response.status == 401 then SettingsRefresh(w1) else (w1, None);
        if failure.Some? then (w2, Threw(failure.value))
        else if !Ok(first.response.status) then (w2, Threw(Failed(StatusPrefix + IntToString(first.response.status))))
        else if first.response.body.Malformed? then (w2, Threw(SyntaxError))
        else
          var data := first.response.body.value;
          if data.JNull? then (w2, Threw(TypeError))
          else (w2, Done(Profile(Prop(data, "username"), Prop(data, "id"), Prop(data, "email"))))
  }

  /** The refresh inside `fetchSettingsData()`; the error it throws, if any. */
  function SettingsRefresh(w: World): (World, Option<JsError>) {
    var rt := Lookup(w.store, "refreshPatient");
    if !Present(rt) then (w, Some(Failed(NoRefreshText)))
    else
      var (w1, rep) := Exchange(w, RefreshRequest(rt.value));
      if rep.Unreachable? then (w1, Some(NetworkFailure))
      else if !Ok(rep.response.status) then (w1, Some(Failed(RefreshFailedText)))
      else if rep.response.body.Malformed? then (w1, Some(SyntaxError))
      else
        var access := Prop(rep.response.body.value, "access");
        if access.NullDeref? then (w1, Some(TypeError))
        else (StoredValue(w1, "accessPatient", access), None)
  }

  /**
   * `handleChangePassword()` with the screen's three fields: a mismatch only
   * alerts; otherwise the request's outcome is alerted. The flag says whether
   * the three fields were emptied, which happens only after a success.
   */
  function ChangePassword(w: World, oldPassword: string, newPassword: string, confirmNewPassword: string): (World, bool) {
    if newPassword != confirmNewPassword then (Alerted(w, MismatchText, ""), false)
    else
      var token := Lookup(w.store, "accessPatient");
      if !Present(token) then (Alerted(w, ChangeFailedText, ""), false)
      else
        var (w1, rep) := Exchange(w, ChangePasswordRequest(token.value, oldPassword, newPassword));
        if rep.Unreachable? || !Ok(rep.response.status) || rep.response.body.Malformed? || rep.response.body.value.JNull? then
          (Alerted(w1, ChangeFailedText, ""), false)
        else (Alerted(w1, ReadToString(Prop(rep.response.body.value, "message")), ""), true)
  }

  class SettingsScreen {
    var profile: Profile
    var error: Option<JsError>
    var loading: bool
    var oldPassword: string
    var newPassword: string
    var confirmNewPassword: string

    constructor ()
      ensures profile == Profile(Val(JStr("")), Val(JStr("")), Val(JStr(""))) && error == None && loading
      ensures oldPassword == "" && newPassword == "" && confirmNewPassword == ""
    {
      profile := Profile(Val(JStr("")), Val(JStr("")), Val(JStr("")));
      error, loading := None, true;
      oldPassword, newPassword, confirmNewPassword := "", "", "";
    }

    method GetTokens(dev: Device) returns (accessToken: Option<string>, refreshToken: Option<string>)
      ensures (accessToken, refreshToken) == Tokens(dev.State())
    {
      accessToken := dev.GetSecureItem("accessPatient");
      refreshToken := dev.GetSecureItem("refreshPatient");
    }

    method ClearTokens(dev: Device)
      modifies dev
      ensures dev.State() == PatientCleared(old(dev.State()))
    {
      dev.DeleteSecureItem("accessPatient");
      dev.DeleteSecureItem("refreshPatient");
    }

    method RefreshAccessToken(dev: Device, refreshToken: string) returns (accessToken: Json)
      modifies dev
      ensures (dev.State(), accessToken) == PatientRefresh(old(dev.State()), refreshToken)
    {
      var rep := dev.Fetch(RefreshRequest(refreshToken));
      if rep.Unreachable? {
        return JNull;
      }
      if !Ok(rep.response.status) {
        if SaysBlacklisted(rep.response.body, "detail") {
          ClearTokens(dev);
        }
        return JNull;
      }
      if rep.response.body.Malformed? {
        return JNull;
      }
      var access := Prop(rep.response.body.value, "access");
      if access.NullDeref? {
        return JNull;
      }
      dev.SaveSecureValue("accessPatient", access);
      accessToken := if access.Val? then access.v else JNull;
    }

    method Logout(dev: Device)
      modifies dev
      ensures dev.State() == PatientLogout(old(dev.State()))
    {
      var accessToken, refreshToken := GetTokens(dev);
      if !Present(refreshToken) {
        return;
      }
      var reply := dev.Fetch(LogoutRequest(TokenText(accessToken), refreshToken.value));
      if reply.Unreachable? {
        return;
      }
      var response := reply.response;
      if response.status == 401 {
        var renewed := RefreshAccessToken(dev, refreshToken.value);
        if Truthy(renewed) {
          reply := dev.Fetch(LogoutRequest(JsToString(renewed), refreshToken.value));
          if reply.Unreachable? {
            return;
          }
          response := reply.response;
        }
      }
      if response.status == 401 {
        if SaysBlacklisted(response.body, "error") {
          ClearTokens(dev);
        }
        return;
      }
      if Ok(response.status) {
        ClearTokens(dev);
      }
    }

    method MainLogout(dev: Device)
      modifies dev
      ensures dev.State() == LoggedOutToLogin(old(dev.State()))
    {
      Logout(dev);
      dev.Dispatch(ReplaceWith("Login"));
    }

    /** The mount effect: `loading` is raised, then the load runs and lowers it again. */
    method FetchSettingsData(dev: Device)
      modifies this, dev
      ensures var (w1, r) := SettingsLoad(old(dev.State()));
        dev.State() == w1
        && (r.Threw? ==> error == Some(r.error) && profile == old(profile))
        && (r.Done? ==> profile == r.value && error == old(error))
      ensures !loading
      ensures oldPassword == old(oldPassword) && newPassword == old(newPassword) && confirmNewPassword == old(confirmNewPassword)
    {
      loading := true;
      var failure: Option<JsError> := None;
      var token := dev.GetSecureItem("accessPatient");
      if !Present(token) {
        failure := Some(Failed(NoAccessText));
      } else {
        var first := dev.Fetch(SettingsRequest(token.value));
        if first.Unreachable? {
          failure := Some(NetworkFailure);
        } else {
          if first.response.status == 401 {
            failure := RefreshForSettings(dev);
          }
          if failure.None? {
            if !Ok(first.response.status) {
              failure := Some(Failed(StatusPrefix + IntToString(first.response.status)));
            } else if first.response.body.Malformed? {
              failure := Some(SyntaxError);
            } else if first.response.body.value.JNull? {
              failure := Some(TypeError);
            } else {
              var data := first.response.body.value;
              profile := Profile(Prop(data, "username"), Prop(data, "id"), Prop(data, "email"));
            }
          }
        }
      }
      if failure.Some? {
        error := failure;
      }
      loading := false;
    }

    method RefreshForSettings(dev: Device) returns (failure: Option<JsError>)
      modifies dev
      ensures (dev.State(), failure) == SettingsRefresh(old(dev.State()))
    {
      var rt := dev.GetSecureItem("refreshPatient");
      if !Present(rt) {
        return Some(Failed(NoRefreshText));
      }
      var rep := dev.Fetch(RefreshRequest(rt.value));
      if rep.Unreachable? {
        return Some(NetworkFailure);
      }
      if !Ok(rep.response.status) {
        return Some(Failed(RefreshFailedText));
      }
      if rep.response.body.Malformed? {
        return Some(SyntaxError);
      }
      var access := Prop(rep.response.body.value, "access");
      if access.NullDeref? {
        return Some(TypeError);
      }
      dev.SaveSecureValue("accessPatient", access);
      failure := None;
    }

    method HandleChangePassword(dev: Device)
      modifies this, dev
      ensures var (w1, reset) := ChangePassword(old(dev.State()), old(oldPassword), old(newPassword), old(confirmNewPassword));
        dev.State() == w1
        && (reset ==> oldPassword == "" && newPassword == "" && confirmNewPassword == "")
        && (!reset ==> oldPassword == old(oldPassword) && newPassword == old(newPassword) && confirmNewPassword == old(confirmNewPassword))
      ensures profile == old(profile) && error == old(error) && loading == old(loading)
    {
      if newPassword != confirmNewPassword {
        dev.ShowAlert(MismatchText, "");
        return;
      }
      var token := dev.GetSecureItem("accessPatient");
      if !Present(token) {
        dev.ShowAlert(ChangeFailedText, "");
        return;
      }
      var rep := dev.Fetch(ChangePasswordRequest(token.value, oldPassword, newPassword));
      if rep.Unreachable? || !Ok(rep.response.status) || rep.response.body.Malformed? || rep.response.body.value.JNull? {
        dev.ShowAlert(ChangeFailedText, "");
        return;
      }
      dev.ShowAlert(ReadToString(Prop(rep.response.body.value, "message")), "");
      oldPassword, newPassword, confirmNewPassword := "", "", "";
    }
  }

  // ---------------------------------------------------------------------------
  // Properties

  /** Without a refresh token the logout sends nothing and leaves the tokens alone. */
  lemma NoRefreshTokenNoRequest(w: World)
    requires !Present(Lookup(w.store, "refreshPatient"))
    ensures PatientLogout(w) == w
  {
  }

  /** The logout touches only the patient pair, sends at most three requests and never alerts or navigates. */
  lemma LogoutFrame(w: World)
    ensures OnlyPatientPair(w, PatientLogout(w)) && |PatientLogout(w).sent| <= |w.sent| + 3
  {
    var (at, rt) := Tokens(w);
    if Present(rt) {
      var (w1, first) := Exchange(w, LogoutRequest(TokenText(at), rt.value));
      if first.Delivered? {
        if first.response.status != 401 {
          SettleFrame(w1, first.response);
        } else {
          RetryFrame(w1, first.response, rt.value);
        }
      }
    }
  }

  /** The retry after a 401 sends one or two requests and touches only the patient pair. */
  lemma RetryFrame(w: World, first: Response, refreshToken: string)
    ensures OnlyPatientPair(w, Retried(w, first, refreshToken))
    ensures |w.sent| < |Retried(w, first, refreshToken).sent| <= |w.sent| + 2
  {
    var (w1, renewed) := PatientRefresh(w, refreshToken);
    RefreshFrame(w, refreshToken);
    if !Truthy(renewed) {
      SettleFrame(w1, first);
    } else {
      var (w2, second) := Exchange(w1, LogoutRequest(JsToString(renewed), refreshToken));
      ExchangeLogs(w1, LogoutRequest(JsToString(renewed), refreshToken));
      assert OnlyPatientPair(w, w2);
      if second.Delivered? {
        SettleFrame(w2, second.response);
      }
    }
  }

  /** The refresh sends one request and touches only the patient pair. */
  lemma RefreshFrame(w: World, refreshToken: string)
    ensures OnlyPatientPair(w, PatientRefresh(w, refreshToken).0)
    ensures |PatientRefresh(w, refreshToken).0.sent| == |w.sent| + 1
  {
    var (w1, rep) := Exchange(w, RefreshRequest(refreshToken));
    ExchangeLogs(w, RefreshRequest(refreshToken));
    if rep.Delivered? && Ok(rep.response.status) && rep.response.body.Encoded? {
      var access := Prop(rep.response.body.value, "access");
      assert OnlyPatientPair(w, StoredValue(w1, "accessPatient", access));
    }
  }

  /** `w1` differs from `w` at most in the patient pair, the request log and the reply script. */
  ghost predicate OnlyPatientPair(w: World, w1: World) {
    (forall k :: k != "accessPatient" && k != "refreshPatient" ==> Lookup(w1.store, k) == Lookup(w.store, k))
    && w1.userType == w.userType && w1.nav == w.nav && w1.alerts == w.alerts
  }

  lemma SettleFrame(w: World, response: Response)
    ensures Settle(w, response).sent == w.sent
    ensures OnlyPatientPair(w, Settle(w, response))
  {
  }

  /** The reply that decides the outcome: an ok or blacklisted-401 reply clears both tokens, any other leaves them. */
  lemma SettleClearsExactly(w: World, response: Response)
    ensures var w1 := Settle(w, response);
      var clears := Ok(response.status) || (response.status == 401 && SaysBlacklisted(response.body, "error"));
      (clears ==> w1 == PatientCleared(w)) && (!clears ==> w1 == w)
  {
  }

  /** A 401 whose refresh yields no token sends no retry, and the first reply decides. */
  lemma NoRetryWithoutToken(w: World, body1: Body, status2: int, body2: Body)
    requires Present(Lookup(w.store, "refreshPatient"))
    requires |w.replies| >= 2 && w.replies[0] == Delivered(Response(401, body1))
    requires !Ok(status2) && w.replies[1] == Delivered(Response(status2, body2))
    ensures |PatientLogout(w).sent| == |w.sent| + 2
  {
  }

  /** After a 401 the settings request is not sent again: the load fails, possibly having saved a new access token. */
  lemma SettingsNeverResent(w: World, body: Body)
    requires Present(Lookup(w.store, "accessPatient"))
    requires w.replies != [] && w.replies[0] == Delivered(Response(401, body))
    ensures var (w1, r) := SettingsLoad(w);
      r.Threw? && |w.sent| < |w1.sent| <= |w.sent| + 2
      && w1.sent[..|w.sent| + 1] == w.sent + [SettingsRequest(w.store["accessPatient"])]
      && (|w1.sent| == |w.sent| + 2 ==> w1.sent[|w.sent| + 1].path == RefreshPath)
  {
    var (w1, first) := Exchange(w, SettingsRequest(w.store["accessPatient"]));
    var (w2, failure) := SettingsRefresh(w1);
    assert |w2.sent| <= |w1.sent| + 1;
    assert |w2.sent| == |w1.sent| + 1 ==> w2.sent[|w1.sent|].path == RefreshPath;
  }

  /** A refresh accepted during the load saves even though the load then fails with the stale status. */
  lemma SettingsRefreshSavesToken(w: World, body: Body, status2: int, access: string)
    requires Present(Lookup(w.store, "accessPatient")) && Present(Lookup(w.store, "refreshPatient"))
    requires |w.replies| >= 2 && w.replies[0] == Delivered(Response(401, body))
    requires Ok(status2) && w.replies[1] == Delivered(Response(status2, Encoded(JObj(map["access" := JStr(access)]))))
    ensures var (w1, r) := SettingsLoad(w);
      r == Threw(Failed("HTTP error! Status: 401")) && Lookup(w1.store, "accessPatient") == Some(access)
  {
    var (w1, first) := Exchange(w, SettingsRequest(w.store["accessPatient"]));
    assert first == Delivered(Response(401, body)) && w1.replies == w.replies[1..];
    var (w2, failure) := SettingsRefresh(w1);
    assert Prop(JObj(map["access" := JStr(access)]), "access") == Val(JStr(access));
    assert failure == None && Lookup(w2.store, "accessPatient") == Some(access);
    assert IntToString(401) == "401" by {
      assert NatToString(401) == NatToString(40) + [DigitChar(1)];
      assert NatToString(40) == NatToString(4) + [DigitChar(0)];
    }
    assert StatusPrefix + IntToString(401) == "HTTP error! Status: 401";
    assert SettingsLoad(w) == (w2, Threw(Failed(StatusPrefix + IntToString(401))));
  }

  /** A mismatched confirmation sends nothing and keeps the fields. */
  lemma MismatchSendsNothing(w: World, oldPassword: string, newPassword: string, confirmNewPassword: string)
    requires newPassword != confirmNewPassword
    ensures var (w1, reset) := ChangePassword(w, oldPassword, newPassword, confirmNewPassword);
      w1.sent == w.sent && w1.store == w.store && !reset
      && w1.alerts == w.alerts + [Alert(MismatchText, "")]
  {
  }

  /** The fields are emptied only after an ok reply to the one change request. */
  lemma ResetOnlyOnSuccess(w: World, oldPassword: string, newPassword: string, confirmNewPassword: string)
    ensures var (w1, reset) := ChangePassword(w, oldPassword, newPassword, confirmNewPassword);
      reset ==>
        (newPassword == confirmNewPassword && |w1.sent| == |w.sent| + 1
         && w1.sent[|w.sent|] == ChangePasswordRequest(w.store["accessPatient"], oldPassword, newPassword)
         && w.replies != [] && w.replies[0].Delivered? && Ok(w.replies[0].response.status))
  {
  }
}
