/**
 * The nurse navigation bar (`Components/NurseNavbar.js`): its own logout
 * against the loopback backend, with one refresh and one retry after a 401,
 * and a navigation guard that does not push the screen already shown.
 */
module NurseNavbar {
  import opened Wrappers
  import opened JsText
  import opened JsonModel
  import opened Http
  import opened Platform

  const RefreshPath := "/users/token/refresh/"
  const LogoutPath := "/users/logout/"

  /** `getTokens()`: the two nurse tokens, each `null` when missing. */
  function Tokens(w: World): (Option<string>, Option<string>) {
    (Lookup(w.store, "accessNurse"), Lookup(w.store, "refreshNurse"))
  }

  /** `clearTokens()`: only the nurse pair is deleted. */
  function NurseCleared(w: World): (w1: World)
    ensures w1.store.Keys == w.store.Keys - {"accessNurse", "refreshNurse"}
    ensures forall k :: k in w1.store ==> w1.store[k] == w.store[k]
    ensures w1 == w.(store := w1.store)
  {
    Erased(Erased(w, "accessNurse"), "refreshNurse")
  }

  /** A token in a template literal: a missing one prints as "null". */
  function TokenText(t: Option<string>): string {
    if t.Some? then t.value else "null"
  }

  function RefreshRequest(refreshToken: string): Request {
    Request(Loopback, RefreshPath, "POST", JsonHeaders(), Some(JObj(map["refresh" := JStr(refreshToken)])))
  }

  function LogoutRequest(accessToken: string, refreshToken: string): Request {
    Request(Loopback, LogoutPath, "POST", BearerHeaders(accessToken), Some(JObj(map["refresh" := JStr(refreshToken)])))
  }

  /**
   * `refreshAccessToken(refreshToken)`: an ok reply saves and yields its
   * `access`; any other status clears the nurse tokens; an exception leaves
   * them alone. A missing `access` and `null` both come back as `JNull`, the
   * only use of the result being its truthiness and its text.
   */
  function NurseRefresh(w: World, refreshToken: string): (World, Json) {
    var (w1, rep) := Exchange(w, RefreshRequest(refreshToken));
    if rep.Unreachable? then (w1, JNull)
    else if !Ok(rep.response.status) then (NurseCleared(w1), JNull)
    else if rep.response.body.Malformed? then (w1, JNull)
    else
      var access := Prop(rep.response.body.value, "access");
      if access.NullDeref? then (w1, JNull)
      else (StoredValue(w1, "accessNurse", access), if access.Val? then access.v else JNull)
  }

  /** `Logout()`: every failure is logged and swallowed. */
  function NurseLogout(w: World): World {
    var (at, rt) := Tokens(w);
    if !Present(rt) then w
    else
      var (w1, first) := Exchange(w, LogoutRequest(TokenText(at), rt.value));
      if first.Unreachable? then w1
      else if first.response.status != 401 then
        (if Ok(first.response.status) then NurseCleared(w1) else w1)
      else Retried(w1, rt.value)
  }

  /** `Logout()` after a 401: one refresh, and with a new token one more logout request. */
  function Retried(w: World, refreshToken: string): World {
    var (w1, renewed) := NurseRefresh(w, refreshToken);
    if !Truthy(renewed) then w1
    else
      var (w2, second) := Exchange(w1, LogoutRequest(JsToString(renewed), refreshToken));
      if second.Delivered? && Ok(second.response.status) then NurseCleared(w2) else w2
  }

  /** `mainLogout()`: the logout, then Login replaces the current screen. */
  function LoggedOutToLogin(w: World): World {
    Navigated(NurseLogout(w), ReplaceWith("Login"))
  }

  /** `handleNavigation(screen)` from the route `current`. */
  function Navigation(w: World, current: string, screen: string): World {
    if current != screen then Navigated(w, NavigateTo(screen, map[])) else w
  }

  class NavbarScreen {
    /** `route.name`. */
    const routeName: string

    constructor (routeName: string)
      ensures this.routeName == routeName
    {
      this.routeName := routeName;
    }

    method GetTokens(dev: Device) returns (accessToken: Option<string>, refreshToken: Option<string>)
      ensures (accessToken, refreshToken) == Tokens(dev.State())
    {
      accessToken := dev.GetSecureItem("accessNurse");
      refreshToken := dev.GetSecureItem("refreshNurse");
    }

    method ClearTokens(dev: Device)
      modifies dev
      ensures dev.State() == NurseCleared(old(dev.State()))
    {
      dev.DeleteSecureItem("accessNurse");
      dev.DeleteSecureItem("refreshNurse");
    }

    method RefreshAccessToken(dev: Device, refreshToken: string) returns (accessToken: Json)
      modifies dev
      ensures (dev.State(), accessToken) == NurseRefresh(old(dev.State()), refreshToken)
    {
      var rep := dev.Fetch(RefreshRequest(refreshToken));
      if rep.Unreachable? {
        return JNull;
      }
      if !Ok(rep.response.status) {
        ClearTokens(dev);
        return JNull;
      }
      if rep.response.body.Malformed? {
        return JNull;
      }
      var access := Prop(rep.response.body.value, "access");
      if access.NullDeref? {
        return JNull;
      }
      dev.SaveSecureValue("accessNurse", access);
      accessToken := if access.Val? then access.v else JNull;
    }

    method Logout(dev: Device)
      modifies dev
      ensures dev.State() == NurseLogout(old(dev.State()))
    {
      var accessToken, refreshToken := GetTokens(dev);
      if !Present(refreshToken) {
        return;
      }
      var response := dev.Fetch(LogoutRequest(TokenText(accessToken), refreshToken.value));
      if response.Unreachable? {
        return;
      }
      if response.response.status == 401 {
        var renewed := RefreshAccessToken(dev, refreshToken.value);
        if Truthy(renewed) {
          response := dev.Fetch(LogoutRequest(JsToString(renewed), refreshToken.value));
          if response.Unreachable? {
            return;
          }
        }
      }
      if Ok(response.response.status) {
        ClearTokens(dev);
      }
    }

    method MainLogout(dev: Device)
      modifies dev
      ensures dev.State() == LoggedOutToLogin(old(dev.State()))
    {
      Logout(dev);
      dev.Dispatch(ReplaceWith("Login"));
    }

    method HandleNavigation(dev: Device, screen: string)
      modifies dev
      ensures dev.State() == Navigation(old(dev.State()), routeName, screen)
    {
      if routeName != screen {
        dev.Dispatch(NavigateTo(screen, map[]));
      }
    }
  }

  // ---------------------------------------------------------------------------
  // Properties

  /** The logout only ever touches the nurse pair and never the role. */
  lemma LogoutTouchesOnlyNurseKeys(w: World)
    ensures var w1 := NurseLogout(w);
      (forall k :: k != "accessNurse" && k != "refreshNurse" ==> Lookup(w1.store, k) == Lookup(w.store, k))
      && w1.userType == w.userType && w1.nav == w.nav && w1.alerts == w.alerts
      && |w1.sent| <= |w.sent| + 3
  {
    var (at, rt) := Tokens(w);
    if Present(rt) {
      var (w1, first) := Exchange(w, LogoutRequest(TokenText(at), rt.value));
      if first.Delivered? && first.response.status == 401 {
        RetryFrame(w1, rt.value);
      }
    }
  }

  /** The retry after a 401 sends at most two requests and touches only the nurse pair. */
  lemma RetryFrame(w: World, refreshToken: string)
    ensures var w1 := Retried(w, refreshToken);
      (forall k :: k != "accessNurse" && k != "refreshNurse" ==> Lookup(w1.store, k) == Lookup(w.store, k))
      && w1.userType == w.userType && w1.nav == w.nav && w1.alerts == w.alerts
      && |w.sent| < |w1.sent| <= |w.sent| + 2
  {
    var (w1, renewed) := NurseRefresh(w, refreshToken);
    RefreshFrame(w, refreshToken);
    if Truthy(renewed) {
      var (w2, second) := Exchange(w1, LogoutRequest(JsToString(renewed), refreshToken));
      ExchangeLogs(w1, LogoutRequest(JsToString(renewed), refreshToken));
      assert KeptBesideNurseKeys(w2, w1);
      if second.Delivered? && Ok(second.response.status) {
        assert KeptBesideNurseKeys(NurseCleared(w2), w2);
      }
    }
  }

  /** The key-wise frame: `w1` differs from `w` at most in the nurse pair. */
  ghost predicate KeptBesideNurseKeys(w1: World, w: World) {
    forall k :: k != "accessNurse" && k != "refreshNurse" ==> Lookup(w1.store, k) == Lookup(w.store, k)
  }

  /** The refresh sends one request and touches only the nurse pair. */
  lemma RefreshFrame(w: World, refreshToken: string)
    ensures var w1 := NurseRefresh(w, refreshToken).0;
      KeptBesideNurseKeys(w1, w)
      && w1.userType == w.userType && w1.nav == w.nav && w1.alerts == w.alerts
      && |w1.sent| == |w.sent| + 1
  {
    var (w1, rep) := Exchange(w, RefreshRequest(refreshToken));
    ExchangeLogs(w, RefreshRequest(refreshToken));
    if rep.Delivered? && Ok(rep.response.status) && rep.response.body.Encoded? {
      var access := Prop(rep.response.body.value, "access");
      assert KeptBesideNurseKeys(StoredValue(w1, "accessNurse", access), w1);
    }
  }

  /** Without a refresh token nothing is sent and nothing changes. */
  lemma NoRefreshTokenNoRequest(w: World)
    requires !Present(Lookup(w.store, "refreshNurse"))
    ensures NurseLogout(w) == w
  {
  }

  /** An ok first reply clears the nurse tokens after exactly one request. */
  lemma AcceptedLogoutClears(w: World, status: int, body: Body)
    requires Present(Lookup(w.store, "refreshNurse"))
    requires Ok(status) && w.replies != [] && w.replies[0] == Delivered(Response(status, body))
    ensures var w1 := NurseLogout(w);
      "accessNurse" !in w1.store && "refreshNurse" !in w1.store
      && w1.sent == w.sent + [LogoutRequest(TokenText(Lookup(w.store, "accessNurse")), w.store["refreshNurse"])]
  {
  }

  /** A failed first reply other than 401 leaves every token in place. */
  lemma RefusedLogoutKeepsTokens(w: World, status: int, body: Body)
    requires Present(Lookup(w.store, "refreshNurse"))
    requires !Ok(status) && status != 401 && w.replies != [] && w.replies[0] == Delivered(Response(status, body))
    ensures NurseLogout(w).store == w.store
  {
  }

  /** After a 401, a refresh the server refuses clears the nurse tokens and no retry is sent. */
  lemma RefusedRefreshClearsWithoutRetry(w: World, body1: Body, status2: int, body2: Body)
    requires Present(Lookup(w.store, "refreshNurse"))
    requires |w.replies| >= 2 && w.replies[0] == Delivered(Response(401, body1))
    requires !Ok(status2) && w.replies[1] == Delivered(Response(status2, body2))
    ensures var w1 := NurseLogout(w);
      "accessNurse" !in w1.store && "refreshNurse" !in w1.store && |w1.sent| == |w.sent| + 2
  {
  }

  /** After a 401 and a refresh yielding a token, the retry carries the new token and an ok retry clears the tokens. */
  lemma RetryUsesNewToken(w: World, body1: Body, status2: int, access: string, status3: int, body3: Body)
    requires Present(Lookup(w.store, "refreshNurse")) && access != ""
    requires |w.replies| >= 3 && w.replies[0] == Delivered(Response(401, body1))
    requires Ok(status2) && w.replies[1] == Delivered(Response(status2, Encoded(JObj(map["access" := JStr(access)]))))
    requires w.replies[2] == Delivered(Response(status3, body3))
    ensures var w1 := NurseLogout(w);
      |w1.sent| == |w.sent| + 3 && w1.sent[|w.sent| + 2] == LogoutRequest(access, w.store["refreshNurse"])
      && (Ok(status3) ==> "accessNurse" !in w1.store && "refreshNurse" !in w1.store)
      && (!Ok(status3) ==> Lookup(w1.store, "accessNurse") == Some(access) && Lookup(w1.store, "refreshNurse") == Lookup(w.store, "refreshNurse"))
  {
    var rt := w.store["refreshNurse"];
    var (w1, first) := Exchange(w, LogoutRequest(TokenText(Lookup(w.store, "accessNurse")), rt));
    assert Prop(JObj(map["access" := JStr(access)]), "access") == Val(JStr(access));
    var (w2, renewed) := NurseRefresh(w1, rt);
    assert renewed == JStr(access) && Lookup(w2.store, "accessNurse") == Some(access);
  }

  /** The guard navigates exactly when the target is not the current route. */
  lemma NavigationGuard(w: World, current: string, screen: string)
    ensures Navigation(w, current, screen) != w <==> current != screen
    ensures current != screen ==> Navigation(w, current, screen).nav == w.nav + [NavigateTo(screen, map[])]
  {
    if current != screen {
      assert |Navigation(w, current, screen).nav| == |w.nav| + 1;
    }
  }

  /** The bar's logout always ends on the Login screen. */
  lemma MainLogoutEndsOnLogin(w: World)
    ensures var w1 := LoggedOutToLogin(w);
      w1.nav == w.nav + [ReplaceWith("Login")]
  {
    LogoutTouchesOnlyNurseKeys(w);
  }
}
