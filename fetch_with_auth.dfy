/**
 * The authenticated fetch client of the current app (`useFetchWithAuth`):
 * it sends the role's access token, refreshes it once on a 401, stores the
 * new access token (and a rotated refresh token), retries once, and signs
 * the user out when no tokens are stored. When the refresh fails it clears
 * the tokens and the role, and then throws a TypeError: it calls an
 * `Alert.alert` that was imported from `react`, where it does not exist.
 *
 * A call that throws in the source returns `Threw(error)` here.
 */
module FetchWithAuth {
  import opened Wrappers
  import opened JsText
  import opened JsonModel
  import opened Http
  import opened Platform

  const RefreshPath := "/api/token/refresh/"

  /**
   * The headers `rawFetch` sends: a JSON content type unless the caller gives
   * one, every caller header, and the bearer token over any caller
   * `Authorization`.
   */
  function AuthHeaders(token: string, callerHeaders: map<string, string>): (h: map<string, string>)
    ensures h.Keys == callerHeaders.Keys + {"Content-Type", "Authorization"}
    ensures h["Authorization"] == "Bearer " + token
    ensures h["Content-Type"] == if "Content-Type" in callerHeaders then callerHeaders["Content-Type"] else "application/json"
    ensures forall n :: n in callerHeaders && n != "Authorization" ==> h[n] == callerHeaders[n]
  {
    (JsonHeaders() + callerHeaders)["Authorization" := "Bearer " + token]
  }

  /** `rawFetch(endpoint, token, options)`. */
  function Authorized(endpoint: string, token: string, opts: Options): Request {
    Request(ApiBase, endpoint, opts.verb, AuthHeaders(token, opts.headers), opts.body)
  }

  function RefreshRequest(refreshToken: string): Request {
    Request(ApiBase, RefreshPath, "POST", JsonHeaders(), Some(JObj(map["refresh" := JStr(refreshToken)])))
  }

  /** `refreshAccessToken(refreshToken)`: the parsed body of an ok reply, otherwise `null`. */
  function TokenRefresh(w: World, refreshToken: string): (World, Json) {
    var (w1, rep) := Exchange(w, RefreshRequest(refreshToken));
    if rep.Unreachable? || !Ok(rep.response.status) || rep.response.body.Malformed? then (w1, JNull)
    else (w1, rep.response.body.value)
  }

  /** No stored tokens: clear them, reset the role, go to Login, throw. */
  function SignedOut(w: World): (World, Outcome<Response>) {
    (Navigated(WithUserType(Cleared(w), ""), ResetToLogin), Threw(NoTokens))
  }

  /** The refresh failed: clear the tokens, reset the role, tell the user, go to Login, throw. */
  function SessionExpiry(w: World): (World, Outcome<Response>) {
    (Navigated(Alerted(WithUserType(Cleared(w), ""), "Session expired.", "Please log in again."), ResetToLogin), Threw(SessionExpired))
  }

  /**
   * The same branch as the source writes it: `Alert` is imported from
   * `react`, which has no such export, so `Alert.alert` throws a TypeError
   * after the tokens and role are cleared and before the reset to Login.
   */
  function SessionExpiryAsWritten(w: World): (World, Outcome<Response>) {
    (WithUserType(Cleared(w), ""), Threw(TypeError))
  }

  /** `fetchWithAuth(endpoint, options)` as the source writes it: a failed refresh ends in `SessionExpiryAsWritten`. */
  function AuthFetch(w: World, endpoint: string, opts: Options): (World, Outcome<Response>) {
    Client(w, endpoint, opts, false)
  }

  /** The client with the expired-session branch corrected: the alert is shown and the app returns to Login. */
  function AuthFetchIntended(w: World, endpoint: string, opts: Options): (World, Outcome<Response>) {
    Client(w, endpoint, opts, true)
  }

  /** `fetchWithAuth(endpoint, options)`, with `corrected` choosing how the expired-session branch ends. */
  function Client(w: World, endpoint: string, opts: Options, corrected: bool): (World, Outcome<Response>) {
    var keys := RoleKeys(w.userType);
    var at := Lookup(w.store, keys.access);
    var rt := Lookup(w.store, keys.refresh);
    if !Present(at) || !Present(rt) then SignedOut(w)
    else
      var (w1, first) := Exchange(w, Authorized(endpoint, at.value, opts));
      if first.Unreachable? then (w1, Threw(NetworkFailure))
      else if first.response.status != 401 then (w1, Done(first.response))
      else
        var (w2, data) := TokenRefresh(w1, rt.value);
        Renewed(w2, keys, data, endpoint, opts, corrected)
  }

  /** What follows the refresh after a 401, given the refresh call's result `data`. */
  function Renewed(w: World, keys: TokenKeys, data: Json, endpoint: string, opts: Options, corrected: bool): (World, Outcome<Response>) {
    var access := Prop(data, "access");
    if !Truthy(data) || !Holds(access) then (if corrected then SessionExpiry(w) else SessionExpiryAsWritten(w))
    else
      var (w1, second) := Exchange(Rotated(w, keys, data), Authorized(endpoint, JsToString(access.v), opts));
      if second.Unreachable? then (w1, Threw(NetworkFailure)) else (w1, Done(second.response))
  }

  /** The tokens a successful refresh stores: the new access token, and the refresh token when one was issued. */
  function Rotated(w: World, keys: TokenKeys, data: Json): World {
    var w1 := StoredValue(w, keys.access, Prop(data, "access"));
    var rotated := Prop(data, "refresh");
    if Holds(rotated) then StoredValue(w1, keys.refresh, rotated) else w1
  }

  /** The error `getJSON` throws for a reply that is not ok. */
  function RequestError(status: int, data: Json): JsError {
    RequestFailed(JsToString(Or(OptProp(Val(data), "detail"), JStr("Request failed"))), status, data)
  }

  /** `getJSON(endpoint, options)`: the parsed body of an ok reply; otherwise an error carrying status and body. */
  function GetJson(w: World, endpoint: string, opts: Options): (World, Outcome<Json>) {
    var (w1, res) := AuthFetch(w, endpoint, opts);
    if res.Threw? then (w1, Threw(res.error))
    else if res.value.body.Malformed? then (w1, Threw(SyntaxError))
    else if Ok(res.value.status) then (w1, Done(res.value.body.value))
    else (w1, Threw(RequestError(res.value.status, res.value.body.value)))
  }

  // ---------------------------------------------------------------------------
  // The operations

  method RefreshAccessToken(dev: Device, refreshToken: string) returns (data: Json)
    modifies dev
    ensures (dev.State(), data) == TokenRefresh(old(dev.State()), refreshToken)
  {
    var rep := dev.Fetch(RefreshRequest(refreshToken));
    if rep.Unreachable? || !Ok(rep.response.status) || rep.response.body.Malformed? {
      return JNull;
    }
    data := rep.response.body.value;
  }

  method RawFetch(dev: Device, endpoint: string, token: string, opts: Options) returns (rep: Reply)
    modifies dev
    ensures (dev.State(), rep) == Exchange(old(dev.State()), Authorized(endpoint, token, opts))
  {
    rep := dev.Fetch(Authorized(endpoint, token, opts));
  }

  method Fetch(dev: Device, endpoint: string, opts: Options) returns (r: Outcome<Response>)
    modifies dev
    ensures (dev.State(), r) == AuthFetch(old(dev.State()), endpoint, opts)
  {
    var keys := RoleKeys(dev.userType);
    var at := dev.GetSecureItem(keys.access);
    var rt := dev.GetSecureItem(keys.refresh);
    if !Present(at) || !Present(rt) {
      dev.ClearTokens();
      dev.SetUserType("");
      dev.Dispatch(ResetToLogin);
      return Threw(NoTokens);
    }
    var first := RawFetch(dev, endpoint, at.value, opts);
    if first.Unreachable? {
      return Threw(NetworkFailure);
    }
    if first.response.status != 401 {
      return Done(first.response);
    }
    var data := RefreshAccessToken(dev, rt.value);
    r := Renew(dev, keys, data, endpoint, opts);
  }

  /** The steps after the refresh call of a 401. */
  method Renew(dev: Device, keys: TokenKeys, data: Json, endpoint: string, opts: Options) returns (r: Outcome<Response>)
    modifies dev
    ensures (dev.State(), r) == Renewed(old(dev.State()), keys, data, endpoint, opts, false)
  {
    var access := Prop(data, "access");
    if !Truthy(data) || !Holds(access) {
      dev.ClearTokens();
      dev.SetUserType("");
      // `Alert.alert` is undefined here and throws before the reset to Login.
      return Threw(TypeError);
    }
    dev.SaveSecureValue(keys.access, access);
    var rotated := Prop(data, "refresh");
    if Holds(rotated) {
      dev.SaveSecureValue(keys.refresh, rotated);
    }
    assert dev.State() == Rotated(old(dev.State()), keys, data);
    var second := RawFetch(dev, endpoint, JsToString(access.v), opts);
    if second.Unreachable? {
      return Threw(NetworkFailure);
    }
    r := Done(second.response);
  }

  method GetJSON(dev: Device, endpoint: string, opts: Options) returns (r: Outcome<Json>)
    modifies dev
    ensures (dev.State(), r) == GetJson(old(dev.State()), endpoint, opts)
  {
    var res := Fetch(dev, endpoint, opts);
    if res.Threw? {
      return Threw(res.error);
    }
    if res.value.body.Malformed? {
      return Threw(SyntaxError);
    }
    if Ok(res.value.status) {
      return Done(res.value.body.value);
    }
    r := Threw(RequestError(res.value.status, res.value.body.value));
  }

  // ---------------------------------------------------------------------------
  // Properties

  /** Without both tokens nothing is sent: the credentials are cleared, the role reset, and the app returns to Login. */
  lemma MissingTokensSignOut(w: World, endpoint: string, opts: Options)
    requires var keys := RoleKeys(w.userType);
      !Present(Lookup(w.store, keys.access)) || !Present(Lookup(w.store, keys.refresh))
    ensures var (w1, r) := AuthFetch(w, endpoint, opts);
      r == Threw(NoTokens) && w1.sent == w.sent && w1.replies == w.replies
      && w1.store == w.store - CredentialKeys && w1.userType == ""
      && w1.nav == w.nav + [ResetToLogin]
  {
  }

  /** A reply other than 401 is returned as it is, after exactly one request and with the store untouched. */
  lemma NonUnauthorizedPassesThrough(w: World, endpoint: string, opts: Options, first: Response)
    requires var keys := RoleKeys(w.userType);
      Present(Lookup(w.store, keys.access)) && Present(Lookup(w.store, keys.refresh))
    requires w.replies != [] && w.replies[0] == Delivered(first) && first.status != 401
    ensures var (w1, r) := AuthFetch(w, endpoint, opts);
      r == Done(first) && w1.store == w.store
      && w1.sent == w.sent + [Authorized(endpoint, w.store[RoleKeys(w.userType).access], opts)]
  {
  }

  /** A call sends at most three requests, the last one only after a 401 and a refresh request. */
  lemma RequestBudget(w: World, endpoint: string, opts: Options)
    ensures var w1 := AuthFetch(w, endpoint, opts).0;
      var n := |w.sent|;
      var keys := RoleKeys(w.userType);
      |w.sent| <= |w1.sent| <= n + 3 && w1.sent[..n] == w.sent
      && (Present(Lookup(w.store, keys.access)) && Present(Lookup(w.store, keys.refresh)) ==>
            |w1.sent| > n && w1.sent[n] == Authorized(endpoint, w.store[keys.access], opts))
      && (|w1.sent| > n + 1 ==>
            w.replies[0].Delivered? && w.replies[0].response.status == 401
            && w1.sent[n + 1] == RefreshRequest(w.store[RoleKeys(w.userType).refresh]))
  {
    var keys := RoleKeys(w.userType);
    var at := Lookup(w.store, keys.access);
    var rt := Lookup(w.store, keys.refresh);
    var n := |w.sent|;
    if Present(at) && Present(rt) {
      var a := Authorized(endpoint, at.value, opts);
      var (w1, first) := Exchange(w, a);
      assert w1.sent == w.sent + [a];
      if first.Delivered? && first.response.status == 401 {
        assert w.replies[0] == first;
        var (w2, data) := TokenRefresh(w1, rt.value);
        assert w2.sent == w.sent + [a, RefreshRequest(rt.value)];
        assert AuthFetch(w, endpoint, opts) == Renewed(w2, keys, data, endpoint, opts, false);
        RenewedSends(w2, keys, data, endpoint, opts, false);
      }
    }
  }

  /** After the refresh the client sends at most the one retry, and touches neither patient context field. */
  lemma RenewedSends(w: World, keys: TokenKeys, data: Json, endpoint: string, opts: Options, corrected: bool)
    ensures var w1 := Renewed(w, keys, data, endpoint, opts, corrected).0;
      (w1.sent == w.sent || (Holds(Prop(data, "access")) && w1.sent == w.sent + [Authorized(endpoint, JsToString(Prop(data, "access").v), opts)]))
      && w1.refresh == w.refresh && w1.date == w.date
  {
    var access := Prop(data, "access");
    if Truthy(data) && Holds(access) {
      var w4 := Rotated(w, keys, data);
      assert w4.sent == w.sent && w4.refresh == w.refresh && w4.date == w.date;
    }
  }

  /** The facts of a 401 answered by a refresh reply whose `access` is `access`. */
  predicate RefreshedWith(w: World, data: Json, access: string) {
    var keys := RoleKeys(w.userType);
    Present(Lookup(w.store, keys.access)) && Present(Lookup(w.store, keys.refresh))
    && |w.replies| >= 2
    && w.replies[0].Delivered? && w.replies[0].response.status == 401
    && w.replies[1] == Delivered(Response(200, Encoded(data)))
    && data.JObj? && "access" in data.fields && data.fields["access"] == JStr(access) && access != ""
  }

  /** After a refresh the new access token is stored and the retry carries it; a rotated refresh token replaces the old one, otherwise the old one stays. */
  lemma RefreshStoresTokens(w: World, endpoint: string, opts: Options, data: Json, access: string)
    requires RefreshedWith(w, data, access)
    ensures var (w1, r) := AuthFetch(w, endpoint, opts);
      var keys := RoleKeys(w.userType);
      Lookup(w1.store, keys.access) == Some(access)
      && (("refresh" in data.fields && data.fields["refresh"].JStr? && data.fields["refresh"].s != "") ==>
            Lookup(w1.store, keys.refresh) == Some(data.fields["refresh"].s))
      && (("refresh" !in data.fields || !Truthy(data.fields["refresh"])) ==>
            Lookup(w1.store, keys.refresh) == Lookup(w.store, keys.refresh))
      && |w1.sent| == |w.sent| + 3
      && w1.sent[|w.sent| + 2] == Authorized(endpoint, access, opts)
      && (r.Done? <==> |w.replies| > 2 && w.replies[2].Delivered?)
  {
    var keys := RoleKeys(w.userType);
    var at := Lookup(w.store, keys.access);
    var rt := Lookup(w.store, keys.refresh);
    var a := Authorized(endpoint, at.value, opts);
    var (w1, first) := Exchange(w, a);
    var (w2, d) := TokenRefresh(w1, rt.value);
    assert w1.replies == w.replies[1..];
    assert d == data;
    assert w2.store == w.store && w2.replies == w.replies[2..];
    assert w2.sent == w.sent + [a, RefreshRequest(rt.value)];
    assert Prop(data, "access") == Val(JStr(access));
    RotatedStore(w2, keys, data, access);
    var b := Authorized(endpoint, access, opts);
    var w4 := Rotated(w2, keys, data);
    assert AuthFetch(w, endpoint, opts) == Renewed(w2, keys, data, endpoint, opts, false);
    var (w5, second) := Exchange(w4, b);
    assert Renewed(w2, keys, data, endpoint, opts, false) == (w5, if second.Unreachable? then Threw(NetworkFailure) else Done(second.response));
    assert w5.sent == w.sent + [a, RefreshRequest(rt.value), b];
  }

  /** The store after a refresh whose `access` is `access`. */
  lemma RotatedStore(w: World, keys: TokenKeys, data: Json, access: string)
    requires keys.access != keys.refresh
    requires data.JObj? && "access" in data.fields && data.fields["access"] == JStr(access)
    ensures var w1 := Rotated(w, keys, data);
      w1 == w.(store := w1.store)
      && Lookup(w1.store, keys.access) == Some(access)
      && (("refresh" in data.fields && data.fields["refresh"].JStr? && data.fields["refresh"].s != "") ==>
            Lookup(w1.store, keys.refresh) == Some(data.fields["refresh"].s))
      && (("refresh" !in data.fields || !Truthy(data.fields["refresh"])) ==>
            Lookup(w1.store, keys.refresh) == Lookup(w.store, keys.refresh))
  {
  }

  /** The 401 of a refresh that yields no access token; the reply to the refresh is missing, refused or without `access`. */
  predicate RefreshFails(w: World) {
    var keys := RoleKeys(w.userType);
    Present(Lookup(w.store, keys.access)) && Present(Lookup(w.store, keys.refresh))
    && w.replies != [] && w.replies[0].Delivered? && w.replies[0].response.status == 401
    && (|w.replies| == 1 || !w.replies[1].Delivered? || !Ok(w.replies[1].response.status))
  }

  /**
   * As written, a 401 whose refresh yields no access token clears the
   * credentials and the role, then throws a TypeError: no alert is shown and
   * the app does not return to Login.
   */
  lemma FailedRefreshEndsSession(w: World, endpoint: string, opts: Options)
    requires RefreshFails(w)
    ensures var (w1, r) := AuthFetch(w, endpoint, opts);
      r == Threw(TypeError)
      && (forall c :: c in CredentialKeys ==> c !in w1.store)
      && w1.userType == ""
      && w1.alerts == w.alerts && w1.nav == w.nav
  {
  }

  /** Corrected, the same refresh failure clears the credentials and the role, alerts, resets to Login and throws 'Session expired.'. */
  lemma IntendedExpiryEndsSession(w: World, endpoint: string, opts: Options)
    requires RefreshFails(w)
    ensures var (w1, r) := AuthFetchIntended(w, endpoint, opts);
      r == Threw(SessionExpired)
      && (forall c :: c in CredentialKeys ==> c !in w1.store)
      && w1.userType == ""
      && w1.alerts == w.alerts + [Alert("Session expired.", "Please log in again.")]
      && w1.nav == w.nav + [ResetToLogin]
  {
  }

  /** The corrected client differs from the written one only where the written one throws the TypeError of the expired session. */
  lemma IntendedDiffersOnlyOnExpiry(w: World, endpoint: string, opts: Options)
    ensures AuthFetch(w, endpoint, opts).1 != Threw(TypeError) ==> AuthFetchIntended(w, endpoint, opts) == AuthFetch(w, endpoint, opts)
    ensures AuthFetch(w, endpoint, opts).1 == Threw(TypeError) ==> AuthFetchIntended(w, endpoint, opts).1 == Threw(SessionExpired)
  {
    var keys := RoleKeys(w.userType);
    var at := Lookup(w.store, keys.access);
    var rt := Lookup(w.store, keys.refresh);
    if Present(at) && Present(rt) {
      var (w1, first) := Exchange(w, Authorized(endpoint, at.value, opts));
      if first.Delivered? && first.response.status == 401 {
        var (w2, data) := TokenRefresh(w1, rt.value);
        assert AuthFetch(w, endpoint, opts) == Renewed(w2, keys, data, endpoint, opts, false);
        assert AuthFetchIntended(w, endpoint, opts) == Renewed(w2, keys, data, endpoint, opts, true);
      }
    }
  }

  /** `getJSON` yields the body of an ok reply, and for any other reply throws the body's `detail` (or 'Request failed') with the status. */
  lemma GetJsonOutcome(w: World, endpoint: string, opts: Options)
    ensures var (w1, r) := GetJson(w, endpoint, opts);
      var (w2, res) := AuthFetch(w, endpoint, opts);
      w1 == w2
      && (res.Done? && res.value.body.Encoded? && Ok(res.value.status) ==> r == Done(res.value.body.value))
      && (res.Done? && res.value.body.Encoded? && !Ok(res.value.status) ==>
            var data := res.value.body.value;
            var detail := OptProp(Val(data), "detail");
            r.Threw? && r.error.RequestFailed? && r.error.status == res.value.status && r.error.data == data
            && r.error.message == (if Holds(detail) then JsToString(detail.v) else "Request failed"))
      && (res.Threw? ==> r == Threw(res.error))
  {
  }

  /**
   * As written, an expired session throws a TypeError and never resets the
   * navigation to Login nor shows the alert; the corrected branch does both
   * and throws 'Session expired.'.
   */
  lemma SessionExpiryDiscrepancy(w: World)
    ensures SessionExpiryAsWritten(w).0.nav == w.nav && SessionExpiryAsWritten(w).1 == Threw(TypeError)
    ensures SessionExpiryAsWritten(w).0.alerts == w.alerts
    ensures SessionExpiry(w).0.nav == w.nav + [ResetToLogin] && SessionExpiry(w).1 == Threw(SessionExpired)
    ensures SessionExpiry(w).0.store == SessionExpiryAsWritten(w).0.store
  {
  }

  /** The client never touches the patient context: `refresh` and `date` are as they were. */
  lemma ContextUntouched(w: World, endpoint: string, opts: Options)
    ensures AuthFetch(w, endpoint, opts).0.refresh == w.refresh
    ensures AuthFetch(w, endpoint, opts).0.date == w.date
    ensures GetJson(w, endpoint, opts).0 == AuthFetch(w, endpoint, opts).0
  {
    var keys := RoleKeys(w.userType);
    var at := Lookup(w.store, keys.access);
    var rt := Lookup(w.store, keys.refresh);
    if Present(at) && Present(rt) {
      var (w1, first) := Exchange(w, Authorized(endpoint, at.value, opts));
      if first.Delivered? && first.response.status == 401 {
        var (w2, data) := TokenRefresh(w1, rt.value);
        assert w2.refresh == w.refresh && w2.date == w.date;
        RenewedSends(w2, keys, data, endpoint, opts, false);
      }
    }
  }
}
