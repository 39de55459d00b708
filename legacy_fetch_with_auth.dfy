/**
 * The authenticated fetch client of the legacy screens
 * (`Components/FetchWithAuth.js`): the same bearer requests and single retry
 * after a 401 as the current client, but the refresh yields only an access
 * token (a rotated refresh token is never stored), and the forced logout
 * calls a `clearTokens` that `Components/Memory.js` does not export, so it
 * throws a TypeError before it signs anyone out.
 */
module LegacyFetchWithAuth {
  import opened Wrappers
  import opened JsText
  import opened JsonModel
  import opened Http
  import opened Platform
  import FetchWithAuth

  /** `refreshAccessToken(refreshToken)`: the `access` field of an ok reply, otherwise `null`. */
  function AccessRefresh(w: World, refreshToken: string): (World, Json) {
    var (w1, rep) := Exchange(w, FetchWithAuth.RefreshRequest(refreshToken));
    if rep.Unreachable? || !Ok(rep.response.status) || rep.response.body.Malformed? then (w1, JNull)
    else
      var access := Prop(rep.response.body.value, "access");
      (w1, if access.Val? then access.v else JNull)
  }

  /** Forced logout: clear the tokens, reset the role, go to Login, throw `error`. */
  function ForcedLogout(w: World, error: JsError): (World, Outcome<Response>) {
    (Navigated(WithUserType(Cleared(w), ""), ResetToLogin), Threw(error))
  }

  /**
   * The same branch as the source writes it: `clearTokens` is imported from
   * `Components/Memory.js`, which does not export it, so calling it throws a
   * TypeError before anything is cleared, the role reset or Login shown.
   */
  function ForcedLogoutAsWritten(w: World, error: JsError): (World, Outcome<Response>) {
    (w, Threw(TypeError))
  }

  /** `fetchWithAuth(endpoint, options)` as the source writes it: both forced logouts end in `ForcedLogoutAsWritten`. */
  function AuthFetch(w: World, endpoint: string, opts: Options): (World, Outcome<Response>) {
    Client(w, endpoint, opts, false)
  }

  /** The client with `clearTokens` available: both forced logouts sign the user out. */
  function AuthFetchIntended(w: World, endpoint: string, opts: Options): (World, Outcome<Response>) {
    Client(w, endpoint, opts, true)
  }

  /** A forced logout throwing `error`, as written or corrected. */
  function SignOut(w: World, error: JsError, corrected: bool): (World, Outcome<Response>) {
    if corrected then ForcedLogout(w, error) else ForcedLogoutAsWritten(w, error)
  }

  /** `fetchWithAuth(endpoint, options)`, with `corrected` choosing how a forced logout ends. */
  function Client(w: World, endpoint: string, opts: Options, corrected: bool): (World, Outcome<Response>) {
    var keys := RoleKeys(w.userType);
    var at := Lookup(w.store, keys.access);
    var rt := Lookup(w.store, keys.refresh);
    if !Present(at) || !Present(rt) then SignOut(w, NoTokens, corrected)
    else
      var (w1, first) := Exchange(w, FetchWithAuth.Authorized(endpoint, at.value, opts));
      if first.Unreachable? then (w1, Threw(NetworkFailure))
      else if first.response.status != 401 then (w1, Done(first.response))
      else
        var (w2, renewed) := AccessRefresh(w1, rt.value);
        if !Truthy(renewed) then SignOut(w2, SessionExpired, corrected)
        else
          var w3 := StoredValue(w2, keys.access, Val(renewed));
          var (w4, second) := Exchange(w3, FetchWithAuth.Authorized(endpoint, JsToString(renewed), opts));
          if second.Unreachable? then (w4, Threw(NetworkFailure)) else (w4, Done(second.response))
  }

  /** `getJSON(endpoint, options)`. */
  function GetJson(w: World, endpoint: string, opts: Options): (World, Outcome<Json>) {
    var (w1, res) := AuthFetch(w, endpoint, opts);
    if res.Threw? then (w1, Threw(res.error))
    else if res.value.body.Malformed? then (w1, Threw(SyntaxError))
    else if Ok(res.value.status) then (w1, Done(res.value.body.value))
    else (w1, Threw(FetchWithAuth.RequestError(res.value.status, res.value.body.value)))
  }

  // ---------------------------------------------------------------------------
  // The operations

  method RefreshAccessToken(dev: Device, refreshToken: string) returns (access: Json)
    modifies dev
    ensures (dev.State(), access) == AccessRefresh(old(dev.State()), refreshToken)
  {
    var rep := dev.Fetch(FetchWithAuth.RefreshRequest(refreshToken));
    if rep.Unreachable? || !Ok(rep.response.status) || rep.response.body.Malformed? {
      return JNull;
    }
    var field := Prop(rep.response.body.value, "access");
    access := if field.Val? then field.v else JNull;
  }

  method Fetch(dev: Device, endpoint: string, opts: Options) returns (r: Outcome<Response>)
    modifies dev
    ensures (dev.State(), r) == AuthFetch(old(dev.State()), endpoint, opts)
  {
    var keys := RoleKeys(dev.userType);
    var at := dev.GetSecureItem(keys.access);
    var rt := dev.GetSecureItem(keys.refresh);
    if !Present(at) || !Present(rt) {
      // `clearTokens` is not exported by `Components/Memory.js`: calling it throws.
      return Threw(TypeError);
    }
    var first := dev.Fetch(FetchWithAuth.Authorized(endpoint, at.value, opts));
    if first.Unreachable? {
      return Threw(NetworkFailure);
    }
    if first.response.status != 401 {
      return Done(first.response);
    }
    var renewed := RefreshAccessToken(dev, rt.value);
    if !Truthy(renewed) {
      return Threw(TypeError);
    }
    dev.SaveSecureValue(keys.access, Val(renewed));
    var second := dev.Fetch(FetchWithAuth.Authorized(endpoint, JsToString(renewed), opts));
    if second.Unreachable? {
      return Threw(NetworkFailure);
    }
    r := Done(second.response);
  }

  method GetJSON(dev: Device, endpoint: string, opts: Options) returns (r: Outcome<Json>)
    modifies dev
    ensures (dev.State(), r) == GetJson(old(dev.State()), endpoint, opts)
  {
    var res := Fetch(dev, endpoint, opts);
    if res.Threw? {
      return Threw(res.error);
    }
    if res.value.body.Malformed? {
      return Threw(SyntaxError);
    }
    if Ok(res.value.status) {
      return Done(res.value.body.value);
    }
    r := Threw(FetchWithAuth.RequestError(res.value.status, res.value.body.value));
  }

  // ---------------------------------------------------------------------------
  // Properties

  /** As written, the legacy client never writes the refresh token, nor any key but the role's access token. */
  lemma RefreshTokenNeverRotated(w: World, endpoint: string, opts: Options)
    ensures var w1 := AuthFetch(w, endpoint, opts).0;
      var keys := RoleKeys(w.userType);
      Lookup(w1.store, keys.refresh) == Lookup(w.store, keys.refresh)
      && (forall k :: k != keys.access ==> Lookup(w1.store, k) == Lookup(w.store, k))
  {
    var keys := RoleKeys(w.userType);
    var at := Lookup(w.store, keys.access);
    var rt := Lookup(w.store, keys.refresh);
    if Present(at) && Present(rt) {
      var (w1, first) := Exchange(w, FetchWithAuth.Authorized(endpoint, at.value, opts));
      if first.Delivered? && first.response.status == 401 {
        var (w2, renewed) := AccessRefresh(w1, rt.value);
        assert w2 == w.(sent := w2.sent, replies := w2.replies);
        if Truthy(renewed) {
          var w3 := StoredValue(w2, keys.access, Val(renewed));
          assert w3 == w2.(store := w3.store);
          assert AuthFetch(w, endpoint, opts).0 == w3.(sent := AuthFetch(w, endpoint, opts).0.sent, replies := AuthFetch(w, endpoint, opts).0.replies);
        }
      }
    }
  }

  /** As written, the legacy client never changes the role, the screen or the alerts: its forced logouts throw before they start. */
  lemma SessionKeptAsWritten(w: World, endpoint: string, opts: Options)
    ensures var w1 := AuthFetch(w, endpoint, opts).0;
      w1.userType == w.userType && w1.nav == w.nav && w1.alerts == w.alerts
  {
    var keys := RoleKeys(w.userType);
    var at := Lookup(w.store, keys.access);
    var rt := Lookup(w.store, keys.refresh);
    if Present(at) && Present(rt) {
      var (w1, first) := Exchange(w, FetchWithAuth.Authorized(endpoint, at.value, opts));
      if first.Delivered? && first.response.status == 401 {
        var (w2, renewed) := AccessRefresh(w1, rt.value);
        assert w2 == w.(sent := w2.sent, replies := w2.replies);
        if Truthy(renewed) {
          var w3 := StoredValue(w2, keys.access, Val(renewed));
          assert w3 == w2.(store := w3.store);
          assert AuthFetch(w, endpoint, opts).0 == w3.(sent := AuthFetch(w, endpoint, opts).0.sent, replies := AuthFetch(w, endpoint, opts).0.replies);
        }
      }
    }
  }

  /** The 401 of a refresh that yields no access token. */
  predicate RefreshFails(w: World) {
    var keys := RoleKeys(w.userType);
    Present(Lookup(w.store, keys.access)) && Present(Lookup(w.store, keys.refresh))
    && w.replies != [] && w.replies[0].Delivered? && w.replies[0].response.status == 401
    && (|w.replies| == 1 || !w.replies[1].Delivered? || !Ok(w.replies[1].response.status))
  }

  /** As written, a failed refresh throws a TypeError and leaves the store, the role, the screen and the alerts as they were. */
  lemma FailedRefreshChangesNothing(w: World, endpoint: string, opts: Options)
    requires RefreshFails(w)
    ensures var (w1, r) := AuthFetch(w, endpoint, opts);
      r == Threw(TypeError) && w1.store == w.store
      && w1.userType == w.userType && w1.nav == w.nav && w1.alerts == w.alerts
      && |w1.sent| == |w.sent| + 2
  {
  }

  /** Corrected, a failed refresh signs the user out without any alert. */
  lemma FailedRefreshSignsOutSilently(w: World, endpoint: string, opts: Options)
    requires RefreshFails(w)
    ensures var (w1, r) := AuthFetchIntended(w, endpoint, opts);
      r == Threw(SessionExpired) && w1.alerts == w.alerts
      && (forall c :: c in CredentialKeys ==> c !in w1.store)
      && w1.userType == "" && w1.nav == w.nav + [ResetToLogin]
  {
  }

  /**
   * Before any 401 the two clients send the same requests. With both tokens
   * stored they give the same result and store. With a token missing the
   * current client signs out, while the legacy one as written throws a
   * TypeError and changes nothing; corrected, it does what the current
   * client does.
   */
  lemma AgreesWithCurrentClientBefore401(w: World, endpoint: string, opts: Options)
    requires w.replies == [] || !w.replies[0].Delivered? || w.replies[0].response.status != 401
    ensures AuthFetch(w, endpoint, opts).0.sent == FetchWithAuth.AuthFetch(w, endpoint, opts).0.sent
    ensures AuthFetchIntended(w, endpoint, opts) == FetchWithAuth.AuthFetch(w, endpoint, opts)
    ensures var keys := RoleKeys(w.userType);
      if Present(Lookup(w.store, keys.access)) && Present(Lookup(w.store, keys.refresh)) then
        AuthFetch(w, endpoint, opts) == FetchWithAuth.AuthFetch(w, endpoint, opts)
      else
        AuthFetch(w, endpoint, opts) == (w, Threw(TypeError))
        && FetchWithAuth.AuthFetch(w, endpoint, opts).1 == Threw(NoTokens)
        && FetchWithAuth.AuthFetch(w, endpoint, opts).0.store == w.store - CredentialKeys
  {
  }

  /**
   * As written, a forced logout leaves every token, the role and the screen
   * as they were and throws a TypeError; corrected, it clears the tokens,
   * resets the role and returns to Login.
   */
  lemma ForcedLogoutDiscrepancy(w: World, error: JsError)
    ensures ForcedLogoutAsWritten(w, error) == (w, Threw(TypeError))
    ensures var w1 := ForcedLogout(w, error).0;
      (forall c :: c in CredentialKeys ==> c !in w1.store)
      && w1.userType == "" && w1.nav == w.nav + [ResetToLogin]
      && ForcedLogout(w, error).1 == Threw(error)
  {
  }
}
