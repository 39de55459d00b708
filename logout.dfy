/**
 * The logout section of the settings screens (`Components/Logout.js`): it
 * tells the backend about the logout through the legacy authenticated client
 * when the role has a refresh token, and whatever came of that, deletes the
 * role's tokens, forgets the role and replaces the screen with Login.
 */
module LogoutSection {
  import opened Wrappers
  import opened JsText
  import opened JsonModel
  import opened Http
  import opened Platform
  import LegacyFetchWithAuth
  import FetchWithAuth

  const LogoutPath := "/users/logout/"

  function LogoutOptions(refreshToken: string): Options {
    Options("POST", JsonHeaders(), Some(JObj(map["refresh" := JStr(refreshToken)])))
  }

  /** `handleLogout()`: the request's outcome, thrown or not, is dropped; the `finally` block always runs. */
  function HandleLogout(w: World): World {
    var keys := RoleKeys(w.userType);
    var rt := Lookup(w.store, keys.refresh);
    var w1 := if Present(rt) then LegacyFetchWithAuth.AuthFetch(w, LogoutPath, LogoutOptions(rt.value)).0 else w;
    Navigated(WithUserType(Erased(Erased(w1, keys.access), keys.refresh), ""), ReplaceWith("Login"))
  }

  method Logout(dev: Device)
    modifies dev
    ensures dev.State() == HandleLogout(old(dev.State()))
  {
    var keys := RoleKeys(dev.userType);
    var rt := dev.GetSecureItem(keys.refresh);
    if Present(rt) {
      var _ := LegacyFetchWithAuth.Fetch(dev, LogoutPath, LogoutOptions(rt.value));
    }
    dev.DeleteSecureItem(keys.access);
    dev.DeleteSecureItem(keys.refresh);
    dev.SetUserType("");
    dev.Dispatch(ReplaceWith("Login"));
  }

  /** Whatever the backend answers, the role's tokens are gone, the role is forgotten and Login is the last screen shown. */
  lemma LogoutAlwaysSignsOut(w: World)
    ensures var w1 := HandleLogout(w);
      var keys := RoleKeys(w.userType);
      keys.access !in w1.store && keys.refresh !in w1.store
      && w1.userType == "" && w1.nav != [] && w1.nav[|w1.nav| - 1] == ReplaceWith("Login")
  {
  }

  /**
   * Without a refresh token for the role nothing is sent. With one but no
   * access token, the legacy client's forced logout throws before it sends
   * or clears anything. Either way only the role's two keys, the role and
   * the screen change.
   */
  lemma LogoutWithoutTokenIsLocal(w: World)
    requires var keys := RoleKeys(w.userType);
      !Present(Lookup(w.store, keys.refresh)) || !Present(Lookup(w.store, keys.access))
    ensures var w1 := HandleLogout(w);
      var keys := RoleKeys(w.userType);
      w1.sent == w.sent && w1.store == w.store - {keys.access} - {keys.refresh}
      && w1.userType == "" && w1.nav == w.nav + [ReplaceWith("Login")] && w1.alerts == w.alerts
  {
    var keys := RoleKeys(w.userType);
    var rt := Lookup(w.store, keys.refresh);
    if Present(rt) {
      assert LegacyFetchWithAuth.AuthFetch(w, LogoutPath, LogoutOptions(rt.value)).0 == w;
    }
  }

  /** Only the role's two keys change in the store: the legacy client as written clears no other credential. */
  lemma LogoutTouchesOnlyRoleKeys(w: World)
    ensures var w1 := HandleLogout(w);
      var keys := RoleKeys(w.userType);
      forall k :: k != keys.access && k != keys.refresh ==> Lookup(w1.store, k) == Lookup(w.store, k)
  {
    var keys := RoleKeys(w.userType);
    var rt := Lookup(w.store, keys.refresh);
    if Present(rt) {
      LegacyFetchWithAuth.RefreshTokenNeverRotated(w, LogoutPath, LogoutOptions(rt.value));
    }
  }

  /** With a refresh token the first request is the logout call, signed with the role's access token. */
  lemma LogoutNotifiesBackend(w: World)
    requires var keys := RoleKeys(w.userType);
      Present(Lookup(w.store, keys.refresh)) && Present(Lookup(w.store, keys.access))
    ensures var w1 := HandleLogout(w);
      var keys := RoleKeys(w.userType);
      |w1.sent| > |w.sent|
      && w1.sent[|w.sent|] == Request(ApiBase, LogoutPath, "POST",
           BearerHeaders(w.store[keys.access]), Some(JObj(map["refresh" := JStr(w.store[keys.refresh])])))
  {
    var keys := RoleKeys(w.userType);
    var opts := LogoutOptions(w.store[keys.refresh]);
    var (w1, first) := Exchange(w, FetchWithAuth.Authorized(LogoutPath, w.store[keys.access], opts));
    LegacyRequestsExtend(w, LogoutPath, opts);
    assert FetchWithAuth.AuthHeaders(w.store[keys.access], JsonHeaders()) == BearerHeaders(w.store[keys.access]);
  }

  /** Every request of one legacy call extends the log past the first, signed request. */
  lemma LegacyRequestsExtend(w: World, endpoint: string, opts: Options)
    requires var keys := RoleKeys(w.userType);
      Present(Lookup(w.store, keys.refresh)) && Present(Lookup(w.store, keys.access))
    ensures var w1 := LegacyFetchWithAuth.AuthFetch(w, endpoint, opts).0;
      var keys := RoleKeys(w.userType);
      |w1.sent| > |w.sent| && w1.sent[|w.sent|] == FetchWithAuth.Authorized(endpoint, w.store[keys.access], opts)
  {
    var keys := RoleKeys(w.userType);
    var first := FetchWithAuth.Authorized(endpoint, w.store[keys.access], opts);
    var (w1, rep) := Exchange(w, first);
    assert w1.sent == w.sent + [first];
    if rep.Delivered? && rep.response.status == 401 {
      var (w2, renewed) := LegacyFetchWithAuth.AccessRefresh(w1, w.store[keys.refresh]);
      assert w2.sent == w1.sent + [FetchWithAuth.RefreshRequest(w.store[keys.refresh])];
      if Truthy(renewed) {
        var w3 := StoredValue(w2, keys.access, Val(renewed));
        var second := FetchWithAuth.Authorized(endpoint, JsToString(renewed), opts);
        var (w4, rep2) := Exchange(w3, second);
        assert w4.sent == w2.sent + [second];
        assert LegacyFetchWithAuth.AuthFetch(w, endpoint, opts).0 == w4;
      } else {
        assert LegacyFetchWithAuth.AuthFetch(w, endpoint, opts).0.sent == w2.sent;
      }
    }
  }
}
