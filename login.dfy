/**
 * The login screen (`Pages/Login/Login.js`): on mount it trades a stored
 * patient refresh token for a new access token and goes straight to the
 * patient dashboard; otherwise it offers the nurse and the patient login
 * forms, which store the returned token pair and open the role's navigation.
 */
module Login {
  import opened Wrappers
  import opened JsonModel
  import opened Http
  import opened Platform
  import FetchWithAuth

  const NurseLoginPath := "/users/nurse/login/"
  const PatientLoginPath := "/users/patient/login/"

  const ErrorText := "An error occurred. Please try again later."
  const ErrorState := "An error occurred"
  const FailedTitle := "Login failed"
  const CheckCredentialsText := "Please check your credentials and try again."
  const NurseEmptyText := "Enter both fields"
  const PatientEmptyText := "Please enter both fields"
  const DashboardRoute := NavigateTo("PatientNavigation", map["screen" := JStr("PatientDashboard")])
  const NurseRoute := NavigateTo("NurseNavigation", map["screen" := JStr("AccountCreation")])

  function LoginRequest(path: string, username: string, password: string): Request {
    Request(ApiBase, path, "POST", JsonHeaders(), Some(JObj(map["username" := JStr(username), "password" := JStr(password)])))
  }

  /** `refreshPatientAccessToken(refreshToken)`. */
  function PatientRefresh(w: World, refreshToken: string): World {
    var (w1, rep) := Exchange(w, FetchWithAuth.RefreshRequest(refreshToken));
    if rep.Unreachable? then w1
    else if !Ok(rep.response.status) then Erased(Erased(w1, "accessPatient"), "refreshPatient")
    else if rep.response.body.Malformed? then w1
    else
      var access := Prop(rep.response.body.value, "access");
      if access.NullDeref? then w1
      else Navigated(WithUserType(WithRefresh(StoredValue(w1, "accessPatient", access), true), "patient"), DashboardRoute)
  }

  /** `checkPatientLoginStatus()`, run when the screen mounts. */
  function Bootstrap(w: World): World {
    var rt := Lookup(w.store, "refreshPatient");
    if !Present(rt) then w else PatientRefresh(w, rt.value)
  }

  /** The catch branch of both login handlers: the screen's error text and an alert. */
  function LoginCrashed(w: World): (World, string) {
    (Alerted(w, "Error", ErrorText), ErrorState)
  }

  /**
   * One login submission for a role: an empty field only alerts; a 200 reply
   * stores the token pair under the role's keys, sets the role and opens its
   * navigation; any other status sets the error text 'Login failed'. The
   * second component is the screen's error text afterwards.
   */
  function Submission(w: World, role: string, path: string, emptyAlert: string,
                      username: string, password: string, error: string): (World, string)
  {
    var keys := RoleKeys(role);
    if username == "" || password == "" then (Alerted(w, emptyAlert, ""), error)
    else
      var (w1, rep) := Exchange(w, LoginRequest(path, username, password));
      if rep.Unreachable? then LoginCrashed(w1)
      else if rep.response.status != 200 then
        (Alerted(w1, FailedTitle, CheckCredentialsText), FailedTitle)
      else if rep.response.body.Malformed? then LoginCrashed(w1)
      else
        var data := rep.response.body.value;
        var access := Prop(data, "access");
        if access.NullDeref? then LoginCrashed(w1)
        else
          var w2 := StoredValue(StoredValue(w1, keys.access, access), keys.refresh, Prop(data, "refresh"));
          if role == "nurse" then (Navigated(WithUserType(w2, "nurse"), NurseRoute), error)
          else (Navigated(WithRefresh(WithUserType(w2, "patient"), true), DashboardRoute), error)
  }

  /** `handleNurseLogin()`. */
  function NurseLogin(w: World, username: string, password: string, error: string): (World, string) {
    Submission(w, "nurse", NurseLoginPath, NurseEmptyText, username, password, error)
  }

  /** `handlePatientLogin()`. */
  function PatientLogin(w: World, username: string, password: string, error: string): (World, string) {
    Submission(w, "patient", PatientLoginPath, PatientEmptyText, username, password, error)
  }

  class LoginScreen {
    var nurseUsername: string
    var nursePassword: string
    var patientUsername: string
    var patientPassword: string
    var renderPatient: bool
    var renderNurse: bool
    var error: string

    constructor ()
      ensures nurseUsername == "" && nursePassword == "" && patientUsername == "" && patientPassword == ""
      ensures !renderPatient && !renderNurse && error == ""
    {
      nurseUsername, nursePassword, patientUsername, patientPassword := "", "", "", "";
      renderPatient, renderNurse, error := false, false, "";
    }

    /** The focus effect: every field, both form toggles and the error text are reset. */
    method OnFocus()
      modifies this
      ensures nurseUsername == "" && nursePassword == "" && patientUsername == "" && patientPassword == ""
      ensures !renderPatient && !renderNurse && error == ""
    {
      nurseUsername, nursePassword, patientUsername, patientPassword := "", "", "", "";
      renderPatient, renderNurse, error := false, false, "";
    }

    method CheckPatientLoginStatus(dev: Device)
      modifies dev
      ensures dev.State() == Bootstrap(old(dev.State()))
    {
      var rt := dev.GetSecureItem("refreshPatient");
      if !Present(rt) {
        return;
      }
      RefreshPatientAccessToken(dev, rt.value);
    }

    method RefreshPatientAccessToken(dev: Device, refreshToken: string)
      modifies dev
      ensures dev.State() == PatientRefresh(old(dev.State()), refreshToken)
    {
      var rep := dev.Fetch(FetchWithAuth.RefreshRequest(refreshToken));
      if rep.Unreachable? {
        return;
      }
      if !Ok(rep.response.status) {
        dev.DeleteSecureItem("accessPatient");
        dev.DeleteSecureItem("refreshPatient");
        return;
      }
      if rep.response.body.Malformed? {
        return;
      }
      var access := Prop(rep.response.body.value, "access");
      if access.NullDeref? {
        return;
      }
      dev.SaveSecureValue("accessPatient", access);
      dev.SetRefresh(true);
      dev.SetUserType("patient");
      dev.Dispatch(DashboardRoute);
    }

    method Submit(dev: Device, role: string, path: string, emptyAlert: string, username: string, password: string)
      modifies this, dev
      ensures (dev.State(), error) == Submission(old(dev.State()), role, path, emptyAlert, username, password, old(error))
      ensures nurseUsername == old(nurseUsername) && nursePassword == old(nursePassword)
      ensures patientUsername == old(patientUsername) && patientPassword == old(patientPassword)
      ensures renderPatient == old(renderPatient) && renderNurse == old(renderNurse)
    {
      var keys := RoleKeys(role);
      if username == "" || password == "" {
        dev.ShowAlert(emptyAlert, "");
        return;
      }
      var rep := dev.Fetch(LoginRequest(path, username, password));
      if rep.Unreachable? || (rep.response.status == 200 && rep.response.body.Malformed?) {
        error := ErrorState;
        dev.ShowAlert("Error", ErrorText);
        return;
      }
      if rep.response.status != 200 {
        error := FailedTitle;
        dev.ShowAlert(FailedTitle, CheckCredentialsText);
        return;
      }
      var data := rep.response.body.value;
      var access := Prop(data, "access");
      if access.NullDeref? {
        error := ErrorState;
        dev.ShowAlert("Error", ErrorText);
        return;
      }
      dev.SaveSecureValue(keys.access, access);
      dev.SaveSecureValue(keys.refresh, Prop(data, "refresh"));
      if role == "nurse" {
        dev.SetUserType("nurse");
        dev.Dispatch(NurseRoute);
      } else {
        dev.SetUserType("patient");
        dev.SetRefresh(true);
        dev.Dispatch(DashboardRoute);
      }
    }

    method HandleNurseLogin(dev: Device)
      modifies this, dev
      ensures (dev.State(), error) == NurseLogin(old(dev.State()), old(nurseUsername), old(nursePassword), old(error))
      ensures nurseUsername == old(nurseUsername) && nursePassword == old(nursePassword)
      ensures patientUsername == old(patientUsername) && patientPassword == old(patientPassword)
    {
      Submit(dev, "nurse", NurseLoginPath, NurseEmptyText, nurseUsername, nursePassword);
    }

    method HandlePatientLogin(dev: Device)
      modifies this, dev
      ensures (dev.State(), error) == PatientLogin(old(dev.State()), old(patientUsername), old(patientPassword), old(error))
      ensures nurseUsername == old(nurseUsername) && nursePassword == old(nursePassword)
      ensures patientUsername == old(patientUsername) && patientPassword == old(patientPassword)
    {
      Submit(dev, "patient", PatientLoginPath, PatientEmptyText, patientUsername, patientPassword);
    }
  }

  // ---------------------------------------------------------------------------
  // Properties

  /** With no stored patient refresh token the screen sends nothing and changes nothing. */
  lemma BootstrapWithoutTokenIsSilent(w: World)
    requires !Present(Lookup(w.store, "refreshPatient"))
    ensures Bootstrap(w) == w
  {
  }

  /** The bootstrap never touches the nurse's tokens, and only ever removes the patient refresh token. */
  lemma BootstrapFrame(w: World)
    ensures var w1 := Bootstrap(w);
      Lookup(w1.store, "accessNurse") == Lookup(w.store, "accessNurse")
      && Lookup(w1.store, "refreshNurse") == Lookup(w.store, "refreshNurse")
      && (Lookup(w1.store, "refreshPatient") == Lookup(w.store, "refreshPatient") || "refreshPatient" !in w1.store)
      && |w1.sent| <= |w.sent| + 1
  {
  }

  /** A refresh accepted by the server stores the new access token and opens the patient dashboard. */
  lemma BootstrapAccepted(w: World, status: int, data: Json, access: string)
    requires Present(Lookup(w.store, "refreshPatient"))
    requires Ok(status) && w.replies != [] && w.replies[0] == Delivered(Response(status, Encoded(data)))
    requires data.JObj? && "access" in data.fields && data.fields["access"] == JStr(access)
    ensures var w1 := Bootstrap(w);
      Lookup(w1.store, "accessPatient") == Some(access)
      && Lookup(w1.store, "refreshPatient") == Lookup(w.store, "refreshPatient")
      && w1.refresh && w1.userType == "patient" && w1.nav == w.nav + [DashboardRoute]
      && w1.sent == w.sent + [FetchWithAuth.RefreshRequest(w.store["refreshPatient"])]
  {
  }

  /** A refresh the server rejects deletes both patient tokens and leaves the user on the login screen. */
  lemma BootstrapRejected(w: World, status: int, body: Body)
    requires Present(Lookup(w.store, "refreshPatient"))
    requires !Ok(status) && w.replies != [] && w.replies[0] == Delivered(Response(status, body))
    ensures var w1 := Bootstrap(w);
      w1.store == w.store - {"accessPatient"} - {"refreshPatient"}
      && w1.userType == w.userType && w1.nav == w.nav && w1.refresh == w.refresh
  {
  }

  /**
   * A refresh that throws (an unreachable server, or an ok reply whose body
   * is not JSON) is only logged: the store, the role, the refresh flag and
   * the screen are as they were, and the one refresh request was sent.
   */
  lemma BootstrapCrashKeepsTokens(w: World)
    requires Present(Lookup(w.store, "refreshPatient"))
    requires w.replies == [] || !w.replies[0].Delivered?
      || (Ok(w.replies[0].response.status) && w.replies[0].response.body.Malformed?)
    ensures var w1 := Bootstrap(w);
      w1.store == w.store && w1.userType == w.userType && w1.refresh == w.refresh
      && w1.nav == w.nav && w1.alerts == w.alerts
      && w1.sent == w.sent + [FetchWithAuth.RefreshRequest(w.store["refreshPatient"])]
  {
  }

  /** An empty field sends nothing; it only alerts. */
  lemma EmptyFieldSendsNothing(w: World, username: string, password: string, error: string)
    requires username == "" || password == ""
    ensures NurseLogin(w, username, password, error) == (Alerted(w, NurseEmptyText, ""), error)
    ensures PatientLogin(w, username, password, error) == (Alerted(w, PatientEmptyText, ""), error)
  {
  }

  /** A 200 reply with both tokens stores them under the role's keys, leaves the other role's keys alone and opens the role's navigation. */
  lemma LoginStoresPair(w: World, role: string, username: string, password: string, error: string, access: string, refresh: string)
    requires role == "nurse" || role == "patient"
    requires username != "" && password != ""
    requires w.replies != [] && w.replies[0] == Delivered(Response(200, Encoded(JObj(map["access" := JStr(access), "refresh" := JStr(refresh)]))))
    ensures var (w1, e) := if role == "nurse" then NurseLogin(w, username, password, error) else PatientLogin(w, username, password, error);
      var keys := RoleKeys(role);
      var other := RoleKeys(if role == "nurse" then "patient" else "nurse");
      Lookup(w1.store, keys.access) == Some(access) && Lookup(w1.store, keys.refresh) == Some(refresh)
      && Lookup(w1.store, other.access) == Lookup(w.store, other.access)
      && Lookup(w1.store, other.refresh) == Lookup(w.store, other.refresh)
      && w1.userType == role && e == error
      && w1.nav == w.nav + [if role == "nurse" then NurseRoute else DashboardRoute]
      && (role == "patient" ==> w1.refresh)
  {
    var keys := RoleKeys(role);
    var data := JObj(map["access" := JStr(access), "refresh" := JStr(refresh)]);
    assert Prop(data, "access") == Val(JStr(access));
    assert Prop(data, "refresh") == Val(JStr(refresh));
  }

  /** Any status other than 200 changes no token and sets the error text. */
  lemma RejectedLoginKeepsStore(w: World, role: string, path: string, emptyAlert: string, username: string, password: string, error: string, status: int, body: Body)
    requires username != "" && password != ""
    requires status != 200 && w.replies != [] && w.replies[0] == Delivered(Response(status, body))
    ensures var (w1, e) := Submission(w, role, path, emptyAlert, username, password, error);
      w1.store == w.store && w1.userType == w.userType && w1.nav == w.nav && e == FailedTitle
      && w1.alerts == w.alerts + [Alert(FailedTitle, CheckCredentialsText)]
  {
  }
}
