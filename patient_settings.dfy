/**
 * The current patient settings screen (`src/Pages/Patient/PatientSettings.js`):
 * account deletion confirmed by the password, and the password change with
 * its field checks, both sent through the current authenticated client.
 */
module PatientSettings {
  import opened Wrappers
  import opened JsText
  import opened JsonModel
  import opened Http
  import opened Platform
  import FetchWithAuth

  const DeletePath := "/users/delete-account/"
  const ChangePath := "/users/change-password/"
  const ConfirmPrompt := "Please enter your password to confirm deletion."
  const WrongPasswordTitle := "Incorrect Password"
  const RetryText := "Please try again"
  const MismatchText := "New password and confirm password do not match"
  const MissingPrefix := "Please enter: "
  const OldField := "old password"
  const NewField := "new password"
  const ConfirmField := "confirm new password"
  const DeleteDefault := "Failed to delete account. Please try again later."
  const ChangeDefault := "Error changing password"
  const NetworkTitle := "Network Error"
  const NetworkText := "A network error occurred. Please check your connection and try again."

  function DeleteOptions(password: string): Options {
    Options("POST", JsonHeaders(), Some(JObj(map["password" := JStr(Trim(password))])))
  }

  function ChangeOptions(oldPassword: string, newPassword: string): Options {
    Options("POST", map[], Some(JObj(map["old_password" := JStr(oldPassword), "new_password" := JStr(newPassword)])))
  }

  /** The alert text after a refused deletion: the body's truthy `detail` when the reply is not ok, else the default. */
  function DeleteMessage(r: Response): (msg: string)
    ensures Ok(r.status) || r.body.Malformed? ==> msg == DeleteDefault
    ensures !Ok(r.status) && r.body.Encoded? && Holds(Prop(r.body.value, "detail")) ==> msg == JsToString(Prop(r.body.value, "detail").v)
    ensures !Holds(Prop(if r.body.Encoded? then r.body.value else JNull, "detail")) ==> msg == DeleteDefault
  {
    if !Ok(r.status) && r.body.Encoded? && Truthy(r.body.value) && Holds(Prop(r.body.value, "detail"))
    then JsToString(Prop(r.body.value, "detail").v)
    else DeleteDefault
  }

  /** The screen state `deleteAccount` touches. */
  datatype DeleteForm = DeleteForm(password: string, modalShown: bool)

  /** `deleteAccount()`. */
  function AccountDeletion(w: World, form: DeleteForm): (World, DeleteForm) {
    if form.password == "" then (Alerted(w, ConfirmPrompt, ""), form)
    else
      var (w1, res) := FetchWithAuth.AuthFetch(w, DeletePath, DeleteOptions(form.password));
      DeletionAnswer(w1, res, form)
  }

  /** What `deleteAccount()` does with the outcome of its request. */
  function DeletionAnswer(w: World, res: Outcome<Response>, form: DeleteForm): (World, DeleteForm) {
    if res.Threw? then (Alerted(w, NetworkTitle, NetworkText), form.(password := ""))
    else if res.value.status == 204 || res.value.status == 200 then
      (Navigated(WithUserType(Cleared(w), ""), ReplaceWith("Login")), DeleteForm("", false))
    else if res.value.status == 403 then (Alerted(w, WrongPasswordTitle, RetryText), form.(password := ""))
    else (Alerted(w, DeleteMessage(res.value), ""), form.(password := ""))
  }

  /** The names of the empty fields, in the order old, new, confirm. */
  function MissingFields(oldPassword: string, newPassword: string, confirmNewPassword: string): (missing: seq<string>)
    ensures missing == [] <==> oldPassword != "" && newPassword != "" && confirmNewPassword != ""
    ensures OldField in missing <==> oldPassword == ""
    ensures NewField in missing <==> newPassword == ""
    ensures ConfirmField in missing <==> confirmNewPassword == ""
    ensures |missing| <= 3 && (oldPassword == "" ==> missing[0] == OldField)
    ensures confirmNewPassword == "" ==> missing[|missing| - 1] == ConfirmField
  {
    (if oldPassword == "" then [OldField] else [])
    + (if newPassword == "" then [NewField] else [])
    + (if confirmNewPassword == "" then [ConfirmField] else [])
  }

  /**
   * The alert text after a refused password change: the body's truthy
   * `error`, else its `errors` joined by ", " when an array and printed when
   * not, else the default.
   */
  function ChangeMessage(body: Body): string {
    if body.Malformed? then ChangeDefault
    else
      var data := body.value;
      var error := Prop(data, "error");
      var errors := Prop(data, "errors");
      if !Truthy(data) || !(Holds(error) || Holds(errors)) then ChangeDefault
      else if Holds(error) then JsToString(error.v)
      else if errors.v.JArr? then ArrayJoin(errors.v.items, ", ")
      else JsToString(errors.v)
  }

  /**
   * `handleChangePassword()` with the three fields: an empty field or a
   * mismatch only alerts; after a request attempt the fields are always
   * emptied. The flag says whether they were.
   */
  function ChangePassword(w: World, oldPassword: string, newPassword: string, confirmNewPassword: string): (World, bool) {
    var missing := MissingFields(oldPassword, newPassword, confirmNewPassword);
    if missing != [] then (Alerted(w, MissingPrefix + Join(missing, ", "), ""), false)
    else if newPassword != confirmNewPassword then (Alerted(w, MismatchText, ""), false)
    else (ChangeAttempt(w, oldPassword, newPassword), true)
  }

  /** The request of `handleChangePassword()` and the alert its outcome shows. */
  function ChangeAttempt(w: World, oldPassword: string, newPassword: string): World {
    var (w1, res) := FetchWithAuth.AuthFetch(w, ChangePath, ChangeOptions(oldPassword, newPassword));
    if res.Threw? then Alerted(w1, NetworkTitle, NetworkText)
    else if !Ok(res.value.status) then Alerted(w1, ChangeMessage(res.value.body), "")
    else if res.value.body.Malformed? || res.value.body.value.JNull? then Alerted(w1, NetworkTitle, NetworkText)
    else Alerted(w1, ReadToString(Prop(res.value.body.value, "message")), "")
  }

  class SettingsScreen {
    var oldPassword: string
    var newPassword: string
    var confirmNewPassword: string
    var isChangingPassword: bool
    var showDeleteModal: bool
    var deletePassword: string

    constructor ()
      ensures oldPassword == "" && newPassword == "" && confirmNewPassword == ""
      ensures !isChangingPassword && !showDeleteModal && deletePassword == ""
    {
      oldPassword, newPassword, confirmNewPassword := "", "", "";
      isChangingPassword, showDeleteModal, deletePassword := false, false, "";
    }

    method DeleteAccount(dev: Device)
      modifies this, dev
      ensures (dev.State(), DeleteForm(deletePassword, showDeleteModal))
        == AccountDeletion(old(dev.State()), DeleteForm(old(deletePassword), old(showDeleteModal)))
      ensures oldPassword == old(oldPassword) && newPassword == old(newPassword) && confirmNewPassword == old(confirmNewPassword)
      ensures isChangingPassword == old(isChangingPassword)
    {
      if deletePassword == "" {
        dev.ShowAlert(ConfirmPrompt, "");
        return;
      }
      var res := FetchWithAuth.Fetch(dev, DeletePath, DeleteOptions(deletePassword));
      AnswerDeletion(dev, res);
    }

    /** The branches of `deleteAccount()` after its request. */
    method AnswerDeletion(dev: Device, res: Outcome<Response>)
      modifies this, dev
      ensures (dev.State(), DeleteForm(deletePassword, showDeleteModal))
        == DeletionAnswer(old(dev.State()), res, DeleteForm(old(deletePassword), old(showDeleteModal)))
      ensures oldPassword == old(oldPassword) && newPassword == old(newPassword) && confirmNewPassword == old(confirmNewPassword)
      ensures isChangingPassword == old(isChangingPassword)
    {
      if res.Threw? {
        dev.ShowAlert(NetworkTitle, NetworkText);
        deletePassword := "";
        return;
      }
      var status := res.value.status;
      if status == 204 || status == 200 {
        dev.ClearTokens();
        deletePassword := "";
        dev.SetUserType("");
        showDeleteModal := false;
        dev.Dispatch(ReplaceWith("Login"));
      } else if status == 403 {
        dev.ShowAlert(WrongPasswordTitle, RetryText);
        deletePassword := "";
      } else {
        dev.ShowAlert(DeleteMessage(res.value), "");
        deletePassword := "";
      }
    }

    method HandleChangePassword(dev: Device)
      modifies this, dev
      ensures var (w1, reset) := ChangePassword(old(dev.State()), old(oldPassword), old(newPassword), old(confirmNewPassword));
        dev.State() == w1
        && (reset ==> oldPassword == "" && newPassword == "" && confirmNewPassword == "")
        && (!reset ==> oldPassword == old(oldPassword) && newPassword == old(newPassword) && confirmNewPassword == old(confirmNewPassword))
      ensures ChangePassword(old(dev.State()), old(oldPassword), old(newPassword), old(confirmNewPassword)).1 ==> !isChangingPassword
      ensures !ChangePassword(old(dev.State()), old(oldPassword), old(newPassword), old(confirmNewPassword)).1 ==> isChangingPassword == old(isChangingPassword)
      ensures showDeleteModal == old(showDeleteModal) && deletePassword == old(deletePassword)
    {
      var missing := MissingFields(oldPassword, newPassword, confirmNewPassword);
      if missing != [] {
        dev.ShowAlert(MissingPrefix + Join(missing, ", "), "");
        return;
      }
      if newPassword != confirmNewPassword {
        dev.ShowAlert(MismatchText, "");
        return;
      }
      isChangingPassword := true;
      SendChange(dev, oldPassword, newPassword);
      oldPassword, newPassword, confirmNewPassword := "", "", "";
      isChangingPassword := false;
    }
  }

  /** The request of `handleChangePassword()` and the alert its outcome shows. */
  method SendChange(dev: Device, oldPassword: string, newPassword: string)
    modifies dev
    ensures dev.State() == ChangeAttempt(old(dev.State()), oldPassword, newPassword)
  {
    var response := FetchWithAuth.Fetch(dev, ChangePath, ChangeOptions(oldPassword, newPassword));
    if response.Threw? {
      dev.ShowAlert(NetworkTitle, NetworkText);
    } else if !Ok(response.value.status) {
      dev.ShowAlert(ChangeMessage(response.value.body), "");
    } else if response.value.body.Malformed? || response.value.body.value.JNull? {
      dev.ShowAlert(NetworkTitle, NetworkText);
    } else {
      dev.ShowAlert(ReadToString(Prop(response.value.body.value, "message")), "");
    }
  }

  // ---------------------------------------------------------------------------
  // Properties

  /** An empty password sends nothing and changes no token. */
  lemma EmptyPasswordSendsNothing(w: World, form: DeleteForm)
    requires form.password == ""
    ensures var (w1, f1) := AccountDeletion(w, form);
      w1.sent == w.sent && w1.store == w.store && f1 == form
  {
  }

  /** The password the deletion request carries is the trimmed field. */
  lemma DeletionSendsTrimmedPassword(w: World, form: DeleteForm)
    requires form.password != ""
    requires var keys := RoleKeys(w.userType);
      Present(Lookup(w.store, keys.access)) && Present(Lookup(w.store, keys.refresh))
    ensures var (w1, _) := AccountDeletion(w, form);
      |w1.sent| > |w.sent| && w1.sent[|w.sent|].body == Some(JObj(map["password" := JStr(Trim(form.password))]))
      && w1.sent[|w.sent|].path == DeletePath
  {
    FetchWithAuth.RequestBudget(w, DeletePath, DeleteOptions(form.password));
    DeletionKeepsLog(w, form);
  }

  /** The deletion adds nothing to the log beyond the authenticated call. */
  lemma DeletionKeepsLog(w: World, form: DeleteForm)
    requires form.password != ""
    ensures AccountDeletion(w, form).0.sent == FetchWithAuth.AuthFetch(w, DeletePath, DeleteOptions(form.password)).0.sent
  {
    var (w1, res) := FetchWithAuth.AuthFetch(w, DeletePath, DeleteOptions(form.password));
    if res.Done? && (res.value.status == 204 || res.value.status == 200) {
      assert AccountDeletion(w, form).0 == Navigated(WithUserType(Cleared(w1), ""), ReplaceWith("Login"));
    }
  }

  /** 200 and 204 sign out completely; 403 only alerts and keeps the tokens; every reply empties the password field. */
  lemma DeletionOutcomes(w: World, form: DeleteForm)
    requires form.password != ""
    ensures var (w1, f1) := AccountDeletion(w, form);
      var (w0, res) := FetchWithAuth.AuthFetch(w, DeletePath, DeleteOptions(form.password));
      f1.password == ""
      && (res.Done? && (res.value.status == 200 || res.value.status == 204) ==>
            (forall c :: c in CredentialKeys ==> c !in w1.store) && w1.userType == "" && !f1.modalShown
            && w1.nav == w0.nav + [ReplaceWith("Login")])
      && (res.Done? && res.value.status == 403 ==>
            w1.store == w0.store && w1.userType == w0.userType && f1.modalShown == form.modalShown
            && w1.alerts == w0.alerts + [Alert(WrongPasswordTitle, RetryText)])
  {
  }

  /** Any other status shows the server's `detail` when the refusal carries one. */
  lemma DeletionShowsDetail(w: World, form: DeleteForm, status: int, detail: string)
    requires form.password != ""
    requires !Ok(status) && status != 403 && detail != ""
    requires FetchWithAuth.AuthFetch(w, DeletePath, DeleteOptions(form.password)).1
      == Done(Response(status, Encoded(JObj(map["detail" := JStr(detail)]))))
    ensures var (w1, _) := AccountDeletion(w, form);
      var w0 := FetchWithAuth.AuthFetch(w, DeletePath, DeleteOptions(form.password)).0;
      w1.alerts == w0.alerts + [Alert(detail, "")] && w1.store == w0.store
  {
    var (w0, res) := FetchWithAuth.AuthFetch(w, DeletePath, DeleteOptions(form.password));
    assert AccountDeletion(w, form) == DeletionAnswer(w0, res, form);
    assert Prop(JObj(map["detail" := JStr(detail)]), "detail") == Val(JStr(detail));
    assert DeleteMessage(res.value) == detail;
  }

  /** An empty field or a mismatch sends nothing and keeps the fields; the alert names the empty fields in order. */
  lemma ChangeGuards(w: World, oldPassword: string, newPassword: string, confirmNewPassword: string)
    requires oldPassword == "" || newPassword == "" || confirmNewPassword == "" || newPassword != confirmNewPassword
    ensures var (w1, reset) := ChangePassword(w, oldPassword, newPassword, confirmNewPassword);
      w1.sent == w.sent && w1.store == w.store && !reset && |w1.alerts| == |w.alerts| + 1
  {
  }

  /** The alert for an empty old and confirm field lists exactly those two. */
  lemma MissingAlertText(w: World, newPassword: string)
    requires newPassword != ""
    ensures ChangePassword(w, "", newPassword, "") == (Alerted(w, MissingPrefix + OldField + ", " + ConfirmField, ""), false)
  {
    var missing := MissingFields("", newPassword, "");
    assert missing == [OldField, ConfirmField];
    JoinPair(OldField, ConfirmField, ", ");
    assert MissingPrefix + Join(missing, ", ") == MissingPrefix + OldField + ", " + ConfirmField;
  }

  lemma JoinPair(a: string, b: string, sep: string)
    ensures Join([a, b], sep) == a + sep + b
  {
    assert [a, b][1..] == [b];
  }

  /** Once the request has been tried, the fields are emptied whatever came back. */
  lemma AttemptAlwaysResets(w: World, oldPassword: string, newPassword: string)
    requires oldPassword != "" && newPassword != ""
    ensures ChangePassword(w, oldPassword, newPassword, newPassword).1
  {
  }

  /** A truthy `error` wins over `errors`. */
  lemma ChangeMessagePrefersError(e: string, errors: Json)
    requires e != ""
    ensures ChangeMessage(Encoded(JObj(map["error" := JStr(e), "errors" := errors]))) == e
  {
    assert Prop(JObj(map["error" := JStr(e), "errors" := errors]), "error") == Val(JStr(e));
  }

  /** Without `error`, an array of texts under `errors` is shown joined by ", ". */
  lemma ChangeMessageJoinsErrors(items: seq<string>)
    ensures ChangeMessage(Encoded(JObj(map["errors" := JArr(TextArray(items))]))) == Join(items, ", ")
  {
    var data := JObj(map["errors" := JArr(TextArray(items))]);
    assert Prop(data, "errors") == Val(JArr(TextArray(items)));
    assert Prop(data, "error") == Undef;
    assert ChangeMessage(Encoded(data)) == ArrayJoin(TextArray(items), ", ");
    JoinTexts(items, ", ");
  }

  /** Neither field, or a body that is not JSON, gives the default message. */
  lemma ChangeMessageDefault(raw: string)
    ensures ChangeMessage(Encoded(JObj(map[]))) == ChangeDefault
    ensures ChangeMessage(Encoded(JNull)) == ChangeDefault
    ensures ChangeMessage(Malformed(raw)) == ChangeDefault
  {
  }

  /** A JSON array holding the given texts. */
  function TextArray(items: seq<string>): (arr: seq<Json>)
    ensures |arr| == |items| && forall k :: 0 <= k < |items| ==> arr[k] == JStr(items[k])
  {
    seq(|items|, k requires 0 <= k < |items| => JStr(items[k]))
  }

  /** Joining an array of texts is joining the texts. */
  lemma JoinTexts(items: seq<string>, sep: string)
    ensures ArrayJoin(TextArray(items), sep) == Join(items, sep)
  {
    var arr := TextArray(items);
    var texts := seq(|arr|, k requires 0 <= k < |arr| => ItemText(arr[k], JsToString(arr[k])));
    assert texts == items by {
      forall k | 0 <= k < |items|
        ensures texts[k] == items[k]
      {
        assert arr[k] == JStr(items[k]);
      }
    }
  }
}
