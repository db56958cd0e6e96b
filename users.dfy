/** The user administration page (client/src/features/Users/Users.jsx): row
    editing with a PATCH payload of the changed fields only, the merge of a saved
    row into the list, and the per-user status of password-reset requests. The
    answers of the PATCH and POST requests are parameters; the clearing timers are
    events of their own. */
module Users {
  import opened Strings
  import opened Js

  const OriginalMissing: string := "Original user data not found."
  const FullNameEmpty: string := "Full Name cannot be empty."
  const UsernameEmpty: string := "Username cannot be empty. (Not editable in current UI)"
  const EmailEmpty: string := "Email cannot be empty."
  const SendLinkFallback: string := "Failed to send link (Unknown Error)."

  /** A row of the list as the page holds it. */
  datatype UserView = UserView(id: int, fullName: string, username: string, email: string, roleId: JsNum, status: string)

  /** The role select's value: the row's number until the select changes it to text. */
  datatype RoleValue = RoleNum(n: int) | RoleText(s: string)

  /** The edited copy of a row's fields. */
  datatype EditData = EditData(fullName: string, username: string, email: string, roleId: RoleValue, status: string)

  /** `parseInt(editedData.roleId, 10)`. */
  function EditedRoleId(role: RoleValue): JsNum {
    match role
    case RoleNum(n) => Finite(n)
    case RoleText(s) => ParseInt(s)
  }

  /** A number in a JSON body: NaN is written as null. */
  function NumJson(x: JsNum): Json {
    if x.Finite? then JNum(x.n) else JNull
  }

  // ---------------------------------------------------------------- the patch

  const PayloadKeys: set<string> := {"full_name", "username", "email", "role_id", "status"}

  /** Whether the field behind a payload key differs between the edit and the original. */
  predicate FieldChanged(orig: UserView, edited: EditData, key: string) {
    match key
    case "full_name" => edited.fullName != orig.fullName
    case "username" => edited.username != orig.username
    case "email" => edited.email != orig.email
    case "role_id" => !StrictEq(EditedRoleId(edited.roleId), orig.roleId)
    case "status" => edited.status != orig.status
    case _ => false
  }

  /** The value a payload key carries. */
  function FieldValue(edited: EditData, key: string): Json {
    match key
    case "full_name" => JStr(edited.fullName)
    case "username" => JStr(edited.username)
    case "email" => JStr(edited.email)
    case "role_id" => NumJson(EditedRoleId(edited.roleId))
    case _ => JStr(edited.status)
  }

  /** The first changed text field that is empty or white space only, in the order
      full name, username, email, with its message. */
  function FirstBlankChange(orig: UserView, edited: EditData): (r: Option<string>)
    ensures r.Some? ==> r.value in {FullNameEmpty, UsernameEmpty, EmailEmpty}
  {
    if edited.fullName != orig.fullName && IsBlank(edited.fullName) then Some(FullNameEmpty)
    else if edited.username != orig.username && IsBlank(edited.username) then Some(UsernameEmpty)
    else if edited.email != orig.email && IsBlank(edited.email) then Some(EmailEmpty)
    else None
  }

  /** What a save attempt does once the original row is known. */
  datatype SavePlan = Invalid(message: string) | NoChanges | Patch(payload: map<string, Json>)

  /** The changed fields only, each under its key with its edited value. */
  function ExpectedPayload(orig: UserView, edited: EditData): (p: map<string, Json>)
    ensures p.Keys <= PayloadKeys
    ensures forall k :: k in PayloadKeys ==> (k in p <==> FieldChanged(orig, edited, k))
  {
    map k | k in PayloadKeys && FieldChanged(orig, edited, k) :: FieldValue(edited, k)
  }

  /** Step 1 of handleSave: compare field by field, building the payload and the
      changesMade flag, and stop at the first changed field that is blank. */
  method BuildPatch(orig: UserView, edited: EditData) returns (plan: SavePlan)
    ensures FirstBlankChange(orig, edited).Some? ==> plan == Invalid(FirstBlankChange(orig, edited).value)
    ensures FirstBlankChange(orig, edited).None? && ExpectedPayload(orig, edited) == map[] ==> plan == NoChanges
    ensures FirstBlankChange(orig, edited).None? && ExpectedPayload(orig, edited) != map[] ==>
      plan == Patch(ExpectedPayload(orig, edited))
  {
    var payload: map<string, Json> := map[];
    var changesMade := false;
    ghost var lastKey := "";

    if edited.fullName != orig.fullName {
      if IsBlank(edited.fullName) {
        return Invalid(FullNameEmpty);
      }
      payload := payload["full_name" := JStr(edited.fullName)];
      changesMade := true;
      lastKey := "full_name";
    }
    if edited.username != orig.username {
      if IsBlank(edited.username) {
        return Invalid(UsernameEmpty);
      }
      payload := payload["username" := JStr(edited.username)];
      changesMade := true;
      lastKey := "username";
    }
    if edited.email != orig.email {
      if IsBlank(edited.email) {
        return Invalid(EmailEmpty);
      }
      payload := payload["email" := JStr(edited.email)];
      changesMade := true;
      lastKey := "email";
    }
    var newRoleId := EditedRoleId(edited.roleId);
    if !StrictEq(newRoleId, orig.roleId) {
      payload := payload["role_id" := NumJson(newRoleId)];
      changesMade := true;
      lastKey := "role_id";
    }
    if edited.status != orig.status {
      payload := payload["status" := JStr(edited.status)];
      changesMade := true;
      lastKey := "status";
    }

    assert changesMade ==> lastKey in payload;
    assert payload == ExpectedPayload(orig, edited) by {
      assert payload.Keys == ExpectedPayload(orig, edited).Keys;
    }
    if !changesMade {
      return NoChanges;
    }
    return Patch(payload);
  }

  /** The saved row: the original, overwritten by the edited fields, with the parsed role id. */
  function Merged(u: UserView, edited: EditData): (r: UserView)
    ensures r.id == u.id && r.roleId == EditedRoleId(edited.roleId)
    ensures r.fullName == edited.fullName && r.username == edited.username
    ensures r.email == edited.email && r.status == edited.status
  {
    UserView(u.id, edited.fullName, edited.username, edited.email, EditedRoleId(edited.roleId), edited.status)
  }

  /** `users.map(u => u.id === userId ? {...u, ...editedData, roleId} : u)`. */
  function MergeRow(users: seq<UserView>, userId: int, edited: EditData): (r: seq<UserView>)
    ensures |r| == |users|
    ensures forall i :: 0 <= i < |users| && users[i].id == userId ==> r[i] == Merged(users[i], edited)
    ensures forall i :: 0 <= i < |users| && users[i].id != userId ==> r[i] == users[i]
  {
    if |users| == 0 then []
    else
      var head := if users[0].id == userId then Merged(users[0], edited) else users[0];
      var rest := MergeRow(users[1..], userId, edited);
      assert forall i :: 1 <= i < |users| ==> users[i] == users[1..][i - 1];
      [head] + rest
  }

  /** `users.find(u => u.id === userId)`. */
  function FindUser(users: seq<UserView>, userId: int): (r: Option<UserView>)
    ensures r.None? <==> forall i :: 0 <= i < |users| ==> users[i].id != userId
    ensures r.Some? ==> exists i :: 0 <= i < |users| && users[i] == r.value && users[i].id == userId &&
                                    forall j :: 0 <= j < i ==> users[j].id != userId
  {
    if |users| == 0 then None
    else if users[0].id == userId then Some(users[0])
    else
      var r := FindUser(users[1..], userId);
      assert forall i :: 1 <= i < |users| ==> users[i] == users[1..][i - 1];
      if r.Some? then
        var k :| 0 <= k < |users[1..]| && users[1..][k] == r.value && users[1..][k].id == userId &&
                 forall j :: 0 <= j < k ==> users[1..][j].id != userId;
        assert users[k + 1] == r.value;
        r
      else r
  }

  // ---------------------------------------------------------------- reset links

  /** The per-user reset status; `None` in the map is null. */
  datatype SendStatus = Sending | Sent | Failed

  datatype Editing = Editing(id: int, data: EditData)

  class UsersPage {
    var users: seq<UserView>
    var editing: Option<Editing>
    var isSaving: bool
    /** The page's error line; `None` is null. */
    var error: Option<string>
    /** `resetStatus[userId]`. */
    var resetStatus: map<int, Option<SendStatus>>
    /** `resetStatus['error_' + userId]`. */
    var resetErrors: map<int, Option<string>>

    constructor (users: seq<UserView>)
      ensures this.users == users && editing == None && !isSaving && error == None
      ensures resetStatus == map[] && resetErrors == map[]
    {
      this.users := users;
      editing, isSaving, error := None, false, None;
      resetStatus, resetErrors := map[], map[];
    }

    /** handleEdit: start editing a copy of the row, clear the error. */
    method HandleEdit(u: UserView)
      modifies this
      ensures editing == Some(Editing(u.id, EditData(u.fullName, u.username, u.email, RoleNumOf(u.roleId), u.status)))
      ensures error == None && SendLinkDisabled()
      ensures users == old(users) && isSaving == old(isSaving)
      ensures resetStatus == old(resetStatus) && resetErrors == old(resetErrors)
    {
      editing := Some(Editing(u.id, EditData(u.fullName, u.username, u.email, RoleNumOf(u.roleId), u.status)));
      error := None;
    }

    method HandleCancel()
      modifies this
      ensures editing == None && !SendLinkDisabled()
      ensures users == old(users) && isSaving == old(isSaving) && error == old(error)
      ensures resetStatus == old(resetStatus) && resetErrors == old(resetErrors)
    {
      editing := None;
    }

    /** handleSave. `answer` is the PATCH's outcome; `request` is the id and
        payload sent, None when nothing is sent. */
    method HandleSave(answer: Outcome) returns (request: Option<(int, map<string, Json>)>)
      modifies this
      ensures old(editing).Some? ==> !isSaving
      ensures old(editing).None? ==> isSaving == old(isSaving)
      ensures resetStatus == old(resetStatus) && resetErrors == old(resetErrors)
      ensures old(editing).None? ==> request == None && users == old(users) && editing == old(editing) && error == old(error)
      ensures old(editing).Some? ==>
        var e := old(editing).value;
        match FindUser(old(users), e.id)
        case None =>
          && request == None && error == Some(OriginalMissing)
          && users == old(users) && editing == old(editing)
        case Some(orig) =>
          if FirstBlankChange(orig, e.data).Some? then
            && request == None && error == FirstBlankChange(orig, e.data)
            && users == old(users) && editing == old(editing)
          else if ExpectedPayload(orig, e.data) == map[] then
            && request == None && error == None && users == old(users) && editing == None
          else
            && request == Some((e.id, ExpectedPayload(orig, e.data)))
            && if answer.Answered? && IsOk(answer.response.status) then
                 && users == MergeRow(old(users), e.id, e.data)
                 && editing == None && error == None
               else
                 && users == old(users) && editing == old(editing)
                 && error == Some(AxiosErrorText(answer, "Failed to update user " + NumberToString(e.id) + "."))
    {
      request := None;
      if editing.None? {
        return;
      }
      var userId := editing.value.id;
      var editedData := editing.value.data;
      isSaving := true;
      error := None;

      var originalUser := FindUser(users, userId);
      if originalUser.None? {
        isSaving := false;
        error := Some(OriginalMissing);
        return;
      }
      var plan := BuildPatch(originalUser.value, editedData);
      match plan {
        case Invalid(message) =>
          isSaving := false;
          error := Some(message);
        case NoChanges =>
          editing := None;
          isSaving := false;
        case Patch(payload) =>
          request := Some((userId, payload));
          if answer.Answered? && IsOk(answer.response.status) {
            users := MergeRow(users, userId, editedData);
            editing := None;
          } else {
            error := Some(AxiosErrorText(answer, "Failed to update user " + NumberToString(userId) + "."));
          }
          isSaving := false;
      }
    }

    /** handleSendResetLink, up to the request: this user is 'sending' and its error is cleared. */
    method BeginSendResetLink(userId: int)
      modifies this
      ensures resetStatus == old(resetStatus)[userId := Some(Sending)]
      ensures resetErrors == old(resetErrors)[userId := None]
      ensures !SendLinkShown(userId)
      ensures users == old(users) && editing == old(editing) && isSaving == old(isSaving) && error == old(error)
    {
      resetStatus := resetStatus[userId := Some(Sending)];
      resetErrors := resetErrors[userId := None];
    }

    /** handleSendResetLink, after the request: 'success', or 'error' with the backend's message. */
    method FinishSendResetLink(userId: int, answer: Outcome)
      modifies this
      ensures answer.Answered? && IsOk(answer.response.status) ==>
        resetStatus == old(resetStatus)[userId := Some(Sent)] && resetErrors == old(resetErrors)
      ensures !(answer.Answered? && IsOk(answer.response.status)) ==>
        && resetStatus == old(resetStatus)[userId := Some(Failed)]
        && resetErrors == old(resetErrors)[userId := Some(AxiosErrorText(answer, SendLinkFallback))]
      ensures users == old(users) && editing == old(editing) && isSaving == old(isSaving) && error == old(error)
    {
      if answer.Answered? && IsOk(answer.response.status) {
        resetStatus := resetStatus[userId := Some(Sent)];
      } else {
        var backendError := AxiosErrorText(answer, SendLinkFallback);
        resetStatus := resetStatus[userId := Some(Failed)];
        resetErrors := resetErrors[userId := Some(backendError)];
      }
    }

    /** The 5-second timer after a success: this user's status goes back to null. */
    method ClearSentStatus(userId: int)
      modifies this
      ensures resetStatus == old(resetStatus)[userId := None] && resetErrors == old(resetErrors)
      ensures users == old(users) && editing == old(editing) && isSaving == old(isSaving) && error == old(error)
    {
      resetStatus := resetStatus[userId := None];
    }

    /** The 10-second timer after a failure: this user's status and error go back to null. */
    method ClearFailedStatus(userId: int)
      modifies this
      ensures resetStatus == old(resetStatus)[userId := None] && resetErrors == old(resetErrors)[userId := None]
      ensures users == old(users) && editing == old(editing) && isSaving == old(isSaving) && error == old(error)
    {
      resetStatus := resetStatus[userId := None];
      resetErrors := resetErrors[userId := None];
    }

    /** The Send Link button of a row is shown unless that row is 'sending'. */
    predicate SendLinkShown(userId: int)
      reads this
    {
      !(userId in resetStatus && resetStatus[userId] == Some(Sending))
    }

    /** The Send Link button is disabled while any row is being edited. */
    predicate SendLinkDisabled()
      reads this
    {
      editing.Some?
    }
  }

  /** The select's initial value is the row's own role number. */
  function RoleNumOf(x: JsNum): (r: RoleValue)
    ensures x.Finite? ==> EditedRoleId(r) == x
  {
    if x.Finite? then RoleNum(x.n) else RoleText("")
  }

  /** Editing a row and saving it untouched sends nothing. */
  lemma UntouchedEditHasNoPayload(u: UserView)
    requires u.roleId.Finite?
    ensures var e := EditData(u.fullName, u.username, u.email, RoleNumOf(u.roleId), u.status);
      FirstBlankChange(u, e) == None && ExpectedPayload(u, e) == map[]
  {
    var e := EditData(u.fullName, u.username, u.email, RoleNumOf(u.roleId), u.status);
    assert forall k :: k in PayloadKeys ==> !FieldChanged(u, e, k);
  }

  /** A successful send for one user leaves every other user's status and error as they were. */
  method SendForOneUser(page: UsersPage, userId: int, answer: Outcome)
    modifies page
    ensures forall other :: other != userId ==>
      && (other in page.resetStatus <==> other in old(page.resetStatus))
      && (other in page.resetStatus ==> page.resetStatus[other] == old(page.resetStatus)[other])
      && (other in page.resetErrors <==> other in old(page.resetErrors))
      && (other in page.resetErrors ==> page.resetErrors[other] == old(page.resetErrors)[other])
    ensures page.SendLinkShown(userId)
  {
    page.BeginSendResetLink(userId);
    page.FinishSendResetLink(userId, answer);
  }
}
