/** The signup form (client/src/features/Auth/Signup.jsx): the built-in role
    table sorted by id with its default role, the change handler, and the submit
    handler that splits the full name into the first and last names the server
    expects. The server's answer is a parameter. */
module Signup {
  import opened Strings
  import opened Js
  import AuthRoutes

  const Mismatch: string := "Passwords do not match."
  const RegistrationFailed: string := "Registration failed due to a server error."
  const NetworkError: string := "A network connection error occurred. Could not reach the server."

  /** The success message for a created user. */
  function SuccessText(username: string): (r: string)
    ensures |r| == |username| + 23 && r[14..14 + |username|] == username
  {
    "Success! User " + username + " created."
  }

  datatype Role = Role(id: int, name: string)

  /** The role table the form loads, in the order it is written. */
  const BuiltInRoles: seq<Role> := [
    Role(1, "System Administrator"),
    Role(6, "Data Entry Clerk"),
    Role(2, "Purchasing Agent"),
    Role(3, "Sales Manager"),
    Role(4, "Warehouse Clerk"),
    Role(5, "Executive / Analyst")]

  /** The role preselected when the roles load. */
  const PreferredRoleId: int := 6

  // ---------------------------------------------------------------- roles

  predicate SortedById(roles: seq<Role>) {
    forall i, j :: 0 <= i < j < |roles| ==> roles[i].id <= roles[j].id
  }

  /** Inserts `r` before the first role with a larger id. */
  function InsertById(r: Role, sorted: seq<Role>): (out: seq<Role>)
    requires SortedById(sorted)
    ensures SortedById(out)
    ensures multiset(out) == multiset(sorted) + multiset{r}
    ensures out[0] == r || out[0] == sorted[0]
  {
    if |sorted| == 0 then [r]
    else if r.id <= sorted[0].id then [r] + sorted
    else
      var rest := InsertById(r, sorted[1..]);
      assert sorted == [sorted[0]] + sorted[1..];
      assert sorted[0].id <= rest[0].id;
      [sorted[0]] + rest
  }

  /** `roles.sort((a, b) => a.id - b.id)`: ascending ids, the same roles. */
  function SortById(roles: seq<Role>): (r: seq<Role>)
    ensures SortedById(r)
    ensures multiset(r) == multiset(roles)
  {
    if |roles| == 0 then []
    else
      assert roles == [roles[0]] + roles[1..];
      InsertById(roles[0], SortById(roles[1..]))
  }

  /** `roles.find(r => r.id === 6)?.id || roles[0].id`. */
  function DefaultRoleId(roles: seq<Role>): (id: int)
    requires |roles| > 0
    ensures (exists i :: 0 <= i < |roles| && roles[i].id == PreferredRoleId) ==> id == PreferredRoleId
    ensures (forall i :: 0 <= i < |roles| ==> roles[i].id != PreferredRoleId) ==> id == roles[0].id
  {
    if exists i | 0 <= i < |roles| :: roles[i].id == PreferredRoleId then PreferredRoleId else roles[0].id
  }

  /** The built-in table holds role 6, so a freshly loaded form preselects it. */
  lemma BuiltInDefaultIsPreferred()
    ensures |SortById(BuiltInRoles)| == |BuiltInRoles|
    ensures DefaultRoleId(SortById(BuiltInRoles)) == PreferredRoleId
  {
    var sorted := SortById(BuiltInRoles);
    assert Role(6, "Data Entry Clerk") in multiset(BuiltInRoles);
    assert Role(6, "Data Entry Clerk") in multiset(sorted);
    assert |sorted| == |multiset(sorted)| == |multiset(BuiltInRoles)| == |BuiltInRoles|;
  }

  // ---------------------------------------------------------------- names

  /** `fullName.split(' ')`: the text before the first space, and the remaining pieces rejoined with spaces. */
  function SplitName(fullName: string): (r: (string, string))
    ensures ' ' !in r.0
    ensures ' ' !in fullName ==> r == (fullName, "")
  {
    var parts := Split(fullName, ' ');
    (parts[0], Join(parts[1..], ' '))
  }

  /** The server's `${firstName} ${lastName}` gives back the full name whenever it holds a space. */
  lemma SplitNameRoundTrip(fullName: string)
    requires ' ' in fullName
    ensures AuthRoutes.FullName(SplitName(fullName).0, SplitName(fullName).1) == fullName
  {
    HeadAndRest(fullName, ' ');
  }

  // ---------------------------------------------------------------- form

  /** The role field: '' before the roles load, then a number (NaN when parseInt fails). */
  datatype RoleInput = NoRole | RoleNumber(v: JsNum)

  /** `roleId` as the server sees it after JSON.stringify: '' and NaN (sent as null) and 0 are all missing. */
  function ServerRoleId(role: RoleInput): (r: Option<int>)
    ensures r.Some? ==> role == RoleNumber(Finite(r.value))
    ensures role.RoleNumber? && role.v.Finite? ==> r == Some(role.v.n)
  {
    match role
    case NoRole => None
    case RoleNumber(v) => if v.Finite? then Some(v.n) else None
  }

  datatype Field = Username | FullNameField | EmailField | PasswordField | ConfirmPasswordField | RoleIdField

  /** `formData`: the six inputs of the form. */
  datatype FormData = FormData(username: string, fullName: string, email: string, password: string,
                               confirmPassword: string, roleId: RoleInput)

  const EmptyForm: FormData := FormData("", "", "", "", "", NoRole)

  /** `{ ...prevData, [name]: name === 'roleId' ? parseInt(value, 10) : value }`:
      the named field takes the value (roleId its parseInt), the others keep theirs. */
  function WithField(d: FormData, field: Field, value: string): (r: FormData)
    ensures r.username == (if field == Username then value else d.username)
    ensures r.fullName == (if field == FullNameField then value else d.fullName)
    ensures r.email == (if field == EmailField then value else d.email)
    ensures r.password == (if field == PasswordField then value else d.password)
    ensures r.confirmPassword == (if field == ConfirmPasswordField then value else d.confirmPassword)
    ensures r.roleId == (if field == RoleIdField then RoleNumber(ParseInt(value)) else d.roleId)
  {
    match field
    case Username => d.(username := value)
    case FullNameField => d.(fullName := value)
    case EmailField => d.(email := value)
    case PasswordField => d.(password := value)
    case ConfirmPasswordField => d.(confirmPassword := value)
    case RoleIdField => d.(roleId := RoleNumber(ParseInt(value)))
  }

  /** Edits of two different inputs commute: the form does not depend on the order they are typed in. */
  lemma ChangesCommute(d: FormData, f: Field, v: string, g: Field, w: string)
    requires f != g
    ensures WithField(WithField(d, f, v), g, w) == WithField(WithField(d, g, w), f, v)
  {
  }

  /** A second edit of the same input replaces the first. */
  lemma LastChangeWins(d: FormData, f: Field, v: string, w: string)
    ensures WithField(WithField(d, f, v), f, w) == WithField(d, f, w)
  {
  }

  /** The request handleSubmit sends for the form's fields. */
  function RequestOf(d: FormData): (r: AuthRoutes.SignupRequest)
    ensures r.username == d.username && r.email == d.email && r.password == d.password
    ensures (r.firstName, r.lastName) == SplitName(d.fullName)
    ensures r.roleId == ServerRoleId(d.roleId)
  {
    var (firstName, lastName) := SplitName(d.fullName);
    AuthRoutes.SignupRequest(d.username, d.email, d.password, firstName, lastName, ServerRoleId(d.roleId))
  }

  class SignupForm {
    var formData: FormData
    var roles: seq<Role>
    var error: string
    var success: string
    var loading: bool

    /** The first render: empty fields, no roles, loading. */
    constructor ()
      ensures formData == EmptyForm && roles == [] && error == "" && success == "" && loading
    {
      formData, roles := EmptyForm, [];
      error, success, loading := "", "", true;
    }

    /** The mount effect: sort the role table and preselect the default role. */
    method LoadRoles(rolesData: seq<Role>)
      modifies this
      ensures roles == SortById(rolesData) && !loading
      ensures |rolesData| > 0 ==> formData == old(formData).(roleId := RoleNumber(Finite(DefaultRoleId(roles))))
      ensures |rolesData| == 0 ==> formData == old(formData)
      ensures error == old(error) && success == old(success)
    {
      roles := SortById(rolesData);
      if |roles| > 0 {
        formData := formData.(roleId := RoleNumber(Finite(DefaultRoleId(roles))));
      } else {
        assert multiset(roles) == multiset(rolesData);
      }
      loading := false;
    }

    /** handleChange: the edited input changes as WithField says; both messages clear. */
    method HandleChange(field: Field, value: string)
      modifies this
      ensures formData == WithField(old(formData), field, value)
      ensures error == "" && success == "" && roles == old(roles) && loading == old(loading)
    {
      formData := WithField(formData, field, value);
      error := "";
      success := "";
    }

    /** handleSubmit. `request` is what is posted, None when the passwords differ. */
    method HandleSubmit(answer: Outcome) returns (request: Option<AuthRoutes.SignupRequest>)
      modifies this
      ensures roles == old(roles)
      ensures old(formData.password) != old(formData.confirmPassword) ==>
        && request == None && error == Mismatch
        && success == old(success) && loading == old(loading) && formData == old(formData)
      ensures old(formData.password) == old(formData.confirmPassword) ==>
        && request == Some(RequestOf(old(formData)))
        && !loading
        && if answer.Answered? && answer.response.body != JNull && IsOk(answer.response.status) then
             && success == SuccessText(Template(Get(answer.response.body, "username")))
             && error == ""
             && formData == EmptyForm.(roleId := old(formData.roleId))
           else
             && success == old(success)
             && formData == old(formData)
             && error == (if answer.NoResponse? || answer.response.body == JNull then NetworkError
                          else ErrorOr(answer.response.body, RegistrationFailed))
    {
      if formData.password != formData.confirmPassword {
        error := Mismatch;
        return None;
      }
      error := "";
      loading := true;
      request := Some(RequestOf(formData));

      if answer.NoResponse? || answer.response.body == JNull {
        error := NetworkError;
      } else if IsOk(answer.response.status) {
        var data := answer.response.body;
        success := SuccessText(Template(Get(data, "username")));
        formData := EmptyForm.(roleId := formData.roleId);
      } else {
        error := ErrorOr(answer.response.body, RegistrationFailed);
      }
      loading := false;
    }
  }

  /** A full name without a space leaves the last name empty, which the server refuses. */
  lemma NoSpaceNameIsRefused(username: string, email: string, password: string, fullName: string, roleId: Option<int>)
    requires ' ' !in fullName
    ensures !AuthRoutes.SignupFieldsValid(
      AuthRoutes.SignupRequest(username, email, password, SplitName(fullName).0, SplitName(fullName).1, roleId))
  {
  }

  /** The 400 body of a refused signup shows its own message. */
  lemma RefusalText()
    ensures ErrorOr(Body("error", AuthRoutes.MissingDetails), RegistrationFailed) == AuthRoutes.MissingDetails
  {
    assert FieldTruthy(Body("error", AuthRoutes.MissingDetails), "error");
  }

  /** The 201 body of a signup has no `username`, so the template reads "undefined". */
  lemma CreatedText(message: string, id: int)
    ensures Template(Get(AuthRoutes.SignupCreatedBody(message, id), "username")) == "undefined"
  {
    assert "username" !in AuthRoutes.SignupCreatedBody(message, id).fields;
  }

  /** The 201 body with the created username added: the answer the form's
      `data.username` expects. */
  function NamedCreatedBody(message: string, id: int, username: string): (j: Json)
    ensures j.JObj? && j.fields.Keys == AuthRoutes.SignupCreatedBody(message, id).fields.Keys + {"username"}
    ensures Get(j, "username") == Some(JStr(username))
    ensures forall k :: k in AuthRoutes.SignupCreatedBody(message, id).fields && k != "username" ==>
      j.fields[k] == AuthRoutes.SignupCreatedBody(message, id).fields[k]
  {
    JObj(AuthRoutes.SignupCreatedBody(message, id).fields["username" := JStr(username)])
  }

  /** With the username in the answer, the success text names the user who was created. */
  lemma NamedBodyNamesUser(message: string, id: int, username: string)
    ensures SuccessText(Template(Get(NamedCreatedBody(message, id, username), "username"))) == SuccessText(username)
    ensures SuccessText(Template(Get(NamedCreatedBody(message, id, username), "username")))[14..14 + |username|] == username
  {
  }

  /** The form submitted to the signup route. A refused request leaves the table as
      it was and shows the server's message; an accepted one stores the full name
      the form held (when it has a space), and the success text reads "undefined"
      because the server's answer has no username. */
  method RegisterThroughServer(form: SignupForm, db: AuthRoutes.Database, hash: string -> string)
    requires db.Valid() && form.formData.password == form.formData.confirmPassword
    modifies form, db
    ensures !AuthRoutes.SignupFieldsValid(RequestOf(old(form.formData))) ==>
      db.users == old(db.users) && form.error == AuthRoutes.MissingDetails
    ensures AuthRoutes.SignupFieldsValid(RequestOf(old(form.formData)))
            && !AuthRoutes.EmailTaken(old(db.users), old(form.formData.email)) ==>
      && old(db.nextId) in db.users
      && (' ' in old(form.formData.fullName) ==> db.users[old(db.nextId)].fullName == old(form.formData.fullName))
      && form.success == SuccessText("undefined")
  {
    var fullName := form.formData.fullName;
    var req := RequestOf(form.formData);
    var resp := AuthRoutes.Signup(db, req, hash);
    var sent := form.HandleSubmit(Answered(resp));
    RefusalText();
    CreatedText(AuthRoutes.AdminCreated, old(db.nextId));
    CreatedText(AuthRoutes.UserRegistered, old(db.nextId));
    if ' ' in fullName {
      SplitNameRoundTrip(fullName);
    }
  }
}
