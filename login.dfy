/** The Login component (client/src/components/Login.jsx): the form state, the
    field change handler and the submit handler, which stores the session in
    localStorage and hands the user to the App. The server's answer and
    `JSON.stringify` are parameters. */
module Login {
  import opened Strings
  import opened Js
  import App
  import AuthRoutes

  const EmptyFields: string := "Please enter both email and password."
  const LoginOk: string := "Login successful. Redirecting..."
  const TokenMissing: string := "Login failed: Token data missing from server response."
  const CredentialsFailed: string := "Login failed. Please check your credentials."
  const NetworkError: string := "A network connection error occurred. Could not reach the server."

  /** The session fields of a successful login answer. */
  datatype Session = Session(token: Json, expiresAt: Json, user: Json)

  /** The destructuring of the answer AS WRITTEN: `{ user, token, expiresAt }`,
      all three truthy. */
  function ReadSessionAsWritten(data: Json): (r: Option<Session>)
    ensures r.Some? <==> FieldTruthy(data, "token") && FieldTruthy(data, "expiresAt") && FieldTruthy(data, "user")
    ensures r.Some? ==> r.value == Session(data.fields["token"], data.fields["expiresAt"], data.fields["user"])
  {
    if FieldTruthy(data, "token") && FieldTruthy(data, "expiresAt") && FieldTruthy(data, "user") then
      Some(Session(data.fields["token"], data.fields["expiresAt"], data.fields["user"]))
    else None
  }

  /** The destructuring with the keys the server sends: `{ user, accessToken, tokenExpiresAt }`. */
  function ReadSession(data: Json): (r: Option<Session>)
    ensures r.Some? <==> FieldTruthy(data, "accessToken") && FieldTruthy(data, "tokenExpiresAt") && FieldTruthy(data, "user")
    ensures r.Some? ==> r.value == Session(data.fields["accessToken"], data.fields["tokenExpiresAt"], data.fields["user"])
  {
    if FieldTruthy(data, "accessToken") && FieldTruthy(data, "tokenExpiresAt") && FieldTruthy(data, "user") then
      Some(Session(data.fields["accessToken"], data.fields["tokenExpiresAt"], data.fields["user"]))
    else None
  }

  /** As written, no successful login answer of the server is ever accepted: it has
      no `token` key, so the client always reports missing token data. */
  lemma AsWrittenRejectsEveryLogin(userId: int, row: AuthRoutes.UserRow, issued: AuthRoutes.IssuedToken)
    ensures ReadSessionAsWritten(AuthRoutes.LoginSuccessBody(userId, row, issued)) == None
  {
    var body := AuthRoutes.LoginSuccessBody(userId, row, issued);
    assert "token" !in body.fields;
  }

  /** With the server's keys, a successful login answer yields its token, its expiry and the user projection. */
  lemma ReadsServerSession(userId: int, row: AuthRoutes.UserRow, issued: AuthRoutes.IssuedToken)
    requires issued.token != "" && issued.expiresAt != 0
    ensures ReadSession(AuthRoutes.LoginSuccessBody(userId, row, issued))
      == Some(Session(JStr(issued.token), JNum(issued.expiresAt), AuthRoutes.UserProjection(userId, row)))
  {
    var body := AuthRoutes.LoginSuccessBody(userId, row, issued);
    assert FieldTruthy(body, "accessToken") && FieldTruthy(body, "tokenExpiresAt") && FieldTruthy(body, "user");
  }

  /** The three `localStorage.setItem` calls: `String(token)`, `String(expiresAt)`, `JSON.stringify(user)`. */
  function StoreSession(storage: map<string, string>, s: Session, stringify: Json -> string): (r: map<string, string>)
    ensures r.Keys == storage.Keys + App.SessionKeys
    ensures r[App.TokenKey] == ToJsString(s.token) && r[App.ExpiryKey] == ToJsString(s.expiresAt)
    ensures r[App.UserKey] == stringify(s.user)
    ensures forall k :: k in storage && k !in App.SessionKeys ==> r[k] == storage[k]
  {
    storage[App.TokenKey := ToJsString(s.token)][App.ExpiryKey := ToJsString(s.expiresAt)][App.UserKey := stringify(s.user)]
  }

  /** The expiry written by StoreSession reads back as the number it was. */
  lemma StoredExpiryReadsBack(storage: map<string, string>, token: string, expiresAt: int, user: Json,
                              stringify: Json -> string)
    ensures App.StoredExpiry(StoreSession(storage, Session(JStr(token), JNum(expiresAt), user), stringify)) == Finite(expiresAt)
  {
    var stored := StoreSession(storage, Session(JStr(token), JNum(expiresAt), user), stringify);
    App.StoredExpiryOfNumber(stored, expiresAt);
  }

  /** A stored session whose numeric expiry is still ahead is restored by the next
      page load, provided `JSON.parse` reads back what `JSON.stringify` wrote. */
  lemma StoredSessionSurvivesReload(storage: map<string, string>, token: string, expiresAt: int, user: Json, nowMs: int,
                                    parse: string -> Option<Json>, stringify: Json -> string)
    requires expiresAt != 0 && expiresAt > nowMs
    requires stringify(user) != "" && parse(stringify(user)) == Some(user)
    ensures var stored := StoreSession(storage, Session(JStr(token), JNum(expiresAt), user), stringify);
      App.InitialState(stored, nowMs, parse) == App.Startup(user, stored)
  {
    var stored := StoreSession(storage, Session(JStr(token), JNum(expiresAt), user), stringify);
    StoredExpiryReadsBack(storage, token, expiresAt, user, stringify);
    App.RestoredWhenLive(stored, nowMs, parse, user);
  }

  /** Login followed by a reload: the session the server issues, stored under the
      server's keys, brings the same user back while the token is live. */
  lemma LoginSurvivesReload(storage: map<string, string>, userId: int, row: AuthRoutes.UserRow,
                            issued: AuthRoutes.IssuedToken, nowMs: int,
                            parse: string -> Option<Json>, stringify: Json -> string)
    requires issued.token != "" && issued.expiresAt > nowMs && issued.expiresAt != 0
    requires var u := AuthRoutes.UserProjection(userId, row); stringify(u) != "" && parse(stringify(u)) == Some(u)
    ensures ReadSession(AuthRoutes.LoginSuccessBody(userId, row, issued)).Some?
    ensures var s := ReadSession(AuthRoutes.LoginSuccessBody(userId, row, issued)).value;
      var stored := StoreSession(storage, s, stringify);
      App.InitialState(stored, nowMs, parse) == App.Startup(AuthRoutes.UserProjection(userId, row), stored)
  {
    ReadsServerSession(userId, row, issued);
    var s := Session(JStr(issued.token), JNum(issued.expiresAt), AuthRoutes.UserProjection(userId, row));
    StoredSessionSurvivesReload(storage, issued.token, issued.expiresAt, s.user, nowMs, parse, stringify);
  }

  /** The request body `{ email, password }`. */
  function RequestBody(email: string, password: string): (j: Json)
    ensures j.JObj? && j.fields.Keys == {"email", "password"}
    ensures j.fields["email"] == JStr(email) && j.fields["password"] == JStr(password)
  {
    JObj(map["email" := JStr(email), "password" := JStr(password)])
  }

  /** The server's reading of that body is the form's two fields. */
  function ServerRequest(email: string, password: string): (r: AuthRoutes.LoginRequest)
    ensures RequestBody(email, password).fields["email"] == JStr(r.email)
    ensures RequestBody(email, password).fields["password"] == JStr(r.password)
  {
    AuthRoutes.LoginRequest(email, password)
  }

  datatype Field = Email | Password

  class LoginForm {
    var email: string
    var password: string
    var error: string
    var success: string
    var loading: bool

    constructor ()
      ensures email == "" && password == "" && error == "" && success == "" && !loading
    {
      email, password, error, success, loading := "", "", "", "", false;
    }

    /** handleChange: the named field takes the value, both messages are cleared. */
    method HandleChange(field: Field, value: string)
      modifies this
      ensures field == Email ==> email == value && password == old(password)
      ensures field == Password ==> password == value && email == old(email)
      ensures error == "" && success == "" && loading == old(loading)
    {
      match field {
        case Email => email := value;
        case Password => password := value;
      }
      error := "";
      success := "";
    }

    /** handleSubmit as written: the answer is destructured as `{ user, token, expiresAt }`.
        `answer` is what the POST to /api/auth/login yields; `request` is the body
        sent, None when nothing is sent. A null body cannot be destructured and
        lands in the catch, like a network failure. */
    method HandleSubmit(app: App.Browser, answer: Outcome, stringify: Json -> string) returns (request: Option<Json>)
      modifies this, app
      ensures email == old(email) && password == old(password)
      ensures old(email) == "" || old(password) == "" ==>
        && request == None && error == EmptyFields
        && success == old(success) && loading == old(loading)
        && app.storage == old(app.storage) && app.user == old(app.user)
      ensures old(email) != "" && old(password) != "" ==>
        && request == Some(RequestBody(email, password))
        && match answer
           case NoResponse =>
             && error == NetworkError && !loading && success == old(success)
             && app.storage == old(app.storage) && app.user == old(app.user)
           case Answered(r) =>
             if r.body == JNull then
               && error == NetworkError && !loading && success == old(success)
               && app.storage == old(app.storage) && app.user == old(app.user)
             else if !IsOk(r.status) then
               && error == ErrorOr(r.body, CredentialsFailed) && !loading && success == old(success)
               && app.storage == old(app.storage) && app.user == old(app.user)
             else
               match ReadSessionAsWritten(r.body)
               case None =>
                 && error == TokenMissing && !loading && success == old(success)
                 && app.storage == old(app.storage) && app.user == old(app.user)
               case Some(s) =>
                 && error == "" && success == LoginOk && loading
                 && app.storage == StoreSession(old(app.storage), s, stringify)
                 && app.user == s.user
    {
      if email == "" || password == "" {
        error := EmptyFields;
        return None;
      }
      error := "";
      loading := true;
      request := Some(RequestBody(email, password));

      if answer.NoResponse? || answer.response.body == JNull {
        error := NetworkError;
        loading := false;
        return;
      }
      var data := answer.response.body;
      if IsOk(answer.response.status) {
        var session := ReadSessionAsWritten(data);
        if session.Some? {
          var s := session.value;
          app.storage := app.storage[App.TokenKey := ToJsString(s.token)];
          app.storage := app.storage[App.ExpiryKey := ToJsString(s.expiresAt)];
          app.storage := app.storage[App.UserKey := stringify(s.user)];
          success := LoginOk;
          app.HandleLoginSuccess(s.user);
        } else {
          error := TokenMissing;
          loading := false;
        }
      } else {
        error := ErrorOr(data, CredentialsFailed);
        loading := false;
      }
    }
  }

  /** The as-written handler meets a real login: every successful answer of the
      server ends in the missing-token error, with storage and the App's user untouched. */
  method ServerLoginShowsTokenMissing(form: LoginForm, app: App.Browser, status: int, userId: int,
                                      row: AuthRoutes.UserRow, issued: AuthRoutes.IssuedToken,
                                      stringify: Json -> string)
    returns (request: Option<Json>)
    requires form.email != "" && form.password != "" && IsOk(status)
    modifies form, app
    ensures request == Some(RequestBody(form.email, form.password))
    ensures form.error == TokenMissing && !form.loading && form.success == old(form.success)
    ensures app.storage == old(app.storage) && app.user == old(app.user)
  {
    AsWrittenRejectsEveryLogin(userId, row, issued);
    var body := AuthRoutes.LoginSuccessBody(userId, row, issued);
    request := form.HandleSubmit(app, Answered(Response(status, body)), stringify);
  }
}
