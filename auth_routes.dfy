/** The server's account routes (server/authRoutes.js): signup, with the one-time
    bootstrap-administrator rule, and login, which issues a one-hour JSON Web Token.
    bcrypt, jsonwebtoken and the clock are parameters: `hash`, `compare`, `sign`,
    `decode` and `nowMs`. The users and Roles tables are the fields of a Database
    object that the handlers update in place. */
module AuthRoutes {
  import opened Strings
  import opened Js

  /** A row of the users table. `email` is "" where the column is empty or NULL. */
  datatype UserRow = UserRow(
    username: string,
    email: string,
    passwordHash: string,
    fullName: string,
    roleId: int,
    resetToken: Option<string>,
    resetExpires: Option<int>)

  /** A row of the Roles table. */
  datatype RoleRow = RoleRow(roleId: int, roleName: string)

  const AdminRoleName: string := "System Administrator"

  /** Distinct accounts never share a non-empty email (the signup check keeps it so). */
  ghost predicate UniqueEmails(users: map<int, UserRow>) {
    forall a, b :: a in users && b in users && a != b && users[a].email != "" ==> users[a].email != users[b].email
  }

  class Database {
    /** The users table, by user_id. */
    var users: map<int, UserRow>
    /** The next value the user_id sequence hands out. */
    var nextId: int
    /** The Roles table, in storage order. */
    var roles: seq<RoleRow>

    ghost predicate Valid()
      reads this
    {
      && nextId >= 1
      && (forall id :: id in users ==> 1 <= id < nextId)
      && UniqueEmails(users)
    }

    constructor (roles: seq<RoleRow>)
      ensures Valid()
      ensures users == map[] && nextId == 1 && this.roles == roles
    {
      users := map[];
      nextId := 1;
      this.roles := roles;
    }
  }

  /** `SELECT role_id FROM Roles WHERE role_name = 'System Administrator'`, first row. */
  function AdminRoleId(roles: seq<RoleRow>): (r: Option<int>)
    ensures r.None? <==> forall i :: 0 <= i < |roles| ==> roles[i].roleName != AdminRoleName
    ensures r.Some? ==> exists i :: 0 <= i < |roles| && roles[i] == RoleRow(r.value, AdminRoleName)
  {
    if |roles| == 0 then None
    else if roles[0].roleName == AdminRoleName then Some(roles[0].roleId)
    else
      var r := AdminRoleId(roles[1..]);
      assert r.Some? ==> exists i :: 0 <= i < |roles[1..]| && roles[1..][i] == RoleRow(r.value, AdminRoleName);
      r
  }

  /** `SELECT * FROM Users WHERE email = $1` finds a row. */
  predicate EmailTaken(users: map<int, UserRow>, email: string) {
    exists id | id in users :: users[id].email == email
  }

  // ---------------------------------------------------------------- signup

  datatype SignupRequest = SignupRequest(
    username: string,
    email: string,
    password: string,
    firstName: string,
    lastName: string,
    roleId: Option<int>)   // None: missing, null or ""

  const MissingDetails: string :=
    "Please provide all required details (username, email, password, full name, and a role ID)."
  const EmailExists: string := "User with that email already exists."
  const AdminCreated: string := "Initial System Administrator account created successfully."
  const UserRegistered: string := "User registered successfully."

  /** The guard of the signup route: every field truthy and a password of at least 6 characters. */
  predicate SignupFieldsValid(req: SignupRequest) {
    && req.username != "" && req.email != "" && req.password != ""
    && req.firstName != "" && req.lastName != ""
    && req.roleId.Some? && req.roleId.value != 0
    && |req.password| >= 6
  }

  /** The stored display name, `${firstName} ${lastName}`. */
  function FullName(firstName: string, lastName: string): (r: string)
    ensures |r| == |firstName| + 1 + |lastName| && r[|firstName|] == ' '
    ensures r[..|firstName|] == firstName && r[|firstName| + 1..] == lastName
  {
    firstName + " " + lastName
  }

  function SignupCreatedBody(message: string, userId: int): Json {
    JObj(map["message" := JStr(message), "user_id" := JNum(userId)])
  }

  /** Whether this signup is the bootstrap one: the table is empty and an administrator role exists. */
  predicate Elevates(users: map<int, UserRow>, roles: seq<RoleRow>) {
    |users| == 0 && AdminRoleId(roles).Some?
  }

  /** POST /signup. Validation, then inside one transaction: count the users, elevate
      the first account to the administrator role if that role exists, reject a
      duplicate email (ROLLBACK, nothing written), hash the password and insert one row. */
  method Signup(db: Database, req: SignupRequest, hash: string -> string) returns (resp: Response)
    requires db.Valid()
    modifies db
    ensures db.Valid() && db.roles == old(db.roles)
    ensures !SignupFieldsValid(req) ==>
      && resp == Response(400, Body("error", MissingDetails))
      && db.users == old(db.users) && db.nextId == old(db.nextId)
    ensures SignupFieldsValid(req) && EmailTaken(old(db.users), req.email) ==>
      && resp == Response(409, Body("error", EmailExists))
      && db.users == old(db.users) && db.nextId == old(db.nextId)
    ensures SignupFieldsValid(req) && !EmailTaken(old(db.users), req.email) ==>
      var id := old(db.nextId);
      var elevated := Elevates(old(db.users), old(db.roles));
      var role := if elevated then AdminRoleId(old(db.roles)).value else req.roleId.value;
      && id !in old(db.users)
      && db.users == old(db.users)[id := UserRow(req.username, req.email, hash(req.password),
                                                 FullName(req.firstName, req.lastName), role, None, None)]
      && |db.users| == |old(db.users)| + 1
      && db.nextId == id + 1
      && resp == Response(201, SignupCreatedBody(if elevated then AdminCreated else UserRegistered, id))
  {
    if !SignupFieldsValid(req) {
      resp := Response(400, Body("error", MissingDetails));
      return;
    }
    var fullName := FullName(req.firstName, req.lastName);
    var isAdminAssigned := false;
    var finalRoleId := req.roleId.value;

    // 1. The bootstrap check.
    var userCount := |db.users|;
    if userCount == 0 {
      var adminRole := AdminRoleId(db.roles);
      if adminRole.Some? {
        finalRoleId := adminRole.value;
        isAdminAssigned := true;
      }
    }

    // 2. An existing account with this email: ROLLBACK.
    if EmailTaken(db.users, req.email) {
      resp := Response(409, Body("error", EmailExists));
      return;
    }

    // 3. Hash, 4. insert, COMMIT.
    var passwordHash := hash(req.password);
    var id := db.nextId;
    db.users := db.users[id := UserRow(req.username, req.email, passwordHash, fullName, finalRoleId, None, None)];
    db.nextId := db.nextId + 1;
    resp := Response(201, SignupCreatedBody(if isAdminAssigned then AdminCreated else UserRegistered, id));
  }

  /** Two successful signups in a row: only the first can be the bootstrap administrator. */
  method BootstrapHappensOnce(db: Database, first: SignupRequest, second: SignupRequest, hash: string -> string)
    returns (r1: Response, r2: Response)
    requires db.Valid()
    modifies db
    ensures r1.status == 201 && r2.status == 201 ==>
      && r2.body == SignupCreatedBody(UserRegistered, old(db.nextId) + 1)
      && old(db.nextId) + 1 in db.users
      && Some(db.users[old(db.nextId) + 1].roleId) == second.roleId
  {
    r1 := Signup(db, first, hash);
    ghost var afterFirst := db.users;
    r2 := Signup(db, second, hash);
    if r1.status == 201 && r2.status == 201 {
      assert |afterFirst| >= 1;
    }
  }

  // ---------------------------------------------------------------- tokens

  /** The claims of a signed token: the payload built by generateAccessToken
      (sub, role, email) and the iat/exp that the signer adds, in seconds. */
  datatype Claims = Claims(sub: int, role: int, email: string, iat: int, exp: int)

  /** ACCESS_TOKEN_EXPIRY's default, '1h'. */
  const AccessTokenLifetimeSeconds: int := 3600

  /** The claims signed for a user at `nowMs`: iat is the current time in whole
      seconds (section 4.1.6 of RFC 7519) and exp one hour later (section 4.1.4). */
  function TokenClaims(userId: int, row: UserRow, nowMs: int): (c: Claims)
    ensures c.sub == userId && c.role == row.roleId && c.email == row.email
    ensures c.exp == c.iat + AccessTokenLifetimeSeconds
    ensures c.iat * 1000 <= nowMs < c.iat * 1000 + 1000
  {
    var iat := nowMs / 1000;
    Claims(userId, row.roleId, row.email, iat, iat + AccessTokenLifetimeSeconds)
  }

  datatype IssuedToken = IssuedToken(token: string, expiresAt: int)

  /** generateAccessToken: sign the claims, decode the token and turn its `exp`
      claim (seconds) into milliseconds. `None` when the token does not decode,
      where the source dereferences a null result and throws. */
  function GenerateAccessToken(userId: int, row: UserRow, nowMs: int,
                               sign: Claims -> string, decode: string -> Option<Claims>): (r: Option<IssuedToken>)
    ensures r.Some? <==> decode(sign(TokenClaims(userId, row, nowMs))).Some?
    ensures r.Some? ==>
      && r.value.token == sign(TokenClaims(userId, row, nowMs))
      && decode(r.value.token).Some? && r.value.expiresAt == 1000 * decode(r.value.token).value.exp
    ensures decode(sign(TokenClaims(userId, row, nowMs))) == Some(TokenClaims(userId, row, nowMs)) ==>
      && r.Some?
      && nowMs + 3599000 < r.value.expiresAt <= nowMs + 3600000
  {
    var token := sign(TokenClaims(userId, row, nowMs));
    match decode(token)
    case None => None
    case Some(decoded) => Some(IssuedToken(token, decoded.exp * 1000))
  }

  // ---------------------------------------------------------------- login

  datatype LoginRequest = LoginRequest(email: string, password: string)

  const CredentialsRequired: string := "Email and password are required."
  const InvalidCredentials: string := "Invalid credentials."
  const LoginServerError: string := "Server error during login. Check server console."

  const ProjectionKeys: set<string> := {"user_id", "username", "full_name", "role_id", "email"}

  /** The user object of a login answer. */
  function UserProjection(userId: int, row: UserRow): (j: Json)
    ensures j.JObj? && j.fields.Keys == ProjectionKeys
    ensures "password_hash" !in j.fields
    ensures j.fields["user_id"] == JNum(userId) && j.fields["username"] == JStr(row.username)
    ensures j.fields["full_name"] == JStr(row.fullName) && j.fields["role_id"] == JNum(row.roleId)
    ensures j.fields["email"] == JStr(row.email)
  {
    JObj(map["user_id" := JNum(userId), "username" := JStr(row.username), "full_name" := JStr(row.fullName),
             "role_id" := JNum(row.roleId), "email" := JStr(row.email)])
  }

  function LoginSuccessBody(userId: int, row: UserRow, issued: IssuedToken): (j: Json)
    ensures j.JObj? && j.fields.Keys == {"message", "user", "accessToken", "tokenExpiresAt"}
    ensures j.fields["user"] == UserProjection(userId, row)
    ensures j.fields["accessToken"] == JStr(issued.token)
    ensures j.fields["tokenExpiresAt"] == JNum(issued.expiresAt)
  {
    JObj(map["message" := JStr("Login successful."), "user" := UserProjection(userId, row),
             "accessToken" := JStr(issued.token), "tokenExpiresAt" := JNum(issued.expiresAt)])
  }

  /** POST /login. An unknown email and a wrong password give the same 401 answer;
      success returns the projection (never the hash), the token and its expiry in ms.
      Account status is not consulted. */
  method Login(db: Database, req: LoginRequest, nowMs: int, compare: (string, string) -> bool,
               sign: Claims -> string, decode: string -> Option<Claims>) returns (resp: Response)
    requires db.Valid()
    ensures req.email == "" || req.password == "" ==> resp == Response(400, Body("error", CredentialsRequired))
    ensures req.email != "" && req.password != "" && !EmailTaken(db.users, req.email) ==>
      resp == Response(401, Body("error", InvalidCredentials))
    ensures forall id :: id in db.users && db.users[id].email == req.email && req.email != "" && req.password != "" ==>
      if !compare(req.password, db.users[id].passwordHash) then
        resp == Response(401, Body("error", InvalidCredentials))
      else
        match GenerateAccessToken(id, db.users[id], nowMs, sign, decode)
        case None => resp == Response(500, Body("error", LoginServerError))
        case Some(issued) => resp == Response(200, LoginSuccessBody(id, db.users[id], issued))
    ensures resp.status == 401 ==> resp.body == Body("error", InvalidCredentials)
  {
    if req.email == "" || req.password == "" {
      resp := Response(400, Body("error", CredentialsRequired));
      return;
    }
    if !EmailTaken(db.users, req.email) {
      resp := Response(401, Body("error", InvalidCredentials));
      return;
    }
    var id :| id in db.users && db.users[id].email == req.email;
    var user := db.users[id];
    var isMatch := compare(req.password, user.passwordHash);
    if !isMatch {
      resp := Response(401, Body("error", InvalidCredentials));
      return;
    }
    var issued := GenerateAccessToken(id, user, nowMs, sign, decode);
    if issued.None? {
      resp := Response(500, Body("error", LoginServerError));
      return;
    }
    resp := Response(200, LoginSuccessBody(id, user, issued.value));
  }
}
