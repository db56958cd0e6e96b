/** The client's session state (client/src/App.jsx): the three localStorage
    entries that hold a session, the in-memory `user` of the App component, the
    synchronous start-up check, logout, login success and route selection.
    `JSON.parse` is a partial function parameter and the clock a number. */
module App {
  import opened Strings
  import opened Js
  import Hex
  import UserRoutes

  const TokenKey: string := "accessToken"
  const ExpiryKey: string := "tokenExpiresAt"
  const UserKey: string := "user"
  const SessionKeys: set<string> := {TokenKey, ExpiryKey, UserKey}

  /** `localStorage.getItem(key)`: `None` is `null`. */
  function Item(storage: map<string, string>, key: string): (r: Option<string>)
    ensures r.Some? <==> key in storage
  {
    if key in storage then Some(storage[key]) else None
  }

  /** `Number(localStorage.getItem("tokenExpiresAt"))`. */
  function StoredExpiry(storage: map<string, string>): JsNum {
    NumberOfItem(Item(storage, ExpiryKey))
  }

  /** An expiry stored as the text of a number reads back as that number. */
  lemma StoredExpiryOfNumber(storage: map<string, string>, n: int)
    requires ExpiryKey in storage && storage[ExpiryKey] == NumberToString(n)
    ensures StoredExpiry(storage) == Finite(n)
  {
    NumberOfToString(n);
  }

  /** The first guard of the start-up check: a non-empty user string and a nonzero, non-NaN expiry. */
  predicate HasSession(storage: map<string, string>) {
    UserKey in storage && storage[UserKey] != "" && NumTruthy(StoredExpiry(storage))
  }

  /** What the start-up check returns and leaves in storage. */
  datatype Startup = Startup(user: Json, storage: map<string, string>)

  /** getInitialUserState as a function of the storage it finds. */
  function InitialState(storage: map<string, string>, nowMs: int, parse: string -> Option<Json>): (r: Startup)
    // no session: null, storage untouched
    ensures !HasSession(storage) ==> r == Startup(JNull, storage)
    // a live session: the parsed user, storage untouched
    ensures HasSession(storage) && StoredExpiry(storage).n > nowMs && parse(storage[UserKey]).Some? ==>
      r == Startup(parse(storage[UserKey]).value, storage)
    // malformed user JSON: only the user entry goes
    ensures HasSession(storage) && StoredExpiry(storage).n > nowMs && parse(storage[UserKey]).None? ==>
      r == Startup(JNull, storage - {UserKey})
    // an expired session: all three entries go
    ensures HasSession(storage) && StoredExpiry(storage).n <= nowMs ==>
      r == Startup(JNull, storage - SessionKeys)
  {
    if !HasSession(storage) then Startup(JNull, storage)
    else if StoredExpiry(storage).n > nowMs then
      match parse(storage[UserKey])
      case Some(u) => Startup(u, storage)
      case None => Startup(JNull, storage - {UserKey})
    else Startup(JNull, storage - SessionKeys)
  }

  /** A user is restored only from a non-empty user string whose session expires after now. */
  lemma RestoredOnlyWhenLive(storage: map<string, string>, nowMs: int, parse: string -> Option<Json>)
    requires InitialState(storage, nowMs, parse).user != JNull
    ensures UserKey in storage && storage[UserKey] != ""
    ensures StoredExpiry(storage).Finite? && StoredExpiry(storage).n != 0 && StoredExpiry(storage).n > nowMs
    ensures parse(storage[UserKey]) == Some(InitialState(storage, nowMs, parse).user)
  {
  }

  /** Conversely, a non-empty user string that parses, with a nonzero expiry after now, is restored as is. */
  lemma RestoredWhenLive(storage: map<string, string>, nowMs: int, parse: string -> Option<Json>, user: Json)
    requires UserKey in storage && storage[UserKey] != "" && parse(storage[UserKey]) == Some(user)
    requires StoredExpiry(storage).Finite? && StoredExpiry(storage).n != 0 && StoredExpiry(storage).n > nowMs
    ensures InitialState(storage, nowMs, parse) == Startup(user, storage)
  {
    assert HasSession(storage);
  }

  /** The start-up check only ever removes session entries: every other entry, and
      every entry it keeps, is as it was. */
  lemma StartupOnlyRemovesSessionKeys(storage: map<string, string>, nowMs: int, parse: string -> Option<Json>)
    ensures InitialState(storage, nowMs, parse).storage.Keys <= storage.Keys
    ensures storage.Keys - SessionKeys <= InitialState(storage, nowMs, parse).storage.Keys
    ensures forall k :: k in InitialState(storage, nowMs, parse).storage ==>
      InitialState(storage, nowMs, parse).storage[k] == storage[k]
  {
  }

  /** Running the start-up check on the storage it leaves behind changes nothing more
      (a second page load at the same instant finds a clean state). */
  lemma StartupCleanupIdempotent(storage: map<string, string>, nowMs: int, parse: string -> Option<Json>)
    ensures var s1 := InitialState(storage, nowMs, parse);
      InitialState(s1.storage, nowMs, parse) == s1
  {
    var s1 := InitialState(storage, nowMs, parse);
    if HasSession(storage) && StoredExpiry(storage).n > nowMs && parse(storage[UserKey]).None? {
      assert UserKey !in s1.storage;
    } else if HasSession(storage) && StoredExpiry(storage).n <= nowMs {
      assert UserKey !in s1.storage;
    }
  }

  /** After a logout, a reload restores nobody and leaves storage as it is. */
  lemma ReloadAfterLogout(storage: map<string, string>, nowMs: int, parse: string -> Option<Json>)
    ensures InitialState(storage - SessionKeys, nowMs, parse) == Startup(JNull, storage - SessionKeys)
  {
    assert UserKey !in storage - SessionKeys;
  }

  /** Removing the three session entries one by one removes exactly the session keys. */
  lemma RemoveSessionKeysOneByOne(s: map<string, string>)
    ensures s - {TokenKey} - {ExpiryKey} - {UserKey} == s - SessionKeys
  {
  }

  /** The browser side of the App component: localStorage and the `user` state (`JNull` is null). */
  class Browser {
    var storage: map<string, string>
    var user: Json

    /** A page before the App component mounts. */
    constructor (storage: map<string, string>)
      ensures this.storage == storage && user == JNull
    {
      this.storage := storage;
      user := JNull;
    }

    /** getInitialUserState: read the user string and the expiry, then remove
        entries as the check decides. */
    method GetInitialUserState(nowMs: int, parse: string -> Option<Json>) returns (result: Json)
      modifies this
      ensures Startup(result, storage) == InitialState(old(storage), nowMs, parse)
      ensures user == old(user)
    {
      var storedUserString := Item(storage, UserKey);
      var tokenExpiresAt := StoredExpiry(storage);
      if storedUserString.Some? && storedUserString.value != "" && NumTruthy(tokenExpiresAt) {
        if tokenExpiresAt.n > nowMs {
          var parsed := parse(storedUserString.value);
          if parsed.Some? {
            return parsed.value;
          }
          storage := storage - {UserKey};
          return JNull;
        } else {
          storage := storage - {TokenKey};
          storage := storage - {ExpiryKey};
          storage := storage - {UserKey};
          RemoveSessionKeysOneByOne(old(storage));
        }
      }
      return JNull;
    }

    /** `useState(getInitialUserState)`: the first render. */
    method Mount(nowMs: int, parse: string -> Option<Json>)
      modifies this
      ensures Startup(user, storage) == InitialState(old(storage), nowMs, parse)
    {
      user := GetInitialUserState(nowMs, parse);
    }

    /** handleLogout: the three session entries go and the user becomes null. */
    method HandleLogout()
      modifies this
      ensures storage == old(storage) - SessionKeys
      ensures user == JNull
    {
      storage := storage - {TokenKey};
      storage := storage - {ExpiryKey};
      storage := storage - {UserKey};
      RemoveSessionKeysOneByOne(old(storage));
      user := JNull;
    }

    /** handleLoginSuccess: only the in-memory user changes. */
    method HandleLoginSuccess(userData: Json)
      modifies this
      ensures user == userData && storage == old(storage)
    {
      user := userData;
    }
  }

  // ---------------------------------------------------------------- routes

  datatype Page = HomePage | LoginPage | ResetPasswordPage(token: string) | NotFound

  const ResetRoutePrefix: string := "/reset-password/"

  /** The `:token` parameter of '/reset-password/:token': one non-empty path segment. */
  function MatchResetRoute(path: string): (r: Option<string>)
    ensures r.Some? <==> StartsWith(path, ResetRoutePrefix) && |path| > |ResetRoutePrefix| && '/' !in path[|ResetRoutePrefix|..]
    ensures r.Some? ==> path == ResetRoutePrefix + r.value
  {
    if StartsWith(path, ResetRoutePrefix) && |path| > |ResetRoutePrefix| && '/' !in path[|ResetRoutePrefix|..] then
      Some(path[|ResetRoutePrefix|..])
    else None
  }

  /** The element the router renders for a path. */
  function Route(path: string, user: Json): (p: Page)
    ensures p == HomePage <==> path == "/" && Truthy(user)
    ensures p == LoginPage <==> (path == "/" && !Truthy(user)) || path == "/login"
    ensures p.ResetPasswordPage? <==> MatchResetRoute(path).Some?
    ensures p.ResetPasswordPage? ==> MatchResetRoute(path) == Some(p.token)
  {
    if path == "/" then (if Truthy(user) then HomePage else LoginPage)
    else if path == "/login" then LoginPage
    else match MatchResetRoute(path)
      case Some(t) => ResetPasswordPage(t)
      case None => NotFound
  }

  const DevOrigin: string := "http://localhost:5173"

  /** The link mailed by the reset-initiation handler opens the reset page with its token. */
  lemma ResetLinkRoutesBack(bytes: seq<Hex.Byte>, user: Json)
    requires |bytes| == 32
    ensures var token := UserRoutes.ResetToken(bytes);
      && UserRoutes.ResetUrl(token) == DevOrigin + ResetRoutePrefix + token
      && Route(ResetRoutePrefix + token, user) == ResetPasswordPage(token)
  {
    var token := UserRoutes.ResetToken(bytes);
    Hex.NoSlash(token);
    var path := ResetRoutePrefix + token;
    assert path[|ResetRoutePrefix|..] == token;
    assert path[..|ResetRoutePrefix|] == ResetRoutePrefix;
  }
}
