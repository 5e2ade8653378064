/**
 * The user registry of the legacy single page (script.js, class
 * UserManager). The registered users live in the browser storage under
 * `users`; here that list is the field `users`, already decoded. The
 * login keys live in the string map `storage`. `Date.now()` and
 * `new Date().toISOString()` are parameters.
 */
module Users {
  import opened Wrappers
  import opened Json
  import opened Text

  /** One saved estimate of a user. `None` is a property that is `undefined`. */
  datatype EstimateRecord = EstimateRecord(id: nat, query: Option<Json>, response: Option<Json>, createdAt: string)

  /** A registered user as stored; `estimates` is absent until the first save. */
  datatype StoredUser = StoredUser(
    id: nat,
    name: string,
    username: string,
    password: string,
    createdAt: string,
    preferences: map<string, Json>,
    estimates: Option<seq<EstimateRecord>>)

  /** The logged-in user; a user restored from storage has no id. */
  datatype CurrentUser = CurrentUser(token: string, username: string, name: string, id: Option<nat>)

  datatype LoginResult = LoggedIn(user: CurrentUser) | LoginRejected(message: string)

  datatype RegisterResult = Registered(user: StoredUser) | RegisterRejected(message: string)

  /** The storage keys of a login. */
  const TokenKey := "userToken"
  const UsernameKey := "userUsername"
  const NameKey := "userName"
  const UserIdKey := "userId"
  const TokenPrefix := "local-token-"
  const BadCredentialsMessage := "아이디 또는 비밀번호가 올바르지 않습니다."
  const DuplicateUsernameMessage := "이미 사용 중인 아이디입니다."

  /** The preferences of a new user: no budget, no purpose, no favourite brands. */
  function DefaultPreferences(): map<string, Json> {
    map["budget" := JNull, "purpose" := JNull, "favoriteBrands" := JArr([])]
  }

  /** `u.username === username && u.password === password`. */
  predicate HasCredentials(u: StoredUser, username: string, password: string) {
    u.username == username && u.password == password
  }

  /** `users.findIndex(u => u.username === username && u.password === password)`, `None` for -1. */
  function CredentialsIndex(users: seq<StoredUser>, username: string, password: string): (r: Option<nat>)
    ensures r.Some? ==> r.value < |users| && HasCredentials(users[r.value], username, password)
    ensures r.Some? ==> forall j :: 0 <= j < r.value ==> !HasCredentials(users[j], username, password)
    ensures r.None? <==> forall j :: 0 <= j < |users| ==> !HasCredentials(users[j], username, password)
  {
    if users == [] then None
    else if HasCredentials(users[0], username, password) then Some(0)
    else match CredentialsIndex(users[1..], username, password)
      case None => None
      case Some(k) => Some(k + 1)
  }

  /** `users.findIndex(u => u.username === username)`, `None` for -1. */
  function UsernameIndex(users: seq<StoredUser>, username: string): (r: Option<nat>)
    ensures r.Some? ==> r.value < |users| && users[r.value].username == username
    ensures r.Some? ==> forall j :: 0 <= j < r.value ==> users[j].username != username
    ensures r.None? <==> forall j :: 0 <= j < |users| ==> users[j].username != username
  {
    if users == [] then None
    else if users[0].username == username then Some(0)
    else match UsernameIndex(users[1..], username)
      case None => None
      case Some(k) => Some(k + 1)
  }

  /** No two registered users share a username. */
  predicate UniqueUsernames(users: seq<StoredUser>) {
    forall i, j :: 0 <= i < j < |users| ==> users[i].username != users[j].username
  }

  /** The estimates of a user, `[]` while there are none. */
  function EstimatesOf(u: StoredUser): seq<EstimateRecord> {
    if u.estimates.Some? then u.estimates.value else []
  }

  /** The storage after a login of `u`: the four login keys, the id as text. */
  function LoginStorage(storage: map<string, string>, u: CurrentUser, id: nat): (r: map<string, string>)
    ensures r.Keys == storage.Keys + {TokenKey, UsernameKey, NameKey, UserIdKey}
    ensures r[TokenKey] == u.token && r[UsernameKey] == u.username && r[NameKey] == u.name
    ensures r[UserIdKey] == Decimal(id)
    ensures forall k :: k in storage && k !in {TokenKey, UsernameKey, NameKey, UserIdKey} ==> r[k] == storage[k]
  {
    storage[TokenKey := u.token][UsernameKey := u.username][NameKey := u.name][UserIdKey := Decimal(id)]
  }

  /** The storage after logout: the four login keys are gone, every other key is kept. */
  function LogoutStorage(storage: map<string, string>): (r: map<string, string>)
    ensures r.Keys == storage.Keys - {TokenKey, UsernameKey, NameKey, UserIdKey}
    ensures forall k :: k in r ==> r[k] == storage[k]
    ensures RestoredUser(r) == None
  {
    storage - {TokenKey, UsernameKey, NameKey, UserIdKey}
  }

  /** What `loadCurrentUser` restores from the storage, when token, username and name are all there. */
  function RestoredUser(storage: map<string, string>): (r: Option<CurrentUser>)
    ensures r.Some? <==>
      && TokenKey in storage && storage[TokenKey] != ""
      && UsernameKey in storage && storage[UsernameKey] != ""
      && NameKey in storage && storage[NameKey] != ""
    ensures r.Some? ==>
      r.value == CurrentUser(storage[TokenKey], storage[UsernameKey], storage[NameKey], None)
  {
    if TokenKey in storage && storage[TokenKey] != "" && UsernameKey in storage && storage[UsernameKey] != ""
       && NameKey in storage && storage[NameKey] != ""
    then Some(CurrentUser(storage[TokenKey], storage[UsernameKey], storage[NameKey], None))
    else None
  }

  /**
   * A login survives a reload: the storage it leaves restores the same
   * token, username and name, though not the id.
   */
  lemma LoginSurvivesReload(storage: map<string, string>, u: CurrentUser, id: nat)
    requires u.token != "" && u.username != "" && u.name != ""
    ensures RestoredUser(LoginStorage(storage, u, id)) == Some(u.(id := None))
  {
    var r := LoginStorage(storage, u, id);
    assert r[TokenKey] == u.token;
  }

  /**
   * A user appended under a username nobody else has is found by its
   * credentials, at its own position.
   */
  lemma {:induction false} RegisteredUserFound(users: seq<StoredUser>, u: StoredUser)
    requires UsernameIndex(users, u.username) == None
    ensures CredentialsIndex(users + [u], u.username, u.password) == Some(|users|)
  {
    if users != [] {
      assert (users + [u])[1..] == users[1..] + [u];
      RegisteredUserFound(users[1..], u);
    }
  }

  /** With unique usernames, each user is the one found under its own username. */
  lemma {:induction false} UniqueUsernameFound(users: seq<StoredUser>, i: nat)
    requires UniqueUsernames(users) && i < |users|
    ensures UsernameIndex(users, users[i].username) == Some(i)
  {
    var r := UsernameIndex(users, users[i].username);
    assert r.Some?;
    assert !(r.value < i) && !(i < r.value);
  }

  /** Replacing an entry by one with the same username finds the same position for every username. */
  lemma {:induction false} SameUsernameSameIndex(users: seq<StoredUser>, i: nat, u: StoredUser, username: string)
    requires i < |users| && u.username == users[i].username
    ensures UsernameIndex(users[i := u], username) == UsernameIndex(users, username)
  {
    var r := users[i := u];
    assert forall j :: 0 <= j < |users| ==> r[j].username == users[j].username;
    var a := UsernameIndex(r, username);
    var b := UsernameIndex(users, username);
    if a.Some? && b.Some? {
      assert !(a.value < b.value) && !(b.value < a.value);
    }
  }

  class UserManager {
    /** The decoded `users` entry of the storage, `[]` when absent. */
    var users: seq<StoredUser>
    var currentUser: Option<CurrentUser>
    var storage: map<string, string>

    /** `isLoggedIn()`. */
    predicate IsLoggedIn()
      reads this
    {
      currentUser.Some?
    }

    /** The position of the logged-in user in the registry, found by username. */
    function CurrentIndex(): (r: Option<nat>)
      reads this
      ensures r.Some? ==> currentUser.Some? && r.value < |users| && users[r.value].username == currentUser.value.username
      ensures r.None? <==> currentUser.None? || forall j :: 0 <= j < |users| ==> users[j].username != currentUser.value.username
    {
      if currentUser.None? then None else UsernameIndex(users, currentUser.value.username)
    }

    /** `getPreferences()`: `null` when logged out or not registered. */
    function GetPreferences(): (r: Option<map<string, Json>>)
      reads this
      ensures r.Some? <==> CurrentIndex().Some?
      ensures r.Some? ==> r.value == users[CurrentIndex().value].preferences
    {
      match CurrentIndex()
      case None => None
      case Some(i) => Some(users[i].preferences)
    }

    /** `getEstimates()`: `[]` when logged out, not registered or without estimates. */
    function GetEstimates(): (r: seq<EstimateRecord>)
      reads this
      ensures CurrentIndex().None? ==> r == []
      ensures CurrentIndex().Some? ==> r == EstimatesOf(users[CurrentIndex().value])
    {
      match CurrentIndex()
      case None => []
      case Some(i) => EstimatesOf(users[i])
    }

    /** `new UserManager()`: nobody, then whoever the storage restores. */
    constructor(users0: seq<StoredUser>, storage0: map<string, string>)
      ensures users == users0 && storage == storage0
      ensures currentUser == RestoredUser(storage0)
    {
      users := users0;
      storage := storage0;
      currentUser := RestoredUser(storage0);
    }

    /** `loadCurrentUser()`: a complete stored login replaces the current user, anything less keeps it. */
    method LoadCurrentUser()
      modifies this
      ensures RestoredUser(old(storage)).Some? ==> currentUser == RestoredUser(old(storage))
      ensures RestoredUser(old(storage)).None? ==> currentUser == old(currentUser)
      ensures users == old(users) && storage == old(storage)
    {
      var restored := RestoredUser(storage);
      if restored.Some? {
        currentUser := restored;
      }
    }

    /**
     * `login(username, password)`: the first user with both credentials
     * becomes the current user under a new token, and the login is stored;
     * without such a user nothing changes.
     */
    method Login(username: string, password: string, now: nat) returns (r: LoginResult)
      modifies this
      ensures r.LoggedIn? <==> CredentialsIndex(old(users), username, password).Some?
      ensures r.LoggedIn? ==>
        var u := old(users)[CredentialsIndex(old(users), username, password).value];
        && r.user == CurrentUser(TokenPrefix + Decimal(now), u.username, u.name, Some(u.id))
        && currentUser == Some(r.user)
        && storage == LoginStorage(old(storage), r.user, u.id)
      ensures r.LoginRejected? ==>
        r.message == BadCredentialsMessage && currentUser == old(currentUser) && storage == old(storage)
      ensures users == old(users)
    {
      var found := CredentialsIndex(users, username, password);
      if found.None? {
        return LoginRejected(BadCredentialsMessage);
      }
      var u := users[found.value];
      var cu := CurrentUser(TokenPrefix + Decimal(now), u.username, u.name, Some(u.id));
      currentUser := Some(cu);
      storage := LoginStorage(storage, cu, u.id);
      r := LoggedIn(cu);
    }

    /**
     * `register(name, username, password)`: a taken username is refused
     * and the registry is kept; otherwise exactly one new user with the
     * default preferences and no estimates is appended. Unique usernames
     * stay unique, and the new user can log in with its credentials.
     */
    method Register(name: string, username: string, password: string, now: nat, createdAt: string)
      returns (r: RegisterResult)
      modifies this
      ensures UsernameIndex(old(users), username).Some? ==>
        r == RegisterRejected(DuplicateUsernameMessage) && users == old(users)
      ensures UsernameIndex(old(users), username).None? ==>
        && r == Registered(StoredUser(now, name, username, password, createdAt, DefaultPreferences(), None))
        && users == old(users) + [r.user]
        && CredentialsIndex(users, username, password) == Some(|old(users)|)
      ensures UniqueUsernames(old(users)) ==> UniqueUsernames(users)
      ensures currentUser == old(currentUser) && storage == old(storage)
    {
      if UsernameIndex(users, username).Some? {
        return RegisterRejected(DuplicateUsernameMessage);
      }
      var u := StoredUser(now, name, username, password, createdAt, DefaultPreferences(), None);
      RegisteredUserFound(users, u);
      users := users + [u];
      r := Registered(u);
    }

    /** `logout()`: nobody is logged in, the login keys are removed, and there are no estimates to show. */
    method Logout()
      modifies this
      ensures currentUser == None && storage == LogoutStorage(old(storage)) && users == old(users)
      ensures !IsLoggedIn() && GetEstimates() == []
    {
      currentUser := None;
      storage := LogoutStorage(storage);
    }

    /**
     * `updatePreferences(preferences)`: the given keys overwrite those of
     * the logged-in user's preferences, every other key and every other
     * user are kept; `false`, with nothing changed, when logged out or not
     * registered.
     */
    method UpdatePreferences(prefs: map<string, Json>) returns (ok: bool)
      modifies this
      ensures ok <==> old(CurrentIndex()).Some?
      ensures ok ==>
        var i := old(CurrentIndex()).value;
        && |users| == |old(users)|
        && users[i] == old(users)[i].(preferences := old(users)[i].preferences + prefs)
        && (forall j :: 0 <= j < |users| && j != i ==> users[j] == old(users)[j])
        && GetPreferences() == Some(old(GetPreferences()).value + prefs)
      ensures !ok ==> users == old(users)
      ensures currentUser == old(currentUser) && storage == old(storage)
      ensures UniqueUsernames(old(users)) ==> UniqueUsernames(users)
    {
      var found := CurrentIndex();
      if found.None? {
        return false;
      }
      var i := found.value;
      var u := users[i].(preferences := users[i].preferences + prefs);
      SameUsernameSameIndex(users, i, u, currentUser.value.username);
      users := users[i := u];
      ok := true;
    }

    /**
     * `saveEstimate(estimate)`: exactly one record is appended to the
     * logged-in user's estimates, which are created when absent; `false`,
     * with nothing changed, when logged out or not registered.
     */
    method SaveEstimate(query: Option<Json>, response: Option<Json>, now: nat, createdAt: string) returns (ok: bool)
      modifies this
      ensures ok <==> old(CurrentIndex()).Some?
      ensures ok ==>
        var i := old(CurrentIndex()).value;
        && |users| == |old(users)|
        && users[i] == old(users)[i].(estimates := Some(EstimatesOf(old(users)[i]) + [EstimateRecord(now, query, response, createdAt)]))
        && (forall j :: 0 <= j < |users| && j != i ==> users[j] == old(users)[j])
        && GetEstimates() == old(GetEstimates()) + [EstimateRecord(now, query, response, createdAt)]
      ensures !ok ==> users == old(users)
      ensures currentUser == old(currentUser) && storage == old(storage)
      ensures UniqueUsernames(old(users)) ==> UniqueUsernames(users)
    {
      var found := CurrentIndex();
      if found.None? {
        return false;
      }
      var i := found.value;
      var u := users[i].(estimates := Some(EstimatesOf(users[i]) + [EstimateRecord(now, query, response, createdAt)]));
      SameUsernameSameIndex(users, i, u, currentUser.value.username);
      users := users[i := u];
      ok := true;
    }
  }
}
