/**
 * The credential store (lib/auth.ts): a list of user records and a
 * session slot, both kept in local storage. Passwords are stored and
 * compared as plain text. Without a browser window every operation does
 * nothing and returns `undefined`, `null` or `false`.
 */
module Auth {
  import opened Wrappers
  import opened Types
  import opened Storage

  const UsersKey: string := "cga_users"
  const CurrentUserKey: string := "cga_current_user"

  datatype AuthError = UserAlreadyExists | InvalidCredentials

  function Message(e: AuthError): string {
    match e
    case UserAlreadyExists => "User already exists"
    case InvalidCredentials => "Invalid credentials"
  }

  /** The stored user list; a missing key reads as the empty list. */
  function StoredUsers(store: LocalStorage): seq<User>
    reads store
  {
    if UsersKey in store.items && store.items[UsersKey].UserList? then store.items[UsersKey].users else []
  }

  /** `users.find(u => u.email === email)`, as the index of the first match. */
  function FindByEmail(users: seq<User>, email: string): (r: Option<nat>)
    ensures r.Some? ==> r.value < |users| && users[r.value].email == email
    ensures r.Some? ==> forall j :: 0 <= j < r.value ==> users[j].email != email
    ensures r.None? ==> forall j :: 0 <= j < |users| ==> users[j].email != email
  {
    if users == [] then None
    else if users[0].email == email then Some(0)
    else match FindByEmail(users[1..], email)
      case None => None
      case Some(i) => Some(i + 1)
  }

  /** Whether a record matches both email and password (`===` on possibly-undefined passwords). */
  predicate Matches(u: User, email: string, password: Option<string>) {
    u.email == email && u.password == password
  }

  /** `users.find(u => u.email === email && u.password === password)`, as an index. */
  function FindCredentials(users: seq<User>, email: string, password: Option<string>): (r: Option<nat>)
    ensures r.Some? ==> r.value < |users| && Matches(users[r.value], email, password)
    ensures r.Some? ==> forall j :: 0 <= j < r.value ==> !Matches(users[j], email, password)
    ensures r.None? ==> forall j :: 0 <= j < |users| ==> !Matches(users[j], email, password)
  {
    if users == [] then None
    else if Matches(users[0], email, password) then Some(0)
    else match FindCredentials(users[1..], email, password)
      case None => None
      case Some(i) => Some(i + 1)
  }

  /** The record without its password. */
  function WithoutPassword(u: User): (s: SafeUser)
    ensures s.id == u.id && s.name == u.name && s.email == u.email
  {
    SafeUser(u.id, u.name, u.email)
  }

  /** No two stored records share an email. */
  predicate DistinctEmails(users: seq<User>) {
    forall i, j :: 0 <= i < j < |users| ==> users[i].email != users[j].email
  }

  /** Appending a user whose email is not yet taken keeps the emails distinct. */
  lemma SignupKeepsEmailsDistinct(users: seq<User>, u: User)
    requires DistinctEmails(users) && FindByEmail(users, u.email).None?
    ensures DistinctEmails(users + [u])
  {
  }

  /**
   * In a list with distinct emails, the record that `login` finds for an
   * email is the one with that email, whenever the password agrees.
   */
  lemma LoginFindsTheOnlyRecord(users: seq<User>, i: nat, password: Option<string>)
    requires DistinctEmails(users) && i < |users|
    ensures FindCredentials(users, users[i].email, password) ==
      (if users[i].password == password then Some(i) else None)
  {
    forall j | 0 <= j < |users| && j != i
      ensures !Matches(users[j], users[i].email, password)
    {
      assert users[j].email != users[i].email by {
        if j < i {} else {}
      }
    }
  }

  /**
   * After a signup appends `u` with a fresh email, the follow-up login with
   * `u.password || ""` succeeds exactly when `u` has a password.
   */
  lemma SignupLoginSucceedsIff(users: seq<User>, u: User)
    requires FindByEmail(users, u.email).None?
    ensures FindCredentials(users + [u], u.email, Some(u.password.GetOr(""))).Some? <==> u.password.Some?
  {
    var all := users + [u];
    forall j | 0 <= j < |users|
      ensures !Matches(all[j], u.email, Some(u.password.GetOr("")))
    {
      assert all[j] == users[j];
    }
    assert Matches(all[|users|], u.email, Some(u.password.GetOr(""))) <==> u.password.Some?;
  }

  /**
   * `auth.login`: on a match the session slot receives the first matching
   * record without its password; otherwise "Invalid credentials" and the
   * store is left alone.
   */
  method Login(store: LocalStorage, hasWindow: bool, email: string, password: Option<string>)
    returns (r: Result<Option<SafeUser>, AuthError>)
    modifies store
    ensures !hasWindow ==> r == Ok(None) && store.items == old(store.items)
    ensures hasWindow ==>
      var found := FindCredentials(old(StoredUsers(store)), email, password);
      if found.Some? then
        var safe := WithoutPassword(old(StoredUsers(store))[found.value]);
        r == Ok(Some(safe)) && store.items == old(store.items)[CurrentUserKey := Session(safe)]
      else
        r == Err(InvalidCredentials) && store.items == old(store.items)
  {
    if !hasWindow {
      return Ok(None);
    }
    var users := StoredUsers(store);
    var found := FindCredentials(users, email, password);
    if found.Some? {
      var safe := WithoutPassword(users[found.value]);
      store.SetItem(CurrentUserKey, Session(safe));
      return Ok(Some(safe));
    }
    return Err(InvalidCredentials);
  }

  /**
   * `auth.signup`: a taken email throws "User already exists" with the store
   * unchanged; otherwise the user is appended and logged in with
   * `password || ""`, and a failure of that login is signup's failure.
   */
  method Signup(store: LocalStorage, hasWindow: bool, u: User)
    returns (r: Result<Option<User>, AuthError>)
    modifies store
    ensures !hasWindow ==> r == Ok(None) && store.items == old(store.items)
    ensures hasWindow && FindByEmail(old(StoredUsers(store)), u.email).Some? ==>
      r == Err(UserAlreadyExists) && store.items == old(store.items)
    ensures hasWindow && FindByEmail(old(StoredUsers(store)), u.email).None? ==>
      && StoredUsers(store) == old(StoredUsers(store)) + [u]
      && (u.password.Some? ==>
            r == Ok(Some(u)) &&
            store.items == old(store.items)[UsersKey := UserList(old(StoredUsers(store)) + [u])]
                                           [CurrentUserKey := Session(WithoutPassword(u))])
      && (u.password.None? ==>
            r == Err(InvalidCredentials) &&
            store.items == old(store.items)[UsersKey := UserList(old(StoredUsers(store)) + [u])])
  {
    if !hasWindow {
      return Ok(None);
    }
    var users := StoredUsers(store);
    if FindByEmail(users, u.email).Some? {
      return Err(UserAlreadyExists);
    }
    SignupLoginSucceedsIff(users, u);
    var all := users + [u];
    store.SetItem(UsersKey, UserList(all));
    assert StoredUsers(store) == all;
    var login := Login(store, true, u.email, Some(u.password.GetOr("")));
    if login.Err? {
      return Err(login.error);
    }
    assert FindCredentials(all, u.email, Some(u.password.GetOr(""))) == Some(|users|) by {
      forall j | 0 <= j < |users|
        ensures !Matches(all[j], u.email, Some(u.password.GetOr("")))
      {
        assert all[j] == users[j];
      }
    }
    return Ok(Some(u));
  }

  /** `auth.logout`: the session slot is removed (the redirect is not modelled). */
  method Logout(store: LocalStorage, hasWindow: bool)
    modifies store
    ensures hasWindow ==> store.items == old(store.items) - {CurrentUserKey}
    ensures !hasWindow ==> store.items == old(store.items)
  {
    if hasWindow {
      store.RemoveItem(CurrentUserKey);
    }
  }

  /** `auth.getCurrentUser`: what the session slot holds, or null. */
  function GetCurrentUser(store: LocalStorage, hasWindow: bool): (r: Option<Value>)
    reads store
    ensures r.Some? <==> hasWindow && CurrentUserKey in store.items
    ensures r.Some? ==> r.value == store.items[CurrentUserKey]
  {
    if !hasWindow then None else store.GetItem(CurrentUserKey)
  }

  /** `auth.isAuthenticated`: whether the session slot is present. */
  function IsAuthenticated(store: LocalStorage, hasWindow: bool): (b: bool)
    reads store
    ensures b <==> GetCurrentUser(store, hasWindow).Some?
  {
    hasWindow && CurrentUserKey in store.items
  }

  /**
   * A login, then a logout. In between the user is signed in exactly when
   * the credentials matched or a session was already open (a failed login
   * leaves an earlier session alone); after the logout nobody is.
   */
  method LoginLogoutSession(store: LocalStorage, email: string, password: Option<string>)
    returns (signedIn: bool)
    modifies store
    ensures signedIn <==>
      FindCredentials(old(StoredUsers(store)), email, password).Some? || old(IsAuthenticated(store, true))
    ensures !IsAuthenticated(store, true)
  {
    var r := Login(store, true, email, password);
    signedIn := IsAuthenticated(store, true);
    Logout(store, true);
  }
}
