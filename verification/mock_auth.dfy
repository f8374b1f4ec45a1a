/** The mock authentication service: a fixed user table, a credential lookup,
    and the session record kept in the store under one key. */
module MockAuth {
  import opened Common
  import opened Storage

  /** A row of the user table, password included. */
  datatype User = User(id: int, email: string, password: string, name: string, role: string, avatar: string)

  const Users: seq<User> := [
    User(1, "admin@comfortcheck.com", "admin123", "John Smith", "admin", "\U{1F468}\U{200D}\U{1F4BC}"),
    User(2, "manager@comfortcheck.com", "manager123", "Sarah Johnson", "facility_manager", "\U{1F469}\U{200D}\U{1F527}"),
    User(3, "teacher@comfortcheck.com", "teacher123", "Mike Wilson", "teacher", "\U{1F468}\U{200D}\U{1F3EB}")
  ]

  /** The store key of the signed-in user's record. */
  const SessionKey := "comfortcheck_user"

  /** The message of the error raised for unknown credentials. */
  const InvalidCredentials := "Invalid email or password"

  /** The user record with its password removed and every other field kept. */
  function WithoutPassword(u: User): (a: Account)
    ensures a.id == u.id && a.email == u.email && a.name == u.name
    ensures a.role == u.role && a.avatar == u.avatar
  {
    Account(u.id, u.email, u.name, u.role, u.avatar)
  }

  predicate Matches(u: User, email: string, password: string) {
    u.email == email && u.password == password
  }

  /** Some user of the table has both the email and the password. */
  predicate KnownCredentials(email: string, password: string) {
    exists i :: 0 <= i < |Users| && Matches(Users[i], email, password)
  }

  /** `users.find(...)`: the index of the first user with both the given email
      and the given password, or nothing when no user has both. */
  function FindUser(users: seq<User>, email: string, password: string): (r: Option<nat>)
    ensures r.None? <==> forall i :: 0 <= i < |users| ==> !Matches(users[i], email, password)
    ensures r.Some? ==> r.value < |users| && Matches(users[r.value], email, password)
    ensures r.Some? ==> forall j :: 0 <= j < r.value ==> !Matches(users[j], email, password)
  {
    if users == [] then None
    else if Matches(users[0], email, password) then Some(0)
    else match FindUser(users[1..], email, password)
      case None => None
      case Some(i) => Some(i + 1)
  }

  /** Every user of the table signs in with their own credentials and is found at their own row. */
  lemma TableUsersFound(i: nat)
    requires i < |Users|
    ensures FindUser(Users, Users[i].email, Users[i].password) == Some(i)
  {
    assert forall j :: 0 <= j < |Users| && j != i ==> Users[j].email != Users[i].email;
  }

  /** The right email with another user's password is refused. */
  lemma CrossedCredentialsRefused()
    ensures FindUser(Users, Users[0].email, Users[1].password) == None
  {
    assert Matches(Users[0], "admin@comfortcheck.com", "manager123") == false;
  }

  /** The signed-in user, read back from the store: nothing when the key is
      absent or holds something other than a user record. */
  function GetCurrentUser(store: Store): (r: Option<Account>)
    reads store
    ensures r.Some? <==> SessionKey in store.entries && store.entries[SessionKey].UserRecord?
    ensures r.Some? ==> store.entries[SessionKey] == UserRecord(r.value)
  {
    if SessionKey in store.entries && store.entries[SessionKey].UserRecord?
    then Some(store.entries[SessionKey].account)
    else None
  }

  /** `hasRole`: true exactly when someone is signed in and has that role. */
  function HasRole(store: Store, role: string): (r: bool)
    reads store
    ensures r <==> exists a :: GetCurrentUser(store) == Some(a) && a.role == role
  {
    match GetCurrentUser(store)
    case Some(a) => a.role == role
    case None => false
  }

  /** `mockLogin`: on a match, the password-free record of the first matching
      user is stored under the session key and returned; otherwise the error is
      raised and the store is untouched. */
  method MockLogin(store: Store, email: string, password: string) returns (r: Result<Account, string>)
    modifies store
    ensures r.Success? <==> KnownCredentials(email, password)
    ensures r.Success? ==>
      var i := FindUser(Users, email, password).value;
      && r.value == WithoutPassword(Users[i])
      && store.entries == old(store.entries)[SessionKey := UserRecord(r.value)]
      && GetCurrentUser(store) == Some(r.value)
    ensures r.Failure? ==> r.error == InvalidCredentials && store.entries == old(store.entries)
  {
    match FindUser(Users, email, password)
    case Some(i) =>
      var account := WithoutPassword(Users[i]);
      store.SetItem(SessionKey, UserRecord(account));
      r := Success(account);
    case None =>
      r := Failure(InvalidCredentials);
  }

  /** `mockLogout`: the session key is removed, so nobody is signed in afterwards. */
  method MockLogout(store: Store)
    modifies store
    ensures store.entries == old(store.entries) - {SessionKey}
    ensures GetCurrentUser(store) == None
  {
    store.RemoveItem(SessionKey);
  }
}
