/** The authentication context: the signed-in user, a loading flag and the last
    login error, stepped by mount, login and logout. */
module AuthContext {
  import opened Common
  import opened Storage
  import opened MockAuth

  /** What `login` hands back to its caller. The success value carries no user:
      `user` is always absent, which callers reading it must cope with. */
  datatype LoginResult = LoginResult(success: bool, error: Option<string>, user: Option<Account>)

  class AuthProvider {
    var user: Option<Account>
    var loading: bool
    var error: Option<string>

    /** Initial state: nobody signed in, loading, no error. */
    constructor ()
      ensures user == None && loading && error == None
    {
      user := None;
      loading := true;
      error := None;
    }

    /** The mount effect: a saved session, if any, becomes the user, and loading ends. */
    method Mount(store: Store)
      modifies this
      ensures user == if GetCurrentUser(store).Some? then GetCurrentUser(store) else old(user)
      ensures !loading && error == old(error)
    {
      var saved := GetCurrentUser(store);
      if saved.Some? {
        user := saved;
      }
      loading := false;
    }

    /** `login`: the error is cleared first; on success the returned record becomes
        the user, on failure the message is kept as the error and the previous
        user stays. Loading is off afterwards on both paths. */
    method Login(store: Store, email: string, password: string) returns (result: LoginResult)
      modifies this, store
      ensures !loading && result.user == None
      ensures result.success <==> KnownCredentials(email, password)
      ensures result.success ==>
        && user == Some(WithoutPassword(Users[FindUser(Users, email, password).value]))
        && user == GetCurrentUser(store)
        && error == None && result.error == None
      ensures !result.success ==>
        && user == old(user) && error == Some(InvalidCredentials) && result.error == error
        && store.entries == old(store.entries)
    {
      loading := true;
      error := None;
      var r := MockLogin(store, email, password);
      match r {
        case Success(account) =>
          user := Some(account);
          result := LoginResult(true, None, None);
        case Failure(message) =>
          error := Some(message);
          result := LoginResult(false, Some(message), None);
      }
      loading := false;
    }

    /** `logout`: the stored session is removed and nobody is signed in. */
    method Logout(store: Store)
      modifies this, store
      ensures user == None && GetCurrentUser(store) == None
      ensures store.entries == old(store.entries) - {SessionKey}
      ensures loading == old(loading) && error == old(error)
    {
      MockLogout(store);
      user := None;
    }

    /** `isAuthenticated`: someone is signed in. */
    function IsAuthenticated(): (r: bool)
      reads this
      ensures r <==> user.Some?
    {
      user.Some?
    }

    /** `role`: the user's role, or nothing when nobody is signed in or the role
        is the empty string (which `||` treats as missing). */
    function Role(): (r: Option<string>)
      reads this
      ensures r.Some? <==> user.Some? && user.value.role != ""
      ensures r.Some? ==> r.value == user.value.role
    {
      if user.Some? && user.value.role != "" then Some(user.value.role) else None
    }
  }

  /** Logging in as a table user and then reading the role gives that user's role. */
  method LoginThenRole(i: nat)
    requires i < |Users|
  {
    var store := new Store();
    var auth := new AuthProvider();
    auth.Mount(store);
    TableUsersFound(i);
    var result := auth.Login(store, Users[i].email, Users[i].password);
    assert result.success;
    assert auth.IsAuthenticated() && auth.Role() == Some(Users[i].role);
    auth.Logout(store);
    assert !auth.IsAuthenticated() && auth.Role() == None;
  }
}
