/**
 * The session: who is logged in, if anyone.  Login sets the user, logout
 * clears it, and every protected page lets a request through only when a
 * user is set.  The check is Python truthiness, so a user stored as the
 * empty string counts as nobody.
 */
module Sessions {

  import opened Wrappers
  import Credentials

  datatype LoginOutcome = LoggedIn | InvalidCredentials

  /** What a protected page does with a request. */
  datatype Access = Granted(user: string) | RedirectToLogin

  class Session {
    var user: Option<string>

    /** A fresh session, with nobody logged in. */
    constructor ()
      ensures user == None
    {
      user := None;
    }

    /** The guard at the top of every protected page. */
    function Gate(): (a: Access)
      reads this
      ensures a.Granted? <==> user.Some? && user.value != ""
      ensures a.Granted? ==> user == Some(a.user)
    {
      if user.Some? && user.value != "" then Granted(user.value) else RedirectToLogin
    }

    method Login(store: Credentials.CredentialStore, username: string, password: string)
      returns (r: LoginOutcome)
      modifies this
      ensures r == (if Credentials.Authenticates(store.users, username, password)
                    then LoggedIn else InvalidCredentials)
      ensures r == LoggedIn ==> user == Some(username)
      ensures r == InvalidCredentials ==> user == old(user)
    {
      if Credentials.Authenticates(store.users, username, password) {
        user := Some(username);
        r := LoggedIn;
      } else {
        r := InvalidCredentials;
      }
    }

    /** Logging out forgets the user, whether or not one was logged in. */
    method Logout()
      modifies this
      ensures user == None
    {
      user := None;
    }
  }

  /**
   * A user who registers and logs in reaches the protected pages, unless the
   * chosen name is empty; after logging out, twice even, the pages redirect.
   */
  method RegisterLoginLogout(username: string, password: string)
    returns (registered: Credentials.RegisterOutcome, login: LoginOutcome, during: Access, after: Access)
    ensures registered == Credentials.Registered && login == LoggedIn
    ensures during == (if username != "" then Granted(username) else RedirectToLogin)
    ensures after == RedirectToLogin
  {
    var store := new Credentials.CredentialStore(map[]);
    registered := store.Register(username, password);
    var session := new Session();
    login := session.Login(store, username, password);
    during := session.Gate();
    session.Logout();
    session.Logout();
    after := session.Gate();
  }

  /** A wrong password neither logs in nor changes who is logged in. */
  method WrongPasswordKeepsSession(username: string, password: string, attempt: string)
    returns (login: LoginOutcome, access: Access)
    requires attempt != password
    ensures login == InvalidCredentials && access == RedirectToLogin
  {
    var store := new Credentials.CredentialStore(map[username := password]);
    var session := new Session();
    login := session.Login(store, username, attempt);
    access := session.Gate();
  }
}
