/**
 * The user store: a map from username to the password stored with it.
 * Registration refuses a name that is taken; login compares passwords exactly.
 */
module Credentials {

  datatype RegisterOutcome = Registered | UserAlreadyExists

  /** The login test: the name is known and the stored password is the one given. */
  predicate Authenticates(users: map<string, string>, username: string, password: string)
    ensures Authenticates(users, username, password) <==> (username, password) in users.Items
  {
    username in users && users[username] == password
  }

  class CredentialStore {
    var users: map<string, string>

    /** A store holding the user file's contents as read at the start of the request. */
    constructor (initial: map<string, string>)
      ensures users == initial
    {
      users := initial;
    }

    method Register(username: string, password: string) returns (r: RegisterOutcome)
      modifies this
      ensures r == (if username in old(users) then UserAlreadyExists else Registered)
      ensures r == UserAlreadyExists ==> users == old(users)
      ensures r == Registered ==> users == old(users)[username := password]
    {
      if username in users {
        return UserAlreadyExists;
      }
      users := users[username := password];
      r := Registered;
    }
  }

  /** Right after registering, the new credentials log in. */
  lemma RegisteredUserAuthenticates(users: map<string, string>, username: string, password: string, attempt: string)
    requires username !in users
    ensures Authenticates(users[username := password], username, attempt) <==> attempt == password
  {
  }

  /** Registering one name changes no other user's login. */
  lemma RegisterKeepsOtherLogins(users: map<string, string>, username: string, password: string,
                                 other: string, otherPassword: string)
    requires other != username
    ensures Authenticates(users[username := password], other, otherPassword) <==> Authenticates(users, other, otherPassword)
  {
  }

  /** Registering the same name twice keeps the first password, and only it logs in. */
  method RegisterTwice(username: string, first: string, second: string)
    returns (r1: RegisterOutcome, r2: RegisterOutcome, firstLogsIn: bool, secondLogsIn: bool)
    ensures r1 == Registered && r2 == UserAlreadyExists
    ensures firstLogsIn
    ensures secondLogsIn <==> second == first
  {
    var store := new CredentialStore(map[]);
    r1 := store.Register(username, first);
    r2 := store.Register(username, second);
    firstLogsIn := Authenticates(store.users, username, first);
    secondLogsIn := Authenticates(store.users, username, second);
  }
}
