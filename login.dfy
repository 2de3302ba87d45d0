/** The sign-in screen: the accounts seeded on first use and the credential
    lookup that decides who signs in. */
module LoginScreen {
  import opened Common
  import opened Records
  import opened Storage
  import UserManagement

  /** The accounts stored when no account list exists yet. */
  const DefaultUsers: seq<User> := [
    User("Admin User", "admin@company.com", "admin123", Admin),
    User("Manager User", "manager@company.com", "manager123", Manager),
    User("Employee User", "employee@company.com", "employee123", Employee),
    User("John Doe", "john@company.com", "john123", Employee),
    User("Sarah Smith", "sarah@company.com", "sarah123", Manager)
  ]

  predicate Credentials(u: User, email: string, password: string)
  {
    u.email == email && u.password == password
  }

  /** `users.find(u => u.email === email && u.password === password)`: some
      account is found exactly when one has both the e-mail and the
      password, and it is the first such account in the list. */
  function FindAccount(users: seq<User>, email: string, password: string): (r: Option<User>)
    ensures r.Some? <==> exists i :: 0 <= i < |users| && Credentials(users[i], email, password)
    ensures r.Some? ==> exists k :: 0 <= k < |users| && users[k] == r.value && Credentials(users[k], email, password)
                                    && forall j :: 0 <= j < k ==> !Credentials(users[j], email, password)
  {
    match FirstIndex(users, (u: User) => Credentials(u, email, password))
    case None => None
    case Some(k) => Some(users[k])
  }

  /** While e-mails are unique, an account's own e-mail and password sign
      in as that account and no other. */
  lemma UniqueEmailSignsInOwner(users: seq<User>, i: int)
    requires UserManagement.EmailsUnique(users)
    requires 0 <= i < |users|
    ensures FindAccount(users, users[i].email, users[i].password) == Some(users[i])
  {
    var r := FindAccount(users, users[i].email, users[i].password);
    var k :| 0 <= k < |users| && users[k] == r.value && Credentials(users[k], users[i].email, users[i].password);
  }

  /** The seeded accounts have distinct e-mails, so each signs in as itself. */
  lemma DefaultAccountsSignIn(i: int)
    requires 0 <= i < |DefaultUsers|
    ensures FindAccount(DefaultUsers, DefaultUsers[i].email, DefaultUsers[i].password) == Some(DefaultUsers[i])
  {
    assert UserManagement.EmailsUnique(DefaultUsers);
    UniqueEmailSignsInOwner(DefaultUsers, i);
  }

  /** What a successful sign-in stores as the current user: no password. */
  function SessionUser(u: User): (c: CurrentUser)
    ensures c.email == u.email && c.name == u.name && c.role == u.role
  {
    CurrentUser(u.email, u.name, u.role)
  }

  class LoginForm {
    const storage: LocalStorage
    var email: string
    var password: string
    var error: string

    constructor (storage: LocalStorage)
      ensures this.storage == storage && email == "" && password == "" && error == ""
    {
      this.storage := storage;
      email := "";
      password := "";
      error := "";
    }

    /** The first-load effect: the default accounts are stored only when no
        account list is stored; a stored list, even an empty one, is kept. */
    method SeedDefaultUsers()
      modifies storage`systemUsers
      ensures old(storage.systemUsers).None? ==> storage.systemUsers == Some(DefaultUsers)
      ensures old(storage.systemUsers).Some? ==> storage.systemUsers == old(storage.systemUsers)
    {
      if storage.systemUsers.None? {
        storage.systemUsers := Some(DefaultUsers);
      }
    }

    /** handleSubmit: on a match the account's e-mail, name and role become
        the current user and are handed to the application (`onLogin`);
        otherwise the error is shown and nothing is stored. */
    method HandleSubmit() returns (signedIn: Option<(string, Role)>)
      modifies storage`currentUser, this`error
      ensures var found := FindAccount(storage.Users(), email, password);
        && (found.Some? ==>
              && storage.currentUser == Some(SessionUser(found.value))
              && signedIn == Some((found.value.name, found.value.role))
              && error == "")
        && (found.None? ==>
              && storage.currentUser == old(storage.currentUser)
              && signedIn == None
              && error == "Invalid email or password")
    {
      error := "";
      var users := storage.Users();
      var user := FindAccount(users, email, password);
      if user.Some? {
        storage.currentUser := Some(SessionUser(user.value));
        signedIn := Some((user.value.name, user.value.role));
      } else {
        error := "Invalid email or password";
        signedIn := None;
      }
    }
  }
}
