/** The search and role filter shared by the user list and the employee
    directory: a case-insensitive substring search on name or email,
    followed by an optional role filter. */
module UserSearch {
  import opened Common
  import opened Text
  import opened Records

  /** The role selector: 'all' or one role. */
  datatype RoleFilter = AllRoles | OnlyRole(role: Role)

  /** The name or the e-mail contains the search term, ignoring case. */
  predicate SearchMatch(u: User, term: string)
  {
    Contains(ToLower(u.name), ToLower(term)) || Contains(ToLower(u.email), ToLower(term))
  }

  predicate RoleMatch(u: User, f: RoleFilter)
  {
    f.AllRoles? || u.role == f.role
  }

  /** A user passes both filters; an empty term does not filter. */
  predicate Selected(u: User, term: string, f: RoleFilter)
  {
    (term == "" || SearchMatch(u, term)) && RoleMatch(u, f)
  }

  /** The reference selection: one pass keeping the selected users. */
  function SelectedUsers(users: seq<User>, term: string, f: RoleFilter): seq<User>
  {
    Filter(users, (u: User) => Selected(u, term, f))
  }

  /** filterUsers / filterEmployees: the search filter when a term is
      given, then the role filter unless it is 'all'. */
  function SearchUsers(users: seq<User>, term: string, f: RoleFilter): (r: seq<User>)
    ensures r == SelectedUsers(users, term, f)
    ensures forall i :: 0 <= i < |r| ==> r[i] in users && Selected(r[i], term, f)
    ensures forall i :: 0 <= i < |users| && Selected(users[i], term, f) ==> users[i] in r
    ensures IsSubsequence(r, users)
  {
    SearchSteps(users, term, f);
    var bySearch := if term != "" then Filter(users, (u: User) => SearchMatch(u, term)) else users;
    if f.OnlyRole? then Filter(bySearch, (u: User) => u.role == f.role) else bySearch
  }

  /** The two filtering steps select the same users as one pass. */
  lemma {:induction false} SearchSteps(users: seq<User>, term: string, f: RoleFilter)
    ensures var bySearch := if term != "" then Filter(users, (u: User) => SearchMatch(u, term)) else users;
      (if f.OnlyRole? then Filter(bySearch, (u: User) => u.role == f.role) else bySearch)
      == SelectedUsers(users, term, f)
  {
    if users != [] {
      SearchSteps(users[1..], term, f);
    }
  }
}

/** The user administration screen: the validated add and edit form and
    deletion by e-mail, over the stored user list. */
module UserManagement {
  import opened Common
  import opened Text
  import opened Records
  import opened Storage
  import opened UserSearch

  /** A character the pattern's class `[^\s@]` accepts. */
  predicate EmailChar(c: char)
  {
    !IsSpace(c) && c != '@'
  }

  /** `/^[^\s@]+@[^\s@]+\.[^\s@]+$/.test(s)`: one '@' with something
      before it, and after it a '.' with something on both sides, and no
      white space anywhere. */
  predicate ValidEmail(s: string)
  {
    exists k, j :: 0 < k && k + 1 < j < |s| - 1 && s[k] == '@' && s[j] == '.'
      && (forall i :: 0 <= i < |s| && i != k ==> EmailChar(s[i]))
  }

  predicate CleanPart(p: string)
  {
    |p| > 0 && forall i :: 0 <= i < |p| ==> EmailChar(p[i])
  }

  /** Three clean parts joined as local@domain.suffix match the pattern. */
  lemma EmailFromParts(a: string, b: string, c: string)
    requires CleanPart(a) && CleanPart(b) && CleanPart(c)
    ensures ValidEmail(a + "@" + b + "." + c)
  {
    var s := a + "@" + b + "." + c;
    var k, j := |a|, |a| + 1 + |b|;
    assert s[k] == '@' && s[j] == '.';
    forall i | 0 <= i < |s| && i != k ensures EmailChar(s[i]) {
      if i < k {
        assert s[i] == a[i];
      } else if i < j {
        assert s[i] == b[i - k - 1];
      } else if i > j {
        assert s[i] == c[i - j - 1];
      }
    }
  }

  /** A matching address splits into three clean parts. */
  lemma EmailToParts(s: string) returns (a: string, b: string, c: string)
    requires ValidEmail(s)
    ensures CleanPart(a) && CleanPart(b) && CleanPart(c)
    ensures s == a + "@" + b + "." + c
  {
    var k, j :| 0 < k && k + 1 < j < |s| - 1 && s[k] == '@' && s[j] == '.'
      && (forall i :: 0 <= i < |s| && i != k ==> EmailChar(s[i]));
    a, b, c := s[..k], s[k + 1..j], s[j + 1..];
    assert forall i :: 0 <= i < |b| ==> b[i] == s[k + 1 + i];
    assert forall i :: 0 <= i < |c| ==> c[i] == s[j + 1 + i];
    assert s == a + "@" + b + "." + c;
  }

  /** Whether the modal adds a user or edits the one selected. */
  datatype Mode = AddMode | EditMode(selected: User)

  predicate HasEmail(users: seq<User>, email: string)
  {
    exists i :: 0 <= i < |users| && users[i].email == email
  }

  ghost predicate EmailsUnique(users: seq<User>)
  {
    forall i, j :: 0 <= i < j < |users| ==> users[i].email != users[j].email
  }

  /** handleSubmit's checks, in order: an empty field, a short password, a
      malformed e-mail and, when adding, an e-mail already in use. */
  function FormError(form: User, mode: Mode, users: seq<User>): (e: Option<string>)
    ensures form.name == "" || form.email == "" || form.password == "" ==> e == Some("All fields are required!")
    ensures e.None? <==>
      form.name != "" && form.email != "" && |form.password| >= 6 && ValidEmail(form.email)
      && (mode.AddMode? ==> !HasEmail(users, form.email))
    ensures form.name != "" && form.email != "" && form.password != "" && |form.password| < 6 ==>
      e == Some("Password must be at least 6 characters!")
    ensures form.name != "" && form.email != "" && |form.password| >= 6 && !ValidEmail(form.email) ==>
      e == Some("Please enter a valid email address!")
    ensures (form.name != "" && |form.password| >= 6 && ValidEmail(form.email) && mode.AddMode?
             && HasEmail(users, form.email)) ==> e == Some("A user with this email already exists!")
  {
    if form.name == "" || form.email == "" || form.password == "" then Some("All fields are required!")
    else if |form.password| < 6 then Some("Password must be at least 6 characters!")
    else if !ValidEmail(form.email) then Some("Please enter a valid email address!")
    else if mode.AddMode? && HasEmail(users, form.email) then Some("A user with this email already exists!")
    else None
  }

  /** The list after adding: the new user at the end. */
  function AddUser(users: seq<User>, form: User): (r: seq<User>)
    ensures |r| == |users| + 1 && r[..|users|] == users && r[|users|] == form
  {
    users + [form]
  }

  /** Adding an e-mail not yet in use keeps the e-mails unique. */
  lemma AddKeepsEmailsUnique(users: seq<User>, form: User)
    requires EmailsUnique(users) && !HasEmail(users, form.email)
    ensures EmailsUnique(AddUser(users, form))
  {
    var r := AddUser(users, form);
    forall i, j | 0 <= i < j < |r| ensures r[i].email != r[j].email {
      if j == |users| {
        assert r[i] == users[i];
      }
    }
  }

  /** The list after editing: every user with the selected user's e-mail
      becomes the form's user; the others stay. */
  function EditUser(users: seq<User>, selectedEmail: string, form: User): (r: seq<User>)
    ensures |r| == |users|
    ensures forall i :: 0 <= i < |users| ==> r[i] == if users[i].email == selectedEmail then form else users[i]
  {
    MapWhere(users, (u: User) => u.email == selectedEmail, (u: User) => form)
  }

  /** With unique e-mails an edit replaces exactly the selected user. */
  lemma EditReplacesSelected(users: seq<User>, k: nat, form: User)
    requires EmailsUnique(users) && k < |users|
    ensures EditUser(users, users[k].email, form) == users[k := form]
  {
  }

  /** The edit does not check the new e-mail: an edit can give two users
      the same e-mail. */
  lemma EditCanDuplicateEmail()
    ensures var users := [User("A", "a", "pw", Employee), User("B", "b", "pw", Employee)];
      EmailsUnique(users) && !EmailsUnique(EditUser(users, "a", User("A", "b", "pw", Employee)))
  {
    var users := [User("A", "a", "pw", Employee), User("B", "b", "pw", Employee)];
    var r := EditUser(users, "a", User("A", "b", "pw", Employee));
    assert r[0].email == r[1].email;
  }

  predicate OtherEmail(u: User, email: string)
  {
    u.email != email
  }

  /** The list after deleting: the users without that e-mail, in order. */
  function DeleteUser(users: seq<User>, email: string): (r: seq<User>)
    ensures forall i :: 0 <= i < |r| ==> r[i] in users && r[i].email != email
    ensures forall i :: 0 <= i < |users| && users[i].email != email ==> users[i] in r
    ensures IsSubsequence(r, users)
  {
    Filter(users, (u: User) => OtherEmail(u, email))
  }

  /** Deleting an e-mail nobody has changes nothing. */
  lemma DeleteAbsent(users: seq<User>, email: string)
    requires forall i :: 0 <= i < |users| ==> users[i].email != email
    ensures DeleteUser(users, email) == users
  {
    assert forall i :: 0 <= i < |users| ==> ((u: User) => OtherEmail(u, email))(users[i]);
  }

  /** With unique e-mails, deleting the e-mail of user k removes exactly
      that user. */
  lemma {:induction false} DeleteRemovesOne(users: seq<User>, k: nat)
    requires EmailsUnique(users) && k < |users|
    ensures DeleteUser(users, users[k].email) == users[..k] + users[k + 1..]
  {
    var email := users[k].email;
    var rest := users[1..];
    if k == 0 {
      DeleteFirst(users, email);
      assert users[..0] + users[1..] == rest;
    } else {
      assert EmailsUnique(rest) by {
        forall i, j | 0 <= i < j < |rest| ensures rest[i].email != rest[j].email {
          assert rest[i] == users[i + 1] && rest[j] == users[j + 1];
        }
      }
      assert rest[k - 1] == users[k];
      DeleteRemovesOne(rest, k - 1);
      DeleteKeepsFirst(users, email);
      assert users[..k] + users[k + 1..] == [users[0]] + (rest[..k - 1] + rest[k..]);
    }
  }

  /** Deleting the first user's e-mail, held by nobody else, drops that user. */
  lemma DeleteFirst(users: seq<User>, email: string)
    requires EmailsUnique(users) && users != [] && users[0].email == email
    ensures DeleteUser(users, email) == users[1..]
  {
    var rest := users[1..];
    assert users == [users[0]] + rest;
    FilterCons(users[0], rest, (u: User) => OtherEmail(u, email));
    forall i | 0 <= i < |rest| ensures rest[i].email != email {
      assert rest[i] == users[i + 1];
    }
    DeleteAbsent(rest, email);
  }

  /** A first user with another e-mail stays first. */
  lemma DeleteKeepsFirst(users: seq<User>, email: string)
    requires users != [] && users[0].email != email
    ensures DeleteUser(users, email) == [users[0]] + DeleteUser(users[1..], email)
  {
    assert users == [users[0]] + users[1..];
    FilterCons(users[0], users[1..], (u: User) => OtherEmail(u, email));
  }

  class UserManagementScreen {
    const storage: LocalStorage
    var users: seq<User>
    var searchTerm: string
    var roleFilter: RoleFilter
    var filteredUsers: seq<User>
    var mode: Mode
    var form: User
    var showModal: bool

    /** Mount: the stored users, no filter, a closed add form. */
    constructor (storage: LocalStorage)
      ensures this.storage == storage && users == storage.Users()
      ensures searchTerm == "" && roleFilter == AllRoles && filteredUsers == users
      ensures mode == AddMode && !showModal
    {
      this.storage := storage;
      users := storage.Users();
      searchTerm := "";
      roleFilter := AllRoles;
      filteredUsers := SearchUsers(storage.Users(), "", AllRoles);
      mode := AddMode;
      form := User("", "", "", Employee);
      showModal := false;
    }

    /** The filter effect. */
    method FilterUsers()
      modifies this`filteredUsers
      ensures filteredUsers == SearchUsers(users, searchTerm, roleFilter)
    {
      filteredUsers := SearchUsers(users, searchTerm, roleFilter);
    }

    /** handleAddUser: an empty employee form in add mode. */
    method HandleAddUser()
      modifies this`mode, this`form, this`showModal
      ensures mode == AddMode && form == User("", "", "", Employee) && showModal
    {
      mode := AddMode;
      form := User("", "", "", Employee);
      showModal := true;
    }

    /** handleEditUser: the user's fields in edit mode. */
    method HandleEditUser(user: User)
      modifies this`mode, this`form, this`showModal
      ensures mode == EditMode(user) && form == user && showModal
    {
      mode := EditMode(user);
      form := user;
      showModal := true;
    }

    /** handleDeleteUser, with the confirmation's answer. */
    method HandleDeleteUser(user: User, confirmed: bool)
      modifies storage`systemUsers, this`users, this`filteredUsers
      ensures !confirmed ==> storage.systemUsers == old(storage.systemUsers) && users == old(users)
      ensures confirmed ==> storage.systemUsers == Some(DeleteUser(old(users), user.email))
                            && users == DeleteUser(old(users), user.email)
      ensures filteredUsers == if confirmed then SearchUsers(users, searchTerm, roleFilter) else old(filteredUsers)
    {
      if !confirmed {
        return;
      }
      var updatedUsers := DeleteUser(users, user.email);
      storage.systemUsers := Some(updatedUsers);
      users := storage.Users();
      FilterUsers();
    }

    /** handleSubmit: on a valid form, append (add) or replace (edit), store
        and reload the list, and close the modal. */
    method HandleSubmit() returns (alert: string)
      modifies storage`systemUsers, this`users, this`filteredUsers, this`showModal
      ensures var e := FormError(form, mode, old(users));
        && (e.Some? ==> alert == e.value && storage.systemUsers == old(storage.systemUsers)
                        && users == old(users) && showModal == old(showModal)
                        && filteredUsers == old(filteredUsers))
        && (e.None? ==>
              var updated := if mode.AddMode? then AddUser(old(users), form)
                             else EditUser(old(users), mode.selected.email, form);
              && storage.systemUsers == Some(updated) && users == updated && !showModal
              && filteredUsers == SearchUsers(updated, searchTerm, roleFilter)
              && alert == if mode.AddMode? then "User added successfully!" else "User updated successfully!")
    {
      var e := FormError(form, mode, users);
      if e.Some? {
        return e.value;
      }
      var updatedUsers;
      if mode.AddMode? {
        updatedUsers := AddUser(users, form);
        alert := "User added successfully!";
      } else {
        updatedUsers := EditUser(users, mode.selected.email, form);
        alert := "User updated successfully!";
      }
      storage.systemUsers := Some(updatedUsers);
      users := storage.Users();
      FilterUsers();
      showModal := false;
    }
  }
}
