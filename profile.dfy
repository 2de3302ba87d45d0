/** The profile screen: the default profile, the leave balance computed
    from the user's approved requests, and the password change. */
module ProfileScreen {
  import opened Common
  import opened Text
  import opened Records
  import opened Storage

  // ---------------------------------------------------------------------
  // Default profile.
  // ---------------------------------------------------------------------

  /** The position of the first occurrence of c in s. */
  function FirstOf(s: string, c: char): Option<nat>
  {
    FirstIndex(s, (x: char) => x == c)
  }

  /** `s.replace(a, b)` with a one-character pattern: only the first
      occurrence is replaced. */
  function ReplaceFirst(s: string, a: char, b: char): (r: string)
    ensures |r| == |s|
    ensures FirstOf(s, a).None? ==> r == s
    ensures FirstOf(s, a).Some? ==>
      r[FirstOf(s, a).value] == b
      && forall i :: 0 <= i < |s| && i != FirstOf(s, a).value ==> r[i] == s[i]
  {
    match FirstOf(s, a)
    case None => s
    case Some(k) => s[..k] + [b] + s[k + 1..]
  }

  /** Replacing the first space replaces exactly one: the result has one
      space fewer and one dot more, or is unchanged if there is no space. */
  lemma ReplaceFirstCounts(s: string)
    ensures FirstOf(s, ' ').Some? ==>
      Occurrences(ReplaceFirst(s, ' ', '.'), ' ') + 1 == Occurrences(s, ' ')
      && Occurrences(ReplaceFirst(s, ' ', '.'), '.') == Occurrences(s, '.') + 1
    ensures FirstOf(s, ' ').None? ==> ReplaceFirst(s, ' ', '.') == s
  {
    if FirstOf(s, ' ').Some? {
      var k := FirstOf(s, ' ').value;
      var r := ReplaceFirst(s, ' ', '.');
      assert s == s[..k] + [' '] + s[k + 1..];
      assert r == s[..k] + ['.'] + s[k + 1..];
      OccurrencesAppend(s[..k] + [' '], s[k + 1..], ' ');
      OccurrencesAppend(s[..k], [' '], ' ');
      OccurrencesAppend(s[..k] + ['.'], s[k + 1..], ' ');
      OccurrencesAppend(s[..k], ['.'], ' ');
      OccurrencesAppend(s[..k] + [' '], s[k + 1..], '.');
      OccurrencesAppend(s[..k], [' '], '.');
      OccurrencesAppend(s[..k] + ['.'], s[k + 1..], '.');
      OccurrencesAppend(s[..k], ['.'], '.');
      assert Occurrences([' '], ' ') == 1 && Occurrences(['.'], ' ') == 0;
      assert Occurrences([' '], '.') == 0 && Occurrences(['.'], '.') == 1;
    }
  }

  /** The default e-mail: the lower-cased name with its first space turned
      into a dot, at company.com. */
  function DefaultEmail(username: string): string
  {
    ReplaceFirst(ToLower(username), ' ', '.') + "@company.com"
  }

  function DefaultDepartment(role: Role): (d: string)
    ensures role == Employee ==> d == "Operations"
    ensures role == Manager ==> d == "Management"
    ensures role != Employee && role != Manager ==> d == "Administration"
  {
    if role == Employee then "Operations" else if role == Manager then "Management" else "Administration"
  }

  function DefaultProfile(username: string, role: Role): Profile
  {
    Profile(username, DefaultEmail(username), "+1 (555) 123-4567", "123 Main Street, City, State 12345",
            DefaultDepartment(role), "2023-01-15", "Emergency Contact", "+1 (555) 987-6543")
  }

  // ---------------------------------------------------------------------
  // Leave balance.
  // ---------------------------------------------------------------------

  datatype Balance = Balance(vacation: int, sick: int, personal: int, total: int)

  /** Whether a request counts against the allowance of type t. */
  predicate Charged(q: LeaveRequest, t: LeaveType)
  {
    q.status == Approved && q.leaveType == t
  }

  /** The days of approved requests of type t. */
  function UsedDays(requests: seq<LeaveRequest>, t: LeaveType): int
  {
    if requests == [] then 0
    else UsedDays(requests[..|requests| - 1], t)
         + (if Charged(requests[|requests| - 1], t) then requests[|requests| - 1].days else 0)
  }

  /** Allowances: 15 vacation, 10 sick and 5 personal days. */
  const VacationAllowance := 15
  const SickAllowance := 10
  const PersonalAllowance := 5

  /** calculateLeaveBalance: one pass over the requests adding the days of
      approved vacation, sick and personal requests; the balance is the
      allowance minus the days used, not clamped at zero. */
  method CalculateLeaveBalance(requests: seq<LeaveRequest>) returns (b: Balance)
    ensures b.vacation == VacationAllowance - UsedDays(requests, Vacation)
    ensures b.sick == SickAllowance - UsedDays(requests, Sick)
    ensures b.personal == PersonalAllowance - UsedDays(requests, Personal)
    ensures b.total == b.vacation + b.sick + b.personal
  {
    var vacation, sick, personal := 0, 0, 0;
    var i := 0;
    while i < |requests|
      invariant 0 <= i <= |requests|
      invariant vacation == UsedDays(requests[..i], Vacation)
      invariant sick == UsedDays(requests[..i], Sick)
      invariant personal == UsedDays(requests[..i], Personal)
    {
      var request := requests[i];
      assert requests[..i + 1][..i] == requests[..i];
      if request.status == Approved {
        if request.leaveType == Vacation {
          vacation := vacation + request.days;
        } else if request.leaveType == Sick {
          sick := sick + request.days;
        } else if request.leaveType == Personal {
          personal := personal + request.days;
        }
      }
      i := i + 1;
    }
    assert requests[..i] == requests;
    b := Balance(VacationAllowance - vacation, SickAllowance - sick, PersonalAllowance - personal, 0);
    b := b.(total := b.vacation + b.sick + b.personal);
  }

  /** Only approved requests are charged: dropping every other request
      leaves the days used unchanged. */
  predicate IsApproved(q: LeaveRequest)
  {
    q.status == Approved
  }

  lemma UsedDaysSnoc(s: seq<LeaveRequest>, q: LeaveRequest, t: LeaveType)
    ensures UsedDays(s + [q], t) == UsedDays(s, t) + (if Charged(q, t) then q.days else 0)
  {
    assert (s + [q])[..|s + [q]| - 1] == s;
  }

  lemma {:induction false} UsedDaysOnlyApproved(requests: seq<LeaveRequest>, t: LeaveType)
    ensures UsedDays(Filter(requests, IsApproved), t) == UsedDays(requests, t)
  {
    if requests != [] {
      var init, last := requests[..|requests| - 1], requests[|requests| - 1];
      assert requests == init + [last];
      FilterSnoc(init, last, IsApproved);
      UsedDaysOnlyApproved(init, t);
      var f := Filter(init, IsApproved);
      UsedDaysSnoc(init, last, t);
      if IsApproved(last) {
        UsedDaysSnoc(f, last, t);
      } else {
        assert f + [] == f;
      }
    }
  }

  /** The balance can go negative: twenty approved vacation days leave -5. */
  lemma BalanceIsNotClamped(q: LeaveRequest)
    requires q.status == Approved && q.leaveType == Vacation && q.days == 20
    ensures VacationAllowance - UsedDays([q], Vacation) == -5
  {
    assert [q][..0] == [];
  }

  // ---------------------------------------------------------------------
  // Password change.
  // ---------------------------------------------------------------------

  /** The index `users.findIndex(u => u.name === username)`. */
  function UserIndex(users: seq<User>, username: string): Option<nat>
  {
    FirstIndex(users, (u: User) => u.name == username)
  }

  /** handleChangePassword's checks, in order: an empty field, a new
      password under six characters, a mismatched confirmation, no user
      with the name, a wrong current password. */
  function PasswordError(current: string, newPw: string, confirm: string, users: seq<User>, username: string): (e: Option<string>)
    ensures (current == "" || newPw == "" || confirm == "") ==> e == Some("All password fields are required")
    ensures e.None? <==>
      current != "" && newPw != "" && confirm != "" && |newPw| >= 6 && newPw == confirm
      && UserIndex(users, username).Some? && users[UserIndex(users, username).value].password == current
    ensures current != "" && newPw != "" && confirm != "" && |newPw| < 6 ==>
      e == Some("New password must be at least 6 characters long")
    ensures current != "" && newPw != "" && confirm != "" && |newPw| >= 6 && newPw != confirm ==>
      e == Some("New password and confirm password do not match")
  {
    if current == "" || newPw == "" || confirm == "" then Some("All password fields are required")
    else if |newPw| < 6 then Some("New password must be at least 6 characters long")
    else if newPw != confirm then Some("New password and confirm password do not match")
    else match UserIndex(users, username)
      case None => Some("User not found")
      case Some(k) =>
        if users[k].password != current then Some("Current password is incorrect") else None
  }

  class ProfilePage {
    const username: string
    const userRole: Role
    const storage: LocalStorage
    var profileData: Profile
    var leaveBalance: Balance
    var currentPassword: string
    var newPassword: string
    var confirmPassword: string
    var passwordError: string
    var passwordSuccess: string

    /** Mount: load the profile and the leave balance; the password form
        starts empty. */
    constructor (username: string, userRole: Role, storage: LocalStorage)
      modifies storage`profiles
      ensures this.username == username && this.userRole == userRole && this.storage == storage
      ensures old(username in storage.profiles) ==>
        profileData == old(storage.profiles)[username] && storage.profiles == old(storage.profiles)
      ensures old(username !in storage.profiles) ==>
        profileData == DefaultProfile(username, userRole)
        && storage.profiles == old(storage.profiles)[username := DefaultProfile(username, userRole)]
      ensures leaveBalance.vacation == VacationAllowance - UsedDays(storage.PersonalLeavesOf(username), Vacation)
      ensures leaveBalance.sick == SickAllowance - UsedDays(storage.PersonalLeavesOf(username), Sick)
      ensures leaveBalance.personal == PersonalAllowance - UsedDays(storage.PersonalLeavesOf(username), Personal)
      ensures leaveBalance.total == leaveBalance.vacation + leaveBalance.sick + leaveBalance.personal
      ensures currentPassword == "" && newPassword == "" && confirmPassword == ""
    {
      this.username := username;
      this.userRole := userRole;
      this.storage := storage;
      profileData := Profile(username, "", "", "", "", "", "", "");
      leaveBalance := Balance(VacationAllowance, SickAllowance, PersonalAllowance,
                              VacationAllowance + SickAllowance + PersonalAllowance);
      currentPassword, newPassword, confirmPassword := "", "", "";
      passwordError, passwordSuccess := "", "";
      new;
      LoadProfileData();
      LoadLeaveBalance();
    }

    /** loadProfileData: the stored profile, or the default one, stored. */
    method LoadProfileData()
      modifies this`profileData, storage`profiles
      ensures old(username in storage.profiles) ==>
        profileData == old(storage.profiles)[username] && storage.profiles == old(storage.profiles)
      ensures old(username !in storage.profiles) ==>
        profileData == DefaultProfile(username, userRole)
        && storage.profiles == old(storage.profiles)[username := DefaultProfile(username, userRole)]
    {
      if username in storage.profiles {
        profileData := storage.profiles[username];
      } else {
        var defaultData := DefaultProfile(username, userRole);
        profileData := defaultData;
        storage.profiles := storage.profiles[username := defaultData];
      }
    }

    method LoadLeaveBalance()
      modifies this`leaveBalance
      ensures leaveBalance.vacation == VacationAllowance - UsedDays(storage.PersonalLeavesOf(username), Vacation)
      ensures leaveBalance.sick == SickAllowance - UsedDays(storage.PersonalLeavesOf(username), Sick)
      ensures leaveBalance.personal == PersonalAllowance - UsedDays(storage.PersonalLeavesOf(username), Personal)
      ensures leaveBalance.total == leaveBalance.vacation + leaveBalance.sick + leaveBalance.personal
    {
      leaveBalance := CalculateLeaveBalance(storage.PersonalLeavesOf(username));
    }

    /** handleChangePassword: on success only the found user's password
        changes and the three fields are cleared; otherwise only the error
        is set. */
    method HandleChangePassword()
      modifies storage`systemUsers, this`currentPassword, this`newPassword, this`confirmPassword
      modifies this`passwordError, this`passwordSuccess
      ensures var e := PasswordError(old(currentPassword), old(newPassword), old(confirmPassword),
                                     old(storage.Users()), username);
        && (e.Some? ==>
              passwordError == e.value && passwordSuccess == ""
              && storage.systemUsers == old(storage.systemUsers)
              && currentPassword == old(currentPassword) && newPassword == old(newPassword)
              && confirmPassword == old(confirmPassword))
        && (e.None? ==>
              var k := UserIndex(old(storage.Users()), username).value;
              && storage.systemUsers == Some(old(storage.Users())[k := old(storage.Users())[k].(password := old(newPassword))])
              && currentPassword == "" && newPassword == "" && confirmPassword == ""
              && passwordError == "" && passwordSuccess == "Password changed successfully!")
    {
      passwordError := "";
      passwordSuccess := "";
      if currentPassword == "" || newPassword == "" || confirmPassword == "" {
        passwordError := "All password fields are required";
        return;
      }
      if |newPassword| < 6 {
        passwordError := "New password must be at least 6 characters long";
        return;
      }
      if newPassword != confirmPassword {
        passwordError := "New password and confirm password do not match";
        return;
      }
      var users := storage.Users();
      var userIndex := UserIndex(users, username);
      if userIndex.None? {
        passwordError := "User not found";
        return;
      }
      if users[userIndex.value].password != currentPassword {
        passwordError := "Current password is incorrect";
        return;
      }
      users := users[userIndex.value := users[userIndex.value].(password := newPassword)];
      storage.systemUsers := Some(users);
      currentPassword, newPassword, confirmPassword := "", "", "";
      passwordSuccess := "Password changed successfully!";
    }
  }
}
