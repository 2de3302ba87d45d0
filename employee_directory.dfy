/** The employee directory: the staff list (employees and managers), its
    search and role filter, and the per-person figures shown in the
    details view. */
module EmployeeDirectory {
  import opened Common
  import opened Calendar
  import opened Records
  import opened Storage
  import opened UserSearch
  import opened AttendanceHistory
  import opened LeaveApproval

  /** The directory's population: employees and managers. */
  predicate IsStaff(u: User)
  {
    u.role == Employee || u.role == Manager
  }

  /** loadEmployees. */
  function StaffOf(users: seq<User>): (r: seq<User>)
    ensures forall i :: 0 <= i < |r| ==> r[i] in users && IsStaff(r[i])
    ensures forall i :: 0 <= i < |users| && IsStaff(users[i]) ==> users[i] in r
    ensures IsSubsequence(r, users)
  {
    Filter(users, IsStaff)
  }

  predicate ByUser(q: CorrectionRequest, name: string)
  {
    q.username == name
  }

  /** The details figures; hours are exact (the display rounds them to one
      decimal), and `avgHours` is None where the screen shows '0'. */
  datatype EmployeeStats = EmployeeStats(
    totalSessions: nat,
    totalHours: real,
    totalBreak: real,
    avgHours: Option<real>,
    totalLeaves: nat,
    approvedLeaves: nat,
    pendingLeaves: nat,
    totalCorrections: nat,
    profile: Option<Profile>,
    isActive: bool,
    lastLogin: Option<int>)

  /** The figures for one person, from their history, leave list,
      correction requests, profile and active session. */
  function StatsOf(attendance: seq<AttendanceRecord>, leaves: seq<LeaveRequest>, corrections: seq<CorrectionRequest>,
                   profile: Option<Profile>, session: Option<SessionSnapshot>, name: string): EmployeeStats
  {
    var hours := CalculateStats(attendance);
    EmployeeStats(
      |attendance|, hours.totalHours, hours.totalBreaks,
      if |attendance| > 0 then Some(hours.avgHours) else None,
      |leaves|, CountStatus(leaves, LeaveStatus, Approved), CountStatus(leaves, LeaveStatus, Pending),
      Count(corrections, (q: CorrectionRequest) => ByUser(q, name)),
      profile, session.Some? && session.value.isLoggedIn,
      if |attendance| > 0 then Some(attendance[0].loginTime) else None)
  }

  /** What the figures mean: the number of sessions, the history screen's
      average (which times the session count gives the total), the first
      (newest) record's login as the last login, no activity without a
      stored session, and counts that never exceed their lists. */
  lemma StatsMeaning(attendance: seq<AttendanceRecord>, leaves: seq<LeaveRequest>, corrections: seq<CorrectionRequest>,
                     profile: Option<Profile>, session: Option<SessionSnapshot>, name: string)
    ensures var st := StatsOf(attendance, leaves, corrections, profile, session, name);
      && st.totalSessions == |attendance|
      && (st.avgHours.None? <==> attendance == [])
      && (st.avgHours.Some? ==> st.avgHours.value == CalculateStats(attendance).avgHours)
      && (st.lastLogin.Some? <==> attendance != [])
      && (attendance != [] ==> st.lastLogin == Some(attendance[0].loginTime))
      && (session.None? ==> !st.isActive)
      && st.approvedLeaves + st.pendingLeaves <= st.totalLeaves
      && st.totalCorrections <= |corrections|
  {
    StatusCountsBounded(leaves, LeaveStatus);
  }

  class Directory {
    const storage: LocalStorage
    var employees: seq<User>
    var searchTerm: string
    var roleFilter: RoleFilter
    var filteredEmployees: seq<User>
    var selectedEmployee: Option<User>
    var employeeStats: Option<EmployeeStats>

    /** Mount: the staff list, unfiltered. */
    constructor (storage: LocalStorage)
      ensures this.storage == storage && employees == StaffOf(storage.Users())
      ensures searchTerm == "" && roleFilter == AllRoles && filteredEmployees == employees
      ensures selectedEmployee.None? && employeeStats.None?
    {
      this.storage := storage;
      employees := StaffOf(storage.Users());
      searchTerm := "";
      roleFilter := AllRoles;
      filteredEmployees := SearchUsers(StaffOf(storage.Users()), "", AllRoles);
      selectedEmployee := None;
      employeeStats := None;
    }

    /** The filter effect. */
    method FilterEmployees()
      modifies this`filteredEmployees
      ensures filteredEmployees == SearchUsers(employees, searchTerm, roleFilter)
    {
      filteredEmployees := SearchUsers(employees, searchTerm, roleFilter);
    }

    /** The figures of the person with that name, from storage. */
    function StatsFor(name: string): EmployeeStats
      reads storage
    {
      StatsOf(storage.AttendanceOf(name), storage.PersonalLeavesOf(name), storage.timeCorrectionRequests,
              if name in storage.profiles then Some(storage.profiles[name]) else None,
              if name in storage.activeSessions then Some(storage.activeSessions[name]) else None,
              name)
    }

    /** loadEmployeeStats: the totals are accumulated record by record. */
    method LoadEmployeeStats(employee: User) returns (stats: EmployeeStats)
      ensures stats == StatsFor(employee.name)
    {
      var attendance := storage.AttendanceOf(employee.name);
      var totalHours, totalBreak := SumHours(attendance);
      var leaves := storage.PersonalLeavesOf(employee.name);
      var corrections := storage.timeCorrectionRequests;
      var profile := if employee.name in storage.profiles then Some(storage.profiles[employee.name]) else None;
      var session := if employee.name in storage.activeSessions then Some(storage.activeSessions[employee.name]) else None;
      stats := EmployeeStats(
        |attendance|, totalHours, totalBreak,
        if |attendance| > 0 then Some(totalHours / (|attendance| as real)) else None,
        |leaves|, CountStatus(leaves, LeaveStatus, Approved), CountStatus(leaves, LeaveStatus, Pending),
        Count(corrections, (q: CorrectionRequest) => ByUser(q, employee.name)),
        profile, session.Some? && session.value.isLoggedIn,
        if |attendance| > 0 then Some(attendance[0].loginTime) else None);
    }

    /** handleViewDetails. */
    method HandleViewDetails(employee: User)
      modifies this`selectedEmployee, this`employeeStats
      ensures selectedEmployee == Some(employee)
      ensures employeeStats == Some(StatsFor(employee.name))
    {
      selectedEmployee := Some(employee);
      var stats := LoadEmployeeStats(employee);
      employeeStats := Some(stats);
    }
  }
}
