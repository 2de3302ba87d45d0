/** What the admin and manager dashboards share: the counters over the
    staff's stored sessions and histories, the recent-activity feed merged
    from the two request lists, and the relative-time label. */
module Dashboard {
  import opened Common
  import opened Text
  import opened Calendar
  import opened Records
  import opened Storage
  import Reports
  import EmployeeDirectory

  // ---------------------------------------------------------------------
  // Counters.
  // ---------------------------------------------------------------------

  /** A stored session for the person says they are logged in. */
  predicate LoggedIn(sessions: map<string, SessionSnapshot>, u: User)
  {
    u.name in sessions && sessions[u.name].isLoggedIn
  }

  /** The number of people in the list whose stored session is logged in. */
  function ActiveToday(staff: seq<User>, sessions: map<string, SessionSnapshot>): (n: nat)
    ensures n <= |staff|
    ensures n == 0 <== forall i :: 0 <= i < |staff| ==> !LoggedIn(sessions, staff[i])
  {
    if staff == [] then 0
    else ActiveToday(staff[..|staff| - 1], sessions) + (if LoggedIn(sessions, staff[|staff| - 1]) then 1 else 0)
  }

  /** The total length of the people's attendance histories. */
  function TotalRecords(staff: seq<User>, attendance: map<string, seq<AttendanceRecord>>): nat
  {
    if staff == [] then 0
    else TotalRecords(staff[..|staff| - 1], attendance) + |ListAt(attendance, staff[|staff| - 1].name)|
  }

  /** The activeToday loop: one step per person. */
  method CountActiveToday(staff: seq<User>, sessions: map<string, SessionSnapshot>) returns (activeToday: nat)
    ensures activeToday == ActiveToday(staff, sessions)
    ensures activeToday <= |staff|
  {
    activeToday := 0;
    var i := 0;
    while i < |staff|
      invariant 0 <= i <= |staff|
      invariant activeToday == ActiveToday(staff[..i], sessions)
    {
      assert staff[..i + 1][..i] == staff[..i];
      if staff[i].name in sessions && sessions[staff[i].name].isLoggedIn {
        activeToday := activeToday + 1;
      }
      i := i + 1;
    }
    assert staff[..i] == staff;
  }

  /** The totalAttendanceRecords loop: each person's history length added. */
  method CountAttendanceRecords(staff: seq<User>, attendance: map<string, seq<AttendanceRecord>>)
    returns (total: nat)
    ensures total == TotalRecords(staff, attendance)
  {
    total := 0;
    var i := 0;
    while i < |staff|
      invariant 0 <= i <= |staff|
      invariant total == TotalRecords(staff[..i], attendance)
    {
      assert staff[..i + 1][..i] == staff[..i];
      total := total + |ListAt(attendance, staff[i].name)|;
      i := i + 1;
    }
    assert staff[..i] == staff;
  }

  /** The dashboard's record total is the session total of the reports
      screen over the same people. */
  lemma {:induction false} TotalRecordsIsReportSessions(staff: seq<User>, attendance: map<string, seq<AttendanceRecord>>,
                                                        leaves: map<string, seq<LeaveRequest>>)
    ensures TotalRecords(staff, attendance) == Reports.SummaryOf(staff, attendance, leaves).totalSessions
  {
    if staff != [] {
      TotalRecordsIsReportSessions(staff[..|staff| - 1], attendance, leaves);
    }
  }

  // ---------------------------------------------------------------------
  // Recent activity.
  // ---------------------------------------------------------------------

  datatype ActivityKind = LeaveActivity | CorrectionActivity

  /** One entry of the feed. */
  datatype Activity = Activity(id: string, kind: ActivityKind, user: string, action: string, time: int, status: Status)

  function OfLeave(q: LeaveRequest): Activity
  {
    Activity("leave-" + IntToString(q.id), LeaveActivity, q.username,
             "Requested " + LeaveTypeName(q.leaveType) + " leave", q.submittedDate, q.status)
  }

  function OfCorrection(q: CorrectionRequest): Activity
  {
    Activity("time-" + IntToString(q.id), CorrectionActivity, q.username,
             "Requested time correction", q.submittedDate, q.status)
  }

  function LeaveItems(ls: seq<LeaveRequest>): seq<Activity>
  {
    seq(|ls|, i requires 0 <= i < |ls| => OfLeave(ls[i]))
  }

  function CorrectionItems(cs: seq<CorrectionRequest>): seq<Activity>
  {
    seq(|cs|, i requires 0 <= i < |cs| => OfCorrection(cs[i]))
  }

  /** The feed's candidates in the order they are pushed: an entry for each
      of the first five leave requests, then for each of the first five
      correction requests. */
  function Candidates(leaves: seq<LeaveRequest>, corrections: seq<CorrectionRequest>): (r: seq<Activity>)
    ensures |r| <= 10
  {
    LeaveItems(Take(leaves, 5)) + CorrectionItems(Take(corrections, 5))
  }

  /** The sort key: the submission instant. */
  function TimeKey(a: Activity): (int, int)
  {
    (a.time, 0)
  }

  /** loadRecentActivity: the candidates pushed one by one, sorted newest
      first and cut to ten. As there are never more than ten candidates,
      the cut drops nothing: the feed is the candidates reordered. */
  method LoadRecentActivity(leaves: seq<LeaveRequest>, corrections: seq<CorrectionRequest>)
    returns (recent: seq<Activity>)
    ensures recent == Take(SortDesc(Candidates(leaves, corrections), TimeKey), 10)
    ensures |recent| <= 10
    ensures forall i, j :: 0 <= i < j < |recent| ==> recent[i].time >= recent[j].time
    ensures multiset(recent) == multiset(Candidates(leaves, corrections))
  {
    var fromLeaves: seq<Activity> := [];
    var recentLeaves := Take(leaves, 5);
    var i := 0;
    while i < |recentLeaves|
      invariant 0 <= i <= |recentLeaves|
      invariant fromLeaves == LeaveItems(recentLeaves[..i])
    {
      LeaveItemsSnoc(recentLeaves, i);
      fromLeaves := fromLeaves + [OfLeave(recentLeaves[i])];
      i := i + 1;
    }
    assert recentLeaves[..i] == recentLeaves;
    var fromCorrections: seq<Activity> := [];
    var recentCorrections := Take(corrections, 5);
    var j := 0;
    while j < |recentCorrections|
      invariant 0 <= j <= |recentCorrections|
      invariant fromCorrections == CorrectionItems(recentCorrections[..j])
    {
      CorrectionItemsSnoc(recentCorrections, j);
      fromCorrections := fromCorrections + [OfCorrection(recentCorrections[j])];
      j := j + 1;
    }
    assert recentCorrections[..j] == recentCorrections;
    var activities := fromLeaves + fromCorrections;
    var sorted := SortDesc(activities, TimeKey);
    recent := Take(sorted, 10);
    NewestFirst(activities);
  }

  lemma LeaveItemsSnoc(ls: seq<LeaveRequest>, i: int)
    requires 0 <= i < |ls|
    ensures LeaveItems(ls[..i + 1]) == LeaveItems(ls[..i]) + [OfLeave(ls[i])]
  {
  }

  lemma CorrectionItemsSnoc(cs: seq<CorrectionRequest>, i: int)
    requires 0 <= i < |cs|
    ensures CorrectionItems(cs[..i + 1]) == CorrectionItems(cs[..i]) + [OfCorrection(cs[i])]
  {
  }

  /** Ten or fewer activities, sorted by time: the cut to ten keeps them
      all, newest first. */
  lemma NewestFirst(activities: seq<Activity>)
    requires |activities| <= 10
    ensures var sorted := SortDesc(activities, TimeKey);
      && Take(sorted, 10) == sorted
      && forall i, j :: 0 <= i < j < |sorted| ==> sorted[i].time >= sorted[j].time
  {
    var sorted := SortDesc(activities, TimeKey);
    forall i, j | 0 <= i < j < |sorted| ensures sorted[i].time >= sorted[j].time {
      assert KeyGe(TimeKey(sorted[i]), TimeKey(sorted[j]));
    }
  }

  /** The feed holds one entry per leave request among the first five and
      one per correction among the first five. */
  lemma FeedTakesFiveOfEach(leaves: seq<LeaveRequest>, corrections: seq<CorrectionRequest>)
    ensures var c := Candidates(leaves, corrections);
      && |c| == (if |leaves| < 5 then |leaves| else 5) + (if |corrections| < 5 then |corrections| else 5)
      && (forall i :: 0 <= i < |c| && c[i].kind == LeaveActivity ==> i < |Take(leaves, 5)|)
  {
  }

  // ---------------------------------------------------------------------
  // Relative time.
  // ---------------------------------------------------------------------

  /** formatDate's answer: a relative label, or the short calendar date
      the locale library renders. */
  datatype TimeLabel = JustNow | MinutesAgo(minutes: int) | HoursAgo(hours: int) | DaysAgo(days: int) | ShortDate(instant: int)

  /** formatDate(time) at instant now: whole minutes, hours and days are
      taken with `Math.floor` one from the other (Dafny's `/` by a positive
      divisor is that floor). A time in the future reads 'Just now'. */
  function FormatDate(time: int, now: int): (l: TimeLabel)
    ensures l == JustNow <==> now - time < MsPerMinute
    ensures l.MinutesAgo? <==> MsPerMinute <= now - time < MsPerHour
    ensures l.HoursAgo? <==> MsPerHour <= now - time < MsPerDay
    ensures l.DaysAgo? <==> MsPerDay <= now - time < 7 * MsPerDay
    ensures l.ShortDate? <==> 7 * MsPerDay <= now - time
    ensures l.MinutesAgo? ==> l.minutes * MsPerMinute <= now - time < (l.minutes + 1) * MsPerMinute
    ensures l.HoursAgo? ==> l.hours * MsPerHour <= now - time < (l.hours + 1) * MsPerHour
    ensures l.DaysAgo? ==> l.days * MsPerDay <= now - time < (l.days + 1) * MsPerDay
    ensures l.ShortDate? ==> l.instant == time
  {
    var diff := now - time;
    var minutes := diff / 60000;
    var hours := minutes / 60;
    var days := hours / 24;
    assert minutes * 60000 <= diff < (minutes + 1) * 60000;
    assert hours * 60 <= minutes < (hours + 1) * 60;
    assert days * 24 <= hours < (days + 1) * 24;
    if minutes < 1 then JustNow
    else if minutes < 60 then MinutesAgo(minutes)
    else if hours < 24 then HoursAgo(hours)
    else if days < 7 then DaysAgo(days)
    else ShortDate(time)
  }

  /** The label's text; `shortDate` is `toLocaleDateString` with the month
      and day only. */
  function LabelText(l: TimeLabel, shortDate: int -> string): string
  {
    match l
    case JustNow => "Just now"
    case MinutesAgo(m) => IntToString(m) + "m ago"
    case HoursAgo(h) => IntToString(h) + "h ago"
    case DaysAgo(d) => IntToString(d) + "d ago"
    case ShortDate(t) => shortDate(t)
  }

  /** The buckets in sequence: the label grows coarser as time passes. */
  lemma LabelsAtBoundaries(t: int)
    ensures FormatDate(t, t + MsPerMinute - 1) == JustNow
    ensures FormatDate(t, t + MsPerMinute) == MinutesAgo(1)
    ensures FormatDate(t, t + MsPerHour - 1) == MinutesAgo(59)
    ensures FormatDate(t, t + MsPerHour) == HoursAgo(1)
    ensures FormatDate(t, t + MsPerDay) == DaysAgo(1)
    ensures FormatDate(t, t + 7 * MsPerDay - 1) == DaysAgo(6)
    ensures FormatDate(t, t + 7 * MsPerDay) == ShortDate(t)
  {
  }

  /** The figures both dashboards show. */
  datatype Stats = Stats(
    totalEmployees: nat,
    activeToday: nat,
    pendingLeaves: nat,
    pendingTimeCorrections: nat,
    totalLeaveRequests: nat,
    totalAttendanceRecords: nat)
}

/** The admin dashboard: figures over employees and managers and over every
    request. */
module AdminDashboard {
  import opened Common
  import opened Records
  import opened Storage
  import opened Dashboard
  import opened EmployeeDirectory
  import LeaveApproval
  import TimeCorrectionApproval

  /** The figures loadDashboardData computes. */
  function DashboardStats(users: seq<User>, leaves: seq<LeaveRequest>, corrections: seq<CorrectionRequest>,
                   sessions: map<string, SessionSnapshot>, attendance: map<string, seq<AttendanceRecord>>): (s: Stats)
    ensures s.activeToday <= s.totalEmployees
    ensures s.pendingLeaves <= s.totalLeaveRequests
    ensures s.pendingTimeCorrections <= |corrections|
    ensures s.totalEmployees <= |users|
  {
    var staff := StaffOf(users);
    Stats(|staff|, ActiveToday(staff, sessions),
          CountStatus(leaves, LeaveApproval.LeaveStatus, Pending),
          CountStatus(corrections, TimeCorrectionApproval.CorrectionStatus, Pending),
          |leaves|, TotalRecords(staff, attendance))
  }

  class AdminDashboardPage {
    const storage: LocalStorage
    var stats: Stats
    var recentActivity: seq<Activity>

    constructor (storage: LocalStorage)
      ensures this.storage == storage && stats == Stats(0, 0, 0, 0, 0, 0) && recentActivity == []
    {
      this.storage := storage;
      stats := Stats(0, 0, 0, 0, 0, 0);
      recentActivity := [];
    }

    /** loadDashboardData: the figures, then the feed from the full lists. */
    method LoadDashboardData()
      modifies this`stats, this`recentActivity
      ensures stats == DashboardStats(storage.Users(), storage.allLeaveRequests, storage.timeCorrectionRequests,
                               storage.activeSessions, storage.attendance)
      ensures recentActivity == Take(SortDesc(Candidates(storage.allLeaveRequests, storage.timeCorrectionRequests), TimeKey), 10)
    {
      var employees := StaffOf(storage.Users());
      var leaveRequests := storage.allLeaveRequests;
      var pendingLeaves := CountStatus(leaveRequests, LeaveApproval.LeaveStatus, Pending);
      var corrections := storage.timeCorrectionRequests;
      var pendingCorrections := CountStatus(corrections, TimeCorrectionApproval.CorrectionStatus, Pending);
      var activeToday := CountActiveToday(employees, storage.activeSessions);
      var totalRecords := CountAttendanceRecords(employees, storage.attendance);
      stats := Stats(|employees|, activeToday, pendingLeaves, pendingCorrections, |leaveRequests|, totalRecords);
      recentActivity := LoadRecentActivity(leaveRequests, corrections);
    }
  }
}

/** The manager dashboard: the same figures restricted to employees, so a
    manager's figures never include another manager or their requests. */
module ManagerDashboard {
  import opened Common
  import opened Records
  import opened Storage
  import opened Dashboard
  import LeaveApproval
  import TimeCorrectionApproval

  predicate IsEmployee(u: User)
  {
    u.role == Employee
  }

  predicate LeaveFromEmployee(q: LeaveRequest)
  {
    q.userRole == Employee
  }

  predicate CorrectionFromEmployee(q: CorrectionRequest)
  {
    q.userRole == Employee
  }

  /** The figures loadDashboardData computes: people with role employee,
      and only the requests employees submitted. */
  function DashboardStats(users: seq<User>, leaves: seq<LeaveRequest>, corrections: seq<CorrectionRequest>,
                   sessions: map<string, SessionSnapshot>, attendance: map<string, seq<AttendanceRecord>>): (s: Stats)
    ensures s.activeToday <= s.totalEmployees
    ensures s.pendingLeaves <= s.totalLeaveRequests <= |leaves|
  {
    var team := Filter(users, IsEmployee);
    var teamLeaves := Filter(leaves, LeaveFromEmployee);
    var teamCorrections := Filter(corrections, CorrectionFromEmployee);
    Stats(|team|, ActiveToday(team, sessions),
          CountStatus(teamLeaves, LeaveApproval.LeaveStatus, Pending),
          CountStatus(teamCorrections, TimeCorrectionApproval.CorrectionStatus, Pending),
          |teamLeaves|, TotalRecords(team, attendance))
  }

  /** The dashboard's pending leave count is the count of pending requests
      on the manager's approval screen. */
  lemma PendingLeavesMatchApprovalScreen(users: seq<User>, leaves: seq<LeaveRequest>, corrections: seq<CorrectionRequest>,
                                         sessions: map<string, SessionSnapshot>, attendance: map<string, seq<AttendanceRecord>>)
    ensures DashboardStats(users, leaves, corrections, sessions, attendance).pendingLeaves
            == CountStatus(LeaveApproval.VisibleLeaves(leaves, Manager), LeaveApproval.LeaveStatus, Pending)
    ensures DashboardStats(users, leaves, corrections, sessions, attendance).pendingTimeCorrections
            == CountStatus(TimeCorrectionApproval.VisibleCorrections(corrections, Manager),
                           TimeCorrectionApproval.CorrectionStatus, Pending)
  {
    FilterAgrees(leaves, LeaveFromEmployee, (q: LeaveRequest) => Reviewable(Manager, q.userRole));
    FilterAgrees(corrections, CorrectionFromEmployee, (q: CorrectionRequest) => Reviewable(Manager, q.userRole));
  }

  class ManagerDashboardPage {
    const storage: LocalStorage
    var stats: Stats
    var recentActivity: seq<Activity>

    constructor (storage: LocalStorage)
      ensures this.storage == storage && stats == Stats(0, 0, 0, 0, 0, 0) && recentActivity == []
    {
      this.storage := storage;
      stats := Stats(0, 0, 0, 0, 0, 0);
      recentActivity := [];
    }

    /** loadDashboardData: the figures over the team, then the feed from the
        employees' requests only. */
    method LoadDashboardData()
      modifies this`stats, this`recentActivity
      ensures stats == DashboardStats(storage.Users(), storage.allLeaveRequests, storage.timeCorrectionRequests,
                               storage.activeSessions, storage.attendance)
      ensures recentActivity == Take(SortDesc(Candidates(Filter(storage.allLeaveRequests, LeaveFromEmployee),
                                                         Filter(storage.timeCorrectionRequests, CorrectionFromEmployee)),
                                              TimeKey), 10)
    {
      var employees := Filter(storage.Users(), IsEmployee);
      var employeeLeaveRequests := Filter(storage.allLeaveRequests, LeaveFromEmployee);
      var pendingLeaves := CountStatus(employeeLeaveRequests, LeaveApproval.LeaveStatus, Pending);
      var employeeTimeCorrections := Filter(storage.timeCorrectionRequests, CorrectionFromEmployee);
      var pendingCorrections := CountStatus(employeeTimeCorrections, TimeCorrectionApproval.CorrectionStatus, Pending);
      var activeToday := CountActiveToday(employees, storage.activeSessions);
      var totalRecords := CountAttendanceRecords(employees, storage.attendance);
      stats := Stats(|employees|, activeToday, pendingLeaves, pendingCorrections, |employeeLeaveRequests|, totalRecords);
      recentActivity := LoadRecentActivity(employeeLeaveRequests, employeeTimeCorrections);
    }
  }
}
