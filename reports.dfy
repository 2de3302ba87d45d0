/** The reports screen: summary figures over the staff, the attendance
    report (only people with records, most hours first), the leave report
    (everyone, most requests first) and their CSV export. Hours are exact
    reals; the one-decimal rendering is a parameter of the export. */
module Reports {
  import opened Common
  import opened Text
  import opened Records
  import opened Storage
  import opened AttendanceHistory
  import opened LeaveApproval
  import opened EmployeeDirectory

  // ---------------------------------------------------------------------
  // Summary figures.
  // ---------------------------------------------------------------------

  datatype Summary = Summary(
    totalEmployees: nat,
    totalHours: real,
    totalBreak: real,
    totalSessions: nat,
    totalLeaves: nat,
    approvedLeaves: nat,
    pendingLeaves: nat)

  /** The sums over the staff list, person by person. */
  function SummaryOf(employees: seq<User>, attendance: map<string, seq<AttendanceRecord>>,
                     leaves: map<string, seq<LeaveRequest>>): (s: Summary)
    ensures s.totalEmployees == |employees|
  {
    if employees == [] then Summary(0, 0.0, 0.0, 0, 0, 0, 0)
    else
      var s := SummaryOf(employees[..|employees| - 1], attendance, leaves);
      var e := employees[|employees| - 1];
      var history := ListAt(attendance, e.name);
      var requests := ListAt(leaves, e.name);
      Summary(s.totalEmployees + 1,
              s.totalHours + TotalHours(history), s.totalBreak + TotalBreakHours(history),
              s.totalSessions + |history|, s.totalLeaves + |requests|,
              s.approvedLeaves + CountStatus(requests, LeaveStatus, Approved),
              s.pendingLeaves + CountStatus(requests, LeaveStatus, Pending))
  }

  /** Approved and pending requests together never exceed all requests. */
  lemma {:induction false} SummaryLeavesBounded(employees: seq<User>, attendance: map<string, seq<AttendanceRecord>>,
                                                leaves: map<string, seq<LeaveRequest>>)
    ensures var s := SummaryOf(employees, attendance, leaves);
      s.approvedLeaves + s.pendingLeaves <= s.totalLeaves
  {
    if employees != [] {
      SummaryLeavesBounded(employees[..|employees| - 1], attendance, leaves);
      StatusCountsBounded(ListAt(leaves, employees[|employees| - 1].name), LeaveStatus);
    }
  }

  /** The derived figures: the averages per person and the approval rate,
      None where the screen shows '0'. */
  function AvgHoursPerEmployee(s: Summary): Option<real>
  {
    if s.totalEmployees > 0 then Some(s.totalHours / (s.totalEmployees as real)) else None
  }

  function AvgSessionsPerEmployee(s: Summary): Option<real>
  {
    if s.totalEmployees > 0 then Some((s.totalSessions as real) / (s.totalEmployees as real)) else None
  }

  function ApprovalRate(s: Summary): Option<real>
  {
    if s.totalLeaves > 0 then Some((s.approvedLeaves as real) / (s.totalLeaves as real) * 100.0) else None
  }

  /** The approval rate is '0' without requests and a percentage between
      0 and 100 otherwise. */
  lemma ApprovalRateIsPercentage(employees: seq<User>, attendance: map<string, seq<AttendanceRecord>>,
                                 leaves: map<string, seq<LeaveRequest>>)
    ensures var s := SummaryOf(employees, attendance, leaves);
      && (ApprovalRate(s).None? <==> s.totalLeaves == 0)
      && (ApprovalRate(s).Some? ==> 0.0 <= ApprovalRate(s).value <= 100.0)
  {
    var s := SummaryOf(employees, attendance, leaves);
    SummaryLeavesBounded(employees, attendance, leaves);
    if s.totalLeaves > 0 {
      PercentageOfPart(s.approvedLeaves, s.totalLeaves);
    }
  }

  lemma PercentageOfPart(part: nat, whole: nat)
    requires part <= whole && whole > 0
    ensures 0.0 <= (part as real) / (whole as real) * 100.0 <= 100.0
  {
    var a, t := part as real, whole as real;
    var q := a / t;
    assert q * t == a;
    assert q <= 1.0;
  }

  // ---------------------------------------------------------------------
  // The attendance report.
  // ---------------------------------------------------------------------

  datatype AttendanceLine = AttendanceLine(
    name: string,
    role: Role,
    sessions: nat,
    totalHours: real,
    avgHours: real,
    totalBreak: real,
    lastActivity: int)

  /** The line of a person with a non-empty history; the newest record
      comes first, so it gives the last activity. */
  function AttendanceLineOf(e: User, history: seq<AttendanceRecord>): AttendanceLine
    requires history != []
  {
    var st := CalculateStats(history);
    AttendanceLine(e.name, e.role, |history|, st.totalHours, st.avgHours, st.totalBreaks, history[0].date)
  }

  predicate HasHistory(e: User, attendance: map<string, seq<AttendanceRecord>>)
  {
    ListAt(attendance, e.name) != []
  }

  /** The people with records, in staff order. */
  function WithHistory(employees: seq<User>, attendance: map<string, seq<AttendanceRecord>>): (r: seq<User>)
    ensures forall i :: 0 <= i < |r| ==> r[i] in employees && HasHistory(r[i], attendance)
    ensures forall i :: 0 <= i < |employees| && HasHistory(employees[i], attendance) ==> employees[i] in r
  {
    Filter(employees, (e: User) => HasHistory(e, attendance))
  }

  /** The lines pushed in staff order: one per person with records. */
  function AttendanceLines(employees: seq<User>, attendance: map<string, seq<AttendanceRecord>>): (r: seq<AttendanceLine>)
    ensures var active := WithHistory(employees, attendance);
      && |r| == |active|
      && forall i :: 0 <= i < |r| ==> r[i] == AttendanceLineOf(active[i], ListAt(attendance, active[i].name))
  {
    if employees == [] then []
    else
      var init := employees[..|employees| - 1];
      var e := employees[|employees| - 1];
      assert employees == init + [e];
      FilterSnoc(init, e, (e: User) => HasHistory(e, attendance));
      var r := AttendanceLines(init, attendance);
      if HasHistory(e, attendance) then r + [AttendanceLineOf(e, ListAt(attendance, e.name))] else r
  }

  /** The sort key: the total hours as shown, to one decimal. */
  function HoursKey(l: AttendanceLine): (int, int)
  {
    ((l.totalHours * 10.0 + 0.5).Floor, 0)
  }

  // ---------------------------------------------------------------------
  // The leave report.
  // ---------------------------------------------------------------------

  datatype LeaveLine = LeaveLine(
    name: string,
    role: Role,
    totalRequests: nat,
    approved: nat,
    pending: nat,
    rejected: nat,
    totalDays: int)

  /** The days of the approved requests. */
  function ApprovedDays(leaves: seq<LeaveRequest>): int
  {
    if leaves == [] then 0
    else ApprovedDays(leaves[..|leaves| - 1]) + (if IsApproved(leaves[|leaves| - 1]) then leaves[|leaves| - 1].days else 0)
  }

  predicate IsApproved(q: LeaveRequest)
  {
    q.status == Approved
  }

  function LeaveLineOf(e: User, leaves: seq<LeaveRequest>): LeaveLine
  {
    LeaveLine(e.name, e.role, |leaves|, CountStatus(leaves, LeaveStatus, Approved),
              CountStatus(leaves, LeaveStatus, Pending), CountStatus(leaves, LeaveStatus, Rejected),
              ApprovedDays(Filter(leaves, IsApproved)))
  }

  /** A person's counts by status cover at most their requests. */
  lemma LeaveLineCounts(e: User, leaves: seq<LeaveRequest>)
    ensures var l := LeaveLineOf(e, leaves);
      && l.approved + l.pending + l.rejected <= l.totalRequests
      && (leaves == [] ==> l.totalRequests == 0 && l.approved == 0 && l.totalDays == 0)
  {
    StatusCountsBounded(leaves, LeaveStatus);
  }

  /** The lines pushed in staff order: one per person, requests or not. */
  function LeaveLines(employees: seq<User>, leaves: map<string, seq<LeaveRequest>>): (r: seq<LeaveLine>)
    ensures |r| == |employees|
    ensures forall i :: 0 <= i < |r| ==> r[i] == LeaveLineOf(employees[i], ListAt(leaves, employees[i].name))
  {
    if employees == [] then []
    else
      var init := employees[..|employees| - 1];
      var e := employees[|employees| - 1];
      LeaveLines(init, leaves) + [LeaveLineOf(e, ListAt(leaves, e.name))]
  }

  function RequestsKey(l: LeaveLine): (int, int)
  {
    (l.totalRequests, 0)
  }

  /** The approved days summed over only the approved requests equal the
      approved days over all of them. */
  lemma {:induction false} ApprovedDaysOfApproved(leaves: seq<LeaveRequest>)
    ensures ApprovedDays(Filter(leaves, IsApproved)) == ApprovedDays(leaves)
  {
    if leaves != [] {
      var init, last := leaves[..|leaves| - 1], leaves[|leaves| - 1];
      assert leaves == init + [last];
      FilterSnoc(init, last, IsApproved);
      ApprovedDaysOfApproved(init);
      var f := Filter(init, IsApproved);
      if IsApproved(last) {
        assert (f + [last])[..|f|] == f;
      } else {
        assert f + [] == f;
      }
    }
  }

  // ---------------------------------------------------------------------
  // CSV export.
  // ---------------------------------------------------------------------

  const AttendanceHeader: string := "Name,Role,Sessions,Total Hours,Avg Hours,Total Break,Last Activity"
  const LeaveHeader: string := "Name,Role,Total Requests,Approved,Pending,Rejected,Total Days"

  /** One attendance line; `fixed1` is `toFixed(1)`. */
  function AttendanceCsvLine(l: AttendanceLine, fixed1: real -> string): string
  {
    Join([l.name, RoleName(l.role), NatToString(l.sessions), fixed1(l.totalHours), fixed1(l.avgHours),
          fixed1(l.totalBreak), IsoDate(l.lastActivity)], ",")
  }

  function LeaveCsvLine(l: LeaveLine): string
  {
    Join([l.name, RoleName(l.role), NatToString(l.totalRequests), NatToString(l.approved), NatToString(l.pending),
          NatToString(l.rejected), IntToString(l.totalDays)], ",")
  }

  /** The lines, each followed by a line break. */
  function Lines(lines: seq<string>): string
  {
    if lines == [] then "" else Lines(lines[..|lines| - 1]) + lines[|lines| - 1] + "\n"
  }

  /** handleExportCSV's loop: the header line, then `+=` one line per row. */
  method BuildCsv(header: string, lines: seq<string>) returns (csv: string)
    ensures csv == Lines([header] + lines)
  {
    csv := header + "\n";
    assert Lines([header]) == Lines([]) + header + "\n";
    var i := 0;
    while i < |lines|
      invariant 0 <= i <= |lines|
      invariant csv == Lines([header] + lines[..i])
    {
      assert ([header] + lines[..i + 1])[..|[header] + lines[..i + 1]| - 1] == [header] + lines[..i];
      csv := csv + lines[i] + "\n";
      i := i + 1;
    }
    assert lines[..i] == lines;
  }

  /** Lines without line breaks of their own give one line break each. */
  lemma {:induction false} LinesCount(lines: seq<string>)
    requires forall i :: 0 <= i < |lines| ==> Occurrences(lines[i], '\n') == 0
    ensures Occurrences(Lines(lines), '\n') == |lines|
  {
    if lines != [] {
      var init := lines[..|lines| - 1];
      LinesCount(init);
      OccurrencesAppend(Lines(init) + lines[|lines| - 1], "\n", '\n');
      OccurrencesAppend(Lines(init), lines[|lines| - 1], '\n');
      assert Occurrences("\n", '\n') == 1;
    }
  }

  /** The export's line count: the header plus one per report row. */
  lemma CsvLineCount(header: string, lines: seq<string>)
    requires Occurrences(header, '\n') == 0
    requires forall i :: 0 <= i < |lines| ==> Occurrences(lines[i], '\n') == 0
    ensures Occurrences(Lines([header] + lines), '\n') == |lines| + 1
  {
    var all := [header] + lines;
    forall i | 0 <= i < |all| ensures Occurrences(all[i], '\n') == 0 {
      if i > 0 {
        assert all[i] == lines[i - 1];
      }
    }
    LinesCount(all);
  }

  // ---------------------------------------------------------------------
  // The screen.
  // ---------------------------------------------------------------------

  datatype ReportType = AttendanceReport | LeaveReport | OtherReport

  class ReportsScreen {
    const storage: LocalStorage
    var reportType: ReportType
    var summary: Summary
    var attendanceData: Option<seq<AttendanceLine>>
    var leaveData: Option<seq<LeaveLine>>

    constructor (storage: LocalStorage)
      ensures this.storage == storage && reportType == AttendanceReport
      ensures attendanceData.None? && leaveData.None?
    {
      this.storage := storage;
      reportType := AttendanceReport;
      summary := Summary(0, 0.0, 0.0, 0, 0, 0, 0);
      attendanceData := None;
      leaveData := None;
    }

    /** The staff the reports cover. */
    function Staff(): seq<User>
      reads storage
    {
      StaffOf(storage.Users())
    }

    /** calculateSummaryStats: one pass over the staff, adding up each
        person's sessions, hours and leave counts. */
    method CalculateSummaryStats(employees: seq<User>) returns (s: Summary)
      ensures s == SummaryOf(employees, storage.attendance, storage.personalLeaves)
    {
      s := Summary(0, 0.0, 0.0, 0, 0, 0, 0);
      var i := 0;
      while i < |employees|
        invariant 0 <= i <= |employees|
        invariant s == SummaryOf(employees[..i], storage.attendance, storage.personalLeaves)
      {
        var e := employees[i];
        assert employees[..i + 1][..i] == employees[..i];
        var history := storage.AttendanceOf(e.name);
        var hours, breaks := SumHours(history);
        var requests := storage.PersonalLeavesOf(e.name);
        s := Summary(s.totalEmployees + 1, s.totalHours + hours, s.totalBreak + breaks,
                     s.totalSessions + |history|, s.totalLeaves + |requests|,
                     s.approvedLeaves + CountStatus(requests, LeaveStatus, Approved),
                     s.pendingLeaves + CountStatus(requests, LeaveStatus, Pending));
        i := i + 1;
      }
      assert employees[..i] == employees;
    }

    /** loadAttendanceReport: a line per person with records, then sorted
        by the shown total hours, highest first. */
    method LoadAttendanceReport(employees: seq<User>) returns (lines: seq<AttendanceLine>)
      ensures lines == SortDesc(AttendanceLines(employees, storage.attendance), HoursKey)
    {
      var data: seq<AttendanceLine> := [];
      var i := 0;
      while i < |employees|
        invariant 0 <= i <= |employees|
        invariant data == AttendanceLines(employees[..i], storage.attendance)
      {
        var e := employees[i];
        assert employees[..i + 1][..i] == employees[..i];
        var history := storage.AttendanceOf(e.name);
        if |history| > 0 {
          data := data + [AttendanceLineOf(e, history)];
        }
        i := i + 1;
      }
      assert employees[..i] == employees;
      lines := SortDesc(data, HoursKey);
    }

    /** loadLeaveReport: a line per person, then sorted by the number of
        requests, highest first. */
    method LoadLeaveReport(employees: seq<User>) returns (lines: seq<LeaveLine>)
      ensures lines == SortDesc(LeaveLines(employees, storage.personalLeaves), RequestsKey)
    {
      var data: seq<LeaveLine> := [];
      var i := 0;
      while i < |employees|
        invariant 0 <= i <= |employees|
        invariant data == LeaveLines(employees[..i], storage.personalLeaves)
      {
        var e := employees[i];
        assert employees[..i + 1][..i] == employees[..i];
        var requests := storage.PersonalLeavesOf(e.name);
        data := data + [LeaveLineOf(e, requests)];
        i := i + 1;
      }
      assert employees[..i] == employees;
      lines := SortDesc(data, RequestsKey);
    }

    /** loadReportData: the summary always, and the report of the selected
        type. */
    method LoadReportData()
      modifies this`summary, this`attendanceData, this`leaveData
      ensures summary == SummaryOf(Staff(), storage.attendance, storage.personalLeaves)
      ensures reportType == AttendanceReport ==>
        attendanceData == Some(SortDesc(AttendanceLines(Staff(), storage.attendance), HoursKey))
      ensures reportType != AttendanceReport ==> attendanceData == old(attendanceData)
      ensures reportType == LeaveReport ==>
        leaveData == Some(SortDesc(LeaveLines(Staff(), storage.personalLeaves), RequestsKey))
      ensures reportType != LeaveReport ==> leaveData == old(leaveData)
    {
      var employees := StaffOf(storage.Users());
      summary := CalculateSummaryStats(employees);
      if reportType == AttendanceReport {
        var lines := LoadAttendanceReport(employees);
        attendanceData := Some(lines);
      }
      if reportType == LeaveReport {
        var lines := LoadLeaveReport(employees);
        leaveData := Some(lines);
      }
    }

    /** handleExportCSV's content: the report of the selected type, or
        nothing for another type; a report not loaded has no rows. */
    method ExportCsv(fixed1: real -> string) returns (csv: string)
      ensures reportType == AttendanceReport ==>
        var rows := if attendanceData.Some? then attendanceData.value else [];
        csv == Lines([AttendanceHeader] + seq(|rows|, i requires 0 <= i < |rows| => AttendanceCsvLine(rows[i], fixed1)))
      ensures reportType == LeaveReport ==>
        var rows := if leaveData.Some? then leaveData.value else [];
        csv == Lines([LeaveHeader] + seq(|rows|, i requires 0 <= i < |rows| => LeaveCsvLine(rows[i])))
      ensures reportType == OtherReport ==> csv == ""
    {
      if reportType == AttendanceReport {
        var rows := if attendanceData.Some? then attendanceData.value else [];
        csv := BuildCsv(AttendanceHeader, seq(|rows|, i requires 0 <= i < |rows| => AttendanceCsvLine(rows[i], fixed1)));
      } else if reportType == LeaveReport {
        var rows := if leaveData.Some? then leaveData.value else [];
        csv := BuildCsv(LeaveHeader, seq(|rows|, i requires 0 <= i < |rows| => LeaveCsvLine(rows[i])));
      } else {
        csv := "";
      }
    }
  }
}
