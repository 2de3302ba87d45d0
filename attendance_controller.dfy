/** The server's attendance handlers over the `attendance` table. Every
    handler first looks for the caller's open row of today (no logout yet),
    checks its guards, and then inserts or updates that row. Instants are
    milliseconds; the table's date column is a day number; break totals are
    kept in milliseconds. */
module AttendanceController {
  import opened Common
  import opened Calendar

  datatype AttendanceRow = AttendanceRow(
    id: int,
    userId: int,
    loginTime: int,
    logoutTime: Option<int>,
    date: int,
    breakStartTime: Option<int>,
    totalBreakMs: Option<int>,
    workMs: Option<int>)

  /** A handler's reply: the row it wrote, or an HTTP error. */
  datatype Reply = Done(message: string, row: AttendanceRow) | Fail(code: int, error: string)

  /** The WHERE clause `user_id = $1 AND date = $2 AND logout_time IS NULL`. */
  predicate IsOpen(r: AttendanceRow, userId: int, date: int)
  {
    r.userId == userId && r.date == date && r.logoutTime.None?
  }

  /** The caller's open rows of the given day, in table order. */
  function OpenRows(rows: seq<AttendanceRow>, userId: int, date: int): (r: seq<AttendanceRow>)
    ensures forall i :: 0 <= i < |r| ==> r[i] in rows && IsOpen(r[i], userId, date)
    ensures (exists i :: 0 <= i < |rows| && IsOpen(rows[i], userId, date)) <==> r != []
  {
    var r := Filter(rows, (a: AttendanceRow) => IsOpen(a, userId, date));
    assert forall i :: 0 <= i < |r| ==> r[i] in r;
    assert forall i :: 0 <= i < |rows| ==> rows[i] in rows;
    r
  }

  /** The row checkIn inserts: no logout, no break, a zero break total,
      dated by the login instant's UTC day. */
  function NewSession(id: int, userId: int, now: int): AttendanceRow
  {
    AttendanceRow(id, userId, now, None, DayOf(now), None, Some(0), None)
  }

  /** `UPDATE attendance SET ... WHERE id = $n`: f applied to every row with that id. */
  function UpdateById(rows: seq<AttendanceRow>, id: int, f: AttendanceRow -> AttendanceRow): (r: seq<AttendanceRow>)
    ensures |r| == |rows|
    ensures forall i :: 0 <= i < |rows| ==> r[i] == if rows[i].id == id then f(rows[i]) else rows[i]
  {
    MapWhere(rows, (a: AttendanceRow) => a.id == id, f)
  }

  /** The break total after closing a running break at `now` (`|| 0` for a null total). */
  function ClosedBreakMs(att: AttendanceRow, now: int): int
    requires att.breakStartTime.Some?
  {
    NumOf(att.totalBreakMs) + (now - att.breakStartTime.value)
  }

  /** The break total a check-out at `now` leaves in the row. */
  function FinalBreakMs(att: AttendanceRow, now: int): int
  {
    if att.breakStartTime.Some? then ClosedBreakMs(att, now) else NumOf(att.totalBreakMs)
  }

  /** Check-out's work time as the handler computes it: it subtracts the
      break total read before the running break was closed. */
  function WorkMsAsWritten(att: AttendanceRow, now: int): int
  {
    (now - att.loginTime) - NumOf(att.totalBreakMs)
  }

  /** Check-out's work time with the auto-closed break deducted as well. */
  function WorkMs(att: AttendanceRow, now: int): (w: int)
    ensures w + FinalBreakMs(att, now) == now - att.loginTime
    ensures att.breakStartTime.None? ==> w == WorkMsAsWritten(att, now)
  {
    (now - att.loginTime) - FinalBreakMs(att, now)
  }

  /** A check-out during a break: the handler records the break in the row
      but not in the work time, so work and break add up to more than the
      time between check-in and check-out. */
  lemma StaleBreakOvercounts()
    ensures var att := AttendanceRow(1, 7, 0, None, 0, Some(MsPerHour), Some(0), None);
      var now := 2 * MsPerHour;
      WorkMsAsWritten(att, now) == 2 * MsPerHour
      && FinalBreakMs(att, now) == MsPerHour
      && WorkMsAsWritten(att, now) + FinalBreakMs(att, now) > now - att.loginTime
  {
  }

  /** The as-written work time is too large by exactly the running break. */
  lemma AsWrittenOvercountIsRunningBreak(att: AttendanceRow, now: int)
    requires att.breakStartTime.Some?
    ensures WorkMsAsWritten(att, now) - WorkMs(att, now) == now - att.breakStartTime.value
  {
  }

  // ---------------------------------------------------------------------
  // Ordering for GET /api/attendance.
  // ---------------------------------------------------------------------

  /** `ORDER BY date DESC, login_time DESC`. */
  function DateLoginKey(r: AttendanceRow): (int, int)
  {
    (r.date, r.loginTime)
  }

  /** The query's WHERE clause: the caller's rows within the optional bounds. */
  predicate InRange(r: AttendanceRow, userId: int, startDate: Option<int>, endDate: Option<int>)
  {
    r.userId == userId
    && (startDate.Some? ==> startDate.value <= r.date)
    && (endDate.Some? ==> r.date <= endDate.value)
  }

  /** The ids the table has handed out are below nextId and distinct. */
  ghost predicate IdsValid(rows: seq<AttendanceRow>, nextId: int)
  {
    (forall i :: 0 <= i < |rows| ==> rows[i].id < nextId)
    && (forall i, j :: 0 <= i < j < |rows| ==> rows[i].id != rows[j].id)
  }

  /** With distinct ids, an update by the id of row k changes row k only. */
  lemma {:induction false} UpdateByIdTouchesOneRow(rows: seq<AttendanceRow>, nextId: int, k: nat, f: AttendanceRow -> AttendanceRow)
    requires IdsValid(rows, nextId) && k < |rows|
    ensures var r := UpdateById(rows, rows[k].id, f);
      r[k] == f(rows[k]) && forall i :: 0 <= i < |rows| && i != k ==> r[i] == rows[i]
  {
    var r := UpdateById(rows, rows[k].id, f);
    forall i | 0 <= i < |rows| && i != k ensures r[i] == rows[i] {
      if i < k { assert rows[i].id != rows[k].id; } else { assert rows[k].id != rows[i].id; }
    }
  }

  /** Updating rows keeps their ids, so the ids stay valid. */
  lemma IdsValidAfterUpdate(rows: seq<AttendanceRow>, nextId: int, id: int, f: AttendanceRow -> AttendanceRow)
    requires IdsValid(rows, nextId)
    requires forall a :: f(a).id == a.id
    ensures IdsValid(UpdateById(rows, id, f), nextId)
  {
  }

  /** The attendance table. */
  class AttendanceTable {
    var rows: seq<AttendanceRow>
    var nextId: int

    ghost predicate Valid()
      reads this
    {
      IdsValid(rows, nextId)
    }

    constructor ()
      ensures Valid() && rows == []
    {
      rows := [];
      nextId := 1;
    }

    /** POST /api/attendance/checkin. */
    method CheckIn(userId: int, now: int) returns (reply: Reply)
      requires Valid()
      modifies this
      ensures Valid()
      ensures OpenRows(old(rows), userId, DayOf(now)) != [] ==>
        reply == Fail(400, "Already checked in. Please check out first.")
        && rows == old(rows) && nextId == old(nextId)
      ensures OpenRows(old(rows), userId, DayOf(now)) == [] ==>
        var r := NewSession(old(nextId), userId, now);
        reply == Done("Checked in successfully", r) && rows == old(rows) + [r]
        && nextId == old(nextId) + 1
    {
      var date := DayOf(now);
      var existing := OpenRows(rows, userId, date);
      if |existing| > 0 {
        return Fail(400, "Already checked in. Please check out first.");
      }
      var r := NewSession(nextId, userId, now);
      rows := rows + [r];
      nextId := nextId + 1;
      reply := Done("Checked in successfully", r);
    }

    /** PUT /api/attendance/break-start. */
    method StartBreak(userId: int, now: int) returns (reply: Reply)
      requires Valid()
      modifies this`rows
      ensures Valid()
      ensures var open := OpenRows(old(rows), userId, DayOf(now));
        && (open == [] ==> reply == Fail(400, "No active session. Please check in first.") && rows == old(rows))
        && (open != [] && open[0].breakStartTime.Some? ==>
              reply == Fail(400, "Break already started") && rows == old(rows))
        && (open != [] && open[0].breakStartTime.None? ==>
              rows == UpdateById(old(rows), open[0].id, (a: AttendanceRow) => a.(breakStartTime := Some(now)))
              && reply == Done("Break started", open[0].(breakStartTime := Some(now))))
    {
      var date := DayOf(now);
      var session := OpenRows(rows, userId, date);
      if |session| == 0 {
        return Fail(400, "No active session. Please check in first.");
      }
      var attendance := session[0];
      if attendance.breakStartTime.Some? {
        return Fail(400, "Break already started");
      }
      var f := (a: AttendanceRow) => a.(breakStartTime := Some(now));
      IdsValidAfterUpdate(rows, nextId, attendance.id, f);
      rows := UpdateById(rows, attendance.id, f);
      reply := Done("Break started", f(attendance));
    }

    /** PUT /api/attendance/break-end. */
    method EndBreak(userId: int, now: int) returns (reply: Reply)
      requires Valid()
      modifies this`rows
      ensures Valid()
      ensures var open := OpenRows(old(rows), userId, DayOf(now));
        && (open == [] ==> reply == Fail(400, "No active session found") && rows == old(rows))
        && (open != [] && open[0].breakStartTime.None? ==>
              reply == Fail(400, "No active break to end") && rows == old(rows))
        && (open != [] && open[0].breakStartTime.Some? ==>
              var total := ClosedBreakMs(open[0], now);
              rows == UpdateById(old(rows), open[0].id,
                                 (a: AttendanceRow) => a.(breakStartTime := None, totalBreakMs := Some(total)))
              && reply == Done("Break ended", open[0].(breakStartTime := None, totalBreakMs := Some(total))))
    {
      var date := DayOf(now);
      var session := OpenRows(rows, userId, date);
      if |session| == 0 {
        return Fail(400, "No active session found");
      }
      var attendance := session[0];
      if attendance.breakStartTime.None? {
        return Fail(400, "No active break to end");
      }
      var totalBreakTime := ClosedBreakMs(attendance, now);
      var f := (a: AttendanceRow) => a.(breakStartTime := None, totalBreakMs := Some(totalBreakTime));
      IdsValidAfterUpdate(rows, nextId, attendance.id, f);
      rows := UpdateById(rows, attendance.id, f);
      reply := Done("Break ended", f(attendance));
    }

    /** PUT /api/attendance/checkout, as the handler is written: close a
        running break, then set the logout time and a work time that
        deducts only the break total read before that break was closed. */
    method CheckOut(userId: int, now: int) returns (reply: Reply)
      requires Valid()
      modifies this`rows
      ensures Valid()
      ensures |rows| == |old(rows)|
      ensures var open := OpenRows(old(rows), userId, DayOf(now));
        && (open == [] ==> reply == Fail(400, "No active session found. Please check in first.") && rows == old(rows))
        && (open != [] ==>
              var w := WorkMsAsWritten(open[0], now);
              reply == Done("Checked out successfully", CloseRow(open[0], open[0], now, w))
              && forall i :: 0 <= i < |rows| ==>
                   rows[i] == if old(rows)[i].id == open[0].id then CloseRow(old(rows)[i], open[0], now, w) else old(rows)[i])
    {
      reply := CloseOpenSession(userId, now, false);
    }

    /** The check-out with the auto-closed break deducted from the work time
        as well, so that work and break add up to the session. */
    method CheckOutCorrected(userId: int, now: int) returns (reply: Reply)
      requires Valid()
      modifies this`rows
      ensures Valid()
      ensures |rows| == |old(rows)|
      ensures var open := OpenRows(old(rows), userId, DayOf(now));
        && (open == [] ==> reply == Fail(400, "No active session found. Please check in first.") && rows == old(rows))
        && (open != [] ==>
              var w := WorkMs(open[0], now);
              reply == Done("Checked out successfully", CloseRow(open[0], open[0], now, w))
              && forall i :: 0 <= i < |rows| ==>
                   rows[i] == if old(rows)[i].id == open[0].id then CloseRow(old(rows)[i], open[0], now, w) else old(rows)[i])
    {
      reply := CloseOpenSession(userId, now, true);
    }

    /** The body both check-outs share; `deductRunningBreak` chooses the
        work time. */
    method CloseOpenSession(userId: int, now: int, deductRunningBreak: bool) returns (reply: Reply)
      requires Valid()
      modifies this`rows
      ensures Valid()
      ensures |rows| == |old(rows)|
      ensures var open := OpenRows(old(rows), userId, DayOf(now));
        && (open == [] ==> reply == Fail(400, "No active session found. Please check in first.") && rows == old(rows))
        && (open != [] ==>
              var w := if deductRunningBreak then WorkMs(open[0], now) else WorkMsAsWritten(open[0], now);
              reply == Done("Checked out successfully", CloseRow(open[0], open[0], now, w))
              && forall i :: 0 <= i < |rows| ==>
                   rows[i] == if old(rows)[i].id == open[0].id then CloseRow(old(rows)[i], open[0], now, w) else old(rows)[i])
    {
      var date := DayOf(now);
      var session := OpenRows(rows, userId, date);
      if |session| == 0 {
        return Fail(400, "No active session found. Please check in first.");
      }
      var attendance := session[0];
      if attendance.breakStartTime.Some? {
        var totalBreakTime := ClosedBreakMs(attendance, now);
        var g := (a: AttendanceRow) => a.(breakStartTime := None, totalBreakMs := Some(totalBreakTime));
        IdsValidAfterUpdate(rows, nextId, attendance.id, g);
        rows := UpdateById(rows, attendance.id, g);
      }
      var workMs := if deductRunningBreak then WorkMs(attendance, now) else WorkMsAsWritten(attendance, now);
      var f := (a: AttendanceRow) => a.(logoutTime := Some(now), workMs := Some(workMs));
      IdsValidAfterUpdate(rows, nextId, attendance.id, f);
      rows := UpdateById(rows, attendance.id, f);
      reply := Done("Checked out successfully", CloseRow(attendance, attendance, now, workMs));
    }

    /** GET /api/attendance: the caller's rows within the optional date
        bounds, newest date first and, within a date, the latest login
        first, cut to the optional limit. */
    method GetAttendance(userId: int, startDate: Option<int>, endDate: Option<int>, limit: Option<nat>)
      returns (result: seq<AttendanceRow>)
      ensures SortedDesc(result, DateLoginKey)
      ensures forall i :: 0 <= i < |result| ==> result[i] in rows && InRange(result[i], userId, startDate, endDate)
      ensures limit.None? ==>
        forall i :: 0 <= i < |rows| && InRange(rows[i], userId, startDate, endDate) ==> rows[i] in result
      ensures limit.None? ==> multiset(result) == multiset(InRangeRows(rows, userId, startDate, endDate))
      ensures limit.Some? ==>
        |result| == if limit.value < |InRangeRows(rows, userId, startDate, endDate)|
                    then limit.value else |InRangeRows(rows, userId, startDate, endDate)|
      ensures limit.Some? ==> exists rest :: SortedFirst(result, rest, InRangeRows(rows, userId, startDate, endDate))
    {
      var selected := Filter(rows, (a: AttendanceRow) => a.userId == userId);
      if startDate.Some? {
        selected := Filter(selected, (a: AttendanceRow) => startDate.value <= a.date);
      }
      if endDate.Some? {
        selected := Filter(selected, (a: AttendanceRow) => a.date <= endDate.value);
      }
      FilterSteps(rows, userId, startDate, endDate);
      assert selected == InRangeRows(rows, userId, startDate, endDate);
      var sorted := SortDesc(selected, DateLoginKey);
      result := sorted;
      if limit.Some? {
        result := Take(sorted, limit.value);
        TakeIsSortedFirst(sorted, limit.value, selected);
      }
      SortedSelection(rows, userId, startDate, endDate, sorted, result);
    }

    /** GET /api/attendance/active: the caller's open row of today, if any. */
    method GetActiveSession(userId: int, now: int) returns (active: Option<AttendanceRow>)
      ensures active.Some? <==> exists i :: 0 <= i < |rows| && IsOpen(rows[i], userId, DayOf(now))
      ensures active.Some? ==> active.value in rows && IsOpen(active.value, userId, DayOf(now))
    {
      var result := OpenRows(rows, userId, DayOf(now));
      if |result| == 0 {
        return None;
      }
      active := Some(result[0]);
    }
  }

  /** The matching rows of GET /api/attendance, in table order. */
  function InRangeRows(rows: seq<AttendanceRow>, userId: int, startDate: Option<int>, endDate: Option<int>): seq<AttendanceRow>
  {
    Filter(rows, (a: AttendanceRow) => InRange(a, userId, startDate, endDate))
  }

  /** `first` is what `LIMIT |first|` keeps of `ORDER BY date DESC,
      login_time DESC` over `sel`: `first` followed by the rows it leaves
      out is an ordering of `sel`. */
  ghost predicate SortedFirst(first: seq<AttendanceRow>, rest: seq<AttendanceRow>, sel: seq<AttendanceRow>)
  {
    SortedDesc(first + rest, DateLoginKey) && multiset(first + rest) == multiset(sel)
  }

  /** The first n rows of a sorted permutation are what the limit keeps. */
  lemma TakeIsSortedFirst(sorted: seq<AttendanceRow>, n: nat, sel: seq<AttendanceRow>)
    requires SortedDesc(sorted, DateLoginKey) && multiset(sorted) == multiset(sel)
    ensures exists rest :: SortedFirst(Take(sorted, n), rest, sel)
  {
    var first := Take(sorted, n);
    assert first + sorted[|first|..] == sorted;
    assert SortedFirst(first, sorted[|first|..], sel);
  }

  /** The rows a limit keeps are matching rows, and none of the rows it
      leaves out is newer than any kept row. */
  lemma {:induction false} LimitKeepsNewest(first: seq<AttendanceRow>, rest: seq<AttendanceRow>, sel: seq<AttendanceRow>)
    requires SortedFirst(first, rest, sel)
    ensures multiset(first) <= multiset(sel) && multiset(rest) <= multiset(sel)
    ensures forall i, j :: 0 <= i < |first| && 0 <= j < |rest| ==>
      KeyGe(DateLoginKey(first[i]), DateLoginKey(rest[j]))
  {
    assert multiset(first + rest) == multiset(first) + multiset(rest);
    forall i, j | 0 <= i < |first| && 0 <= j < |rest|
      ensures KeyGe(DateLoginKey(first[i]), DateLoginKey(rest[j]))
    {
      assert (first + rest)[i] == first[i] && (first + rest)[|first| + j] == rest[j];
    }
  }

  /** A sorted permutation of the matching rows, or a prefix of one, meets
      the contract of GetAttendance. */
  lemma SortedSelection(rows: seq<AttendanceRow>, userId: int, startDate: Option<int>, endDate: Option<int>,
                        sorted: seq<AttendanceRow>, result: seq<AttendanceRow>)
    requires SortedDesc(sorted, DateLoginKey)
    requires multiset(sorted) == multiset(InRangeRows(rows, userId, startDate, endDate))
    requires |sorted| == |InRangeRows(rows, userId, startDate, endDate)|
    requires result == sorted || exists n: nat :: result == Take(sorted, n)
    ensures SortedDesc(result, DateLoginKey)
    ensures forall i :: 0 <= i < |result| ==> result[i] in rows && InRange(result[i], userId, startDate, endDate)
    ensures result == sorted ==>
      forall i :: 0 <= i < |rows| && InRange(rows[i], userId, startDate, endDate) ==> rows[i] in result
  {
    var sel := InRangeRows(rows, userId, startDate, endDate);
    MultisetMembers(sorted, sel);
    assert forall i :: 0 <= i < |sel| ==> sel[i] in sel;
    assert forall i :: 0 <= i < |rows| ==> rows[i] in rows;
    forall i | 0 <= i < |result| ensures result[i] in sorted {
      if result != sorted {
        var n: nat :| result == Take(sorted, n);
        assert result[i] == sorted[i];
      }
    }
  }

  /** The row a check-out storing work time `w` leaves: a running break
      closed into the total, then the logout time and the work time set. */
  function CloseRow(a: AttendanceRow, att: AttendanceRow, now: int, w: int): AttendanceRow
  {
    (if att.breakStartTime.Some? then a.(breakStartTime := None, totalBreakMs := Some(ClosedBreakMs(att, now))) else a)
      .(logoutTime := Some(now), workMs := Some(w))
  }

  /** The row the corrected check-out leaves is closed, has no running
      break, and its work and break times add up to the session's length. */
  lemma CloseRowBalances(att: AttendanceRow, now: int)
    ensures var r := CloseRow(att, att, now, WorkMs(att, now));
      r.logoutTime == Some(now) && r.breakStartTime.None? && r.workMs.Some?
      && r.workMs.value + NumOf(r.totalBreakMs) == now - att.loginTime
  {
  }

  /** The row the handler as written leaves: its work and break times
      exceed the session by the break that was running at check-out. */
  lemma CloseRowAsWrittenOvercounts(att: AttendanceRow, now: int)
    ensures var r := CloseRow(att, att, now, WorkMsAsWritten(att, now));
      r.logoutTime == Some(now) && r.breakStartTime.None? && r.workMs.Some?
      && r.workMs.value + NumOf(r.totalBreakMs)
         == (now - att.loginTime) + (if att.breakStartTime.Some? then now - att.breakStartTime.value else 0)
  {
  }

  /** The three successive WHERE conditions select the same rows as their conjunction. */
  lemma FilterSteps(rows: seq<AttendanceRow>, userId: int, startDate: Option<int>, endDate: Option<int>)
    ensures var s1 := Filter(rows, (a: AttendanceRow) => a.userId == userId);
      var s2 := if startDate.Some? then Filter(s1, (a: AttendanceRow) => startDate.value <= a.date) else s1;
      var s3 := if endDate.Some? then Filter(s2, (a: AttendanceRow) => a.date <= endDate.value) else s2;
      s3 == InRangeRows(rows, userId, startDate, endDate)
  {
    var byUser := (a: AttendanceRow) => a.userId == userId;
    var inRange := (a: AttendanceRow) => InRange(a, userId, startDate, endDate);
    if startDate.Some? && endDate.Some? {
      var byStart := (a: AttendanceRow) => startDate.value <= a.date;
      var userAndStart := (a: AttendanceRow) => a.userId == userId && startDate.value <= a.date;
      FilterFilter(rows, byUser, byStart, userAndStart);
      FilterFilter(rows, userAndStart, (a: AttendanceRow) => a.date <= endDate.value, inRange);
    } else if startDate.Some? {
      FilterFilter(rows, byUser, (a: AttendanceRow) => startDate.value <= a.date, inRange);
    } else if endDate.Some? {
      FilterFilter(rows, byUser, (a: AttendanceRow) => a.date <= endDate.value, inRange);
    } else {
      FilterAgrees(rows, byUser, inRange);
    }
  }

  lemma MultisetMembers(a: seq<AttendanceRow>, b: seq<AttendanceRow>)
    requires multiset(a) == multiset(b)
    ensures forall i :: 0 <= i < |a| ==> a[i] in b
    ensures forall i :: 0 <= i < |b| ==> b[i] in a
  {
    forall i | 0 <= i < |a| ensures a[i] in b {
      assert a[i] in multiset(a);
    }
    forall i | 0 <= i < |b| ensures b[i] in a {
      assert b[i] in multiset(b);
    }
  }

  /** The check-in guard looks at today's open rows only: an open row left
      over from an earlier day does not block a new check-in. */
  lemma OpenRowOfEarlierDayDoesNotBlock(rows: seq<AttendanceRow>, userId: int, now: int)
    requires forall i :: 0 <= i < |rows| && rows[i].userId == userId && rows[i].logoutTime.None? ==> rows[i].date < DayOf(now)
    ensures OpenRows(rows, userId, DayOf(now)) == []
  {
  }
}
