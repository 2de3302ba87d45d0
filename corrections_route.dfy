/** The server's time-correction routes over the `time_corrections` table;
    approving a correction also overwrites the referenced attendance row. */
module CorrectionsRoute {
  import opened Common
  import opened AttendanceController

  datatype CorrectionRow = CorrectionRow(
    id: int,
    userId: int,
    attendanceId: int,
    newLoginTime: int,
    newLogoutTime: int,
    reason: string,
    status: Status,
    rejectionReason: Option<string>,
    reviewedBy: Option<int>,
    reviewedDate: Option<int>,
    submittedDate: int)

  /** `ORDER BY submitted_date DESC`. */
  function SubmittedKey(r: CorrectionRow): (int, int)
  {
    (r.submittedDate, 0)
  }

  /** What GET / returns: an employee gets their own rows (in table order,
      the query has no ORDER BY); every other role gets all rows, newest
      submission first. */
  function ListFor(rows: seq<CorrectionRow>, role: Role, userId: int): (r: seq<CorrectionRow>)
    ensures role == Employee ==>
      (forall i :: 0 <= i < |r| ==> r[i] in rows && r[i].userId == userId)
      && (forall i :: 0 <= i < |rows| && rows[i].userId == userId ==> rows[i] in r)
    ensures role != Employee ==> SortedDesc(r, SubmittedKey) && multiset(r) == multiset(rows)
  {
    if role == Employee then Filter(rows, (c: CorrectionRow) => c.userId == userId)
    else SortDesc(rows, SubmittedKey)
  }

  /** The status update's SET clause. */
  function Reviewed(c: CorrectionRow, status: Status, rejectionReason: Option<string>, reviewer: int, now: int): CorrectionRow
  {
    c.(status := status, rejectionReason := rejectionReason, reviewedBy := Some(reviewer), reviewedDate := Some(now))
  }

  /** The first row with the id, as `result.rows[0]` after the update. */
  function FindById(rows: seq<CorrectionRow>, id: int): Option<nat>
  {
    FirstIndex(rows, (c: CorrectionRow) => c.id == id)
  }

  /** The attendance row an approved correction leaves: the requested
      times and nothing else; the stored work time is not recomputed. */
  function Rewritten(a: AttendanceRow, c: CorrectionRow): AttendanceRow
  {
    a.(loginTime := c.newLoginTime, logoutTime := Some(c.newLogoutTime))
  }

  /** The rewrite keeps the work time and break total the row had, so a
      row checked out before the correction still reports its old work
      time against its new login and logout. */
  lemma RewriteKeepsWorkTime(a: AttendanceRow, c: CorrectionRow)
    ensures Rewritten(a, c).workMs == a.workMs && Rewritten(a, c).totalBreakMs == a.totalBreakMs
    ensures Rewritten(a, c).loginTime == c.newLoginTime && Rewritten(a, c).logoutTime == Some(c.newLogoutTime)
  {
  }

  /** The reply of PUT /:id/status. */
  datatype StatusReply = Updated(row: Option<CorrectionRow>) | ServerError

  class CorrectionsTable {
    var rows: seq<CorrectionRow>
    var nextId: int

    constructor ()
      ensures rows == []
    {
      rows := [];
      nextId := 1;
    }

    /** GET /. */
    method List(role: Role, userId: int) returns (result: seq<CorrectionRow>)
      ensures result == ListFor(rows, role, userId)
    {
      if role == Employee {
        result := Filter(rows, (c: CorrectionRow) => c.userId == userId);
        return;
      }
      result := SortDesc(rows, SubmittedKey);
    }

    /** POST /: a new pending row. */
    method Submit(userId: int, attendanceId: int, newLogin: int, newLogout: int, reason: string, now: int)
      returns (created: CorrectionRow)
      modifies this
      ensures created == CorrectionRow(old(nextId), userId, attendanceId, newLogin, newLogout, reason,
                                       Pending, None, None, None, now)
      ensures rows == old(rows) + [created] && nextId == old(nextId) + 1
    {
      created := CorrectionRow(nextId, userId, attendanceId, newLogin, newLogout, reason, Pending, None, None, None, now);
      rows := rows + [created];
      nextId := nextId + 1;
    }

    /** PUT /:id/status: set the review fields of the row with the id,
        whatever its status was; on 'approved', overwrite the referenced
        attendance row's login and logout. Approving an id that matches no
        row fails with a server error (there is no row to read), after the
        empty update. */
    method UpdateStatus(id: int, status: Status, rejectionReason: Option<string>, reviewer: int, now: int,
                        attendance: AttendanceTable) returns (reply: StatusReply)
      requires attendance.Valid()
      modifies this`rows, attendance`rows
      ensures attendance.Valid()
      ensures |rows| == |old(rows)|
      ensures forall i :: 0 <= i < |rows| ==>
        rows[i] == if old(rows)[i].id == id then Reviewed(old(rows)[i], status, rejectionReason, reviewer, now)
                   else old(rows)[i]
      ensures var k := FindById(old(rows), id);
        && (status != Approved ==>
              attendance.rows == old(attendance.rows)
              && reply == Updated(if k.Some? then Some(rows[k.value]) else None))
        && (status == Approved && k.None? ==> attendance.rows == old(attendance.rows) && reply == ServerError)
        && (status == Approved && k.Some? ==>
              var c := rows[k.value];
              reply == Updated(Some(c))
              && attendance.rows == UpdateById(old(attendance.rows), c.attendanceId,
                                               (a: AttendanceRow) => Rewritten(a, c)))
    {
      var f := (c: CorrectionRow) => Reviewed(c, status, rejectionReason, reviewer, now);
      rows := MapWhere(rows, (c: CorrectionRow) => c.id == id, f);
      var k := FindById(rows, id);
      assert k == FindById(old(rows), id) by {
        FindByIdAfterUpdate(old(rows), id, f);
      }
      if status == Approved {
        if k.None? {
          return ServerError;
        }
        var correction := rows[k.value];
        var g := (a: AttendanceRow) => Rewritten(a, correction);
        IdsValidAfterUpdate(attendance.rows, attendance.nextId, correction.attendanceId, g);
        attendance.rows := UpdateById(attendance.rows, correction.attendanceId, g);
      }
      reply := Updated(if k.Some? then Some(rows[k.value]) else None);
    }
  }

  /** An update that keeps ids keeps the position of the first row with an id. */
  lemma {:induction false} FindByIdAfterUpdate(rows: seq<CorrectionRow>, id: int, f: CorrectionRow -> CorrectionRow)
    requires forall c :: f(c).id == c.id
    ensures FindById(MapWhere(rows, (c: CorrectionRow) => c.id == id, f), id) == FindById(rows, id)
  {
    if rows != [] {
      var m := MapWhere(rows, (c: CorrectionRow) => c.id == id, f);
      assert m[1..] == MapWhere(rows[1..], (c: CorrectionRow) => c.id == id, f);
      FindByIdAfterUpdate(rows[1..], id, f);
    }
  }
}
