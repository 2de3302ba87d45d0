/** The server's leave routes over the `leave_requests` table. The server
    counts days like the client but does not validate the range, and a
    status update overwrites whatever status the row had. */
module LeavesRoute {
  import opened Common
  import opened Calendar
  import opened LeaveRequestForm

  datatype LeaveRow = LeaveRow(
    id: int,
    userId: int,
    leaveType: string,
    startDate: int,
    endDate: int,
    days: int,
    reason: string,
    status: Status,
    rejectionReason: Option<string>,
    reviewedBy: Option<int>,
    reviewedDate: Option<int>,
    submittedDate: int)

  function SubmittedKey(r: LeaveRow): (int, int)
  {
    (r.submittedDate, 0)
  }

  /** GET /: an employee's own rows, or every row for the other roles,
      newest submission first in both cases. */
  function ListFor(rows: seq<LeaveRow>, role: Role, userId: int): (r: seq<LeaveRow>)
    ensures SortedDesc(r, SubmittedKey)
    ensures role == Employee ==>
      multiset(r) == multiset(Filter(rows, (l: LeaveRow) => l.userId == userId))
    ensures role == Employee ==> forall i :: 0 <= i < |r| ==> r[i] in rows && r[i].userId == userId
    ensures role != Employee ==> multiset(r) == multiset(rows)
  {
    if role == Employee then
      var own := Filter(rows, (l: LeaveRow) => l.userId == userId);
      var sorted := SortDesc(own, SubmittedKey);
      assert forall i :: 0 <= i < |sorted| ==> sorted[i] in own by {
        forall i | 0 <= i < |sorted| ensures sorted[i] in own {
          assert sorted[i] in multiset(sorted);
        }
      }
      sorted
    else SortDesc(rows, SubmittedKey)
  }

  /** The route does not reject an end before the start: such a request is
      stored with a day count of zero or less. */
  lemma InvertedRangeIsStored(startDate: int, endDate: int)
    requires endDate < startDate
    ensures LeaveDays(StartOfDay(startDate), StartOfDay(endDate)) <= 0
    ensures endDate == startDate - 1 ==> LeaveDays(StartOfDay(startDate), StartOfDay(endDate)) == 0
  {
    LeaveDaysOfDates(startDate, endDate);
  }

  function Reviewed(l: LeaveRow, status: Status, rejectionReason: Option<string>, reviewer: int, now: int): LeaveRow
  {
    l.(status := status, rejectionReason := rejectionReason, reviewedBy := Some(reviewer), reviewedDate := Some(now))
  }

  class LeavesTable {
    var rows: seq<LeaveRow>
    var nextId: int

    constructor ()
      ensures rows == []
    {
      rows := [];
      nextId := 1;
    }

    method List(role: Role, userId: int) returns (result: seq<LeaveRow>)
      ensures result == ListFor(rows, role, userId)
    {
      var selected := rows;
      if role == Employee {
        selected := Filter(rows, (l: LeaveRow) => l.userId == userId);
      }
      result := SortDesc(selected, SubmittedKey);
    }

    /** POST /: insert a pending row with the inclusive day count, without
        checking the range. */
    method Submit(userId: int, leaveType: string, startDate: int, endDate: int, reason: string, now: int)
      returns (created: LeaveRow)
      modifies this
      ensures created.status == Pending && created.userId == userId && created.id == old(nextId)
      ensures created.days == endDate - startDate + 1
      ensures created.startDate == startDate && created.endDate == endDate && created.reason == reason
      ensures rows == old(rows) + [created] && nextId == old(nextId) + 1
    {
      var days := LeaveDays(StartOfDay(startDate), StartOfDay(endDate));
      LeaveDaysOfDates(startDate, endDate);
      created := LeaveRow(nextId, userId, leaveType, startDate, endDate, days, reason, Pending, None, None, None, now);
      rows := rows + [created];
      nextId := nextId + 1;
    }

    /** PUT /:id/status: review every row with the id, whatever its status. */
    method UpdateStatus(id: int, status: Status, rejectionReason: Option<string>, reviewer: int, now: int)
      returns (updated: Option<LeaveRow>)
      modifies this`rows
      ensures |rows| == |old(rows)|
      ensures forall i :: 0 <= i < |rows| ==>
        rows[i] == if old(rows)[i].id == id then Reviewed(old(rows)[i], status, rejectionReason, reviewer, now)
                   else old(rows)[i]
      ensures updated.Some? <==> exists i :: 0 <= i < |old(rows)| && old(rows)[i].id == id
      ensures updated.Some? ==> updated.value.status == status && updated.value.id == id
    {
      rows := MapWhere(rows, (l: LeaveRow) => l.id == id,
                       (l: LeaveRow) => Reviewed(l, status, rejectionReason, reviewer, now));
      var k := FirstIndex(rows, (l: LeaveRow) => l.id == id);
      if k.Some? {
        updated := Some(rows[k.value]);
      } else {
        updated := None;
      }
    }
  }
}
