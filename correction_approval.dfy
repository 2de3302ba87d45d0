/** The reviewer's time-correction screen: the requests the reviewer may
    see, approval (which rewrites the attendance record and then the
    request) and rejection with a reason. Neither handler checks that the
    request is still pending; a guarded status update is given alongside. */
module TimeCorrectionApproval {
  import opened Common
  import opened Text
  import opened Durations
  import opened Records
  import opened Storage

  /** loadRequests: the requests the reviewer's role may review, in order. */
  function VisibleCorrections(all: seq<CorrectionRequest>, reviewer: Role): (r: seq<CorrectionRequest>)
    ensures forall i :: 0 <= i < |r| ==> r[i] in all && Reviewable(reviewer, r[i].userRole)
    ensures forall i :: 0 <= i < |all| && Reviewable(reviewer, all[i].userRole) ==> all[i] in r
    ensures IsSubsequence(r, all)
  {
    Filter(all, (q: CorrectionRequest) => Reviewable(reviewer, q.userRole))
  }

  /** A manager sees employees' requests, an admin employees' and managers',
      and any other role nothing. */
  lemma VisibilityByRole(all: seq<CorrectionRequest>, reviewer: Role, q: CorrectionRequest)
    requires q in all
    ensures reviewer == Manager ==> (q in VisibleCorrections(all, reviewer) <==> q.userRole == Employee)
    ensures reviewer == Admin ==>
      (q in VisibleCorrections(all, reviewer) <==> q.userRole == Employee || q.userRole == Manager)
    ensures reviewer !in {Manager, Admin} ==> VisibleCorrections(all, reviewer) == []
  {
    var i :| 0 <= i < |all| && all[i] == q;
  }

  /** The attendance record after an approved correction: the requested
      times, work time recomputed from them and the unchanged break total,
      marked as corrected at `now`. */
  function CorrectRecord(record: AttendanceRecord, q: CorrectionRequest, now: int): (c: AttendanceRecord)
    ensures c.loginTime == q.newLoginTime && c.logoutTime == q.newLogoutTime
    ensures c.totalWorkedMs + c.totalBreakMs == q.newLogoutTime - q.newLoginTime
    ensures c.totalBreakMs == record.totalBreakMs && c.totalBreak == record.totalBreak
    ensures c.totalWorked == FormatTime(c.totalWorkedMs)
    ensures c.corrected && c.correctionDate == Some(now)
    ensures c.id == record.id && c.username == record.username && c.date == record.date
  {
    var newWorkMs := (q.newLogoutTime - q.newLoginTime) - record.totalBreakMs;
    record.(loginTime := q.newLoginTime, logoutTime := q.newLogoutTime, totalWorkedMs := newWorkMs,
            totalWorked := FormatTime(newWorkMs), corrected := true, correctionDate := Some(now))
  }

  /** updateAttendanceRecord on one history. Reading the id of a missing
      original record throws as soon as there is a record to compare it
      with; an empty history is written back unchanged. */
  function ApplyCorrection(history: seq<AttendanceRecord>, q: CorrectionRequest, now: int): (r: Option<seq<AttendanceRecord>>)
    ensures r.None? <==> q.originalRecord.None? && history != []
    ensures r.Some? ==> |r.value| == |history|
    ensures r.Some? ==> forall i :: 0 <= i < |history| ==>
      r.value[i] == if history[i].id == q.originalRecord.value.id then CorrectRecord(history[i], q, now) else history[i]
  {
    if q.originalRecord.None? then
      if history == [] then Some([]) else None
    else
      Some(MapWhere(history, (a: AttendanceRecord) => a.id == q.originalRecord.value.id,
                    (a: AttendanceRecord) => CorrectRecord(a, q, now)))
  }

  /** updateRequestStatus: every request with the id gets the status, the
      rejection reason and the reviewer's role; all others are unchanged. */
  function SetStatus(all: seq<CorrectionRequest>, id: int, status: Status, reason: string,
                     reviewer: Role, now: int): (r: seq<CorrectionRequest>)
    ensures |r| == |all|
    ensures forall i :: 0 <= i < |all| ==>
      r[i] == if all[i].id == id
              then all[i].(status := status, rejectionReason := Some(reason),
                           reviewedDate := Some(now), reviewedBy := Some(reviewer))
              else all[i]
  {
    MapWhere(all, (q: CorrectionRequest) => q.id == id,
             (q: CorrectionRequest) => q.(status := status, rejectionReason := Some(reason),
                                          reviewedDate := Some(now), reviewedBy := Some(reviewer)))
  }

  /** The guarded variant: only a request that is still pending changes. */
  function GuardedSetStatus(all: seq<CorrectionRequest>, id: int, status: Status, reason: string,
                            reviewer: Role, now: int): (r: seq<CorrectionRequest>)
    ensures |r| == |all|
    ensures forall i :: 0 <= i < |all| && all[i].status != Pending ==> r[i] == all[i]
    ensures forall i :: 0 <= i < |all| && all[i].status == Pending ==>
      r[i] == SetStatus(all, id, status, reason, reviewer, now)[i]
  {
    MapWhere(all, (q: CorrectionRequest) => q.id == id && q.status == Pending,
             (q: CorrectionRequest) => q.(status := status, rejectionReason := Some(reason),
                                          reviewedDate := Some(now), reviewedBy := Some(reviewer)))
  }

  /** Without the guard a decided request can be decided again: an
      approved request is turned into a rejected one. */
  lemma UnguardedRedecides(q: CorrectionRequest, reason: string, reviewer: Role, now: int)
    requires q.status == Approved
    ensures SetStatus([q], q.id, Rejected, reason, reviewer, now)[0].status == Rejected
    ensures GuardedSetStatus([q], q.id, Rejected, reason, reviewer, now)[0] == q
  {
  }

  /** The status filter and the three counts of the screen. */
  function CorrectionStatus(q: CorrectionRequest): Status
  {
    q.status
  }

  lemma SelectAndCount(requests: seq<CorrectionRequest>, f: StatusFilter)
    ensures f.AllStatuses? ==> ByStatus(requests, CorrectionStatus, f) == requests
    ensures CountStatus(requests, CorrectionStatus, Pending) + CountStatus(requests, CorrectionStatus, Approved)
            + CountStatus(requests, CorrectionStatus, Rejected) <= |requests|
  {
    StatusCountsBounded(requests, CorrectionStatus);
  }

  class ApprovalScreen {
    const userRole: Role
    const storage: LocalStorage
    var requests: seq<CorrectionRequest>
    var filter: StatusFilter

    constructor (userRole: Role, storage: LocalStorage)
      ensures this.userRole == userRole && this.storage == storage
      ensures requests == VisibleCorrections(storage.timeCorrectionRequests, userRole)
      ensures filter == OnlyStatus(Pending)
    {
      this.userRole := userRole;
      this.storage := storage;
      requests := VisibleCorrections(storage.timeCorrectionRequests, userRole);
      filter := OnlyStatus(Pending);
    }

    /** The list shown under the current filter. */
    function Shown(): (r: seq<CorrectionRequest>)
      reads this
      ensures IsSubsequence(r, requests)
    {
      ByStatus(requests, CorrectionStatus, filter)
    }

    method LoadRequests()
      modifies this`requests
      ensures requests == VisibleCorrections(storage.timeCorrectionRequests, userRole)
    {
      requests := VisibleCorrections(storage.timeCorrectionRequests, userRole);
    }

    method UpdateRequestStatus(requestId: int, status: Status, rejectionReason: string, now: int)
      modifies storage`timeCorrectionRequests, this`requests
      ensures storage.timeCorrectionRequests
              == SetStatus(old(storage.timeCorrectionRequests), requestId, status, rejectionReason, userRole, now)
      ensures requests == VisibleCorrections(storage.timeCorrectionRequests, userRole)
    {
      storage.timeCorrectionRequests :=
        SetStatus(storage.timeCorrectionRequests, requestId, status, rejectionReason, userRole, now);
      LoadRequests();
    }

    /** handleApprove, with the confirmation's answer: first the requester's
        attendance record, then the request. If reading the original record
        throws, nothing is written. */
    method HandleApprove(q: CorrectionRequest, confirmed: bool, now: int) returns (approved: bool)
      modifies storage`attendance, storage`timeCorrectionRequests, this`requests
      ensures approved <==> confirmed && ApplyCorrection(old(storage.AttendanceOf(q.username)), q, now).Some?
      ensures !approved ==>
        storage.attendance == old(storage.attendance)
        && storage.timeCorrectionRequests == old(storage.timeCorrectionRequests) && requests == old(requests)
      ensures approved ==>
        storage.attendance == old(storage.attendance)[q.username :=
          ApplyCorrection(old(storage.AttendanceOf(q.username)), q, now).value]
        && storage.timeCorrectionRequests
           == SetStatus(old(storage.timeCorrectionRequests), q.id, Approved, "", userRole, now)
        && requests == VisibleCorrections(storage.timeCorrectionRequests, userRole)
    {
      if !confirmed {
        return false;
      }
      var updated := ApplyCorrection(storage.AttendanceOf(q.username), q, now);
      if updated.None? {
        return false;
      }
      storage.attendance := storage.attendance[q.username := updated.value];
      UpdateRequestStatus(q.id, Approved, "", now);
      approved := true;
    }

    /** handleReject, with the prompt's answer (None when cancelled). A
        cancelled prompt or a blank reason changes nothing. */
    method HandleReject(q: CorrectionRequest, reason: Option<string>, now: int) returns (rejected: bool)
      modifies storage`timeCorrectionRequests, this`requests
      ensures rejected <==> reason.Some? && !IsBlank(reason.value)
      ensures !rejected ==>
        storage.timeCorrectionRequests == old(storage.timeCorrectionRequests) && requests == old(requests)
      ensures rejected ==>
        storage.timeCorrectionRequests
        == SetStatus(old(storage.timeCorrectionRequests), q.id, Rejected, reason.value, userRole, now)
        && requests == VisibleCorrections(storage.timeCorrectionRequests, userRole)
    {
      if reason.None? {
        return false;
      }
      if IsBlank(reason.value) {
        return false;
      }
      UpdateRequestStatus(q.id, Rejected, reason.value, now);
      rejected := true;
    }
  }

  /** Approval rewrites only the record the request points at: with
      distinct record ids every other record is unchanged, and the corrected
      one keeps its break total and balances against the new times. */
  lemma {:induction false} ApprovalTouchesOnlyTarget(history: seq<AttendanceRecord>, q: CorrectionRequest, now: int, k: nat)
    requires q.originalRecord.Some? && k < |history| && history[k].id == q.originalRecord.value.id
    requires forall i, j :: 0 <= i < j < |history| ==> history[i].id != history[j].id
    ensures var r := ApplyCorrection(history, q, now).value;
      && (forall i :: 0 <= i < |history| && i != k ==> r[i] == history[i])
      && r[k].totalBreakMs == history[k].totalBreakMs
      && r[k].totalWorkedMs == (q.newLogoutTime - q.newLoginTime) - history[k].totalBreakMs
  {
    var r := ApplyCorrection(history, q, now).value;
    forall i | 0 <= i < |history| && i != k ensures r[i] == history[i] {
      if i < k { assert history[i].id != history[k].id; } else { assert history[k].id != history[i].id; }
    }
  }
}
