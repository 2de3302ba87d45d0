/** The reviewer's leave screen: the requests the reviewer may see, and a
    status update written to the global list and mirrored onto the
    requester's personal list. Neither approve nor reject checks that the
    request is still pending. */
module LeaveApproval {
  import opened Common
  import opened Records
  import opened Storage

  /** loadRequests: the requests the reviewer's role may review, in order. */
  function VisibleLeaves(all: seq<LeaveRequest>, reviewer: Role): (r: seq<LeaveRequest>)
    ensures forall i :: 0 <= i < |r| ==> r[i] in all && Reviewable(reviewer, r[i].userRole)
    ensures forall i :: 0 <= i < |all| && Reviewable(reviewer, all[i].userRole) ==> all[i] in r
    ensures IsSubsequence(r, all)
  {
    Filter(all, (q: LeaveRequest) => Reviewable(reviewer, q.userRole))
  }

  /** A request after review. */
  function Reviewed(q: LeaveRequest, status: Status, reason: string, reviewer: Role, now: int): LeaveRequest
  {
    q.(status := status, rejectionReason := Some(reason), reviewedDate := Some(now), reviewedBy := Some(reviewer))
  }

  /** The map over a list: every request with the id is reviewed, every
      other one is left as it was. */
  function SetLeaveStatus(list: seq<LeaveRequest>, id: int, status: Status, reason: string,
                          reviewer: Role, now: int): (r: seq<LeaveRequest>)
    ensures |r| == |list|
    ensures forall i :: 0 <= i < |list| ==>
      r[i] == if list[i].id == id then Reviewed(list[i], status, reason, reviewer, now) else list[i]
  {
    MapWhere(list, (q: LeaveRequest) => q.id == id, (q: LeaveRequest) => Reviewed(q, status, reason, reviewer, now))
  }

  /** The same update on both lists keeps them in step: a personal list
      whose entries are copies of global entries still is one afterwards. */
  lemma MirroredUpdateKeepsCopies(global: seq<LeaveRequest>, personal: seq<LeaveRequest>, id: int,
                                  status: Status, reason: string, reviewer: Role, now: int)
    requires forall i :: 0 <= i < |personal| ==> personal[i] in global
    ensures var g := SetLeaveStatus(global, id, status, reason, reviewer, now);
      forall i :: 0 <= i < |personal| ==> SetLeaveStatus(personal, id, status, reason, reviewer, now)[i] in g
  {
    var g := SetLeaveStatus(global, id, status, reason, reviewer, now);
    var p := SetLeaveStatus(personal, id, status, reason, reviewer, now);
    forall i | 0 <= i < |personal| ensures p[i] in g {
      var j :| 0 <= j < |global| && global[j] == personal[i];
      assert g[j] == p[i];
    }
  }

  /** The request the update looks up to find the personal list: the first
      one with the id in the global list as it was before the update. */
  function RequestWithId(all: seq<LeaveRequest>, id: int): Option<LeaveRequest>
  {
    Find(all, (q: LeaveRequest) => q.id == id)
  }

  function LeaveStatus(q: LeaveRequest): Status
  {
    q.status
  }

  /** The guarded variant: only a request that is still pending changes. */
  function GuardedSetLeaveStatus(list: seq<LeaveRequest>, id: int, status: Status, reason: string,
                                 reviewer: Role, now: int): (r: seq<LeaveRequest>)
    ensures |r| == |list|
    ensures forall i :: 0 <= i < |list| && list[i].status != Pending ==> r[i] == list[i]
    ensures forall i :: 0 <= i < |list| && list[i].status == Pending ==>
      r[i] == SetLeaveStatus(list, id, status, reason, reviewer, now)[i]
  {
    MapWhere(list, (q: LeaveRequest) => q.id == id && q.status == Pending,
             (q: LeaveRequest) => Reviewed(q, status, reason, reviewer, now))
  }

  /** With the guard a decision is final: once no request with the id is
      pending, any later approval or rejection leaves the list as it is. */
  lemma {:induction false} GuardedDecisionIsFinal(list: seq<LeaveRequest>, id: int, status: Status, reason: string,
                                                  reviewer: Role, now: int)
    requires forall i :: 0 <= i < |list| && list[i].id == id ==> list[i].status != Pending
    ensures GuardedSetLeaveStatus(list, id, status, reason, reviewer, now) == list
  {
    var r := GuardedSetLeaveStatus(list, id, status, reason, reviewer, now);
    forall i | 0 <= i < |list| ensures r[i] == list[i] {
      if list[i].status == Pending {
        assert list[i].id != id;
      }
    }
  }

  /** Without a pending check an approved request can be rejected later;
      the guarded update refuses. */
  lemma ApprovedCanBeRejected(q: LeaveRequest, reason: string, reviewer: Role, now: int)
    requires q.status == Approved
    ensures SetLeaveStatus([q], q.id, Rejected, reason, reviewer, now) == [Reviewed(q, Rejected, reason, reviewer, now)]
    ensures SetLeaveStatus([q], q.id, Rejected, reason, reviewer, now)[0].status == Rejected
    ensures GuardedSetLeaveStatus([q], q.id, Rejected, reason, reviewer, now) == [q]
  {
  }

  /** The status filter is the identity for 'all', and the pending,
      approved and rejected counts together cover the visible requests
      exactly when no other status occurs. */
  lemma SelectAndCount(requests: seq<LeaveRequest>, f: StatusFilter)
    ensures f.AllStatuses? ==> ByStatus(requests, LeaveStatus, f) == requests
    ensures CountStatus(requests, LeaveStatus, Pending) + CountStatus(requests, LeaveStatus, Approved)
            + CountStatus(requests, LeaveStatus, Rejected) <= |requests|
    ensures (forall i :: 0 <= i < |requests| ==> requests[i].status in {Pending, Approved, Rejected}) ==>
            CountStatus(requests, LeaveStatus, Pending) + CountStatus(requests, LeaveStatus, Approved)
            + CountStatus(requests, LeaveStatus, Rejected) == |requests|
  {
    StatusCountsBounded(requests, LeaveStatus);
  }

  class LeaveApprovalScreen {
    const userRole: Role
    const storage: LocalStorage
    var requests: seq<LeaveRequest>
    var filter: StatusFilter

    constructor (userRole: Role, storage: LocalStorage)
      ensures this.userRole == userRole && this.storage == storage
      ensures requests == VisibleLeaves(storage.allLeaveRequests, userRole)
      ensures filter == OnlyStatus(Pending)
    {
      this.userRole := userRole;
      this.storage := storage;
      requests := VisibleLeaves(storage.allLeaveRequests, userRole);
      filter := OnlyStatus(Pending);
    }

    function Shown(): (r: seq<LeaveRequest>)
      reads this
      ensures IsSubsequence(r, requests)
    {
      ByStatus(requests, LeaveStatus, filter)
    }

    /** updateRequestStatus: the global list, then the personal list of the
        request's owner when the id was found, then a reload. */
    method UpdateRequestStatus(requestId: int, status: Status, rejectionReason: string, now: int)
      modifies storage`allLeaveRequests, storage`personalLeaves, this`requests
      ensures storage.allLeaveRequests
              == SetLeaveStatus(old(storage.allLeaveRequests), requestId, status, rejectionReason, userRole, now)
      ensures var found := RequestWithId(old(storage.allLeaveRequests), requestId);
        && (found.None? ==> storage.personalLeaves == old(storage.personalLeaves))
        && (found.Some? ==>
              storage.personalLeaves == old(storage.personalLeaves)[found.value.username :=
                SetLeaveStatus(old(storage.PersonalLeavesOf(found.value.username)), requestId, status,
                               rejectionReason, userRole, now)])
      ensures requests == VisibleLeaves(storage.allLeaveRequests, userRole)
    {
      var allRequests := storage.allLeaveRequests;
      storage.allLeaveRequests := SetLeaveStatus(allRequests, requestId, status, rejectionReason, userRole, now);
      var request := RequestWithId(allRequests, requestId);
      if request.Some? {
        var userRequests := storage.PersonalLeavesOf(request.value.username);
        storage.personalLeaves := storage.personalLeaves[request.value.username :=
          SetLeaveStatus(userRequests, requestId, status, rejectionReason, userRole, now)];
      }
      requests := VisibleLeaves(storage.allLeaveRequests, userRole);
    }

    /** handleApprove, with the confirmation's answer. */
    method HandleApprove(requestId: int, confirmed: bool, now: int)
      modifies storage`allLeaveRequests, storage`personalLeaves, this`requests
      ensures !confirmed ==>
        storage.allLeaveRequests == old(storage.allLeaveRequests)
        && storage.personalLeaves == old(storage.personalLeaves) && requests == old(requests)
      ensures confirmed ==>
        storage.allLeaveRequests == SetLeaveStatus(old(storage.allLeaveRequests), requestId, Approved, "", userRole, now)
      ensures confirmed ==> var found := RequestWithId(old(storage.allLeaveRequests), requestId);
        && (found.None? ==> storage.personalLeaves == old(storage.personalLeaves))
        && (found.Some? ==>
              storage.personalLeaves == old(storage.personalLeaves)[found.value.username :=
                SetLeaveStatus(old(storage.PersonalLeavesOf(found.value.username)), requestId, Approved,
                               "", userRole, now)])
      ensures confirmed ==> requests == VisibleLeaves(storage.allLeaveRequests, userRole)
    {
      if confirmed {
        UpdateRequestStatus(requestId, Approved, "", now);
      }
    }

    /** handleReject, with the prompt's answer: cancelling (None) changes
        nothing; any text, the empty text included, rejects. */
    method HandleReject(requestId: int, reason: Option<string>, now: int)
      modifies storage`allLeaveRequests, storage`personalLeaves, this`requests
      ensures reason.None? ==>
        storage.allLeaveRequests == old(storage.allLeaveRequests)
        && storage.personalLeaves == old(storage.personalLeaves) && requests == old(requests)
      ensures reason.Some? ==>
        storage.allLeaveRequests
        == SetLeaveStatus(old(storage.allLeaveRequests), requestId, Rejected, reason.value, userRole, now)
      ensures reason.Some? ==> var found := RequestWithId(old(storage.allLeaveRequests), requestId);
        && (found.None? ==> storage.personalLeaves == old(storage.personalLeaves))
        && (found.Some? ==>
              storage.personalLeaves == old(storage.personalLeaves)[found.value.username :=
                SetLeaveStatus(old(storage.PersonalLeavesOf(found.value.username)), requestId, Rejected,
                               reason.value, userRole, now)])
      ensures reason.Some? ==> requests == VisibleLeaves(storage.allLeaveRequests, userRole)
    {
      if reason.Some? {
        UpdateRequestStatus(requestId, Rejected, reason.value, now);
      }
    }
  }
}
