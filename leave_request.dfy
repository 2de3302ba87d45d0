/** The employee's leave-request form: validate the dates and the reason,
    count the days, and put a pending request at the head of the personal
    list and of the global list. Dates are day numbers; `None` is an
    unselected date field. */
module LeaveRequestForm {
  import opened Common
  import opened Text
  import opened Calendar
  import opened Records
  import opened Storage

  /** `Math.ceil(a / b)` for a positive divisor. */
  function CeilDiv(a: int, b: int): (q: int)
    requires b > 0
    ensures (q - 1) * b < a <= q * b
  {
    -((-a) / b)
  }

  /** `Math.ceil((end - start) / 86400000) + 1` on two instants. */
  function LeaveDays(startMs: int, endMs: int): int
  {
    CeilDiv(endMs - startMs, MsPerDay) + 1
  }

  /** For dates (UTC midnights) the count is inclusive of both ends: equal
      dates give one day, dates d days apart give d + 1, and an end before
      the start gives a count of zero or less. */
  lemma LeaveDaysOfDates(startDate: int, endDate: int)
    ensures LeaveDays(StartOfDay(startDate), StartOfDay(endDate)) == endDate - startDate + 1
    ensures endDate < startDate ==> LeaveDays(StartOfDay(startDate), StartOfDay(endDate)) <= 0
  {
    var d := endDate - startDate;
    var q := CeilDiv(StartOfDay(endDate) - StartOfDay(startDate), MsPerDay);
    assert StartOfDay(endDate) - StartOfDay(startDate) == d * MsPerDay;
    assert (q - 1) * MsPerDay < d * MsPerDay <= q * MsPerDay;
    assert q - 1 < d <= q;
  }

  /** handleSubmit's checks, in order: a missing date, an end before the
      start, a blank reason. */
  function LeaveSubmitError(startDate: Option<int>, endDate: Option<int>, reason: string): (e: Option<string>)
    ensures (startDate.None? || endDate.None?) ==> e == Some("Please select both start and end dates")
    ensures startDate.Some? && endDate.Some? && endDate.value < startDate.value ==>
      e == Some("End date cannot be before start date")
    ensures startDate.Some? && endDate.Some? && startDate.value <= endDate.value && IsBlank(reason) ==>
      e == Some("Please provide a reason for your leave request")
    ensures e.None? <==> startDate.Some? && endDate.Some? && startDate.value <= endDate.value && !IsBlank(reason)
  {
    if startDate.None? || endDate.None? then Some("Please select both start and end dates")
    else if StartOfDay(endDate.value) < StartOfDay(startDate.value) then Some("End date cannot be before start date")
    else if IsBlank(reason) then Some("Please provide a reason for your leave request")
    else None
  }

  /** The request a valid submission creates. */
  function NewLeave(now: int, username: string, userRole: Role, leaveType: LeaveType,
                    startDate: int, endDate: int, reason: string): (r: LeaveRequest)
    ensures r.status == Pending && r.username == username && r.userRole == userRole
    ensures r.leaveType == leaveType && r.startDate == startDate && r.endDate == endDate && r.reason == reason
    ensures startDate <= endDate ==> r.days == endDate - startDate + 1 >= 1
  {
    LeaveDaysOfDates(startDate, endDate);
    LeaveRequest(now, username, userRole, leaveType, startDate, endDate,
                 LeaveDays(StartOfDay(startDate), StartOfDay(endDate)), reason, Pending, now, None, None, None)
  }

  class LeaveForm {
    const username: string
    const userRole: Role
    const storage: LocalStorage
    var leaveType: LeaveType
    var startDate: Option<int>
    var endDate: Option<int>
    var reason: string
    var requests: seq<LeaveRequest>

    /** Mount: an empty form and the stored personal list. */
    constructor (username: string, userRole: Role, storage: LocalStorage)
      ensures this.username == username && this.userRole == userRole && this.storage == storage
      ensures requests == storage.PersonalLeavesOf(username)
      ensures leaveType == Vacation && startDate.None? && endDate.None? && reason == ""
    {
      this.username := username;
      this.userRole := userRole;
      this.storage := storage;
      requests := storage.PersonalLeavesOf(username);
      leaveType := Vacation;
      startDate := None;
      endDate := None;
      reason := "";
    }

    /** The persist effect: the personal list is stored only when it is
        not empty. */
    method PersistRequests()
      modifies storage`personalLeaves
      ensures storage.personalLeaves ==
        if |requests| > 0 then old(storage.personalLeaves)[username := requests] else old(storage.personalLeaves)
    {
      if |requests| > 0 {
        storage.personalLeaves := storage.personalLeaves[username := requests];
      }
    }

    /** handleSubmit. On success the new request heads the personal list
        (stored by the persist effect) and the global list, and the form is
        reset. */
    method HandleSubmit(now: int) returns (alert: string)
      modifies this`requests, this`leaveType, this`startDate, this`endDate, this`reason
      modifies storage`allLeaveRequests
      ensures var e := LeaveSubmitError(old(startDate), old(endDate), old(reason));
        && (e.Some? ==>
              alert == e.value && requests == old(requests)
              && storage.allLeaveRequests == old(storage.allLeaveRequests)
              && leaveType == old(leaveType) && startDate == old(startDate)
              && endDate == old(endDate) && reason == old(reason))
        && (e.None? ==>
              var r := NewLeave(now, username, userRole, old(leaveType), old(startDate).value,
                                old(endDate).value, old(reason));
              && requests == [r] + old(requests)
              && storage.allLeaveRequests == [r] + old(storage.allLeaveRequests)
              && leaveType == Vacation && startDate.None? && endDate.None? && reason == ""
              && alert == "Leave request submitted successfully!")
    {
      if startDate.None? || endDate.None? {
        return "Please select both start and end dates";
      }
      if StartOfDay(endDate.value) < StartOfDay(startDate.value) {
        return "End date cannot be before start date";
      }
      if IsBlank(reason) {
        return "Please provide a reason for your leave request";
      }
      var newRequest := NewLeave(now, username, userRole, leaveType, startDate.value, endDate.value, reason);
      requests := [newRequest] + requests;
      var globalRequests := storage.allLeaveRequests;
      globalRequests := [newRequest] + globalRequests;
      storage.allLeaveRequests := globalRequests;
      leaveType := Vacation;
      startDate := None;
      endDate := None;
      reason := "";
      alert := "Leave request submitted successfully!";
    }
  }
}
