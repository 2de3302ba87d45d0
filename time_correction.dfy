/** The employee's time-correction screen: pick one of the last week's
    attendance records, propose new login and logout times with a reason,
    and file a pending request at the head of the global request list. */
module TimeCorrection {
  import opened Common
  import opened Text
  import opened Calendar
  import opened Records
  import opened Storage

  /** A record counts as recent when the UTC midnight of its date is no
      earlier than seven days before now. */
  predicate IsRecent(r: AttendanceRecord, now: int)
  {
    StartOfDay(r.date) >= now - 7 * MsPerDay
  }

  /** loadAttendanceRecords: the recent records, in stored order. */
  function RecentRecords(records: seq<AttendanceRecord>, now: int): (r: seq<AttendanceRecord>)
    ensures forall i :: 0 <= i < |r| ==> r[i] in records && IsRecent(r[i], now)
    ensures forall i :: 0 <= i < |records| && IsRecent(records[i], now) ==> records[i] in r
    ensures IsSubsequence(r, records)
  {
    Filter(records, (a: AttendanceRecord) => IsRecent(a, now))
  }

  /** loadCorrectionRequests: the user's own requests, in stored order. */
  function MyRequests(requests: seq<CorrectionRequest>, username: string): (r: seq<CorrectionRequest>)
    ensures forall i :: 0 <= i < |r| ==> r[i] in requests && r[i].username == username
    ensures forall i :: 0 <= i < |requests| && requests[i].username == username ==> requests[i] in r
    ensures IsSubsequence(r, requests)
  {
    Filter(requests, (q: CorrectionRequest) => q.username == username)
  }

  /** formatDateTimeForInput: `YYYY-MM-DDTHH:MM` from the local calendar
      fields (month is 1-based, as `getMonth() + 1`). */
  function FormatDateTimeForInput(year: int, month: nat, day: nat, hours: nat, minutes: nat): string
  {
    IntToString(year) + "-" + Pad2(month) + "-" + Pad2(day) + "T" + Pad2(hours) + ":" + Pad2(minutes)
  }

  /** The input value has the datetime-local shape: after the year come
      '-', the padded month, '-', the padded day, 'T', the padded hour, ':'
      and the padded minute (each two digits that read back as the field,
      by Pad2's contract). */
  lemma FormatDateTimeShape(year: int, month: nat, day: nat, hours: nat, minutes: nat)
    requires 1 <= month <= 12 && 1 <= day <= 31 && hours < 24 && minutes < 60
    ensures var r := FormatDateTimeForInput(year, month, day, hours, minutes);
      var y := |IntToString(year)|;
      && |r| == y + 12
      && r[..y] == IntToString(year)
      && r[y] == '-' && r[y + 3] == '-' && r[y + 6] == 'T' && r[y + 9] == ':'
      && r[y + 1..y + 3] == Pad2(month)
      && r[y + 4..y + 6] == Pad2(day)
      && r[y + 7..y + 9] == Pad2(hours)
      && r[y + 10..y + 12] == Pad2(minutes)
  {
    var ys, ms, ds, hs, ns := IntToString(year), Pad2(month), Pad2(day), Pad2(hours), Pad2(minutes);
    var r := FormatDateTimeForInput(year, month, day, hours, minutes);
    var y := |ys|;
    assert r == ys + "-" + ms + "-" + ds + "T" + hs + ":" + ns;
    assert |ms| == 2 && |ds| == 2 && |hs| == 2 && |ns| == 2;
    assert r[..y] == ys;
    assert r[y + 1..y + 3] == ms;
    assert r[y + 4..y + 6] == ds;
    assert r[y + 7..y + 9] == hs;
    assert r[y + 10..y + 12] == ns;
  }

  /** handleSubmitCorrection's checks, in order: a blank reason first, then
      a logout that is not after the login. */
  function SubmitError(reason: string, newLogin: int, newLogout: int): (e: Option<string>)
    ensures IsBlank(reason) ==> e == Some("Please provide a reason for the time correction")
    ensures !IsBlank(reason) && newLogout <= newLogin ==> e == Some("Logout time must be after login time")
    ensures e.None? <==> !IsBlank(reason) && newLogin < newLogout
  {
    if IsBlank(reason) then Some("Please provide a reason for the time correction")
    else if newLogout <= newLogin then Some("Logout time must be after login time")
    else None
  }

  /** The request a successful submission files. */
  function NewCorrection(now: int, username: string, userRole: Role, selected: Option<AttendanceRecord>,
                         newLogin: int, newLogout: int, reason: string): (q: CorrectionRequest)
    ensures q.status == Pending && q.originalRecord == selected
    ensures q.newLoginTime < q.newLogoutTime <== newLogin < newLogout
    ensures q.rejectionReason.None? && q.reviewedDate.None? && q.reviewedBy.None?
  {
    CorrectionRequest(now, username, userRole, selected, newLogin, newLogout, reason, Pending, now, None, None, None)
  }

  class TimeCorrectionScreen {
    const username: string
    const userRole: Role
    const storage: LocalStorage
    var attendanceRecords: seq<AttendanceRecord>
    var selectedRecord: Option<AttendanceRecord>
    var correctionRequests: seq<CorrectionRequest>
    var isEditing: bool
    var correctionReason: string

    /** Mount: load the recent records and the user's requests. */
    constructor (username: string, userRole: Role, storage: LocalStorage, now: int)
      ensures this.username == username && this.userRole == userRole && this.storage == storage
      ensures attendanceRecords == RecentRecords(storage.AttendanceOf(username), now)
      ensures correctionRequests == MyRequests(storage.timeCorrectionRequests, username)
      ensures selectedRecord.None? && !isEditing && correctionReason == ""
    {
      this.username := username;
      this.userRole := userRole;
      this.storage := storage;
      attendanceRecords := RecentRecords(storage.AttendanceOf(username), now);
      correctionRequests := MyRequests(storage.timeCorrectionRequests, username);
      selectedRecord := None;
      isEditing := false;
      correctionReason := "";
    }

    /** handleSelectRecord: start editing one record with an empty reason. */
    method SelectRecord(record: AttendanceRecord)
      modifies this`selectedRecord, this`isEditing, this`correctionReason
      ensures selectedRecord == Some(record) && isEditing && correctionReason == ""
    {
      selectedRecord := Some(record);
      isEditing := true;
      correctionReason := "";
    }

    /** handleSubmitCorrection with the parsed login and logout instants of
        the form. On success exactly one pending request is put at the head
        of the stored list and the form is reset. */
    method HandleSubmitCorrection(newLogin: int, newLogout: int, now: int) returns (alert: string)
      modifies storage`timeCorrectionRequests
      modifies this`isEditing, this`selectedRecord, this`correctionReason, this`correctionRequests
      ensures var e := SubmitError(old(correctionReason), newLogin, newLogout);
        && (e.Some? ==>
              alert == e.value && storage.timeCorrectionRequests == old(storage.timeCorrectionRequests)
              && selectedRecord == old(selectedRecord) && isEditing == old(isEditing)
              && correctionReason == old(correctionReason) && correctionRequests == old(correctionRequests))
        && (e.None? ==>
              var q := NewCorrection(now, username, userRole, old(selectedRecord), newLogin, newLogout, old(correctionReason));
              && storage.timeCorrectionRequests == [q] + old(storage.timeCorrectionRequests)
              && alert == "Time correction request submitted successfully! Waiting for manager approval."
              && !isEditing && selectedRecord.None? && correctionReason == ""
              && correctionRequests == MyRequests(storage.timeCorrectionRequests, username))
    {
      if IsBlank(correctionReason) {
        return "Please provide a reason for the time correction";
      }
      if newLogout <= newLogin {
        return "Logout time must be after login time";
      }
      var correctionRequest := NewCorrection(now, username, userRole, selectedRecord, newLogin, newLogout, correctionReason);
      var allRequests := storage.timeCorrectionRequests;
      allRequests := [correctionRequest] + allRequests;
      storage.timeCorrectionRequests := allRequests;
      alert := "Time correction request submitted successfully! Waiting for manager approval.";
      isEditing := false;
      selectedRecord := None;
      correctionReason := "";
      correctionRequests := MyRequests(storage.timeCorrectionRequests, username);
    }
  }

  /** The submitted request shows up in the submitter's own list, first,
      and every earlier request of theirs follows in order. */
  lemma SubmittedRequestIsListedFirst(q: CorrectionRequest, requests: seq<CorrectionRequest>)
    ensures MyRequests([q] + requests, q.username) == [q] + MyRequests(requests, q.username)
  {
    assert ([q] + requests)[1..] == requests;
  }
}
