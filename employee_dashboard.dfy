/** The employee's clock-in screen: log in, take breaks, log out. The session
    state is the five values the screen keeps (logged in, login time, on
    break, break start, accumulated break); logging out turns it into an
    attendance record prepended to the user's history. */
module EmployeeDashboard {
  import opened Common
  import opened Calendar
  import opened Durations
  import opened Records
  import opened Storage

  // ---------------------------------------------------------------------
  // The transitions, as functions of the session state and the clock.
  // ---------------------------------------------------------------------

  /** handleLogin: no guard; the break flag and start are left as they are. */
  function Login(s: SessionSnapshot, now: int): SessionSnapshot
  {
    s.(isLoggedIn := true, loginTime := Some(now), totalBreakTime := 0)
  }

  /** handleBreakIn: unconditional. */
  function BreakIn(s: SessionSnapshot, now: int): SessionSnapshot
  {
    s.(isOnBreak := true, breakStartTime := Some(now))
  }

  /** The break in progress, if the screen counts one. */
  predicate BreakRunning(s: SessionSnapshot)
  {
    s.isOnBreak && Truthy(s.breakStartTime)
  }

  /** handleBreakOut: only when a break is running. */
  function BreakOut(s: SessionSnapshot, now: int): SessionSnapshot
  {
    if BreakRunning(s) then
      s.(totalBreakTime := s.totalBreakTime + (now - s.breakStartTime.value),
         isOnBreak := false, breakStartTime := None)
    else s
  }

  /** getTotalBreakTime, and the break time a logout at `now` records
      (finalBreakTime): completed breaks plus the running one. */
  function LiveBreakMs(s: SessionSnapshot, now: int): int
  {
    if BreakRunning(s) then s.totalBreakTime + (now - s.breakStartTime.value) else s.totalBreakTime
  }

  /** The record a logout at `now` writes (every `Date.now()` of the
      handler reads the same instant). */
  function SessionRecord(s: SessionSnapshot, username: string, role: Role, now: int): AttendanceRecord
  {
    var breakMs := LiveBreakMs(s, now);
    var workedMs := now - NumOf(s.loginTime) - breakMs;
    AttendanceRecord(now, username, role, NumOf(s.loginTime), now, workedMs, breakMs,
                     FormatTime(workedMs), FormatTime(breakMs), DayOf(NumOf(s.loginTime)),
                     false, None)
  }

  /** The session after handleLogout: a no-op unless logged in. */
  function Logout(s: SessionSnapshot): SessionSnapshot
  {
    if s.isLoggedIn then
      s.(isLoggedIn := false, loginTime := None, isOnBreak := false, breakStartTime := None)
    else s
  }

  /** getWorkTime as milliseconds; None where the screen shows "0h 0m 0s". */
  function LiveWorkMs(s: SessionSnapshot, now: int): Option<int>
  {
    if !Truthy(s.loginTime) then None else Some(now - s.loginTime.value - LiveBreakMs(s, now))
  }

  /** getWorkTime as displayed. */
  function WorkTimeText(s: SessionSnapshot, now: int): string
  {
    match LiveWorkMs(s, now)
    case None => "0h 0m 0s"
    case Some(ms) => FormatTime(ms)
  }

  /** What the persist effect leaves under `activeSession_<username>`. */
  function Persisted(s: SessionSnapshot): Option<SessionSnapshot>
  {
    if s.isLoggedIn then Some(s) else None
  }

  /** The state the screen starts in when nothing is stored. */
  const Initial: SessionSnapshot := SessionSnapshot(false, None, false, None, 0)

  // ---------------------------------------------------------------------
  // Properties of the transitions.
  // ---------------------------------------------------------------------

  /** Logging out during a break records the running break and deducts it. */
  lemma LogoutClosesRunningBreak(s: SessionSnapshot, username: string, role: Role, now: int)
    requires s.isLoggedIn && s.isOnBreak && Truthy(s.breakStartTime) && Truthy(s.loginTime)
    ensures SessionRecord(s, username, role, now).totalBreakMs
            == s.totalBreakTime + (now - s.breakStartTime.value)
    ensures SessionRecord(s, username, role, now).totalWorkedMs
            == now - s.loginTime.value - SessionRecord(s, username, role, now).totalBreakMs
    ensures Logout(s).isLoggedIn == false && Logout(s).loginTime == None
    ensures !Logout(s).isOnBreak && Logout(s).breakStartTime == None
  {
  }

  /** The live work time at `now` is exactly what a logout at `now` records. */
  lemma LiveWorkMatchesRecord(s: SessionSnapshot, username: string, role: Role, now: int)
    requires Truthy(s.loginTime)
    ensures LiveWorkMs(s, now) == Some(SessionRecord(s, username, role, now).totalWorkedMs)
    ensures LiveBreakMs(s, now) == SessionRecord(s, username, role, now).totalBreakMs
  {
  }

  /** The record is dated by the login instant's UTC day. */
  lemma RecordDatedByLogin(s: SessionSnapshot, username: string, role: Role, now: int)
    requires Truthy(s.loginTime)
    ensures var r := SessionRecord(s, username, role, now);
      r.date * MsPerDay <= r.loginTime < (r.date + 1) * MsPerDay && r.logoutTime == now
  {
  }

  /** The consistent states a clock reading `t` can see: a logged-in
      session has a login time, its completed breaks fit between the login
      and the running break (or the clock), and the break flag agrees with
      the break start. */
  ghost predicate Consistent(s: SessionSnapshot, t: int)
  {
    && (s.isOnBreak <==> s.breakStartTime.Some?)
    && (!s.isLoggedIn ==> !s.isOnBreak)
    && (s.isLoggedIn ==>
          && s.loginTime.Some? && 0 < s.loginTime.value <= t
          && 0 <= s.totalBreakTime
          && (s.isOnBreak ==>
                0 < s.breakStartTime.value
                && s.loginTime.value + s.totalBreakTime <= s.breakStartTime.value <= t)
          && (!s.isOnBreak ==> s.loginTime.value + s.totalBreakTime <= t))
  }

  lemma InitialConsistent(t: int)
    ensures Consistent(Initial, t)
  {
  }

  /** The screen offers login only when logged out, break-in only when
      logged in and not on break, break-out only on break and logout only
      when logged in; along those steps, with a clock that does not go
      back, the state stays consistent. */
  lemma {:induction false} StepsPreserveConsistency(s: SessionSnapshot, t: int, now: int)
    requires Consistent(s, t) && t <= now && 0 < now
    ensures !s.isLoggedIn ==> Consistent(Login(s, now), now)
    ensures s.isLoggedIn && !s.isOnBreak ==> Consistent(BreakIn(s, now), now)
    ensures s.isLoggedIn && s.isOnBreak ==> Consistent(BreakOut(s, now), now)
    ensures Consistent(Logout(s), now)
  {
  }

  /** In a consistent session neither the recorded break nor the recorded
      work time is negative, and they add up to the session's length. */
  lemma {:induction false} ConsistentLogoutNonNegative(s: SessionSnapshot, t: int, username: string, role: Role, now: int)
    requires Consistent(s, t) && s.isLoggedIn && t <= now
    ensures var r := SessionRecord(s, username, role, now);
      0 <= r.totalBreakMs && 0 <= r.totalWorkedMs
      && r.totalWorkedMs + r.totalBreakMs == r.logoutTime - r.loginTime
  {
    if BreakRunning(s) {
      assert s.loginTime.value + s.totalBreakTime <= s.breakStartTime.value <= now;
    } else {
      assert s.loginTime.value + s.totalBreakTime <= t;
    }
  }

  /** Outside the screen's guards the session can go wrong: a break started
      while logged out survives the next login and is charged in full. */
  lemma BreakBeforeLoginIsCharged()
    ensures var s := Login(BreakIn(Initial, 1000), 5000);
      SessionRecord(s, "u", Employee, 6000).totalWorkedMs == -4000
  {
  }

  /** The persisted session exists exactly while logged in. */
  lemma PersistedIffLoggedIn(s: SessionSnapshot)
    ensures Persisted(s).Some? <==> s.isLoggedIn
    ensures Persisted(s).Some? ==> Persisted(s).value == s
  {
  }

  /** The end-of-day poll records the session as it stood at login: with
      no break running then, the record has no break time and charges the
      whole session as work, whatever breaks were taken later. */
  lemma EndOfDayRecordHasNoBreak(s: SessionSnapshot, t: int, username: string, role: Role, now: int)
    requires !BreakRunning(s)
    ensures var r := SessionRecord(Login(s, t), username, role, now);
      r.totalBreakMs == 0 && r.totalWorkedMs == now - t && r.loginTime == t
  {
  }

  /** Login at 09:00, a break from 12:00 to 13:00, the poll at 23:59: the
      poll's record shows no break and 14h 59m of work, where a logout from
      the current state records the hour of break and 13h 59m of work. */
  lemma EndOfDayMissesCompletedBreak()
    ensures var poll := Login(Initial, 9 * MsPerHour);
      var current := BreakOut(BreakIn(poll, 12 * MsPerHour), 13 * MsPerHour);
      var now := 23 * MsPerHour + 59 * MsPerMinute;
      && SessionRecord(poll, "u", Employee, now).totalBreakMs == 0
      && SessionRecord(poll, "u", Employee, now).totalWorkedMs == 14 * MsPerHour + 59 * MsPerMinute
      && SessionRecord(current, "u", Employee, now).totalBreakMs == MsPerHour
      && SessionRecord(current, "u", Employee, now).totalWorkedMs == 13 * MsPerHour + 59 * MsPerMinute
  {
  }

  // ---------------------------------------------------------------------
  // The screen.
  // ---------------------------------------------------------------------

  datatype Summary = Summary(totalWorked: string, totalBreak: string)

  class Dashboard {
    const username: string
    const role: Role
    const storage: LocalStorage
    var isLoggedIn: bool
    var loginTime: Option<int>
    var isOnBreak: bool
    var breakStartTime: Option<int>
    var totalBreakTime: int
    var sessionSummary: Option<Summary>
    var loginHistory: seq<AttendanceRecord>
    /** The session state the end-of-day poll works from. The poll's effect
        depends on `isLoggedIn` alone, so the `handleLogout` it calls is the
        one of the render in which `isLoggedIn` last became true, and it
        reads the state of that render. */
    var pollSession: SessionSnapshot

    function State(): SessionSnapshot
      reads this
    {
      SessionSnapshot(isLoggedIn, loginTime, isOnBreak, breakStartTime, totalBreakTime)
    }

    /** Mount: restore a stored session and show the last ten records. */
    constructor (username: string, role: Role, storage: LocalStorage)
      ensures this.username == username && this.role == role && this.storage == storage
      ensures State() == if username in storage.activeSessions
                         then storage.activeSessions[username] else Initial
      ensures sessionSummary == None
      ensures loginHistory == Take(storage.AttendanceOf(username), 10)
      ensures pollSession == State()
    {
      this.username := username;
      this.role := role;
      this.storage := storage;
      var session := if username in storage.activeSessions then storage.activeSessions[username] else Initial;
      isLoggedIn := session.isLoggedIn;
      loginTime := session.loginTime;
      isOnBreak := session.isOnBreak;
      breakStartTime := session.breakStartTime;
      totalBreakTime := session.totalBreakTime;
      sessionSummary := None;
      loginHistory := Take(storage.AttendanceOf(username), 10);
      pollSession := session;
    }

    /** handleLogin; when it logs in, the end-of-day poll starts over with
        the new state. */
    method HandleLogin(now: int)
      modifies this`isLoggedIn, this`loginTime, this`totalBreakTime, this`sessionSummary, this`pollSession
      ensures State() == Login(old(State()), now)
      ensures sessionSummary == None
      ensures pollSession == if old(isLoggedIn) then old(pollSession) else State()
    {
      if !isLoggedIn {
        pollSession := Login(State(), now);
      }
      isLoggedIn := true;
      loginTime := Some(now);
      totalBreakTime := 0;
      sessionSummary := None;
    }

    method HandleBreakIn(now: int)
      modifies this`isOnBreak, this`breakStartTime
      ensures State() == BreakIn(old(State()), now)
    {
      isOnBreak := true;
      breakStartTime := Some(now);
    }

    method HandleBreakOut(now: int)
      modifies this`totalBreakTime, this`isOnBreak, this`breakStartTime
      ensures State() == BreakOut(old(State()), now)
    {
      if isOnBreak && Truthy(breakStartTime) {
        var breakDuration := now - breakStartTime.value;
        totalBreakTime := totalBreakTime + breakDuration;
        isOnBreak := false;
        breakStartTime := None;
      }
    }

    /** handleLogout: when logged in, prepend exactly one record to the
        user's stored history, show its summary and reset the session. */
    method HandleLogout(now: int)
      modifies this`isLoggedIn, this`loginTime, this`isOnBreak, this`breakStartTime
      modifies this`sessionSummary, this`loginHistory, storage`attendance
      ensures State() == Logout(old(State()))
      ensures old(isLoggedIn) ==>
        var r := SessionRecord(old(State()), username, role, now);
        && storage.attendance == old(storage.attendance)[username := [r] + old(storage.AttendanceOf(username))]
        && sessionSummary == Some(Summary(r.totalWorked, r.totalBreak))
        && loginHistory == Take(storage.AttendanceOf(username), 10)
      ensures !old(isLoggedIn) ==>
        storage.attendance == old(storage.attendance)
        && sessionSummary == old(sessionSummary) && loginHistory == old(loginHistory)
    {
      if isLoggedIn {
        CloseSession(State(), now);
      }
    }

    /** The body of a `handleLogout` whose checks pass, reading the session
        state `s`: the record of `s` is prepended, its summary shown, and
        the session flags and times reset (the break total is left). */
    method CloseSession(s: SessionSnapshot, now: int)
      modifies this`isLoggedIn, this`loginTime, this`isOnBreak, this`breakStartTime
      modifies this`sessionSummary, this`loginHistory, storage`attendance
      ensures State() == old(State()).(isLoggedIn := false, loginTime := None, isOnBreak := false, breakStartTime := None)
      ensures var r := SessionRecord(s, username, role, now);
        && storage.attendance == old(storage.attendance)[username := [r] + old(storage.AttendanceOf(username))]
        && sessionSummary == Some(Summary(r.totalWorked, r.totalBreak))
        && loginHistory == Take(storage.AttendanceOf(username), 10)
    {
      // finalBreakTime, totalWorkedMs and the record's fields, as
      // SessionRecord computes them
      var sessionData := SessionRecord(s, username, role, now);
      var attendanceHistory := storage.AttendanceOf(username);
      attendanceHistory := [sessionData] + attendanceHistory;
      storage.attendance := storage.attendance[username := attendanceHistory];
      assert storage.AttendanceOf(username) == attendanceHistory;
      sessionSummary := Some(Summary(sessionData.totalWorked, sessionData.totalBreak));
      isLoggedIn := false;
      loginTime := None;
      isOnBreak := false;
      breakStartTime := None;
      loginHistory := Take(storage.AttendanceOf(username), 10);
    }

    /** The end-of-day poll, as written: while logged in, a poll at 23:59
        local time runs the poll's `handleLogout`, which records the session
        as it stood when the poll started (`pollSession`), not as it stands
        now (the 30-second timer that calls it is not modelled). */
    method EndOfDayCheck(now: int, hours: int, minutes: int)
      modifies this`isLoggedIn, this`loginTime, this`isOnBreak, this`breakStartTime
      modifies this`sessionSummary, this`loginHistory, storage`attendance
      ensures var fires := old(isLoggedIn) && hours == 23 && minutes == 59 && old(pollSession).isLoggedIn;
        && State() == (if fires then Logout(old(State())) else old(State()))
        && (fires ==>
              var r := SessionRecord(old(pollSession), username, role, now);
              && storage.attendance == old(storage.attendance)[username := [r] + old(storage.AttendanceOf(username))]
              && sessionSummary == Some(Summary(r.totalWorked, r.totalBreak))
              && loginHistory == Take(storage.AttendanceOf(username), 10))
        && (!fires ==>
              storage.attendance == old(storage.attendance)
              && sessionSummary == old(sessionSummary) && loginHistory == old(loginHistory))
    {
      if isLoggedIn && hours == 23 && minutes == 59 {
        // the captured handleLogout checks its own isLoggedIn
        if pollSession.isLoggedIn {
          CloseSession(pollSession, now);
        }
      }
    }

    /** The end-of-day poll as evidently intended: at 23:59 the current
        session is logged out exactly as the logout button does. */
    method EndOfDayCheckCorrected(now: int, hours: int, minutes: int)
      modifies this`isLoggedIn, this`loginTime, this`isOnBreak, this`breakStartTime
      modifies this`sessionSummary, this`loginHistory, storage`attendance
      ensures var fires := old(isLoggedIn) && hours == 23 && minutes == 59;
        && State() == (if fires then Logout(old(State())) else old(State()))
        && (fires ==>
              var r := SessionRecord(old(State()), username, role, now);
              && storage.attendance == old(storage.attendance)[username := [r] + old(storage.AttendanceOf(username))]
              && sessionSummary == Some(Summary(r.totalWorked, r.totalBreak)))
        && (!fires ==> storage.attendance == old(storage.attendance) && sessionSummary == old(sessionSummary))
    {
      if isLoggedIn && hours == 23 && minutes == 59 {
        HandleLogout(now);
      }
    }

    /** The persist effect, run after every change of the session state. */
    method PersistSession()
      modifies storage`activeSessions
      ensures storage.activeSessions ==
        if isLoggedIn then old(storage.activeSessions)[username := State()]
        else old(storage.activeSessions) - {username}
      ensures Persisted(State()).Some? <==> username in storage.activeSessions
    {
      if isLoggedIn {
        storage.activeSessions := storage.activeSessions[username := State()];
      } else {
        storage.activeSessions := storage.activeSessions - {username};
      }
    }
  }
}
