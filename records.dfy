/** The records the client keeps in browser storage. Field names follow the
    stored JSON objects; instants are milliseconds, dates are day numbers. */
module Records {
  import opened Common

  /** One finished work session (`attendance_<username>` entries). */
  datatype AttendanceRecord = AttendanceRecord(
    id: int,
    username: string,
    userRole: Role,
    loginTime: int,
    logoutTime: int,
    totalWorkedMs: int,
    totalBreakMs: int,
    totalWorked: string,
    totalBreak: string,
    date: int,
    corrected: bool,
    correctionDate: Option<int>)

  /** The in-progress session (`activeSession_<username>`). */
  datatype SessionSnapshot = SessionSnapshot(
    isLoggedIn: bool,
    loginTime: Option<int>,
    isOnBreak: bool,
    breakStartTime: Option<int>,
    totalBreakTime: int)

  datatype LeaveType = Vacation | Sick | Personal | Emergency | Maternity | Paternity

  /** The stored `type` value of a leave request. */
  function LeaveTypeName(t: LeaveType): string
  {
    match t
    case Vacation => "vacation"
    case Sick => "sick"
    case Personal => "personal"
    case Emergency => "emergency"
    case Maternity => "maternity"
    case Paternity => "paternity"
  }

  /** A leave request (`allLeaveRequests` and `leaveRequests_<username>`). */
  datatype LeaveRequest = LeaveRequest(
    id: int,
    username: string,
    userRole: Role,
    leaveType: LeaveType,
    startDate: int,
    endDate: int,
    days: int,
    reason: string,
    status: Status,
    submittedDate: int,
    rejectionReason: Option<string>,
    reviewedDate: Option<int>,
    reviewedBy: Option<Role>)

  /** A time-correction request (`timeCorrectionRequests`). */
  datatype CorrectionRequest = CorrectionRequest(
    id: int,
    username: string,
    userRole: Role,
    originalRecord: Option<AttendanceRecord>,
    newLoginTime: int,
    newLogoutTime: int,
    reason: string,
    status: Status,
    submittedDate: int,
    rejectionReason: Option<string>,
    reviewedDate: Option<int>,
    reviewedBy: Option<Role>)

  /** An account (`systemUsers` entries). */
  datatype User = User(name: string, email: string, password: string, role: Role)

  /** The signed-in user (`currentUser`): no password is kept. */
  datatype CurrentUser = CurrentUser(email: string, name: string, role: Role)

  /** A personal profile (`profile_<username>`). */
  datatype Profile = Profile(
    name: string,
    email: string,
    phone: string,
    address: string,
    department: string,
    joinDate: string,
    emergencyContact: string,
    emergencyPhone: string)

  /** The office hours, as the 'HH:MM' texts of the time inputs. */
  datatype WorkingHours = WorkingHours(start: string, end: string)

  /** Days of leave granted per year, by type. */
  datatype LeavePolicies = LeavePolicies(vacation: int, sick: int, personal: int)

  /** A company holiday; the date is the 'YYYY-MM-DD' text of a date input. */
  datatype Holiday = Holiday(name: string, date: string)

  /** The system settings (`systemSettings`). */
  datatype SystemSettings = SystemSettings(
    companyName: string,
    workingHours: WorkingHours,
    leavePolicies: LeavePolicies,
    holidays: seq<Holiday>,
    autoLogoutEnabled: bool,
    breakRemindersEnabled: bool,
    breakReminderInterval: int,
    emailNotifications: bool,
    darkModeDefault: bool)
}

/** Browser local storage, one field per key family. Reading a missing list
    key yields the empty list, as `JSON.parse(getItem(k) || '[]')` does. */
module Storage {
  import opened Common
  import opened Records

  /** A list stored under a key, or [] when the key is missing. */
  function ListAt<T>(m: map<string, seq<T>>, k: string): seq<T>
  {
    if k in m then m[k] else []
  }

  class LocalStorage {
    var attendance: map<string, seq<AttendanceRecord>>
    var activeSessions: map<string, SessionSnapshot>
    var personalLeaves: map<string, seq<LeaveRequest>>
    var allLeaveRequests: seq<LeaveRequest>
    var timeCorrectionRequests: seq<CorrectionRequest>
    var systemUsers: Option<seq<User>>
    var currentUser: Option<CurrentUser>
    var profiles: map<string, Profile>
    var systemSettings: Option<SystemSettings>

    constructor ()
      ensures attendance == map[] && activeSessions == map[] && personalLeaves == map[]
      ensures allLeaveRequests == [] && timeCorrectionRequests == []
      ensures systemUsers == None && currentUser == None && profiles == map[]
      ensures systemSettings == None
    {
      attendance := map[];
      activeSessions := map[];
      personalLeaves := map[];
      allLeaveRequests := [];
      timeCorrectionRequests := [];
      systemUsers := None;
      currentUser := None;
      profiles := map[];
      systemSettings := None;
    }

    /** `attendance_<u>`, defaulting to []. */
    function AttendanceOf(u: string): seq<AttendanceRecord>
      reads this`attendance
    {
      ListAt(attendance, u)
    }

    /** `leaveRequests_<u>`, defaulting to []. */
    function PersonalLeavesOf(u: string): seq<LeaveRequest>
      reads this`personalLeaves
    {
      ListAt(personalLeaves, u)
    }

    /** `systemUsers`, defaulting to []. */
    function Users(): seq<User>
      reads this`systemUsers
    {
      if systemUsers.Some? then systemUsers.value else []
    }
  }
}
