# HR attendance and leave system, modelled in Dafny

This project models the core of an HR web application in Dafny. It covers:

- employees clocking in and out and taking breaks;
- time-correction and leave requests, and their approval by managers and administrators;
- the attendance history, payslips, profile, reports, user management, settings and dashboard screens;
- the server's attendance controller, its leave and time-correction routes, and its authentication gates.

Modelling choices:

- Each screen becomes a Dafny `class`. Its fields are the screen's state.
- The browser's local storage becomes the class `Storage.LocalStorage`, with one field per storage key. Methods name in `modifies` the exact keys they write.
- The server's tables become classes over sequences of rows.
- The pure parts become functions with contracts: filters, counters, sorting, formatting, and validation of forms and requests. Lemmas relate them.
- Instants are integer milliseconds and calendar dates are day numbers.
- JavaScript's truncating `%`, `Math.ceil`, `Math.floor` and `Math.round` are written out where the code uses them.
- `Array.prototype.sort` and SQL `ORDER BY` become a stable insertion sort. It is proved sorted and a permutation.

Behaviours modelled as the code has them:

- Approving or rejecting a leave or time-correction request does not check that the request is still pending. Only the screen's buttons are hidden for decided requests. The model has unguarded operations as written. Guarded variants stand beside them: `TimeCorrectionApproval.GuardedSetStatus` and `LeaveApproval.GuardedSetLeaveStatus`.
- The leave form counts days as `Math.ceil` of the millisecond difference over a day, plus one.
- The employee dashboard's clock-in has no guard against a second clock-in. The server's guard is per user and per calendar day, so an open session from an earlier day does not block a new one.
- The profile's leave balance is not clamped at zero.
- Editing a user may give the user an e-mail that another account already has.
- The end-of-day poll logs out with the session state of the moment it started, and the server's check-out deducts a stale break total. Both are modelled as written, with corrected variants beside them (see Findings).

## Model

| member | source | states |
|---|---|---|
| Common.ByStatus | src/components/TimeCorrectionApproval.jsx:136-139 | The status filter keeps exactly the requests with the chosen status, or all of them for 'all', in their original order. |
| Common.StatusCountsBounded | src/components/LeaveApproval.jsx:109-111 | The pending, approved and rejected counts never exceed the number of requests, and add up to it when every status is one of the three. |
| Text.ToLower | src/components/UserManagement.jsx:37 | Lower-casing keeps the length and maps each character independently. |
| Text.NatToStringRoundTrip | src/components/Payslips.jsx:46 | The decimal text of a number parses back to the number. |
| Text.NatToStringInjective | src/components/Payslips.jsx:46 | Different numbers render as different texts, so ids built from them are distinct. |
| Text.Pad2 | src/components/TimeCorrection.jsx:54-57 | `padStart(2, '0')`: two characters for a number below 100, with the number's digits. |
| Calendar.DayOf | src/components/EmployeeDashboard.jsx:116 | The day number of an instant: the instant lies within that day. |
| Calendar.CivilFromDays | src/components/AttendanceHistory.jsx:49-51 | The civil date of a day number: the month is 1 to 12 and the day 1 to 31. |
| Durations.JsRem | src/components/EmployeeDashboard.jsx:153-158 | JavaScript `%`: the remainder takes the dividend's sign and is smaller than the divisor. |
| Durations.SplitOfNonNegative | src/components/EmployeeDashboard.jsx:153-158 | For a non-negative duration, hours, minutes and seconds recompose the duration, and minutes and seconds are below 60. |
| Durations.FormatOfMinusOneSecond | src/components/EmployeeDashboard.jsx:153-158 | Minus one second splits into -1 hours, -1 minutes and -1 seconds, as the truncating `%` produces them. |
| EmployeeDashboard.LogoutClosesRunningBreak | src/components/EmployeeDashboard.jsx:89-97 | Logging out during a break adds the running break to the recorded break and deducts it from the recorded work. The state is then logged out with no break. |
| EmployeeDashboard.LiveWorkMatchesRecord | src/components/EmployeeDashboard.jsx:170-185 | The live work time shown at an instant equals the work time a logout at that instant records. |
| EmployeeDashboard.RecordDatedByLogin | src/components/EmployeeDashboard.jsx:116 | The saved record is dated by the login instant's day, and its logout time is the logout instant. |
| EmployeeDashboard.InitialConsistent | src/components/EmployeeDashboard.jsx:4-9 | The initial session state satisfies the session invariant. |
| EmployeeDashboard.StepsPreserveConsistency | src/components/EmployeeDashboard.jsx:79-151 | Login, break-in and break-out at later instants keep the session invariant: the break total and the running break fit within the time since login. |
| EmployeeDashboard.ConsistentLogoutNonNegative | src/components/EmployeeDashboard.jsx:86-113 | From a consistent state, the recorded break and work times are non-negative and add up to the session's length. |
| EmployeeDashboard.BreakBeforeLoginIsCharged | src/components/EmployeeDashboard.jsx:79-84 | A break started while logged out survives the next login. The session then records negative work (-4 s in the example). |
| EmployeeDashboard.PersistedIffLoggedIn | src/components/EmployeeDashboard.jsx:35-49 | The session is stored exactly while logged in, and it is removed otherwise. |
| EmployeeDashboard.Dashboard.constructor | src/components/EmployeeDashboard.jsx:14-32 | A stored session is restored, otherwise the state is logged out. The last ten records are shown, and the end-of-day poll works from the restored state. |
| EmployeeDashboard.Dashboard.HandleLogin | src/components/EmployeeDashboard.jsx:79-84 | The state becomes the login step at now, and the summary is cleared. A login from the logged-out state restarts the end-of-day poll with the new state; otherwise the poll keeps its state. |
| EmployeeDashboard.Dashboard.HandleBreakIn | src/components/EmployeeDashboard.jsx:139-142 | Break-in records the break start and changes nothing else. |
| EmployeeDashboard.Dashboard.HandleBreakOut | src/components/EmployeeDashboard.jsx:144-151 | Break-out adds the running break to the total when a break is running; otherwise nothing changes. |
| EmployeeDashboard.Dashboard.HandleLogout | src/components/EmployeeDashboard.jsx:86-137 | While logged in, the session's record is prepended to the user's stored history, its summary is shown and the session is reset. Other users' histories are unchanged. While logged out, nothing is stored. |
| EmployeeDashboard.Dashboard.EndOfDayCheck | src/components/EmployeeDashboard.jsx:61-77 | While logged in, at 23:59: the state goes through the logout step, and the record prepended to the user's history and shown in the summary is the one of the session state the poll started with. At any other time, or logged out, nothing changes. |
| EmployeeDashboard.Dashboard.EndOfDayCheckCorrected | src/components/EmployeeDashboard.jsx:61-77 | Corrected: at 23:59 a logged-in session is logged out with the record of its current state, as the logout button does. |
| EmployeeDashboard.Dashboard.CloseSession | src/components/EmployeeDashboard.jsx:88-136 | A logout reading session state s prepends the record of s to the user's history only, shows its summary, resets the session flags and times and reloads the last ten records. |
| EmployeeDashboard.EndOfDayRecordHasNoBreak | src/components/EmployeeDashboard.jsx:61-77 | The poll's record of a session captured at login has no break time and charges the whole session as work. |
| EmployeeDashboard.EndOfDayMissesCompletedBreak | src/components/EmployeeDashboard.jsx:61-77 | Concrete case: login 09:00, break 12:00 to 13:00, poll at 23:59 records 0 break and 14h 59m of work; the current state's record has 1 h of break and 13h 59m. |

| EmployeeDashboard.Dashboard.PersistSession | src/components/EmployeeDashboard.jsx:35-49 | While logged in, the user's stored session is the current state. Otherwise it is removed. The session is stored exactly while logged in. |
| AttendanceController.OpenRows | backend/controllers/attendanceController.js:14-17 | Only the caller's rows of that day without a logout, and at least one exactly when such a row exists. |
| AttendanceController.UpdateById | backend/controllers/attendanceController.js:68-71 | `UPDATE ... WHERE id`: every row with that id is rewritten and every other row is kept. |
| AttendanceController.UpdateByIdTouchesOneRow | backend/controllers/attendanceController.js:124-127 | With unique ids, exactly the one row with that id changes. |
| AttendanceController.IdsValidAfterUpdate | backend/controllers/attendanceController.js:68-71 | An update that keeps ids keeps them unique and below the next id. |
| AttendanceController.StaleBreakOvercounts | backend/controllers/attendanceController.js:64-77 | Concrete case: a check-out during a one-hour break records two hours of work in a two-hour session. |
| AttendanceController.AsWrittenOvercountIsRunningBreak | backend/controllers/attendanceController.js:64-77 | The work time as written is too large by exactly the running break. |
| AttendanceController.WorkMs | backend/controllers/attendanceController.js:74-77 | Corrected work time: work plus the final break total is the time between check-in and check-out. Without a running break it equals the as-written value. |
| AttendanceController.CloseRowBalances | backend/controllers/attendanceController.js:64-86 | Corrected: the closed row has a logout time and no running break, and its work and break add up to the session's length. |
| AttendanceController.CloseRowAsWrittenOvercounts | backend/controllers/attendanceController.js:64-86 | As written: the closed row's work and break exceed the session's length by exactly the break running at check-out, and by nothing otherwise. |
| AttendanceController.AttendanceTable.constructor | backend/controllers/attendanceController.js:7-39 | The table starts empty, with unique ids. |
| AttendanceController.AttendanceTable.CheckIn | backend/controllers/attendanceController.js:7-39 | With an open row of the same day the answer is 400 and nothing changes. Otherwise one new row with a fresh id is appended. |
| AttendanceController.AttendanceTable.StartBreak | backend/controllers/attendanceController.js:102-137 | 400 without an open session, and 400 while a break runs. Otherwise the open row gets the break start by its id. |
| AttendanceController.AttendanceTable.EndBreak | backend/controllers/attendanceController.js:143-185 | 400 without an open session, and 400 without a running break. Otherwise the open row adds the break to its total and clears the start. |
| AttendanceController.AttendanceTable.CheckOut | backend/controllers/attendanceController.js:45-96 | 400 without an open session. Otherwise only that row changes: a running break is closed into the total, the logout is set, and the work time stored is the session minus the break total read before the running break was closed. The reply is the closed row. |
| AttendanceController.AttendanceTable.CheckOutCorrected | backend/controllers/attendanceController.js:45-96 | As the check-out, but the stored work time also deducts the auto-closed break, so work plus break is the session. |
| AttendanceController.AttendanceTable.CloseOpenSession | backend/controllers/attendanceController.js:45-96 | The shared check-out: 400 without an open session, otherwise only rows with the open row's id change, to the closed row with the chosen work time. |
| AttendanceController.AttendanceTable.GetAttendance | backend/controllers/attendanceController.js:191-226 | The result holds only the caller's rows within the date bounds, newest date and then latest login first. Without a limit it is a permutation of all matching rows. With a limit it has the limit's length, or all of them, and followed by the rows it leaves out it is an ordering of the matching rows by date and login, newest first. |
| AttendanceController.LimitKeepsNewest | backend/controllers/attendanceController.js:209-214 | The rows a limit keeps are matching rows, and no row it leaves out is newer than a kept row. |
| AttendanceController.AttendanceTable.GetActiveSession | backend/controllers/attendanceController.js:232-251 | Some row exactly when the caller has an open row today, and then it is one. |
| AttendanceController.SortedSelection | backend/controllers/attendanceController.js:209-214 | A sorted permutation of the matching rows, or a prefix of one, is sorted and holds only matching rows. The full permutation holds all of them. |
| AttendanceController.FilterSteps | backend/controllers/attendanceController.js:196-207 | The three successive WHERE conditions select the same rows as their conjunction. |
| AttendanceController.OpenRowOfEarlierDayDoesNotBlock | backend/controllers/attendanceController.js:11-17 | An open session from an earlier day does not count as open today. |
| AttendanceHistory.PreviousMonth | src/components/AttendanceHistory.jsx:53-54 | Last month of January is December of the previous year; otherwise it is the preceding month of the same year. |
| AttendanceHistory.LastMonthWraps | src/components/AttendanceHistory.jsx:52-55 | The last-month filter selects December records in January. |
| AttendanceHistory.FilteredData | src/components/AttendanceHistory.jsx:41-59 | 'all' keeps every record; 'current' and 'last' keep exactly the records of the current and the previous month, in order. |
| AttendanceHistory.CalculateStats | src/components/AttendanceHistory.jsx:26-31 | The day count is the number of records. The average times the day count is the total, and both are zero without records. |
| AttendanceHistory.TotalsSnoc | src/components/AttendanceHistory.jsx:29-30 | Adding one record adds its work and break hours to the totals. |
| AttendanceHistory.SumHours | src/components/AttendanceHistory.jsx:29-30 | The loop's sums are the total work hours and break hours of the records. |
| AttendanceHistory.TotalHoursNonNegative | src/components/AttendanceHistory.jsx:29 | When no record's work time is negative, the total is non-negative. |
| Common.PushEach | src/components/AttendanceHistory.jsx:89-98 | `forEach` with `push`: the original rows come first, unchanged, followed by f of each element in order. |
| AttendanceHistory.CsvRows | src/components/AttendanceHistory.jsx:77-98 | No records give no export (the alert). Otherwise there is the header plus one row per record, in order. |
| AttendanceHistory.HeaderIsOneLine | src/components/AttendanceHistory.jsx:85-86 | The header has no line break. |
| AttendanceHistory.CsvRowIsOneLine | src/components/AttendanceHistory.jsx:89-97 | A record's row has no line break, given fields without one. |
| AttendanceHistory.CsvLineCount | src/components/AttendanceHistory.jsx:101 | With a one-line header and no line break inside any field, the exported text has exactly one line break per record. |
| TimeCorrection.RecentRecords | src/components/TimeCorrection.jsx:19-31 | Exactly the records dated within the last seven days, in stored order. |
| TimeCorrection.MyRequests | src/components/TimeCorrection.jsx:33-37 | Exactly the user's own requests, in stored order. |
| TimeCorrection.FormatDateTimeShape | src/components/TimeCorrection.jsx:52-59 | The `YYYY-MM-DDTHH:MM` text is the year, then '-', '-', 'T' and ':' at fixed places between the zero-padded month, day, hours and minutes. |
| TimeCorrection.SubmitError | src/components/TimeCorrection.jsx:61-73 | The blank reason is reported first, then a logout not after the login. Accepted exactly when neither holds. |
| TimeCorrection.NewCorrection | src/components/TimeCorrection.jsx:76-86 | The new request is pending and unreviewed. It carries the chosen record, and keeps its times ordered when they were ordered. |
| TimeCorrection.TimeCorrectionScreen.constructor | src/components/TimeCorrection.jsx:14-17 | The screen loads the user's recent records and own requests, with no record chosen. |
| TimeCorrection.TimeCorrectionScreen.SelectRecord | src/components/TimeCorrection.jsx:39-50 | Choosing a record opens the editor for it with an empty reason. |
| TimeCorrection.TimeCorrectionScreen.HandleSubmitCorrection | src/components/TimeCorrection.jsx:61-103 | A refused form changes nothing. Otherwise the request is prepended to the stored list, the form is cleared and the user's own list is reloaded. |
| TimeCorrection.SubmittedRequestIsListedFirst | src/components/TimeCorrection.jsx:89-102 | A new request heads its submitter's own list, ahead of their earlier requests. |
| TimeCorrectionApproval.VisibleCorrections | src/components/TimeCorrectionApproval.jsx:11-25 | An administrator sees employees' and managers' requests; a manager sees employees' only. |
| TimeCorrectionApproval.VisibilityByRole | src/components/TimeCorrectionApproval.jsx:15-24 | A manager sees exactly the employees' requests. An administrator sees exactly the employees' and managers' requests. Other roles see none. |
| TimeCorrectionApproval.CorrectRecord | src/components/TimeCorrectionApproval.jsx:54-73 | The corrected record takes the requested times and keeps its break. Work plus break equals the new session, and the record is marked corrected with the date. Its identity fields are kept. |
| TimeCorrectionApproval.ApplyCorrection | src/components/TimeCorrectionApproval.jsx:49-79 | Fails (the code throws) exactly when there is no original record and the history is not empty. Otherwise exactly the records with the original's id are corrected. |
| TimeCorrectionApproval.SetStatus | src/components/TimeCorrectionApproval.jsx:81-96 | Exactly the requests with the id get the status, reason, date and reviewer. The others are kept. |
| TimeCorrectionApproval.GuardedSetStatus | src/components/TimeCorrectionApproval.jsx:27-47 | Guarded variant: only a pending request changes. |
| TimeCorrectionApproval.UnguardedRedecides | src/components/TimeCorrectionApproval.jsx:27-47 | As written, an approved request can be rejected afterwards. The guarded variant leaves it unchanged. |
| TimeCorrectionApproval.SelectAndCount | src/components/TimeCorrectionApproval.jsx:136-143 | 'All' shows every request, and the three counters never exceed the number of requests. |
| TimeCorrectionApproval.ApprovalTouchesOnlyTarget | src/components/TimeCorrectionApproval.jsx:54-76 | With unique ids, approval changes only the target record: its break is kept and its work becomes the new session minus the break. |
| TimeCorrectionApproval.ApprovalScreen.constructor | src/components/TimeCorrectionApproval.jsx:7-25 | The screen loads the requests its viewer may review and filters on pending. |
| TimeCorrectionApproval.ApprovalScreen.Shown | src/components/TimeCorrectionApproval.jsx:136-139 | The shown list is drawn from the loaded requests, in order. |
| TimeCorrectionApproval.ApprovalScreen.LoadRequests | src/components/TimeCorrectionApproval.jsx:11-25 | The loaded list is the visible part of the stored requests. |
| TimeCorrectionApproval.ApprovalScreen.UpdateRequestStatus | src/components/TimeCorrectionApproval.jsx:81-99 | The stored list is updated by id and the visible list is reloaded. |
| TimeCorrectionApproval.ApprovalScreen.HandleApprove | src/components/TimeCorrectionApproval.jsx:27-35 | Approved exactly when confirmed and the correction applies. Then the user's record is corrected and the request approved. Otherwise nothing changes. |
| TimeCorrectionApproval.ApprovalScreen.HandleReject | src/components/TimeCorrectionApproval.jsx:37-47 | Rejected exactly when a non-blank reason is given. Then the request is rejected with it. Otherwise nothing changes. |
| CorrectionsRoute.ListFor | backend/routes/timeCorrections.js:10-21 | An employee gets exactly their own requests. The other roles get every request, newest first. |
| CorrectionsRoute.RewriteKeepsWorkTime | backend/routes/timeCorrections.js:61-69 | The server's approval rewrites login and logout but leaves the stored work time as it was. |
| CorrectionsRoute.FindByIdAfterUpdate | backend/routes/timeCorrections.js:52-62 | After an update that keeps ids, the row with the id is found at the same place. |
| CorrectionsRoute.CorrectionsTable.constructor | backend/routes/timeCorrections.js:10-21 | The table starts empty. |
| CorrectionsRoute.CorrectionsTable.List | backend/routes/timeCorrections.js:10-21 | The listing is the role-dependent selection. |
| CorrectionsRoute.CorrectionsTable.Submit | backend/routes/timeCorrections.js:29-45 | A pending row with a fresh id is appended. |
| CorrectionsRoute.CorrectionsTable.UpdateStatus | backend/routes/timeCorrections.js:48-76 | Only the row with the id is reviewed. On approval of a found row, its attendance row is rewritten with the new times. Approving an unknown id is a server error. |
| LeaveRequestForm.CeilDiv | src/components/LeaveRequest.jsx:47 | `Math.ceil` of a quotient by a positive divisor: the least integer at or above it. |
| LeaveRequestForm.LeaveDaysOfDates | src/components/LeaveRequest.jsx:45-47 | For day-aligned dates the count is the inclusive number of days. An end before the start gives zero or less. |
| LeaveRequestForm.LeaveSubmitError | src/components/LeaveRequest.jsx:29-42 | Missing dates are reported first, then an end before the start, then a blank reason. Accepted exactly when none holds. |
| LeaveRequestForm.NewLeave | src/components/LeaveRequest.jsx:50-61 | The new request is pending and carries the form's values. An ordered range counts its days inclusively. |
| LeaveRequestForm.LeaveForm.constructor | src/components/LeaveRequest.jsx:3-16 | The form starts empty and holds the user's stored requests. |
| LeaveRequestForm.LeaveForm.PersistRequests | src/components/LeaveRequest.jsx:19-23 | A non-empty list is stored under the user's key. An empty one is not written. |
| LeaveRequestForm.LeaveForm.HandleSubmit | src/components/LeaveRequest.jsx:25-78 | A refused form changes nothing. Otherwise the request is prepended to the user's list and to the shared list, and the form is cleared. |
| LeaveApproval.VisibleLeaves | src/components/LeaveApproval.jsx:12-26 | The requests the viewer may review, in stored order. |
| LeaveApproval.SetLeaveStatus | src/components/LeaveApproval.jsx:43-58 | Exactly the requests with the id are reviewed with the status, reason, reviewer and date. |
| LeaveApproval.MirroredUpdateKeepsCopies | src/components/LeaveApproval.jsx:61-77 | When the user's copies are in the shared list, they still are after both lists are updated. |
| LeaveApproval.GuardedSetLeaveStatus | src/components/LeaveApproval.jsx:28-41 | Guarded variant: only a pending request changes. |
| LeaveApproval.GuardedDecisionIsFinal | src/components/LeaveApproval.jsx:28-41 | Under the guard, a request already decided is never changed again. |
| LeaveApproval.ApprovedCanBeRejected | src/components/LeaveApproval.jsx:28-41 | As written, an approved request can later be rejected. The guarded variant leaves it unchanged. |
| LeaveApproval.SelectAndCount | src/components/LeaveApproval.jsx:104-111 | 'All' shows every request. The counters never exceed the number of requests, and they add up to it when every status is one of the three. |
| LeaveApproval.LeaveApprovalScreen.constructor | src/components/LeaveApproval.jsx:8-26 | The screen loads the visible requests. |
| LeaveApproval.LeaveApprovalScreen.Shown | src/components/LeaveApproval.jsx:104-107 | The shown list is drawn from the loaded requests, in order. |
| LeaveApproval.LeaveApprovalScreen.UpdateRequestStatus | src/components/LeaveApproval.jsx:43-82 | The shared list and the submitter's own list are updated by id, and the visible list is reloaded. |
| LeaveApproval.LeaveApprovalScreen.HandleApprove | src/components/LeaveApproval.jsx:28-34 | On confirmation the request is approved in the shared list and, when its id is found, in its submitter's own list, and the visible requests are reloaded. Otherwise nothing changes. |
| LeaveApproval.LeaveApprovalScreen.HandleReject | src/components/LeaveApproval.jsx:36-41 | Without a reason (prompt cancelled) nothing changes. Otherwise the request is rejected with the reason in the shared list and, when its id is found, in its submitter's own list, and the visible requests are reloaded. |
| LeavesRoute.ListFor | backend/routes/leaves.js:10-28 | Newest first. Employees get exactly their own requests; managers and administrators get every request. |
| LeavesRoute.InvertedRangeIsStored | backend/routes/leaves.js:33-36 | A range whose end precedes its start, which the route does not refuse, gives zero or fewer days. |
| LeavesRoute.LeavesTable.constructor | backend/routes/leaves.js:10-28 | The table starts empty. |
| LeavesRoute.LeavesTable.List | backend/routes/leaves.js:10-28 | The listing is the role-dependent selection. |
| LeavesRoute.LeavesTable.Submit | backend/routes/leaves.js:31-50 | A pending row with a fresh id, the given dates and the inclusive day count is appended. |
| LeavesRoute.LeavesTable.UpdateStatus | backend/routes/leaves.js:53-70 | Only the rows with the id are reviewed. The reply holds the updated row exactly when the id exists. |
| ProfileScreen.ReplaceFirst | src/components/Profile.jsx:45 | `replace(' ', '.')` replaces only the first occurrence and keeps every other character. |
| ProfileScreen.ReplaceFirstCounts | src/components/Profile.jsx:45 | With a space present, there is one space fewer and one dot more. Without one, the text is unchanged. |
| ProfileScreen.DefaultDepartment | src/components/Profile.jsx:48 | Operations for employees, Management for managers, Administration otherwise. |
| ProfileScreen.CalculateLeaveBalance | src/components/Profile.jsx:58-85 | Each remaining count is the allowance minus the approved days of that type, and the total is their sum. |
| ProfileScreen.UsedDaysSnoc | src/components/Profile.jsx:68-74 | One more request adds its days to its type exactly when it is approved. |
| ProfileScreen.UsedDaysOnlyApproved | src/components/Profile.jsx:68-74 | Counting only the approved requests gives the same used days. |
| ProfileScreen.BalanceIsNotClamped | src/components/Profile.jsx:77-82 | Twenty approved vacation days leave a vacation balance of -5. |
| ProfileScreen.PasswordError | src/components/Profile.jsx:116-151 | Accepted exactly when every field is given, the new password has at least six characters and matches the confirmation, and the current password is the account's. The messages come in the code's order. |
| ProfileScreen.ProfilePage.constructor | src/components/Profile.jsx:32-35 | The page loads or creates the user's profile, clears the password fields, and shows each allowance minus the approved days of that type, with their total. |
| ProfileScreen.ProfilePage.LoadProfileData | src/components/Profile.jsx:37-56 | A stored profile is loaded, or a default is created and stored. |
| ProfileScreen.ProfilePage.LoadLeaveBalance | src/components/Profile.jsx:58-85 | Vacation, sick and personal balances are each allowance minus the user's approved days of that type, and the total is their sum. |
| ProfileScreen.ProfilePage.HandleChangePassword | src/components/Profile.jsx:116-163 | A refused change leaves the accounts and the fields unchanged. Otherwise only that account's password changes and the fields are cleared. |
| Payslips.RoundRatio | src/components/Payslips.jsx:31-39 | `Math.round(a * num / den)`: the nearest integer, with halves rounded up. |
| Payslips.BaseSalary | src/components/Payslips.jsx:17-23 | 50000 for employees, 75000 for managers and 100000 for administrators. |
| Payslips.EmployeeFigures | src/components/Payslips.jsx:17-43 | An employee's allowances, tax and net pay, with and without the current month's bonus. |
| Payslips.ManagerFigures | src/components/Payslips.jsx:17-43 | A manager's allowances, tax and net pay, with and without the current month's bonus. |
| Payslips.AdminFigures | src/components/Payslips.jsx:17-43 | An administrator's allowances, tax and net pay, with and without the current month's bonus. |
| Payslips.SlipBalances | src/components/Payslips.jsx:30-62 | On every slip, gross is basic plus allowances plus bonus and net is gross minus deductions. Tax is 10% of gross, rounded. Only the current month has a bonus and is pending. Net is positive and below gross. |
| Payslips.SlipIdsDistinct | src/components/Payslips.jsx:46 | Slips of different months have different ids. |
| Payslips.GenerateDemoPayslips | src/components/Payslips.jsx:11-67 | The loop builds one slip per month back from the current month, each equal to the slip function's. |
| EmployeeDirectory.StaffOf | src/components/EmployeeDirectory.jsx:20-24 | Exactly the employees and managers, in stored order. |
| EmployeeDirectory.StatsMeaning | src/components/EmployeeDirectory.jsx:45-85 | Sessions count the records. The average and the last login exist exactly when there are records, and the last login is the first record's. The person is not active without a session. The leave counts are bounded by the totals. |
| EmployeeDirectory.Directory.constructor | src/components/EmployeeDirectory.jsx:12-24 | The list holds the staff, unfiltered, with nobody selected. |
| EmployeeDirectory.Directory.FilterEmployees | src/components/EmployeeDirectory.jsx:26-43 | The filtered list is the user search over the staff with the term and the role. |
| EmployeeDirectory.Directory.LoadEmployeeStats | src/components/EmployeeDirectory.jsx:45-85 | The loop's figures are the person's statistics. |
| EmployeeDirectory.Directory.HandleViewDetails | src/components/EmployeeDirectory.jsx:87-92 | The chosen person and their statistics are shown. |
| UserSearch.SearchUsers | src/components/UserManagement.jsx:31-48 | A user is kept exactly when the search term (when given) matches the name or e-mail and the role filter matches. Order is kept. |
| UserSearch.SearchSteps | src/components/UserManagement.jsx:31-48 | Searching and then filtering by role equals the combined selection. |
| UserManagement.EmailFromParts | src/components/UserManagement.jsx:106-107 | A clean local part, domain and suffix joined as `a@b.c` form a valid address. |
| UserManagement.EmailToParts | src/components/UserManagement.jsx:106-107 | Every valid address splits into a clean local part, domain and suffix joined as `a@b.c`. |
| UserManagement.FormError | src/components/UserManagement.jsx:96-117 | Accepted exactly when all fields are given, the password has at least six characters, the e-mail is valid and, when adding, not taken. The messages come in the code's order. |
| UserManagement.AddUser | src/components/UserManagement.jsx:126 | The user is appended and the others are kept. |
| UserManagement.AddKeepsEmailsUnique | src/components/UserManagement.jsx:112-127 | An accepted addition keeps e-mails unique. |
| UserManagement.EditUser | src/components/UserManagement.jsx:131-142 | Every user with the selected e-mail is replaced by the form, and the others are kept. |
| UserManagement.EditReplacesSelected | src/components/UserManagement.jsx:131-142 | With unique e-mails, exactly the selected user is replaced. |
| UserManagement.EditCanDuplicateEmail | src/components/UserManagement.jsx:131-142 | An edit can give a user another account's e-mail, breaking uniqueness. |
| UserManagement.DeleteUser | src/components/UserManagement.jsx:78 | Exactly the users without the e-mail are kept, in order. |
| UserManagement.DeleteAbsent | src/components/UserManagement.jsx:78 | Deleting an e-mail nobody has changes nothing. |
| UserManagement.DeleteRemovesOne | src/components/UserManagement.jsx:78 | With unique e-mails, deleting user k's e-mail removes exactly that user. |
| UserManagement.UserManagementScreen.constructor | src/components/UserManagement.jsx:18-29 | The screen holds the stored users, unfiltered, in add mode with the form closed. |
| UserManagement.UserManagementScreen.FilterUsers | src/components/UserManagement.jsx:31-48 | The shown list is the search over the users. |
| UserManagement.UserManagementScreen.HandleAddUser | src/components/UserManagement.jsx:50-59 | The form opens empty, for an employee, in add mode. |
| UserManagement.UserManagementScreen.HandleEditUser | src/components/UserManagement.jsx:61-71 | The form opens with the user's values, in edit mode. |
| UserManagement.UserManagementScreen.HandleDeleteUser | src/components/UserManagement.jsx:73-82 | On confirmation the user is deleted, the list is stored and the search is redone. Otherwise nothing changes. |
| UserManagement.UserManagementScreen.HandleSubmit | src/components/UserManagement.jsx:92-149 | A refused form changes nothing. Otherwise the addition or edit is stored, the form closes and the search is redone. |
| Reports.SummaryOf | src/components/Reports.jsx:32-69 | The summary counts every listed person. |
| Reports.SummaryLeavesBounded | src/components/Reports.jsx:51-54 | The approved and pending counts do not exceed the total. |
| Reports.ApprovalRateIsPercentage | src/components/Reports.jsx:67 | The rate is absent exactly when there are no requests. Otherwise it is between 0 and 100. |
| Reports.WithHistory | src/components/Reports.jsx:85 | Exactly the listed people with at least one record. |
| Reports.AttendanceLines | src/components/Reports.jsx:71-96 | One line per person with records, built from that person's history. |
| Reports.LeaveLines | src/components/Reports.jsx:104-128 | One line per person, built from that person's requests. |
| Reports.LeaveLineCounts | src/components/Reports.jsx:107-127 | A person's approved, pending and rejected counts do not exceed their requests, and are zero without requests. |
| Reports.ApprovedDaysOfApproved | src/components/Reports.jsx:114-117 | Approved days are the same counted over the approved requests alone. |
| Reports.BuildCsv | src/components/Reports.jsx:136-152 | The text is the header and then the lines, one per line. |
| Reports.LinesCount | src/components/Reports.jsx:141-150 | One line break per line. |
| Reports.CsvLineCount | src/components/Reports.jsx:141-150 | The exported text has one line break per entry, plus one for the header. |
| Reports.ReportsScreen.constructor | src/components/Reports.jsx:3-8 | The screen starts on the attendance report with no data loaded. |
| Reports.ReportsScreen.CalculateSummaryStats | src/components/Reports.jsx:32-69 | The loop's figures are the summary. |
| Reports.ReportsScreen.LoadAttendanceReport | src/components/Reports.jsx:71-102 | The per-person lines, most hours first. |
| Reports.ReportsScreen.LoadLeaveReport | src/components/Reports.jsx:104-134 | The per-person lines, most requests first. |
| Reports.ReportsScreen.LoadReportData | src/components/Reports.jsx:14-30 | The summary is recomputed. The chosen report's data is loaded and the other report's data is kept. |
| Reports.ReportsScreen.ExportCsv | src/components/Reports.jsx:136-152 | The CSV of the current report's rows, or the header alone when none are loaded. Another report type exports nothing. |
| Dashboard.ActiveToday | src/components/AdminDashboard.jsx:34-44 | At most the number of people, and zero when nobody's stored session is logged in. |
| Dashboard.CountActiveToday | src/components/AdminDashboard.jsx:34-44 | The loop counts the people with a logged-in stored session. |
| Dashboard.CountAttendanceRecords | src/components/AdminDashboard.jsx:47-51 | The loop sums the people's history lengths. |
| Dashboard.TotalRecordsIsReportSessions | src/components/AdminDashboard.jsx:47-51 | The dashboard's record total equals the reports screen's session total. |
| Dashboard.Candidates | src/components/AdminDashboard.jsx:73-99 | At most ten feed candidates. |
| Dashboard.LoadRecentActivity | src/components/AdminDashboard.jsx:69-100 | The feed is the candidates sorted newest first: at most ten, in order, and a permutation of the candidates. |
| Dashboard.FeedTakesFiveOfEach | src/components/AdminDashboard.jsx:73-99 | Up to five leave entries and five correction entries, with the leave entries first. |
| Dashboard.FormatDate | src/components/AdminDashboard.jsx:130-144 | Each label is chosen exactly for its range of elapsed time, and the number it shows is the floored elapsed amount. |
| Dashboard.LabelsAtBoundaries | src/components/AdminDashboard.jsx:133-143 | The labels on either side of each bucket's boundary. |
| AdminDashboard.DashboardStats | src/components/AdminDashboard.jsx:20-67 | Active staff are bounded by the staff count, pending requests by the totals, and the staff count by the users. |
| AdminDashboard.AdminDashboardPage.constructor | src/components/AdminDashboard.jsx:20-67 | The page starts with zero figures and an empty feed. |
| AdminDashboard.AdminDashboardPage.LoadDashboardData | src/components/AdminDashboard.jsx:20-67 | The figures over employees and managers, and the feed over all requests. |
| ManagerDashboard.DashboardStats | src/components/ManagerDashboard.jsx:21-70 | Figures over employees and their requests only. Active staff are bounded by the team and pending leaves by the team's leaves. |
| ManagerDashboard.PendingLeavesMatchApprovalScreen | src/components/ManagerDashboard.jsx:28-34 | The manager's pending counts equal those on the manager's approval screens. |
| ManagerDashboard.ManagerDashboardPage.constructor | src/components/ManagerDashboard.jsx:21-70 | The page starts with zero figures and an empty feed. |
| ManagerDashboard.ManagerDashboardPage.LoadDashboardData | src/components/ManagerDashboard.jsx:21-70 | The figures and the feed over the employees' data only. |
| SettingsScreen.Get | src/components/Settings.jsx:41-56 | Each input shows a value of its kind. |
| SettingsScreen.SettingsDeterminedByFields | src/components/Settings.jsx:41-56 | Settings equal in every input and in their holidays are equal. |
| SettingsScreen.InputChange | src/components/Settings.jsx:41-56 | The input's field takes the value; every other field and the holidays are kept. |
| SettingsScreen.InputChangesCommute | src/components/Settings.jsx:41-56 | Edits of two different inputs commute. |
| SettingsScreen.RemoveIndex | src/components/Settings.jsx:79-85 | The holiday at the index goes; an index outside the list removes nothing. |
| SettingsScreen.RemainingLeaves | src/components/Settings.jsx:140-147 | The total is the sum of the three policies. |
| SettingsScreen.PolicyChangeMovesTotal | src/components/Settings.jsx:140-147 | Changing one policy moves the total by the change. |
| SettingsScreen.DefaultAllowance | src/components/Settings.jsx:4-21 | The default policies give 15, 10 and 5 days, 30 in all. |
| SettingsScreen.SettingsPage.constructor | src/components/Settings.jsx:34-39 | Stored settings win over the defaults. |
| SettingsScreen.SettingsPage.HandleInputChange | src/components/Settings.jsx:41-56 | The form changes in that one input only. |
| SettingsScreen.SettingsPage.HandleSaveSettings | src/components/Settings.jsx:58-62 | The form is stored. |
| SettingsScreen.SettingsPage.HandleAddHoliday | src/components/Settings.jsx:64-77 | Added exactly when name and date are given; the input is then cleared. |
| SettingsScreen.SettingsPage.HandleDeleteHoliday | src/components/Settings.jsx:79-85 | Only the holiday list changes, losing the holiday at the index. |
| SettingsScreen.SettingsPage.HandleResetSettings | src/components/Settings.jsx:87-114 | On confirmation the defaults are restored and stored; otherwise nothing changes. |
| SettingsScreen.SettingsPage.GetRemainingLeaves | src/components/Settings.jsx:140-147 | The total of the form's policies. |
| LoginScreen.FindAccount | src/components/Login.jsx:33 | Found exactly when some account has both the e-mail and the password; the result is the first such account. |
| LoginScreen.UniqueEmailSignsInOwner | src/components/Login.jsx:33 | With unique e-mails, an account's credentials sign in as that account. |
| LoginScreen.DefaultAccountsSignIn | src/components/Login.jsx:4-10 | Each seeded account signs in as itself. |
| LoginScreen.SessionUser | src/components/Login.jsx:37 | The stored current user has the account's e-mail, name and role, and no password. |
| LoginScreen.LoginForm.constructor | src/components/Login.jsx:25-42 | The form starts empty with no error. |
| LoginScreen.LoginForm.SeedDefaultUsers | src/components/Login.jsx:18-23 | The defaults are stored only when no account list exists. |
| LoginScreen.LoginForm.HandleSubmit | src/components/Login.jsx:25-42 | On a match the current user is stored and handed on; otherwise the error is shown and nothing is stored. |
| AuthMiddleware.SplitOn | backend/middleware/auth.js:13 | `split(' ')`: at least one part, no part contains the separator, and joining the parts gives the string back. |
| AuthMiddleware.BearerToken | backend/middleware/auth.js:12-13 | A token, when there is one, is non-empty and has no space. |
| AuthMiddleware.TokenIsSecondPart | backend/middleware/auth.js:13 | The token is the header's second space-separated part. |
| AuthMiddleware.BearerHeaderYieldsToken | backend/middleware/auth.js:13 | `Bearer <token>` yields the token. |
| AuthMiddleware.SplitPrefix | backend/middleware/auth.js:13 | Splitting two space-free parts joined by a space gives them back. |
| AuthMiddleware.NoSeparatorIsOnePart | backend/middleware/auth.js:13 | A string without the separator is one part. |
| AuthMiddleware.AuthenticateToken | backend/middleware/auth.js:10-29 | 401 without a token, 403 for a token that does not verify; otherwise the request passes with the payload. |
| AuthMiddleware.VerifiedBearerPasses | backend/middleware/auth.js:10-29 | A verified bearer header passes as its owner. |
| AuthMiddleware.AuthorizeRoles | backend/middleware/auth.js:34-48 | 401 without a user, 403 for an unlisted role; the request passes exactly for a listed role. |
| AuthMiddleware.IsAdmin | backend/middleware/auth.js:53-58 | Only administrators pass; everything else is 403. |
| AuthMiddleware.IsManagerOrAdmin | backend/middleware/auth.js:63-68 | Only managers and administrators pass; everything else is 403. |
| AuthMiddleware.FixedGatesAgreeWithAuthorizeRoles | backend/middleware/auth.js:34-68 | The fixed gates pass what authorizeRoles passes, and differ only in answering 403 instead of 401 without a user. |
| AuthMiddleware.ManagerOrAdminAreReviewers | backend/middleware/auth.js:63-68 | The roles that pass are exactly the roles that review someone's requests. |

## Left out

- Rendering, styling, navigation and the application shell are not modelled. That covers the JSX, the navigation bar and the routing between screens.
- Local storage is modelled as typed fields. JSON serialisation and parsing, and corrupted stored values, are left out.
- Browser dialogs are parameters of the methods that use them: `confirm` answers and `prompt` texts. `alert` messages are not modelled beyond the refusal they signal.
- Timers are not modelled: the one-second clock tick and the 30-second end-of-day poll. The instant is a parameter, and only the transition each tick causes is modelled.
- Floating point is left out. Hour figures are exact rationals and the server's fractional break minutes are integer milliseconds. Where a figure is shown or exported, `toFixed` is a text-valued parameter; the reports' sort key `Reports.HoursKey` rounds the exact total half up to one decimal, which differs from `toFixed` for negative totals (rounded half away from zero) and where the binary value lies just below a half.
- Locale formatting (`toLocaleTimeString`, `toLocaleDateString`) is a parameter. Month and day filters use UTC day numbers instead of the browser's local time zone.
- The Blob and link plumbing of CSV downloads is left out. The model produces the CSV text.
- `Date.now()` identifiers are the `now` parameter.
- On the server, these are not part of this model: the SQL engine, `bcrypt`, and the users, reports, profile and authentication routes. `jwt.verify` is a parameter of `AuthMiddleware.AuthenticateToken`.
- Concurrency between browser tabs or requests is left out.
- `parseInt` on the settings' number inputs: a non-numeric entry yields NaN, which the model does not represent. The input delivers an integer.
- The settings screen's data export is left out.
- The dashboards' top-employee ranking is left out, because it rests on floating-point hour sums.
- The manager dashboard's `formatDate` and `loadRecentActivity` are identical to the administrator's, and are modelled once by `Dashboard.FormatDate` and `Dashboard.LoadRecentActivity`.
- AttendanceController.AttendanceTable.CheckOut: stores the work time in milliseconds rather than as hours with two decimals.
- Text.ToLower: lower-cases ASCII letters only. JavaScript's `toLowerCase` folds all of Unicode and can change a string's length (as for 'İ'); Unicode case mapping is not modelled.
- UserSearch.SearchUsers: matches case-insensitively for ASCII letters only, because it uses `Text.ToLower`. The profile's default e-mail is lower-cased the same way.
- ProfileScreen.PasswordError: the six-character minimum counts Unicode characters. The source's `.length` counts UTF-16 code units, so three characters outside the Basic Multilingual Plane pass the source's check and fail the model's.
- UserManagement.FormError: the password minimum counts Unicode characters, not UTF-16 code units, as for `ProfileScreen.PasswordError`.
- TimeCorrection.TimeCorrectionScreen.HandleSubmitCorrection: the new login and logout times are integer instants. An empty or unparsable time gives an invalid date, which fails the `<=` check and so files a request with null times; the model does not have that path.
- EmployeeDashboard.SessionRecord: one instant `now` serves as the break end, the logout time and the record's id. The source reads the clock again after the blocking break alert, so the break can end a little before the logout instant.
- `Common.Role.OtherRole` and `Common.Status.OtherStatus` hold stored texts other than the named roles and statuses. The model does not exclude `OtherRole("admin")`, which JavaScript would treat as the administrator role; the model's operations never build such a value.

## Findings

| source | as written | input that shows it | evidently intended | confidence | as-written member | corrected member |
|---|---|---|---|---|---|---|
| backend/controllers/attendanceController.js:64-77 | Check-out during a break closes the break in the row, then computes work time from the break total read before closing. | Check-in at 0 with no break total, a break from 1 h, check-out at 2 h: work 2 h plus break 1 h in a 2 h session. | Work time excludes the auto-closed break, so work plus break equals the session length. | high (not executed) | AttendanceController.StaleBreakOvercounts | AttendanceController.CloseRowBalances |
| src/components/EmployeeDashboard.jsx:61-77 | The end-of-day poll's effect depends on `isLoggedIn` only, so the `handleLogout` it calls reads the session state of the render in which the user logged in. Breaks taken later are not recorded, and the whole session counts as work. | Login at 09:00, a break from 12:00 to 13:00, the poll at 23:59: 0 break and 14h 59m of work are stored instead of 1 h and 13h 59m. | The automatic logout records the session as the logout button would at that instant. | medium (not executed) | EmployeeDashboard.EndOfDayMissesCompletedBreak | EmployeeDashboard.Dashboard.EndOfDayCheckCorrected |
