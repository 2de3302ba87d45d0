/** The system settings screen: a form over the stored settings, the holiday
    list, a reset to the defaults and the leave allowance an employee sees. */
module SettingsScreen {
  import opened Common
  import opened Records
  import opened Storage

  /** The settings the screen starts from and a reset restores. */
  const DefaultSettings: SystemSettings := SystemSettings(
    "HR System", WorkingHours("09:00", "17:00"), LeavePolicies(15, 10, 5), [],
    true, true, 240, true, false)

  /** The inputs of the form. The three working-hour and leave-policy
      inputs write a field of a nested category; the others write a
      top-level field. */
  datatype Field =
    | CompanyName
    | HoursStart | HoursEnd
    | VacationDays | SickDays | PersonalDays
    | AutoLogoutEnabled | BreakRemindersEnabled | BreakReminderInterval
    | EmailNotifications | DarkModeDefault

  /** What an input delivers: text, a parsed number or a checkbox state. */
  datatype Value = Text(text: string) | Number(n: int) | Flag(on: bool)

  /** The kind of value each input delivers. */
  predicate Fits(f: Field, v: Value)
  {
    match f
    case CompanyName | HoursStart | HoursEnd => v.Text?
    case VacationDays | SickDays | PersonalDays | BreakReminderInterval => v.Number?
    case AutoLogoutEnabled | BreakRemindersEnabled | EmailNotifications | DarkModeDefault => v.Flag?
  }

  /** The value an input shows for the given settings. */
  function Get(s: SystemSettings, f: Field): (v: Value)
    ensures Fits(f, v)
  {
    match f
    case CompanyName => Text(s.companyName)
    case HoursStart => Text(s.workingHours.start)
    case HoursEnd => Text(s.workingHours.end)
    case VacationDays => Number(s.leavePolicies.vacation)
    case SickDays => Number(s.leavePolicies.sick)
    case PersonalDays => Number(s.leavePolicies.personal)
    case AutoLogoutEnabled => Flag(s.autoLogoutEnabled)
    case BreakRemindersEnabled => Flag(s.breakRemindersEnabled)
    case BreakReminderInterval => Number(s.breakReminderInterval)
    case EmailNotifications => Flag(s.emailNotifications)
    case DarkModeDefault => Flag(s.darkModeDefault)
  }

  /** Settings are determined by what their inputs show and their holidays. */
  lemma SettingsDeterminedByFields(a: SystemSettings, b: SystemSettings)
    requires forall f :: Get(a, f) == Get(b, f)
    requires a.holidays == b.holidays
    ensures a == b
  {
    assert Get(a, CompanyName) == Get(b, CompanyName);
    assert Get(a, HoursStart) == Get(b, HoursStart) && Get(a, HoursEnd) == Get(b, HoursEnd);
    assert Get(a, VacationDays) == Get(b, VacationDays) && Get(a, SickDays) == Get(b, SickDays);
    assert Get(a, PersonalDays) == Get(b, PersonalDays);
    assert Get(a, AutoLogoutEnabled) == Get(b, AutoLogoutEnabled);
    assert Get(a, BreakRemindersEnabled) == Get(b, BreakRemindersEnabled);
    assert Get(a, BreakReminderInterval) == Get(b, BreakReminderInterval);
    assert Get(a, EmailNotifications) == Get(b, EmailNotifications);
    assert Get(a, DarkModeDefault) == Get(b, DarkModeDefault);
  }

  /** handleInputChange: the input's field takes the new value; every other
      field, the other field of the same category included, and the
      holidays keep theirs. */
  function InputChange(s: SystemSettings, f: Field, v: Value): (r: SystemSettings)
    requires Fits(f, v)
    ensures Get(r, f) == v
    ensures forall g :: g != f ==> Get(r, g) == Get(s, g)
    ensures r.holidays == s.holidays
  {
    match f
    case CompanyName => s.(companyName := v.text)
    case HoursStart => s.(workingHours := s.workingHours.(start := v.text))
    case HoursEnd => s.(workingHours := s.workingHours.(end := v.text))
    case VacationDays => s.(leavePolicies := s.leavePolicies.(vacation := v.n))
    case SickDays => s.(leavePolicies := s.leavePolicies.(sick := v.n))
    case PersonalDays => s.(leavePolicies := s.leavePolicies.(personal := v.n))
    case AutoLogoutEnabled => s.(autoLogoutEnabled := v.on)
    case BreakRemindersEnabled => s.(breakRemindersEnabled := v.on)
    case BreakReminderInterval => s.(breakReminderInterval := v.n)
    case EmailNotifications => s.(emailNotifications := v.on)
    case DarkModeDefault => s.(darkModeDefault := v.on)
  }

  /** Edits of two different inputs do not interfere: either order gives
      the same settings. */
  lemma InputChangesCommute(s: SystemSettings, f: Field, v: Value, g: Field, w: Value)
    requires Fits(f, v) && Fits(g, w) && f != g
    ensures InputChange(InputChange(s, f, v), g, w) == InputChange(InputChange(s, g, w), f, v)
  {
    var a := InputChange(InputChange(s, f, v), g, w);
    var b := InputChange(InputChange(s, g, w), f, v);
    forall h ensures Get(a, h) == Get(b, h) {
      GetAfterTwoChanges(s, f, v, g, w, h);
      GetAfterTwoChanges(s, g, w, f, v, h);
    }
    SettingsDeterminedByFields(a, b);
  }

  /** What an input shows after two edits: the later edit's value, else
      the earlier edit's value, else the original. */
  lemma GetAfterTwoChanges(s: SystemSettings, f: Field, v: Value, g: Field, w: Value, h: Field)
    requires Fits(f, v) && Fits(g, w)
    ensures Get(InputChange(InputChange(s, f, v), g, w), h) == if h == g then w else if h == f then v else Get(s, h)
  {
    var once := InputChange(s, f, v);
    if h != g {
      assert Get(InputChange(once, g, w), h) == Get(once, h);
    }
  }

  /** `holidays.filter((_, i) => i !== index)`: the holiday at the index is
      dropped and the others keep their order; an index outside the list
      drops nothing. */
  function RemoveIndex(hs: seq<Holiday>, index: int): (r: seq<Holiday>)
    ensures 0 <= index < |hs| ==> r == hs[..index] + hs[index + 1..]
    ensures !(0 <= index < |hs|) ==> r == hs
    decreases |hs|
  {
    if hs == [] then []
    else
      var rest := RemoveIndex(hs[1..], index - 1);
      if index == 0 then
        assert hs[..0] + hs[1..] == hs[1..];
        rest
      else
        assert 0 < index < |hs| ==> [hs[0]] + hs[1..][..index - 1] == hs[..index];
        assert 0 < index < |hs| ==> hs[1..][index - 1 + 1..] == hs[index + 1..];
        assert hs == [hs[0]] + hs[1..];
        [hs[0]] + rest
  }

  /** The allowance an employee sees: the three policies and their sum. */
  datatype Remaining = Remaining(vacation: int, sick: int, personal: int, total: int)

  /** getRemainingLeaves. */
  function RemainingLeaves(p: LeavePolicies): (r: Remaining)
    ensures r.total == r.vacation + r.sick + r.personal
    ensures r.vacation == p.vacation && r.sick == p.sick && r.personal == p.personal
  {
    Remaining(p.vacation, p.sick, p.personal, p.vacation + p.sick + p.personal)
  }

  /** Changing one leave policy moves the shown total by the change. */
  lemma PolicyChangeMovesTotal(s: SystemSettings, f: Field, n: int)
    requires f in {VacationDays, SickDays, PersonalDays}
    ensures var before := Get(s, f).n;
      RemainingLeaves(InputChange(s, f, Number(n)).leavePolicies).total
      == RemainingLeaves(s.leavePolicies).total - before + n
  {
  }

  /** With the default policies an employee sees 30 days in all. */
  lemma DefaultAllowance()
    ensures RemainingLeaves(DefaultSettings.leavePolicies) == Remaining(15, 10, 5, 30)
  {
  }

  class SettingsPage {
    const userRole: Role
    const storage: LocalStorage
    var settings: SystemSettings
    var newHoliday: Holiday

    /** The initial state and loadSettings: stored settings win over the
        defaults. */
    constructor (userRole: Role, storage: LocalStorage)
      ensures this.userRole == userRole && this.storage == storage
      ensures settings == if storage.systemSettings.Some? then storage.systemSettings.value else DefaultSettings
      ensures newHoliday == Holiday("", "")
    {
      this.userRole := userRole;
      this.storage := storage;
      settings := if storage.systemSettings.Some? then storage.systemSettings.value else DefaultSettings;
      newHoliday := Holiday("", "");
    }

    method HandleInputChange(f: Field, v: Value)
      requires Fits(f, v)
      modifies this`settings
      ensures settings == InputChange(old(settings), f, v)
      ensures Get(settings, f) == v
      ensures forall g :: g != f ==> Get(settings, g) == Get(old(settings), g)
    {
      settings := InputChange(settings, f, v);
    }

    /** handleSaveSettings: the form is written to storage. */
    method HandleSaveSettings()
      modifies storage`systemSettings
      ensures storage.systemSettings == Some(settings)
    {
      storage.systemSettings := Some(settings);
    }

    /** handleAddHoliday: a holiday without a name or a date is refused
        (the alert) and nothing changes; otherwise it is appended and the
        input is cleared. */
    method HandleAddHoliday() returns (added: bool)
      modifies this`settings, this`newHoliday
      ensures added <==> old(newHoliday).name != "" && old(newHoliday).date != ""
      ensures !added ==> settings == old(settings) && newHoliday == old(newHoliday)
      ensures added ==> settings == old(settings).(holidays := old(settings).holidays + [old(newHoliday)])
      ensures added ==> newHoliday == Holiday("", "")
      ensures added ==> |settings.holidays| == |old(settings).holidays| + 1
    {
      if newHoliday.name == "" || newHoliday.date == "" {
        return false;
      }
      settings := settings.(holidays := settings.holidays + [newHoliday]);
      newHoliday := Holiday("", "");
      added := true;
    }

    /** handleDeleteHoliday: the holiday at the index goes; nothing else in
        the settings changes. */
    method HandleDeleteHoliday(index: int)
      modifies this`settings
      ensures settings == old(settings).(holidays := RemoveIndex(old(settings).holidays, index))
      ensures 0 <= index < |old(settings).holidays| ==> |settings.holidays| == |old(settings).holidays| - 1
    {
      settings := settings.(holidays := RemoveIndex(settings.holidays, index));
    }

    /** handleResetSettings, with the confirmation's answer: the defaults
        are restored and persisted, or nothing changes. */
    method HandleResetSettings(confirmed: bool)
      modifies this`settings, storage`systemSettings
      ensures !confirmed ==> settings == old(settings) && storage.systemSettings == old(storage.systemSettings)
      ensures confirmed ==> settings == DefaultSettings && storage.systemSettings == Some(DefaultSettings)
    {
      if !confirmed {
        return;
      }
      settings := DefaultSettings;
      storage.systemSettings := Some(DefaultSettings);
    }

    /** Only a non-employee gets the editing controls. */
    predicate IsEmployee()
    {
      userRole == Employee
    }

    function GetRemainingLeaves(): (r: Remaining)
      reads this
      ensures r.total == settings.leavePolicies.vacation + settings.leavePolicies.sick + settings.leavePolicies.personal
    {
      RemainingLeaves(settings.leavePolicies)
    }
  }
}
