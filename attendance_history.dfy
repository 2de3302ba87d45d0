/** The attendance history screen: the month filter, the summary figures
    and the CSV export of the filtered records. */
module AttendanceHistory {
  import opened Common
  import opened Text
  import opened Calendar
  import opened Records

  /** The month selector: 'all', 'current', 'last' or any other value. */
  datatype MonthFilter = AllMonths | CurrentMonth | LastMonth | OtherFilter(name: string)

  /** The zero-based month and the year before (month, year): January
      wraps to December of the previous year. */
  function PreviousMonth(month: int, year: int): (r: (int, int))
    requires 0 <= month < 12
    ensures 0 <= r.0 < 12
    ensures r.1 * 12 + r.0 == year * 12 + month - 1
    ensures month == 0 ==> r == (11, year - 1)
    ensures month > 0 ==> r == (month - 1, year)
  {
    if month == 0 then (11, year - 1) else (month - 1, year)
  }

  /** The zero-based month and the year of a record's date. */
  function MonthOf(r: AttendanceRecord): int
  {
    MonthIndex(CivilFromDays(r.date))
  }

  function YearOf(r: AttendanceRecord): int
  {
    CivilFromDays(r.date).year
  }

  /** Whether a record passes the filter, with `month` and `year` the
      current date's. */
  predicate Keeps(f: MonthFilter, r: AttendanceRecord, month: int, year: int)
    requires 0 <= month < 12
  {
    match f
    case AllMonths => true
    case CurrentMonth => MonthOf(r) == month && YearOf(r) == year
    case LastMonth =>
      var (lm, ly) := PreviousMonth(month, year);
      MonthOf(r) == lm && YearOf(r) == ly
    case OtherFilter(_) => true
  }

  /** getFilteredData. */
  function FilteredData(data: seq<AttendanceRecord>, f: MonthFilter, month: int, year: int): (r: seq<AttendanceRecord>)
    requires 0 <= month < 12
    ensures f.AllMonths? || f.OtherFilter? ==> r == data
    ensures forall i :: 0 <= i < |r| ==> r[i] in data && Keeps(f, r[i], month, year)
    ensures forall i :: 0 <= i < |data| && Keeps(f, data[i], month, year) ==> data[i] in r
    ensures IsSubsequence(r, data)
  {
    Filter(data, (s: AttendanceRecord) => Keeps(f, s, month, year))
  }

  /** In January 'last' means December of the year before; otherwise the
      previous month of the same year. */
  lemma LastMonthWraps(data: seq<AttendanceRecord>, year: int, r: AttendanceRecord)
    requires r in data
    ensures r in FilteredData(data, LastMonth, 0, year) <==> MonthOf(r) == 11 && YearOf(r) == year - 1
    ensures r in FilteredData(data, LastMonth, 5, year) <==> MonthOf(r) == 4 && YearOf(r) == year
  {
  }

  // ---------------------------------------------------------------------
  // Summary figures.
  // ---------------------------------------------------------------------

  /** Sum of the worked hours of the records, exactly, accumulated from
      the front as `forEach` does. */
  function TotalHours(s: seq<AttendanceRecord>): real
  {
    if s == [] then 0.0
    else TotalHours(s[..|s| - 1]) + (s[|s| - 1].totalWorkedMs as real) / (MsPerHour as real)
  }

  function TotalBreakHours(s: seq<AttendanceRecord>): real
  {
    if s == [] then 0.0
    else TotalBreakHours(s[..|s| - 1]) + (s[|s| - 1].totalBreakMs as real) / (MsPerHour as real)
  }

  /** Appending one record adds its hours. */
  lemma TotalsSnoc(s: seq<AttendanceRecord>, r: AttendanceRecord)
    ensures TotalHours(s + [r]) == TotalHours(s) + (r.totalWorkedMs as real) / (MsPerHour as real)
    ensures TotalBreakHours(s + [r]) == TotalBreakHours(s) + (r.totalBreakMs as real) / (MsPerHour as real)
  {
    assert (s + [r])[..|s|] == s;
  }

  datatype Stats = Stats(totalDays: nat, totalHours: real, totalBreaks: real, avgHours: real)

  /** calculateStats, before rounding to one decimal. */
  function CalculateStats(filtered: seq<AttendanceRecord>): (st: Stats)
    ensures st.totalDays == |filtered|
    ensures st.totalDays == 0 ==> st.avgHours == 0.0 && st.totalHours == 0.0
    ensures st.totalDays > 0 ==> st.avgHours * (st.totalDays as real) == st.totalHours
  {
    var days := |filtered|;
    var hours := TotalHours(filtered);
    Stats(days, hours, TotalBreakHours(filtered), if days > 0 then hours / (days as real) else 0.0)
  }

  /** The `forEach` that adds up worked and break hours record by record. */
  method SumHours(records: seq<AttendanceRecord>) returns (totalHours: real, totalBreak: real)
    ensures totalHours == TotalHours(records) && totalBreak == TotalBreakHours(records)
  {
    totalHours, totalBreak := 0.0, 0.0;
    var i := 0;
    while i < |records|
      invariant 0 <= i <= |records|
      invariant totalHours == TotalHours(records[..i])
      invariant totalBreak == TotalBreakHours(records[..i])
    {
      TotalsSnoc(records[..i], records[i]);
      assert records[..i + 1] == records[..i] + [records[i]];
      totalHours := totalHours + (records[i].totalWorkedMs as real) / (MsPerHour as real);
      totalBreak := totalBreak + (records[i].totalBreakMs as real) / (MsPerHour as real);
      i := i + 1;
    }
    assert records[..i] == records;
  }

  /** Non-negative work times give non-negative totals. */
  lemma {:induction false} TotalHoursNonNegative(s: seq<AttendanceRecord>)
    requires forall i :: 0 <= i < |s| ==> s[i].totalWorkedMs >= 0
    ensures TotalHours(s) >= 0.0
  {
    if s != [] {
      TotalHoursNonNegative(s[..|s| - 1]);
    }
  }

  // ---------------------------------------------------------------------
  // CSV export.
  // ---------------------------------------------------------------------

  /** The stored 'YYYY-MM-DD' form of a day number. */
  function IsoDate(d: int): string
  {
    var c := CivilFromDays(d);
    IntToString(c.year) + "-" + Pad2(c.month) + "-" + Pad2(c.day)
  }

  /** The column names of the export. */
  const CsvColumns: seq<string> := ["Date", "Login Time", "Logout Time", "Work Hours", "Break Time"]

  /** "Date,Login Time,Logout Time,Work Hours,Break Time". */
  const CsvHeader: string := Join(CsvColumns, ",")

  /** One CSV row; `formatTime` is the locale time rendering. */
  function CsvRow(s: AttendanceRecord, formatTime: int -> string): string
  {
    Join([IsoDate(s.date), formatTime(s.loginTime), formatTime(s.logoutTime), s.totalWorked, s.totalBreak], ",")
  }

  /** downloadCSV's rows: nothing for an empty selection, otherwise the
      header and then one row per record in order. */
  method CsvRows(filtered: seq<AttendanceRecord>, formatTime: int -> string) returns (rows: Option<seq<string>>)
    ensures filtered == [] <==> rows.None?
    ensures rows.Some? ==> |rows.value| == |filtered| + 1 && rows.value[0] == CsvHeader
    ensures rows.Some? ==> forall i :: 0 <= i < |filtered| ==> rows.value[i + 1] == CsvRow(filtered[i], formatTime)
  {
    if |filtered| == 0 {
      return None;
    }
    var csvRows := [CsvHeader];
    csvRows := PushEach(csvRows, filtered, (session: AttendanceRecord) => CsvRow(session, formatTime));
    rows := Some(csvRows);
  }

  /** A field free of line breaks. */
  predicate OneLine(s: string)
  {
    Occurrences(s, '\n') == 0
  }

  lemma HeaderIsOneLine()
    ensures OneLine(CsvHeader)
  {
    forall i | 0 <= i < |CsvColumns| ensures Occurrences(CsvColumns[i], '\n') == 0 {
      OccurrencesNone(CsvColumns[i], '\n');
    }
    OccurrencesNone(",", '\n');
    JoinFree(CsvColumns, ",", '\n');
  }

  /** A row whose fields hold no line break holds none either. */
  lemma CsvRowIsOneLine(s: AttendanceRecord, formatTime: int -> string)
    requires OneLine(IsoDate(s.date)) && OneLine(formatTime(s.loginTime)) && OneLine(formatTime(s.logoutTime))
    requires OneLine(s.totalWorked) && OneLine(s.totalBreak)
    ensures OneLine(CsvRow(s, formatTime))
  {
    var fields := [IsoDate(s.date), formatTime(s.loginTime), formatTime(s.logoutTime), s.totalWorked, s.totalBreak];
    OccurrencesNone(",", '\n');
    JoinFree(fields, ",", '\n');
  }

  /** Rows made of a one-line header and the rows of records whose fields
      hold no line break are each one line. */
  lemma RowsOneLine(filtered: seq<AttendanceRecord>, formatTime: int -> string, rows: seq<string>)
    requires |rows| == |filtered| + 1 && OneLine(rows[0])
    requires forall i :: 0 <= i < |filtered| ==> rows[i + 1] == CsvRow(filtered[i], formatTime)
    requires forall i :: 0 <= i < |filtered| ==>
      OneLine(IsoDate(filtered[i].date)) && OneLine(formatTime(filtered[i].loginTime))
      && OneLine(formatTime(filtered[i].logoutTime))
      && OneLine(filtered[i].totalWorked) && OneLine(filtered[i].totalBreak)
    ensures forall i :: 0 <= i < |rows| ==> Occurrences(rows[i], '\n') == 0
  {
    forall i | 1 <= i < |rows| ensures OneLine(rows[i]) {
      var k := i - 1;
      assert rows[k + 1] == CsvRow(filtered[k], formatTime);
      CsvRowIsOneLine(filtered[k], formatTime);
    }
  }

  /** With no line break inside the header (HeaderIsOneLine) or any field,
      the exported text has one line break per record. */
  lemma CsvLineCount(filtered: seq<AttendanceRecord>, formatTime: int -> string, rows: seq<string>)
    requires |rows| == |filtered| + 1 && OneLine(rows[0])
    requires forall i :: 0 <= i < |filtered| ==> rows[i + 1] == CsvRow(filtered[i], formatTime)
    requires forall i :: 0 <= i < |filtered| ==>
      OneLine(IsoDate(filtered[i].date)) && OneLine(formatTime(filtered[i].loginTime))
      && OneLine(formatTime(filtered[i].logoutTime))
      && OneLine(filtered[i].totalWorked) && OneLine(filtered[i].totalBreak)
    ensures Occurrences(Join(rows, "\n"), '\n') == |filtered|
  {
    RowsOneLine(filtered, formatTime, rows);
    JoinLineBreaks(rows);
  }
}
