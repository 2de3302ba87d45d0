/** Time units and the proleptic Gregorian calendar. Instants are integer
    milliseconds since the epoch; a stored calendar date ('YYYY-MM-DD' in the
    application) is the number of whole UTC days since the epoch. */
module Calendar {

  const MsPerSecond: int := 1000
  const MsPerMinute: int := 60 * MsPerSecond
  const MsPerHour: int := 60 * MsPerMinute
  const MsPerDay: int := 24 * MsPerHour

  /** `new Date(t).toISOString().split('T')[0]`: the UTC day of an instant. */
  function DayOf(t: int): (d: int)
    ensures d * MsPerDay <= t < (d + 1) * MsPerDay
  {
    t / MsPerDay
  }

  /** The instant `new Date('YYYY-MM-DD')` denotes: UTC midnight of the day. */
  function StartOfDay(d: int): int
  {
    d * MsPerDay
  }

  /** A calendar date; month is 1..12 as written in 'YYYY-MM-DD'. */
  datatype CivilDate = CivilDate(year: int, month: int, day: int)

  /** The calendar date of a day number (H. Hinnant's days-to-civil
      algorithm, with floor division throughout). */
  function CivilFromDays(n: int): (c: CivilDate)
    ensures 1 <= c.month <= 12
    ensures 1 <= c.day <= 31
  {
    var z := n + 719468;
    var era := z / 146097;
    var doe := z - era * 146097;
    var yoe := (doe - doe / 1460 + doe / 36524 - doe / 146096) / 365;
    var doy := doe - (365 * yoe + yoe / 4 - yoe / 100);
    var mp := (5 * doy + 2) / 153;
    var d := doy - (153 * mp + 2) / 5 + 1;
    var m := if mp < 10 then mp + 3 else mp - 9;
    CivilDate(yoe + era * 400 + (if m <= 2 then 1 else 0), m, d)
  }

  /** The zero-based month, as `Date.prototype.getMonth` returns it. */
  function MonthIndex(c: CivilDate): int
  {
    c.month - 1
  }
}

/** Durations in milliseconds and their `Hh Mm Ss` rendering. */
module Durations {
  import opened Calendar
  import opened Text

  /** JavaScript's `%` for a positive divisor: the remainder takes the sign
      of the dividend (Dafny's own `%` never returns a negative value). */
  function JsRem(a: int, b: int): (r: int)
    requires b > 0
    ensures a >= 0 ==> 0 <= r < b
    ensures a < 0 ==> -b < r <= 0
  {
    if a >= 0 then a % b else -((-a) % b)
  }

  datatype Hms = Hms(hours: int, minutes: int, seconds: int)

  /** The three components formatTime computes with `Math.floor` and `%`
      (Dafny's `/` by a positive divisor is `Math.floor` of the quotient). */
  function Split(ms: int): Hms
  {
    Hms(ms / MsPerHour, JsRem(ms, MsPerHour) / MsPerMinute, JsRem(ms, MsPerMinute) / MsPerSecond)
  }

  /** formatTime(ms): `${hours}h ${minutes}m ${seconds}s`. */
  function FormatTime(ms: int): string
  {
    var d := Split(ms);
    IntToString(d.hours) + "h " + IntToString(d.minutes) + "m " + IntToString(d.seconds) + "s"
  }

  /** For a non-negative duration the components are whole hours, minutes
      below 60 and seconds below 60, and together they give the duration
      truncated to the second. */
  lemma SplitOfNonNegative(ms: int)
    requires ms >= 0
    ensures Split(ms).hours >= 0
    ensures 0 <= Split(ms).minutes < 60 && 0 <= Split(ms).seconds < 60
    ensures var d := Split(ms);
      MsPerHour * d.hours + MsPerMinute * d.minutes + MsPerSecond * d.seconds <= ms
      < MsPerHour * d.hours + MsPerMinute * d.minutes + MsPerSecond * d.seconds + MsPerSecond
    ensures var d := Split(ms); 3600 * d.hours + 60 * d.minutes + d.seconds == ms / MsPerSecond
  {
    var h, rh := ms / MsPerHour, ms % MsPerHour;
    var m, rm := rh / MsPerMinute, rh % MsPerMinute;
    var s, rs := rm / MsPerSecond, rm % MsPerSecond;
    assert ms == MsPerMinute * (60 * h + m) + rm;
    DivModUnique(ms, MsPerMinute, 60 * h + m, rm);
    assert ms == MsPerSecond * (3600 * h + 60 * m + s) + rs;
    DivModUnique(ms, MsPerSecond, 3600 * h + 60 * m + s, rs);
  }

  /** The quotient and remainder of a division are the only such pair. */
  lemma DivModUnique(a: int, b: int, q: int, r: int)
    requires b > 0 && a == b * q + r && 0 <= r < b
    ensures a / b == q && a % b == r
  {
    var q0, r0 := a / b, a % b;
    assert b * (q - q0) == r0 - r by {
      assert b * q + r == b * q0 + r0;
      assert b * (q - q0) == b * q - b * q0;
    }
    if q > q0 {
      MulAtLeast(b, q - q0);
    } else if q < q0 {
      MulAtLeast(b, q0 - q);
    }
  }

  /** A positive number times a positive whole number is at least itself. */
  lemma MulAtLeast(b: int, k: int)
    requires b > 0 && k >= 1
    ensures b * k >= b
  {
    assert b * k == b * (k - 1) + b;
    assert b * (k - 1) >= 0;
  }

  /** A negative duration renders every component negative, e.g. one
      second short gives "-1h -1m -1s". */
  lemma FormatOfMinusOneSecond()
    ensures Split(-1000) == Hms(-1, -1, -1)
  {
  }
}
