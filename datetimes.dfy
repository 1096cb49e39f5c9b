/** Naive datetimes as integer microseconds since 1970-01-01 00:00 in the
    proleptic Gregorian calendar, dates as day numbers since the same epoch,
    and the conversions and string formats the repository uses. The civil
    calendar conversion is Howard Hinnant's days-from-civil algorithm. */
module DateTimes {
  import opened Common

  type DateTime = int
  type Date = int

  const SECOND: int := 1_000_000
  const MINUTE: int := 60 * SECOND
  const HOUR: int := 60 * MINUTE
  const DAY: int := 24 * HOUR

  /** `dt.date()` */
  function DateOf(t: DateTime): Date {
    t / DAY
  }

  /** `datetime.combine(d, time())`: the midnight that starts a date. */
  function Midnight(d: Date): DateTime {
    d * DAY
  }

  /** `dt.hour` */
  function HourOf(t: DateTime): (h: int)
    ensures 0 <= h < 24
  {
    (t % DAY) / HOUR
  }

  /** `dt.replace(hour=0, minute=0, second=0, microsecond=0)` */
  function TruncDay(t: DateTime): (r: DateTime)
    ensures r <= t < r + DAY
    ensures r % DAY == 0
  {
    t - t % DAY
  }

  /** `dt.replace(minute=0, second=0, microsecond=0)` */
  function TruncHour(t: DateTime): (r: DateTime)
    ensures r <= t < r + HOUR
    ensures r % HOUR == 0
  {
    t - t % HOUR
  }

  /** `dt.replace(second=0, microsecond=0)` */
  function TruncMinute(t: DateTime): (r: DateTime)
    ensures r <= t < r + MINUTE
    ensures r % MINUTE == 0
  {
    t - t % MINUTE
  }

  datatype Civil = Civil(year: int, month: int, day: int)

  /** Year, month and day of a day number. */
  function CivilFromDays(n: Date): (c: Civil)
    ensures 1 <= c.month <= 12 && 1 <= c.day <= 31
  {
    var z := n + 719468;
    var era := z / 146097;
    var doe := z % 146097;
    var yoe := (doe - doe / 1460 + doe / 36524 - doe / 146096) / 365;
    var doy := doe - (365 * yoe + yoe / 4 - yoe / 100);
    var mp := (5 * doy + 2) / 153;
    var d := doy - (153 * mp + 2) / 5 + 1;
    var m := if mp < 10 then mp + 3 else mp - 9;
    var y := yoe + era * 400;
    Civil(if m <= 2 then y + 1 else y, m, if 1 <= d <= 31 then d else 1)
  }

  /** Day number of a year, month and day. */
  function DaysFromCivil(c: Civil): Date
  {
    var y := if c.month <= 2 then c.year - 1 else c.year;
    var era := y / 400;
    var yoe := y % 400;
    var mp := if c.month > 2 then c.month - 3 else c.month + 9;
    var doy := (153 * mp + 2) / 5 + c.day - 1;
    var doe := yoe * 365 + yoe / 4 - yoe / 100 + doy;
    era * 146097 + doe - 719468
  }

  /** `d.year` of a date and `dt.year` of a datetime. */
  function YearOfDate(d: Date): int {
    CivilFromDays(d).year
  }

  function YearOf(t: DateTime): int {
    YearOfDate(DateOf(t))
  }

  /** `datetime(year, 1, 1)` */
  function StartOfYear(year: int): DateTime {
    Midnight(DaysFromCivil(Civil(year, 1, 1)))
  }

  /** `"%Y"` text of a year (four digits for positive years). */
  function FormatYear(y: int): string {
    if y >= 0 then PadNat(y, 4) else IntToString(y)
  }

  /** Years 0 to 9999 are written with exactly four digits, which `int`
      reads back as the year. */
  lemma FormatYearParses(y: int)
    requires 0 <= y < 10000
    ensures |FormatYear(y)| == 4
    ensures ParseInt(FormatYear(y)) == Some(y)
  {
    NatToStringLength(y, 4);
    PadNatParses(y, 4);
  }

  /** The repository's day format `"%Y_%m_%d"`. */
  function FormatDate(d: Date): string {
    var c := CivilFromDays(d);
    FormatYear(c.year) + "_" + PadNat(c.month, 2) + "_" + PadNat(c.day, 2)
  }

  /** The first four characters of a formatted date name its year. */
  lemma FormatDateYear(d: Date, rest: string)
    requires 0 <= YearOfDate(d) < 10000
    ensures |FormatDate(d) + rest| >= 4
    ensures ParseInt((FormatDate(d) + rest)[..4]) == Some(YearOfDate(d))
  {
    var y := FormatYear(CivilFromDays(d).year);
    FormatYearParses(CivilFromDays(d).year);
    assert (FormatDate(d) + rest)[..4] == y;
  }

  /** The repository's minute format `"%Y_%m_%d %H;%M"`. */
  function FormatMinute(t: DateTime): string {
    var inDay := t % DAY;
    FormatDate(DateOf(t)) + " " + PadNat(inDay / HOUR, 2) + ";" + PadNat((inDay % HOUR) / MINUTE, 2)
  }

  /** A minute string starts with the string of its date. */
  lemma FormatMinuteStartsWithDate(t: DateTime, rest: string)
    ensures exists tail :: FormatMinute(t) + rest == FormatDate(DateOf(t)) + tail
  {
    var inDay := t % DAY;
    var tail := " " + PadNat(inDay / HOUR, 2) + ";" + PadNat((inDay % HOUR) / MINUTE, 2) + rest;
    assert FormatMinute(t) + rest == FormatDate(DateOf(t)) + tail;
  }

  /** The repository's millisecond format `"%Y_%m_%d %H;%M;%S;%f"`. */
  function FormatMilli(t: DateTime): string {
    var inMinute := t % MINUTE;
    FormatMinute(t) + ";" + PadNat(inMinute / SECOND, 2) + ";" + PadNat(inMinute % SECOND, 6)
  }

  /** A datetime and the midnight starting its date lie on the same date. */
  lemma MidnightOfDate(t: DateTime)
    ensures Midnight(DateOf(t)) == TruncDay(t)
    ensures DateOf(Midnight(DateOf(t))) == DateOf(t)
    ensures HourOf(Midnight(DateOf(t))) == 0
  {
  }
}
