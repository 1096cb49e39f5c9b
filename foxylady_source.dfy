/** `TestDataSource` (thales/bots/foxylady.py): the FX bot's test feed. It
    keeps one year of GBPJPY minute bars loaded and a per-date cache of the
    6-7am session mean, and answers a datetime with that minute's prices and
    the mean of its date. */
module FoxyLadySource {
  import opened Common
  import opened DateTimes
  import opened Baseline

  /** The record returned for one minute: only the timestamp and prices of
      the data format, plus `67_avg`. */
  datatype MinuteRecord = MinuteRecord(timestamp: string, open: real, high: real, low: real, close: real, avg67: real)

  /** A row of the loaded year: the bar and its `date_str`, the minute
      string of its datetime. */
  datatype Row = Row(bar: Bar, dateStr: string)

  /** What the source holds: the loaded year, its rows and the cached
      means. */
  datatype SourceState = SourceState(year: int, yearDf: seq<Row>, avg67: map<Date, real>)

  /** The toy files `GBPJPY_<year>_1m.csv`, by year. */
  type ToyFiles = map<int, seq<Bar>>

  /** `dict(zip(df["date_str"], df["67_avg"]))`: the session mean of every
      date that has session bars. */
  function Means(bars: seq<Bar>): map<Date, real> {
    var sessions := Sessions(bars);
    map d | d in sessions :: sessions[d].mean
  }

  /** A date has a mean exactly when it has session bars, and the mean is
      halfway between the session's highest high and lowest low. */
  lemma MeansSpec(bars: seq<Bar>, d: Date)
    ensures d in Means(bars) <==> exists b :: b in bars && SessionBar(b, d)
    ensures d in Means(bars) ==> (Means(bars)[d] == DaySession(bars, d).value.mean &&
      Means(bars)[d] == (DaySession(bars, d).value.high + DaySession(bars, d).value.low) / 2.0)
  {
  }

  /** `year_df["date_str"] = year_df["datetime"].dt.strftime(minute_format)` */
  function Stamp(bars: seq<Bar>): (r: seq<Row>)
    ensures |r| == |bars|
    ensures forall i :: 0 <= i < |bars| ==> r[i].bar == bars[i]
  {
    seq(|bars|, i requires 0 <= i < |bars| => Row(bars[i], FormatMinute(bars[i].time)))
  }

  /** Every row is stamped with its own minute. */
  lemma StampSpec(bars: seq<Bar>, x: Row)
    requires x in Stamp(bars)
    ensures x.bar in bars && x.dateStr == FormatMinute(x.bar.time)
  {
  }

  function BarsOf(rows: seq<Row>): (r: seq<Bar>)
    ensures |r| == |rows|
  {
    seq(|rows|, i requires 0 <= i < |rows| => rows[i].bar)
  }

  lemma BarsOfStamp(bars: seq<Bar>)
    ensures BarsOf(Stamp(bars)) == bars
  {
  }

  /** `load_year_data(year)`: a missing file fails before anything
      changes. */
  function LoadYearState(toy: ToyFiles, y: int, st: SourceState): Result<SourceState> {
    if y in toy then Ok(st.(year := y, yearDf := Stamp(toy[y]))) else Err(FileNotFoundError)
  }

  /** The year check both public calls begin with. */
  function EnsureYear(toy: ToyFiles, y: int, st: SourceState): Result<SourceState> {
    if y == st.year then Ok(st) else LoadYearState(toy, y, st)
  }

  /** `calculate_67_av(year)`: the whole cache is replaced by the means of
      the loaded year. */
  function CalculateState(toy: ToyFiles, y: int, st: SourceState): Result<SourceState> {
    var s :- EnsureYear(toy, y, st);
    Ok(s.(avg67 := Means(BarsOf(s.yearDf))))
  }

  /** `self.year_df["date_str"] == minute_str` */
  function Matching(rows: seq<Row>, minute: string): (r: seq<Row>)
    ensures forall x :: x in r <==> x in rows && x.dateStr == minute
  {
    if rows == [] then []
    else (if rows[0].dateStr == minute then [rows[0]] else []) + Matching(rows[1..], minute)
  }

  /** `d["timestamp"] = d["date_str"]`, keeping only the data-format keys. */
  function RecordOf(x: Row, avg: real): MinuteRecord {
    MinuteRecord(x.dateStr, x.bar.open, x.bar.high, x.bar.low, x.bar.close, avg)
  }

  /** What `get_minute_data` reads off the datetime it is given: its
      year, its date and its minute string. */
  datatype Query = Query(year: int, date: Date, minute: string)

  function QueryOf(dt: DateTime): (q: Query)
    ensures q.year == YearOfDate(q.date)
  {
    Query(YearOf(dt), DateOf(dt), FormatMinute(dt))
  }

  /** `get_minute_data(dt)`: its result and the state it leaves. */
  function MinuteAt(toy: ToyFiles, q: Query, st: SourceState): (Result<Option<MinuteRecord>>, SourceState) {
    match EnsureYear(toy, q.year, st)
    case Err(e) => (Err(e), st)
    case Ok(s) =>
      var rows := Matching(s.yearDf, q.minute);
      if |rows| == 1 then
        if q.date in s.avg67 then (Ok(Some(RecordOf(rows[0], s.avg67[q.date]))), s)
        else match CalculateState(toy, q.year, s)
          case Err(e) => (Err(e), s)
          case Ok(s2) =>
            if q.date in s2.avg67 then (Ok(Some(RecordOf(rows[0], s2.avg67[q.date]))), s2) else (Err(KeyError), s2)
      else if |rows| == 0 then (Ok(None), s)
      else (Err(IndexError), s)
  }

  class TestDataSource {
    const toy: ToyFiles
    var year: int
    var yearDf: seq<Row>
    var avg67: map<Date, real>

    function State(): SourceState
      reads this
    {
      SourceState(year, yearDf, avg67)
    }

    /** Every cached mean was computed from one of the toy files, and the
        loaded bars are the loaded year's file. */
    ghost predicate Valid()
      reads this
    {
      Consistent(toy, State())
    }

    /** `TestDataSource()`: year 0, no bars and no means. */
    constructor(toy: ToyFiles)
      ensures this.toy == toy && State() == SourceState(0, [], map[])
      ensures Valid()
    {
      this.toy := toy;
      year := 0;
      yearDf := [];
      avg67 := map[];
    }

    method LoadYearData(y: int) returns (o: Outcome)
      modifies this
      ensures LoadYearState(toy, y, old(State())).Ok? ==> o == Pass && State() == LoadYearState(toy, y, old(State())).value
      ensures LoadYearState(toy, y, old(State())).Err? ==> o == Fail(FileNotFoundError) && State() == old(State())
    {
      if y !in toy {
        return Fail(FileNotFoundError);
      }
      yearDf := Stamp(toy[y]);
      year := y;
      o := Pass;
    }

    method Calculate67Av(y: int) returns (o: Outcome)
      modifies this
      ensures CalculateState(toy, y, old(State())).Ok? ==> o == Pass && State() == CalculateState(toy, y, old(State())).value
      ensures CalculateState(toy, y, old(State())).Err? ==> o.Fail? && State() == old(State())
    {
      if y != year {
        o := LoadYearData(y);
        if o.Fail? {
          return;
        }
      }
      avg67 := Means(BarsOf(yearDf));
      o := Pass;
    }

    method GetMinuteData(dt: DateTime) returns (r: Result<Option<MinuteRecord>>)
      modifies this
      ensures (r, State()) == MinuteAt(toy, QueryOf(dt), old(State()))
    {
      var q := QueryOf(dt);
      var y := q.year;
      if y != year {
        var o := LoadYearData(y);
        if o.Fail? {
          return Err(o.error);
        }
      }
      var rows := Matching(yearDf, q.minute);
      if |rows| == 1 {
        var d := q.date;
        if d !in avg67 {
          var o := Calculate67Av(y);
          if o.Fail? {
            return Err(o.error);
          }
          if d !in avg67 {
            return Err(KeyError);
          }
        }
        return Ok(Some(RecordOf(rows[0], avg67[d])));
      } else if |rows| == 0 {
        return Ok(None);
      }
      r := Err(IndexError);
    }

    /** `source(dt)` */
    method Call(dt: DateTime) returns (r: Result<Option<MinuteRecord>>)
      modifies this
      ensures (r, State()) == MinuteAt(toy, QueryOf(dt), old(State()))
    {
      r := GetMinuteData(dt);
    }
  }

  /** The cache holds the means of some toy file (or nothing). */
  ghost predicate CacheFromFile(toy: ToyFiles, avg67: map<Date, real>) {
    avg67 == map[] || exists y :: y in toy && avg67 == Means(toy[y])
  }

  /** The loaded rows are the stamped file of the loaded year (or nothing,
      at year 0). */
  ghost predicate LoadedFile(toy: ToyFiles, year: int, yearDf: seq<Row>) {
    (year == 0 && yearDf == []) || (year in toy && yearDf == Stamp(toy[year]))
  }

  ghost predicate Consistent(toy: ToyFiles, st: SourceState) {
    CacheFromFile(toy, st.avg67) && LoadedFile(toy, st.year, st.yearDf)
  }

  // ---------------------------------------------------------------------------
  // Properties

  /** `get_minute_data` fails with FileNotFoundError, changing nothing,
      exactly when a new year is asked for whose file is missing; otherwise
      the requested year is loaded afterwards. */
  lemma MinuteLoadsYear(toy: ToyFiles, q: Query, st: SourceState)
    ensures var (r, s) := MinuteAt(toy, q, st);
      (r == Err(FileNotFoundError) && s == st <==> q.year != st.year && q.year !in toy) &&
      (q.year == st.year || q.year in toy ==> s.year == q.year && s.yearDf == EnsureYear(toy, q.year, st).value.yearDf)
  {
  }

  /** Once the year is loaded, no row for the minute gives None and more
      than one gives IndexError. */
  lemma MinuteRowCount(toy: ToyFiles, q: Query, st: SourceState)
    ensures var (r, s) := MinuteAt(toy, q, st);
      (r == Ok(None) <==> (q.year == st.year || q.year in toy) && Matching(s.yearDf, q.minute) == []) &&
      (r == Err(IndexError) <==> (q.year == st.year || q.year in toy) && |Matching(s.yearDf, q.minute)| > 1)
  {
  }

  /** A record is the single bar of the requested minute, stamped with that
      minute, carrying the mean its date has in the cache afterwards. */
  lemma MinuteRecordSpec(toy: ToyFiles, q: Query, st: SourceState)
    requires MinuteAt(toy, q, st).0.Ok? && MinuteAt(toy, q, st).0.value.Some?
    ensures var (r, s) := MinuteAt(toy, q, st);
      var rec := r.value.value;
      |Matching(s.yearDf, q.minute)| == 1 &&
      rec.timestamp == q.minute &&
      RecordOf(Matching(s.yearDf, q.minute)[0], rec.avg67) == rec &&
      q.date in s.avg67 && rec.avg67 == s.avg67[q.date]
  {
    var s := EnsureYear(toy, q.year, st).value;
    var rows := Matching(s.yearDf, q.minute);
    assert rows[0] in rows;
  }

  /** The year's file is read only when the year changes, and a cached date
      changes nothing at all. */
  lemma MinuteCaching(toy: ToyFiles, q: Query, st: SourceState)
    requires q.year == st.year
    ensures MinuteAt(toy, q, st).1.yearDf == st.yearDf
    ensures q.date in st.avg67 ==> MinuteAt(toy, q, st).1 == st
  {
  }

  /** A single matching row on a date missing from the cache makes the
      cache be recomputed from the loaded year, and the call is then a
      KeyError exactly when that year has no session bar on the date. */
  lemma MinuteRecomputes(toy: ToyFiles, q: Query, st: SourceState)
    requires q.year == st.year && q.date !in st.avg67
    requires |Matching(st.yearDf, q.minute)| == 1
    ensures MinuteAt(toy, q, st).1 == st.(avg67 := Means(BarsOf(st.yearDf)))
    ensures MinuteAt(toy, q, st).0 == Err(KeyError) <==>
      forall b :: b in BarsOf(st.yearDf) ==> !SessionBar(b, q.date)
  {
    MeansSpec(BarsOf(st.yearDf), q.date);
  }

  /** A call leaves the state unchanged, or the requested year loaded,
      with or without the cache recomputed from it. */
  lemma MinuteStates(toy: ToyFiles, q: Query, st: SourceState)
    ensures var s := MinuteAt(toy, q, st).1;
      s == st ||
      (EnsureYear(toy, q.year, st).Ok? &&
       (s == EnsureYear(toy, q.year, st).value ||
        s == EnsureYear(toy, q.year, st).value.(avg67 := Means(BarsOf(EnsureYear(toy, q.year, st).value.yearDf)))))
  {
  }

  lemma EnsureYearConsistent(toy: ToyFiles, y: int, st: SourceState)
    requires Consistent(toy, st) && EnsureYear(toy, y, st).Ok?
    ensures Consistent(toy, EnsureYear(toy, y, st).value)
  {
  }

  /** The means of the loaded rows are the means of a toy file, or none. */
  lemma MeansOfFile(toy: ToyFiles, year: int, yearDf: seq<Row>)
    requires LoadedFile(toy, year, yearDf)
    ensures CacheFromFile(toy, Means(BarsOf(yearDf)))
  {
    if yearDf == [] {
      assert BarsOf(yearDf) == [];
      assert Sessions([]) == map[];
    } else {
      BarsOfStamp(toy[year]);
    }
  }

  /** Every call keeps the source consistent. */
  lemma MinuteConsistent(toy: ToyFiles, q: Query, st: SourceState)
    requires Consistent(toy, st)
    ensures Consistent(toy, MinuteAt(toy, q, st).1)
  {
    MinuteStates(toy, q, st);
    if EnsureYear(toy, q.year, st).Ok? {
      var s := EnsureYear(toy, q.year, st).value;
      EnsureYearConsistent(toy, q.year, st);
      MeansOfFile(toy, s.year, s.yearDf);
    }
  }

  /** Each toy file holds only bars of its own year. */
  ghost predicate FilesByYear(toy: ToyFiles) {
    forall y, b :: y in toy && b in toy[y] ==> YearOfDate(DateOf(b.time)) == y
  }

  /** With every file holding only its own year, a consistent source gives
      each record the session mean of its own date, computed from its own
      year's bars, whether it came from the cache or was recomputed. */
  lemma RecordMean(toy: ToyFiles, q: Query, st: SourceState)
    requires FilesByYear(toy) && Consistent(toy, st) && q.year == YearOfDate(q.date)
    requires MinuteAt(toy, q, st).0.Ok? && MinuteAt(toy, q, st).0.value.Some?
    ensures q.year in toy
    ensures DaySession(toy[q.year], q.date).Some?
    ensures MinuteAt(toy, q, st).0.value.value.avg67 == DaySession(toy[q.year], q.date).value.mean
  {
    var s := MinuteAt(toy, q, st).1;
    MinuteRecordSpec(toy, q, st);
    MinuteConsistent(toy, q, st);
    MinuteLoadsYear(toy, q, st);
    var rows := Matching(s.yearDf, q.minute);
    assert rows[0] in s.yearDf;
    var y :| y in toy && s.avg67 == Means(toy[y]);
    MeansSpec(toy[y], q.date);
    var b :| b in toy[y] && SessionBar(b, q.date);
    assert YearOfDate(DateOf(b.time)) == y;
  }
}
