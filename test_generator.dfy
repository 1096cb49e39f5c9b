/** The back-test data source of the FoXyLady and FXyLady bots
    (thales/bots/FoXyLady/test/__init__.py and its earlier revision
    thales/bots/FXyLady/test/__init__.py): a cursor over one year of minute
    bars at a time that yields each bar outside the 6-7am session together
    with the session baseline of the date it trades against, until a number
    of new dates has been reached. */
module TestGenerator {
  import opened Common
  import opened Sorting
  import opened DateTimes
  import opened Baseline

  /** The two revisions differ in `previous_date` (the later one retries on
      earlier days), in the test name carried by each item and in how the
      bot ends. */
  datatype Revision = FoXyLady | FXyLady

  /** What the generator yields: the session baseline, the minute bar and
      the test name. */
  datatype Item = Item(session: Session, minute: Bar, testName: Option<string>)

  /** Where a date sits in the date list: absent, first, or after another. */
  datatype Place = Absent | AtStart | After(previous: Date)

  /** `dates.loc[dates[dates == d].index - 1].iloc[0]`: the entry before the
      first occurrence of `d`. Index -1 does not exist (KeyError); an
      absent date gives an empty selection (IndexError). */
  function PlaceOf(dates: seq<Date>, d: Date): (r: Place)
    ensures r == Absent <==> d !in dates
    ensures r == AtStart <==> |dates| > 0 && dates[0] == d
    ensures r.After? ==> exists k :: 1 <= k < |dates| && dates[k] == d && dates[k - 1] == r.previous
  {
    if dates == [] then Absent
    else if dates[0] == d then AtStart
    else
      var rest := PlaceOf(dates[1..], d);
      assert d in dates[1..] ==> d in dates;
      match rest
      case Absent => Absent
      case AtStart => After(dates[0])
      case After(p) =>
        var k :| 1 <= k < |dates[1..]| && dates[1..][k] == d && dates[1..][k - 1] == p;
        assert dates[k + 1] == d && dates[k] == p;
        After(p)
  }

  /** `previous_date` of the later revision: up to `attempts` lookups, one
      day earlier after each absent date; None when all of them miss. */
  function PreviousRetrying(dates: seq<Date>, d: Date, attempts: nat): Result<Option<Date>>
    decreases attempts
  {
    if attempts == 0 then Ok(None)
    else match PlaceOf(dates, d)
      case Absent => PreviousRetrying(dates, d - 1, attempts - 1)
      case AtStart => Err(KeyError)
      case After(p) => Ok(Some(p))
  }

  /** `previous_date` of the earlier revision: a single lookup. */
  function PreviousOnce(dates: seq<Date>, d: Date): Result<Option<Date>> {
    match PlaceOf(dates, d)
    case Absent => Err(IndexError)
    case AtStart => Err(KeyError)
    case After(p) => Ok(Some(p))
  }

  const ATTEMPTS: nat := 10

  function PreviousDateOf(rev: Revision, dates: seq<Date>, d: Date): Result<Option<Date>> {
    if rev == FoXyLady then PreviousRetrying(dates, d, ATTEMPTS) else PreviousOnce(dates, d)
  }

  /** The retrying lookup gives nothing exactly when none of the tried days
      is listed; what it does give is a listed date, no later than `d` when
      the list is sorted. It fails only when a tried day is the first date. */
  lemma {:induction false} PreviousRetryingSpec(dates: seq<Date>, d: Date, attempts: nat)
    ensures PreviousRetrying(dates, d, attempts) == Ok(None) <==>
              forall e :: d - attempts < e <= d ==> e !in dates
    ensures PreviousRetrying(dates, d, attempts).Err? ==>
              PreviousRetrying(dates, d, attempts).error == KeyError
              && |dates| > 0 && d - attempts < dates[0] <= d
    ensures PreviousRetrying(dates, d, attempts).Ok? && PreviousRetrying(dates, d, attempts).value.Some? ==>
              PreviousRetrying(dates, d, attempts).value.value in dates
              && (SortedBy(dates, IntLe) ==> PreviousRetrying(dates, d, attempts).value.value <= d)
    decreases attempts
  {
    if attempts > 0 {
      match PlaceOf(dates, d)
      case Absent =>
        PreviousRetryingSpec(dates, d - 1, attempts - 1);
      case AtStart =>
      case After(p) =>
        var k :| 1 <= k < |dates| && dates[k] == d && dates[k - 1] == p;
        if SortedBy(dates, IntLe) {
          assert IntLe(dates[k - 1], dates[k]);
        }
    }
  }

  /** The single lookup gives the entry before `d`, which is no later than
      `d` in a sorted list, or fails. */
  lemma PreviousOnceSpec(dates: seq<Date>, d: Date)
    ensures PreviousOnce(dates, d).Err? <==> d !in dates || dates[0] == d
    ensures PreviousOnce(dates, d).Err? ==>
              PreviousOnce(dates, d).error == (if d !in dates then IndexError else KeyError)
    ensures PreviousOnce(dates, d).Ok? ==>
              PreviousOnce(dates, d).value.Some? && PreviousOnce(dates, d).value.value in dates
              && (SortedBy(dates, IntLe) ==> PreviousOnce(dates, d).value.value <= d)
  {
    match PlaceOf(dates, d)
    case Absent =>
    case AtStart =>
    case After(p) =>
      var k :| 1 <= k < |dates| && dates[k] == d && dates[k - 1] == p;
      if SortedBy(dates, IntLe) {
        assert IntLe(dates[k - 1], dates[k]);
      }
  }

  class TestDataGenerator {
    const revision: Revision
    /** The yearly minute files `GBPJPY_<year>_1m.csv`. */
    const yearFiles: map<int, seq<Bar>>
    /** The files `67_data/<date>.json`. */
    const files67: map<Date, Session>
    /** `dates.csv`, sorted. */
    const dates: seq<Date>
    const testName: Option<string>
    var year: int
    var yearRows: seq<Bar>
    /** `_67_data`: the baselines already read. */
    var cache: map<Date, Session>

    ghost predicate Valid()
      reads this
    {
      (forall d :: d in cache ==> d in files67 && cache[d] == files67[d])
      && ((year in yearFiles && yearRows == yearFiles[year]) || yearRows == [])
      && SortedBy(dates, IntLe)
    }

    /** A new source: no year loaded, nothing cached, the dates sorted. The
        earlier revision carries no test name. */
    constructor (revision: Revision, yearFiles: map<int, seq<Bar>>, files67: map<Date, Session>,
                 datesCsv: seq<Date>, testName: string)
      ensures Valid()
      ensures this.revision == revision && this.yearFiles == yearFiles && this.files67 == files67
      ensures multiset(dates) == multiset(datesCsv)
      ensures this.testName == (if revision == FoXyLady then Some(testName) else None)
      ensures year == 0 && yearRows == [] && cache == map[]
    {
      this.revision := revision;
      this.yearFiles := yearFiles;
      this.files67 := files67;
      IntLeTotalOrder();
      SortSorted(datesCsv, IntLe);
      this.dates := Sort(datesCsv, IntLe);
      this.testName := if revision == FoXyLady then Some(testName) else None;
      year := 0;
      yearRows := [];
      cache := map[];
    }

    /** `_load_year(year)`: only a different year is read; a missing file
        raises FileNotFoundError. */
    method LoadYear(y: int) returns (o: Outcome)
      requires Valid()
      modifies this
      ensures Valid()
      ensures cache == old(cache)
      ensures y == old(year) ==> o.Pass? && year == old(year) && yearRows == old(yearRows)
      ensures y != old(year) && y !in yearFiles ==>
                o == Fail(FileNotFoundError) && year == old(year) && yearRows == old(yearRows)
      ensures y != old(year) && y in yearFiles ==> o.Pass? && year == y && yearRows == yearFiles[y]
    {
      if year != y {
        if y !in yearFiles {
          return Fail(FileNotFoundError);
        }
        yearRows := yearFiles[y];
        year := y;
      }
      o := Pass;
    }

    /** `previous_date(d)` */
    method PreviousDate(d: Date) returns (r: Result<Option<Date>>)
      ensures r == PreviousDateOf(revision, dates, d)
    {
      if revision == FXyLady {
        var place := PlaceOf(dates, d);
        r := match place
          case Absent => Err(IndexError)
          case AtStart => Err(KeyError)
          case After(p) => Ok(Some(p));
        return;
      }
      var day := d;
      var i := 0;
      while i < ATTEMPTS
        invariant 0 <= i <= ATTEMPTS
        invariant day == d - i
        invariant PreviousRetrying(dates, d, ATTEMPTS) == PreviousRetrying(dates, day, ATTEMPTS - i)
      {
        var place := PlaceOf(dates, day);
        if place.AtStart? {
          return Err(KeyError);
        }
        if place.After? {
          return Ok(Some(place.previous));
        }
        day := day - 1;
        i := i + 1;
      }
      r := Ok(None);
    }

    /** `get_67(d)`: the cached baseline, else the file's (which is then
        cached), else nothing; a missing date (None) has no `strftime`. */
    method Get67(d: Option<Date>) returns (r: Result<Option<Session>>)
      requires Valid()
      modifies this
      ensures Valid()
      ensures year == old(year) && yearRows == old(yearRows)
      ensures d.None? ==> r == Err(AttributeError) && cache == old(cache)
      ensures d.Some? ==> r == Ok(if d.value in files67 then Some(files67[d.value]) else None)
      ensures d.Some? ==>
                cache == (if d.value in files67 then old(cache)[d.value := files67[d.value]] else old(cache))
    {
      if d.None? {
        return Err(AttributeError);
      }
      if d.value in cache {
        var k := d.value;
        assert Valid();
        assert forall e :: e in cache ==> e in files67;
        assert k in files67 && cache[k] == files67[k];
        assert cache == cache[d.value := files67[d.value]];
        return Ok(Some(cache[d.value]));
      }
      if d.value in files67 {
        cache := cache[d.value := files67[d.value]];
        return Ok(Some(files67[d.value]));
      }
      r := Ok(None);
    }

    /** The date whose baseline a bar trades against: its own, or for a bar
        before 6am the previous listed date. */
    function BaselineDate(t: DateTime): Result<Option<Date>> {
      if HourOf(t) < 6 then PreviousDateOf(revision, dates, DateOf(t)) else Ok(Some(DateOf(t)))
    }

    /** A visited bar completes its step when its baseline date is found. */
    predicate Completes(b: Bar) {
      BaselineDate(b.time).Ok? && BaselineDate(b.time).value.Some?
    }

    /** The item a completed bar yields: none inside the session or when
        the baseline file is missing. */
    function ItemOf(b: Bar): (r: seq<Item>)
      requires Completes(b)
      ensures |r| <= 1
      ensures forall it :: it in r ==>
                it.minute == b && !InSession(b.time) && it.testName == testName
                && BaselineDate(b.time).value.value in files67
                && it.session == files67[BaselineDate(b.time).value.value]
    {
      var d := BaselineDate(b.time).value.value;
      if InSession(b.time) || d !in files67 then [] else [Item(files67[d], b, testName)]
    }

    /** The items yielded for a run of completed bars. */
    function Yielded(rows: seq<Bar>): (r: seq<Item>)
      requires forall b :: b in rows ==> Completes(b)
      ensures |r| <= |rows|
      ensures forall it :: it in r ==>
                it.minute in rows && !InSession(it.minute.time) && it.testName == testName
                && Completes(it.minute) && BaselineDate(it.minute.time).value.value in files67
                && it.session == files67[BaselineDate(it.minute.time).value.value]
    {
      if rows == [] then []
      else
        var init := rows[..|rows| - 1];
        assert forall b :: b in init ==> b in rows;
        Yielded(init) + ItemOf(rows[|rows| - 1])
    }

    /** The baseline the bar at `t` trades against: that of its own date,
        or for a bar before 6am that of the previous listed date. It fails
        exactly when no baseline date can be found. */
    method Baseline67For(t: DateTime) returns (r: Result<Option<Session>>)
      requires Valid()
      modifies this
      ensures Valid()
      ensures year == old(year) && yearRows == old(yearRows)
      ensures r.Ok? <==> BaselineDate(t).Ok? && BaselineDate(t).value.Some?
      ensures r.Ok? ==>
                var d := BaselineDate(t).value.value;
                r.value == if d in files67 then Some(files67[d]) else None
      ensures BaselineDate(t).Err? ==> r == Err(BaselineDate(t).error)
      ensures BaselineDate(t) == Ok(None) ==> r == Err(AttributeError)
    {
      var need: Option<Date> := Some(DateOf(t));
      if HourOf(t) < 6 {
        var p := PreviousDate(DateOf(t));
        if p.Err? {
          return Err(p.error);
        }
        need := p.value;
      }
      r := Get67(need);
    }

    /** The bar is a row of one of the year files. */
    ghost predicate InSomeYear(b: Bar) {
      exists y :: y in yearFiles && b in yearFiles[y]
    }

    /** The items after one more completed bar. */
    lemma YieldedStep(visited: seq<Bar>, row: Bar)
      requires forall b :: b in visited ==> Completes(b)
      requires Completes(row)
      ensures forall b :: b in visited + [row] ==> Completes(b)
      ensures Yielded(visited + [row]) == Yielded(visited) + ItemOf(row)
    {
      assert (visited + [row])[..|visited|] == visited;
    }

    /** The day count and current date after one more bar. */
    lemma VisitCounts(visited: seq<Bar>, row: Bar, start: Date)
      ensures CurrentDate(visited + [row], start) ==
                if DateOf(row.time) > CurrentDate(visited, start) then DateOf(row.time) else CurrentDate(visited, start)
      ensures DayCount(visited + [row], start) ==
                DayCount(visited, start) + (if DateOf(row.time) > CurrentDate(visited, start) then 1 else 0)
    {
      assert (visited + [row])[..|visited|] == visited;
    }

    /** The rest of the `while day_count < n_days` loop of
        `generator(start, n_days)`, from position `ix` of `rows` (the file of
        year `y`) with `dayCount` and `current` as the loop has them and the
        bars `visited` already read: the bars whose step completes and how
        the loop ends. A bar is read by its position in the file; after the
        last one the next year's file is loaded and read from its first
        position. */
    ghost function Walk(y: int, rows: seq<Bar>, ix: nat, dayCount: int, current: Date, visited: seq<Bar>,
                        nDays: int): (r: (seq<Bar>, Outcome))
      requires ix <= |rows|
      requires forall b :: b in visited ==> Completes(b)
      ensures forall b :: b in r.0 ==> Completes(b)
      decreases set z | z in yearFiles && z > y, |rows| - ix
    {
      if dayCount >= nDays then (visited, Pass)
      else if ix == |rows| then (visited, Fail(KeyError))
      else
        var row := rows[ix];
        var rowDate := DateOf(row.time);
        var count := if rowDate > current then dayCount + 1 else dayCount;
        var date := if rowDate > current then rowDate else current;
        var need := BaselineDate(row.time);
        if need.Err? then (visited, Fail(need.error))
        else if need.value.None? then (visited, Fail(AttributeError))
        else if ix + 1 < |rows| then Walk(y, rows, ix + 1, count, date, visited + [row], nDays)
        else if y + 1 !in yearFiles then (visited, Fail(FileNotFoundError))
        else
          LaterYearsShrink(yearFiles, y + 1);
          Walk(y + 1, yearFiles[y + 1], 0, count, date, visited + [row], nDays)
    }

    /** `generator(start, n_days)` from a source whose last loaded year is
        `year0` with rows `rows0`: the year of `start` is loaded, reading
        starts at the label of the earliest bar at or after `start`, and the
        walk goes on from there with no day counted yet. */
    ghost function Run(start: DateTime, nDays: int, year0: int, rows0: seq<Bar>): (r: (seq<Bar>, Outcome))
      ensures forall b :: b in r.0 ==> Completes(b)
    {
      var y := YearOf(start);
      if y != year0 && y !in yearFiles then ([], Fail(FileNotFoundError))
      else
        var rows := if y == year0 then rows0 else yearFiles[y];
        var first := FirstAtOrAfter(rows, start);
        if first.None? then ([], Fail(IndexError))
        else Walk(y, rows, first.value, 0, DateOf(start), [], nDays)
    }

    /** One step of the walk on a bar whose baseline date is found: the
        walk goes on from the next position, or from the first position of
        the next year's file, or fails when there is no such file. */
    lemma WalkNext(y: int, rows: seq<Bar>, ix: nat, dayCount: int, current: Date, visited: seq<Bar>, nDays: int)
      requires ix < |rows| && dayCount < nDays
      requires forall b :: b in visited ==> Completes(b)
      requires Completes(rows[ix])
      ensures var row := rows[ix];
        var count := if DateOf(row.time) > current then dayCount + 1 else dayCount;
        var date := if DateOf(row.time) > current then DateOf(row.time) else current;
        var w := Walk(y, rows, ix, dayCount, current, visited, nDays);
        (forall b :: b in visited + [row] ==> Completes(b))
        && (ix + 1 < |rows| ==> w == Walk(y, rows, ix + 1, count, date, visited + [row], nDays))
        && (ix + 1 == |rows| && y + 1 !in yearFiles ==> w == (visited, Fail(FileNotFoundError)))
        && (ix + 1 == |rows| && y + 1 in yearFiles ==>
              w == Walk(y + 1, yearFiles[y + 1], 0, count, date, visited + [row], nDays))
    {
    }

    /** The walk ends on a missing position, or on a bar whose baseline date
        is not found. */
    lemma WalkFails(y: int, rows: seq<Bar>, ix: nat, dayCount: int, current: Date, visited: seq<Bar>, nDays: int)
      requires ix <= |rows| && dayCount < nDays
      requires forall b :: b in visited ==> Completes(b)
      ensures ix == |rows| ==> Walk(y, rows, ix, dayCount, current, visited, nDays) == (visited, Fail(KeyError))
      ensures ix < |rows| && BaselineDate(rows[ix].time).Err? ==>
                Walk(y, rows, ix, dayCount, current, visited, nDays) == (visited, Fail(BaselineDate(rows[ix].time).error))
      ensures ix < |rows| && BaselineDate(rows[ix].time) == Ok(None) ==>
                Walk(y, rows, ix, dayCount, current, visited, nDays) == (visited, Fail(AttributeError))
    {
    }

    /** The walk keeps the bars already visited as a prefix and only adds
        bars of the files it reads. */
    lemma {:induction false} WalkGrows(y: int, rows: seq<Bar>, ix: nat, dayCount: int, current: Date,
                                       visited: seq<Bar>, nDays: int)
      requires ix <= |rows|
      requires forall b :: b in visited ==> Completes(b)
      ensures var r := Walk(y, rows, ix, dayCount, current, visited, nDays);
        |visited| <= |r.0| && r.0[..|visited|] == visited
        && (forall k :: |visited| <= k < |r.0| ==> r.0[k] in rows || exists z :: z in yearFiles && r.0[k] in yearFiles[z])
      decreases set z | z in yearFiles && z > y, |rows| - ix
    {
      if dayCount < nDays && ix < |rows| {
        var row := rows[ix];
        var need := BaselineDate(row.time);
        if need.Ok? && need.value.Some? {
          var v := visited + [row];
          var count := if DateOf(row.time) > current then dayCount + 1 else dayCount;
          var date := if DateOf(row.time) > current then DateOf(row.time) else current;
          WalkNext(y, rows, ix, dayCount, current, visited, nDays);
          if ix + 1 < |rows| {
            WalkGrows(y, rows, ix + 1, count, date, v, nDays);
            ExtendVisited(visited, row, Walk(y, rows, ix + 1, count, date, v, nDays).0, rows, rows, yearFiles);
          } else if y + 1 in yearFiles {
            LaterYearsShrink(yearFiles, y + 1);
            WalkGrows(y + 1, yearFiles[y + 1], 0, count, date, v, nDays);
            ExtendVisited(visited, row, Walk(y + 1, yearFiles[y + 1], 0, count, date, v, nDays).0,
                          rows, yearFiles[y + 1], yearFiles);
          }
        }
      }
    }

    /** Walking on from the bars `visited` of a run from `start`: the walk
        passes only after counting exactly `n_days` new dates, and fails only
        with FileNotFoundError, IndexError, KeyError or AttributeError. */
    lemma {:induction false} WalkEnds(y: int, rows: seq<Bar>, ix: nat, visited: seq<Bar>, start: Date, nDays: int)
      requires ix <= |rows|
      requires forall b :: b in visited ==> Completes(b)
      requires DayCount(visited, start) <= (if nDays > 0 then nDays else 0)
      ensures var r := Walk(y, rows, ix, DayCount(visited, start), CurrentDate(visited, start), visited, nDays);
        (r.1.Pass? ==> DayCount(r.0, start) == (if nDays > 0 then nDays else 0))
        && (r.1.Fail? ==> r.1.error in {FileNotFoundError, IndexError, KeyError, AttributeError})
      decreases set z | z in yearFiles && z > y, |rows| - ix
    {
      var count := DayCount(visited, start);
      if count < nDays && ix < |rows| {
        var row := rows[ix];
        var need := BaselineDate(row.time);
        if need.Ok? && need.value.Some? {
          var v := visited + [row];
          VisitCounts(visited, row, start);
          WalkNext(y, rows, ix, count, CurrentDate(visited, start), visited, nDays);
          if ix + 1 < |rows| {
            WalkEnds(y, rows, ix + 1, v, start, nDays);
          } else if y + 1 in yearFiles {
            LaterYearsShrink(yearFiles, y + 1);
            WalkEnds(y + 1, yearFiles[y + 1], 0, v, start, nDays);
          }
        }
        if need.Err? {
          PreviousErrors(DateOf(row.time));
        }
      }
    }

    /** The errors `previous_date` can raise. */
    lemma PreviousErrors(d: Date)
      ensures PreviousDateOf(revision, dates, d).Err? ==> PreviousDateOf(revision, dates, d).error in {KeyError, IndexError}
    {
      if revision == FoXyLady {
        PreviousRetryingSpec(dates, d, ATTEMPTS);
      } else {
        PreviousOnceSpec(dates, d);
      }
    }

    /** A run of `generator` yields items only for bars of the year files,
        succeeds exactly when `n_days` new dates were counted, and fails
        only with the errors the loop can raise. */
    lemma RunSpec(start: DateTime, nDays: int, year0: int, rows0: seq<Bar>)
      requires (year0 in yearFiles && rows0 == yearFiles[year0]) || rows0 == []
      ensures var r := Run(start, nDays, year0, rows0);
        (forall b :: b in r.0 ==> InSomeYear(b))
        && (r.1.Pass? ==> DayCount(r.0, DateOf(start)) == (if nDays > 0 then nDays else 0))
        && (r.1.Fail? ==> r.1.error in {FileNotFoundError, IndexError, KeyError, AttributeError})
    {
      var y := YearOf(start);
      if y == year0 || y in yearFiles {
        var rows := if y == year0 then rows0 else yearFiles[y];
        var first := FirstAtOrAfter(rows, start);
        if first.Some? {
          WalkGrows(y, rows, first.value, 0, DateOf(start), [], nDays);
          WalkEnds(y, rows, first.value, [], DateOf(start), nDays);
          var r := Walk(y, rows, first.value, 0, DateOf(start), [], nDays);
          forall b | b in r.0 ensures InSomeYear(b) {
            var k :| 0 <= k < |r.0| && r.0[k] == b;
            if b in rows {
              assert y == year0 ==> rows0 == yearFiles[year0];
              assert y in yearFiles && rows == yearFiles[y];
            }
          }
        }
      }
    }

    /** `generator(start, n_days)`: the bars read and the outcome are those
        of `Run` from the source's state before the call, and the items are
        those the bars read yield. The ghost `visited` is the sequence of
        bars whose step completed. */
    method Generate(start: DateTime, nDays: int) returns (items: seq<Item>, o: Outcome, ghost visited: seq<Bar>)
      requires Valid()
      modifies this
      ensures Valid()
      ensures (visited, o) == Run(start, nDays, old(year), old(yearRows))
      ensures items == Yielded(visited)
    {
      ghost var run := Run(start, nDays, year, yearRows);
      items, visited := [], [];
      var dayCount := 0;
      o := LoadYear(YearOf(start));
      if o.Fail? {
        return;
      }
      var first := FirstAtOrAfter(yearRows, start);
      if first.None? {
        return [], Fail(IndexError), [];
      }
      var ix: int := first.value;
      var current := DateOf(start);
      while dayCount < nDays
        invariant Valid() && o == Pass
        invariant 0 <= ix <= |yearRows|
        invariant forall b :: b in visited ==> Completes(b)
        invariant Walk(year, yearRows, ix, dayCount, current, visited, nDays) == run
        invariant items == Yielded(visited)
        decreases set z | z in yearFiles && z > year, |yearRows| - ix
      {
        ghost var y0, ix0 := year, ix;
        var done;
        done, o, ix, dayCount, current, items, visited := Step(ix, dayCount, current, items, visited, nDays);
        if done {
          return;
        }
        if year != y0 {
          LaterYearsShrink(yearFiles, year);
        }
      }
    }

    /** One pass of the loop body from position `ix` of the current year:
        either the loop ends as the walk does, or the walk goes on from the
        position and year it reaches. */
    method Step(ix: nat, dayCount: int, current: Date, items: seq<Item>, ghost visited: seq<Bar>, ghost nDays: int)
      returns (done: bool, o: Outcome, ix': nat, dayCount': int, current': Date, items': seq<Item>,
               ghost visited': seq<Bar>)
      requires Valid() && ix <= |yearRows| && dayCount < nDays
      requires forall b :: b in visited ==> Completes(b)
      requires items == Yielded(visited)
      modifies this
      ensures Valid()
      ensures forall b :: b in visited' ==> Completes(b)
      ensures items' == Yielded(visited')
      ensures done ==> (visited', o) == Walk(old(year), old(yearRows), ix, dayCount, current, visited, nDays)
      ensures !done ==> o == Pass && ix' <= |yearRows|
      ensures !done ==>
                Walk(old(year), old(yearRows), ix, dayCount, current, visited, nDays)
                  == Walk(year, yearRows, ix', dayCount', current', visited', nDays)
                && ((year == old(year) && yearRows == old(yearRows) && ix' == ix + 1)
                    || (year == old(year) + 1 && year in yearFiles && ix' == 0))
    {
      WalkFails(year, yearRows, ix, dayCount, current, visited, nDays);
      if ix >= |yearRows| {
        return true, Fail(KeyError), ix, dayCount, current, items, visited;
      }
      ghost var y, rows := year, yearRows;
      var row := yearRows[ix];
      var data := Baseline67For(row.time);
      if data.Err? {
        return true, Fail(data.error), ix, dayCount, current, items, visited;
      }
      WalkNext(y, rows, ix, dayCount, current, visited, nDays);
      YieldedStep(visited, row);
      var rowDate := DateOf(row.time);
      dayCount', current' := dayCount, current;
      if rowDate > current {
        current' := rowDate;
        dayCount' := dayCount + 1;
      }
      ix' := ix + 1;
      if ix' >= |yearRows| {
        var loaded := LoadYear(year + 1);
        if loaded.Fail? {
          return true, loaded, ix, dayCount, current, items, visited;
        }
        ix' := 0;
      }
      visited' := visited + [row];
      items' := items;
      if data.value.Some? && !InSession(row.time) {
        items' := items + [Item(data.value.value, row, testName)];
      }
      done, o := false, Pass;
    }
  }

  /** Loading the next year leaves fewer years above the one loaded. */
  lemma LaterYearsShrink(yearFiles: map<int, seq<Bar>>, y: int)
    requires y in yearFiles
    ensures (set z | z in yearFiles && z > y) < (set z | z in yearFiles && z > y - 1)
  {
    var above := set z | z in yearFiles && z > y;
    var fromY := set z | z in yearFiles && z > y - 1;
    assert above <= fromY;
    assert y in fromY && y !in above;
  }

  /** `year_df.loc[year_df["datetime"] >= start].index[0]` on the frame
      sorted by datetime: the file position (label) of the earliest bar at
      or after `start`, the first such position among bars of equal time. */
  function FirstAtOrAfter(rows: seq<Bar>, start: DateTime): (r: Option<nat>)
    ensures r.None? <==> forall b :: b in rows ==> b.time < start
    ensures r.Some? ==> r.value < |rows| && rows[r.value].time >= start
    ensures r.Some? ==> forall j :: 0 <= j < |rows| && rows[j].time >= start ==> rows[r.value].time <= rows[j].time
    ensures r.Some? ==> forall j :: 0 <= j < r.value && rows[j].time >= start ==> rows[r.value].time < rows[j].time
  {
    if rows == [] then None
    else
      var rest := FirstAtOrAfter(rows[1..], start);
      assert forall b :: b in rows ==> b == rows[0] || b in rows[1..];
      assert forall j :: 1 <= j < |rows| ==> rows[j] == rows[1..][j - 1];
      if rows[0].time >= start && (rest.None? || rows[0].time <= rows[1..][rest.value].time) then Some(0)
      else if rest.None? then None
      else Some(rest.value + 1)
  }

  /** A walk that went on from `visited + [row]`, with `row` a bar of the
      current file, went on from `visited` with only bars of the files. */
  lemma ExtendVisited(visited: seq<Bar>, row: Bar, w: seq<Bar>, rows: seq<Bar>, next: seq<Bar>,
                      yearFiles: map<int, seq<Bar>>)
    requires row in rows
    requires next == rows || exists z :: z in yearFiles && yearFiles[z] == next
    requires |visited| + 1 <= |w| && w[..|visited| + 1] == visited + [row]
    requires forall k :: |visited| + 1 <= k < |w| ==> w[k] in next || exists z :: z in yearFiles && w[k] in yearFiles[z]
    ensures |visited| <= |w| && w[..|visited|] == visited
    ensures forall k :: |visited| <= k < |w| ==> w[k] in rows || exists z :: z in yearFiles && w[k] in yearFiles[z]
  {
    assert w[..|visited|] == w[..|visited| + 1][..|visited|];
    assert w[|visited|] == (visited + [row])[|visited|];
  }

  /** `current_date` after a run of bars: the latest date seen, starting
      from the start date. */
  function CurrentDate(rows: seq<Bar>, start: Date): (c: Date)
    ensures c >= start
  {
    if rows == [] then start
    else
      var c := CurrentDate(rows[..|rows| - 1], start);
      var d := DateOf(rows[|rows| - 1].time);
      if d > c then d else c
  }

  /** `day_count` after a run of bars: how many bars fell on a date later
      than every date before them. */
  function DayCount(rows: seq<Bar>, start: Date): (n: nat)
    ensures n <= |rows|
  {
    if rows == [] then 0
    else
      var init := rows[..|rows| - 1];
      DayCount(init, start) + (if DateOf(rows[|rows| - 1].time) > CurrentDate(init, start) then 1 else 0)
  }
}
