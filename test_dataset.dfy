/** `TestDataset` (thales/data/test_dataset.py): a price frame indexed by
    datetime, filled year by year from the `<year>.csv` files of a data
    directory, and a cursor moved forward by dates, durations and
    conditions on the price columns. */
module TestDatasets {
  import opened Common
  import opened Sorting
  import opened DateTimes

  /** `PRICE_COLS`, the columns of the empty frame. */
  const PriceCols: set<string> := {"open", "high", "low", "close"}

  /** A row of the frame: its datetime index and its numeric values; a
      column absent from `values` is missing (NaN) in that row. */
  datatype Row = Row(time: DateTime, values: map<string, real>)

  /** A year's CSV file: its header's columns (`datetime` among them) and
      its rows in file order. */
  datatype YearFile = YearFile(columns: set<string>, rows: seq<Row>)

  /** The frame is sorted by a unique datetime index. */
  predicate Increasing(rows: seq<Row>) {
    forall i, j :: 0 <= i < j < |rows| ==> rows[i].time < rows[j].time
  }

  // ---------------------------------------------------------------------------
  // available_years

  /** The stem of a `.csv` file that is not `stats.csv`. */
  predicate YearCsv(f: string) {
    EndsWith(f, ".csv") && f != "stats.csv"
  }

  function Stem(f: string): string
    requires YearCsv(f)
  {
    f[..|f| - 4]
  }

  /** `[int(f[:-4]) for f in files]`: a stem that is not an integer is a
      ValueError. */
  function YearsOf(listing: seq<string>): (r: Result<seq<int>>)
    ensures r.Err? ==> r.error == ValueError
    ensures r.Ok? <==> forall f :: f in listing && YearCsv(f) ==> ParseInt(Stem(f)).Some?
    ensures r.Ok? ==> forall y :: y in r.value <==>
      exists f :: f in listing && YearCsv(f) && ParseInt(Stem(f)) == Some(y)
  {
    if listing == [] then Ok([])
    else
      var rest := YearsOf(listing[1..]);
      var f := listing[0];
      if !YearCsv(f) then rest
      else if ParseInt(Stem(f)).None? then Err(ValueError)
      else if rest.Err? then rest
      else Ok([ParseInt(Stem(f)).value] + rest.value)
  }

  /** `available_years`: the sorted years of the data directory's year
      files. */
  function AvailableYears(listing: seq<string>): Result<seq<int>> {
    var ys :- YearsOf(listing);
    Ok(Sort(ys, IntLe))
  }

  lemma AvailableYearsSpec(listing: seq<string>)
    ensures AvailableYears(listing).Ok? ==> SortedBy(AvailableYears(listing).value, IntLe)
    ensures AvailableYears(listing).Ok? ==> forall y :: y in AvailableYears(listing).value <==>
      exists f :: f in listing && YearCsv(f) && ParseInt(Stem(f)) == Some(y)
  {
    var ys := YearsOf(listing);
    if ys.Ok? {
      IntLeTotalOrder();
      SortSorted(ys.value, IntLe);
      SameElements(ys.value, Sort(ys.value, IntLe));
    }
  }

  /** `f"{year}.csv"` */
  function YearFileName(year: int): string {
    IntToString(year) + ".csv"
  }

  /** The name `load_year` opens is one `available_years` reads back as the
      same year. */
  lemma YearFileNameParses(year: int)
    ensures YearCsv(YearFileName(year))
    ensures ParseInt(Stem(YearFileName(year))) == Some(year)
  {
    var f := YearFileName(year);
    var d := NatToString(if year >= 0 then year else -year);
    assert f[|f| - 4..] == ".csv";
    assert f[0] == '-' || f[0] == d[0];
    assert YearCsv(f);
    assert Stem(f) == IntToString(year);
    if year >= 0 {
      DigitsOfNat(year);
    } else {
      DigitsOfNat(-year);
      assert IntToString(year)[1..] == NatToString(-year);
    }
  }

  lemma YearFileNameInjective(a: int, b: int)
    requires YearFileName(a) == YearFileName(b)
    ensures a == b
  {
    YearFileNameParses(a);
    YearFileNameParses(b);
  }

  // ---------------------------------------------------------------------------
  // Merging years

  function TimesOf(rows: seq<Row>): set<DateTime> {
    set r | r in rows :: r.time
  }

  /** The rows of `rows` whose datetime is not in `seen` and not taken by an
      earlier row. */
  function KeepFirstFrom(rows: seq<Row>, seen: set<DateTime>): (r: seq<Row>)
    ensures forall x :: x in r ==> x in rows && x.time !in seen
  {
    if rows == [] then []
    else if rows[0].time in seen then KeepFirstFrom(rows[1..], seen)
    else [rows[0]] + KeepFirstFrom(rows[1..], seen + {rows[0].time})
  }

  /** `drop_duplicates(subset=["datetime"])` */
  function KeepFirst(rows: seq<Row>): seq<Row> {
    KeepFirstFrom(rows, {})
  }

  /** At most one row per datetime. */
  ghost predicate TimeUnique(rows: seq<Row>) {
    forall x, y :: x in rows && y in rows && x.time == y.time ==> x == y
  }

  /** `x` is the first row of `rows` with its datetime. */
  ghost predicate FirstOfTime(rows: seq<Row>, x: Row) {
    exists i :: 0 <= i < |rows| && rows[i] == x && forall j :: 0 <= j < i ==> rows[j].time != x.time
  }

  lemma {:induction false} KeepFirstFromUnique(rows: seq<Row>, seen: set<DateTime>)
    ensures NoDups(KeepFirstFrom(rows, seen)) && TimeUnique(KeepFirstFrom(rows, seen))
  {
    KeepFirstFromNoDups(rows, seen);
    KeepFirstFromTimeUnique(rows, seen);
  }

  lemma {:induction false} KeepFirstFromNoDups(rows: seq<Row>, seen: set<DateTime>)
    ensures NoDups(KeepFirstFrom(rows, seen))
  {
    if rows != [] && rows[0].time in seen {
      KeepFirstFromNoDups(rows[1..], seen);
    } else if rows != [] {
      var x := rows[0];
      KeepFirstFromNoDups(rows[1..], seen + {x.time});
      var rest := KeepFirstFrom(rows[1..], seen + {x.time});
      assert x !in rest;
      var r := [x] + rest;
      forall i, j | 0 <= i < j < |r|
        ensures r[i] != r[j]
      {
        if i == 0 {
          assert r[j] == rest[j - 1];
        } else {
          assert r[i] == rest[i - 1] && r[j] == rest[j - 1];
        }
      }
    }
  }

  lemma {:induction false} KeepFirstFromTimeUnique(rows: seq<Row>, seen: set<DateTime>)
    ensures TimeUnique(KeepFirstFrom(rows, seen))
  {
    if rows != [] && rows[0].time in seen {
      KeepFirstFromTimeUnique(rows[1..], seen);
    } else if rows != [] {
      var x := rows[0];
      KeepFirstFromTimeUnique(rows[1..], seen + {x.time});
      var rest := KeepFirstFrom(rows[1..], seen + {x.time});
      assert forall y :: y in rest ==> y.time != x.time;
      var r := [x] + rest;
      assert forall y :: y in r ==> y == x || y in rest;
    }
  }

  lemma {:induction false} KeepFirstFromTimes(rows: seq<Row>, seen: set<DateTime>)
    ensures forall t :: t in TimesOf(KeepFirstFrom(rows, seen)) <==> t in TimesOf(rows) && t !in seen
  {
    if rows != [] {
      var x := rows[0];
      var seen' := if x.time in seen then seen else seen + {x.time};
      KeepFirstFromTimes(rows[1..], seen');
      assert forall y :: y in rows <==> y == x || y in rows[1..];
    }
  }

  lemma {:induction false} KeepFirstFromFirst(rows: seq<Row>, seen: set<DateTime>)
    ensures forall x :: x in KeepFirstFrom(rows, seen) ==> FirstOfTime(rows, x)
  {
    if rows != [] {
      var x := rows[0];
      var seen' := if x.time in seen then seen else seen + {x.time};
      KeepFirstFromFirst(rows[1..], seen');
      var rest := KeepFirstFrom(rows[1..], seen');
      forall y | y in rest ensures FirstOfTime(rows, y) {
        FirstOfTail(rows, y, seen');
      }
      assert FirstOfTime(rows, x) by {
        assert rows[0] == x;
      }
    }
  }

  lemma FirstOfTail(rows: seq<Row>, y: Row, seen: set<DateTime>)
    requires |rows| > 0 && rows[0].time in seen
    requires y.time !in seen && FirstOfTime(rows[1..], y)
    ensures FirstOfTime(rows, y)
  {
    var tail := rows[1..];
    var i :| 0 <= i < |tail| && tail[i] == y && forall j :: 0 <= j < i ==> tail[j].time != y.time;
    assert rows[i + 1] == y;
    forall j | 0 <= j < i + 1 ensures rows[j].time != y.time {
      if j > 0 {
        assert rows[j] == tail[j - 1];
      }
    }
  }

  lemma KeepFirstSpec(rows: seq<Row>)
    ensures NoDups(KeepFirst(rows)) && TimeUnique(KeepFirst(rows))
    ensures TimesOf(KeepFirst(rows)) == TimesOf(rows)
    ensures forall x :: x in KeepFirst(rows) ==> FirstOfTime(rows, x)
  {
    KeepFirstFromUnique(rows, {});
    KeepFirstFromTimes(rows, {});
    KeepFirstFromFirst(rows, {});
  }

  predicate TimeLe(a: Row, b: Row) {
    a.time <= b.time
  }

  lemma TimeLeTotalPreorder()
    ensures TotalPreorder(TimeLe)
  {
  }

  /** `current.append(new).drop_duplicates(subset=["datetime"])`, then
      `sort_index()`. */
  function MergeRows(current: seq<Row>, incoming: seq<Row>): seq<Row> {
    Sort(KeepFirst(current + incoming), TimeLe)
  }

  lemma SortedUniqueIncreasing(rows: seq<Row>)
    requires SortedBy(rows, TimeLe) && NoDups(rows) && TimeUnique(rows)
    ensures Increasing(rows)
  {
    forall i, j | 0 <= i < j < |rows| ensures rows[i].time < rows[j].time {
      assert rows[i] in rows && rows[j] in rows;
    }
  }

  /** The merged frame is sorted by a unique index and covers the datetimes
      of both frames; each of its rows is the first row of its datetime in
      the old frame followed by the new file, so an old row always wins. */
  lemma MergeRowsSpec(current: seq<Row>, incoming: seq<Row>)
    ensures Increasing(MergeRows(current, incoming))
    ensures TimesOf(MergeRows(current, incoming)) == TimesOf(current) + TimesOf(incoming)
    ensures forall x :: x in MergeRows(current, incoming) ==> FirstOfTime(current + incoming, x)
  {
    var k := KeepFirst(current + incoming);
    var m := MergeRows(current, incoming);
    KeepFirstSpec(current + incoming);
    TimeLeTotalPreorder();
    SortSorted(k, TimeLe);
    SameElements(k, m);
    NoDupsOfPermutation(k, m);
    SortedUniqueIncreasing(m);
    assert TimesOf(m) == TimesOf(k);
    assert TimesOf(current + incoming) == TimesOf(current) + TimesOf(incoming) by {
      forall t | t in TimesOf(current + incoming) ensures t in TimesOf(current) + TimesOf(incoming) {
        var y :| y in current + incoming && y.time == t;
      }
    }
  }

  /** Rows already in a sorted frame survive every merge. */
  lemma MergeKeepsCurrent(current: seq<Row>, incoming: seq<Row>, x: Row)
    requires Increasing(current)
    requires x in current
    ensures x in MergeRows(current, incoming)
  {
    MergeRowsSpec(current, incoming);
    var all := current + incoming;
    assert x.time in TimesOf(MergeRows(current, incoming));
    var y :| y in MergeRows(current, incoming) && y.time == x.time;
    var i :| 0 <= i < |all| && all[i] == y && forall j :: 0 <= j < i ==> all[j].time != y.time;
    var k :| 0 <= k < |current| && current[k] == x;
    assert all[k] == x;
    if i < |current| {
      assert all[i] == current[i];
    }
    assert i == k;
  }

  // ---------------------------------------------------------------------------
  // The frame and its operations as values

  /** The mutable state of a `TestDataset`: `df`, `year` and the frame's
      column set. */
  datatype Frame = Frame(df: seq<Row>, year: int, columns: set<string>)

  /** `load_year(year)`: a falsy year means the year after the last one
      loaded; a missing file is a FileNotFoundError and changes nothing.
      The file's `datetime` column becomes the index, so it is never one of
      the frame's columns. */
  function LoadYearSpec(f: Frame, files: map<string, YearFile>, arg: Option<int>): (r: Result<Frame>)
    ensures r.Err? ==> r.error == FileNotFoundError
    ensures r.Ok? && "datetime" !in f.columns ==> "datetime" !in r.value.columns
  {
    var y := if arg.None? || arg.value == 0 then f.year + 1 else arg.value;
    var name := YearFileName(y);
    if name !in files then Err(FileNotFoundError)
    else Ok(Frame(MergeRows(f.df, files[name].rows), y, f.columns + (files[name].columns - {"datetime"})))
  }

  /** `df.loc[df.index >= dt]` */
  function From(rows: seq<Row>, dt: DateTime): (r: seq<Row>)
    ensures forall x :: x in r <==> x in rows && x.time >= dt
  {
    if rows == [] then []
    else if rows[0].time >= dt then [rows[0]] + From(rows[1..], dt)
    else From(rows[1..], dt)
  }

  /** The first step of `jump_to_date`: the year of `dt` is loaded unless
      it is the year last loaded. */
  function EnterYear(f: Frame, files: map<string, YearFile>, dt: DateTime): Result<Frame> {
    if YearOf(dt) != f.year then LoadYearSpec(f, files, Some(YearOf(dt))) else Ok(f)
  }

  /** The frame cut to the rows at or after `dt`. */
  function Cut(g: Frame, dt: DateTime): Frame {
    g.(df := From(g.df, dt))
  }

  /** `jump_to_date(dt)`, on an already parsed `dt`: the new frame and the
      outcome. When nothing is left the next year is loaded and cut too; if
      that fails the cut frame stays behind. */
  function JumpToDateSpec(f: Frame, files: map<string, YearFile>, dt: DateTime): (Frame, Outcome) {
    var loaded := EnterYear(f, files, dt);
    if loaded.Err? then (f, Fail(loaded.error))
    else
      var g := Cut(loaded.value, dt);
      if |g.df| > 0 then (g, Pass)
      else
        var next := LoadYearSpec(g, files, Some(YearOf(dt) + 1));
        if next.Err? then (g, Fail(next.error))
        else (Cut(next.value, dt), Pass)
  }

  lemma {:induction false} FromIncreasing(rows: seq<Row>, dt: DateTime)
    requires Increasing(rows)
    ensures Increasing(From(rows, dt))
  {
    if rows != [] {
      assert Increasing(rows[1..]) by {
        forall i, j | 0 <= i < j < |rows[1..]| ensures rows[1..][i].time < rows[1..][j].time {
          assert rows[1..][i] == rows[i + 1] && rows[1..][j] == rows[j + 1];
        }
      }
      FromIncreasing(rows[1..], dt);
      var rest := From(rows[1..], dt);
      if rows[0].time >= dt {
        forall y | y in rest ensures rows[0].time < y.time {
          var k :| 0 <= k < |rows[1..]| && rows[1..][k] == y;
          assert rows[k + 1] == y;
        }
      }
    }
  }

  /** Loading a year keeps the frame sorted by a unique index and keeps
      every row it had. */
  lemma LoadYearSorted(f: Frame, files: map<string, YearFile>, arg: Option<int>)
    requires Increasing(f.df)
    ensures LoadYearSpec(f, files, arg).Ok? ==> Increasing(LoadYearSpec(f, files, arg).value.df)
    ensures LoadYearSpec(f, files, arg).Ok? ==> forall x :: x in f.df ==> x in LoadYearSpec(f, files, arg).value.df
  {
    var r := LoadYearSpec(f, files, arg);
    if r.Ok? {
      var incoming := files[YearFileName(r.value.year)].rows;
      MergeRowsSpec(f.df, incoming);
      forall x | x in f.df ensures x in r.value.df {
        MergeKeepsCurrent(f.df, incoming, x);
      }
    }
  }

  lemma EnterYearSorted(f: Frame, files: map<string, YearFile>, dt: DateTime)
    requires Increasing(f.df)
    ensures EnterYear(f, files, dt).Ok? ==> Increasing(EnterYear(f, files, dt).value.df)
    ensures EnterYear(f, files, dt).Ok? ==> forall x :: x in f.df ==> x in EnterYear(f, files, dt).value.df
    ensures EnterYear(f, files, dt).Err? ==> EnterYear(f, files, dt).error == FileNotFoundError
  {
    LoadYearSorted(f, files, Some(YearOf(dt)));
  }

  /** After a jump the frame is still sorted by a unique index, a failure is
      a missing year file, and on success every row left is at or after
      `dt`. */
  lemma JumpToDateSorted(f: Frame, files: map<string, YearFile>, dt: DateTime)
    requires Increasing(f.df)
    ensures Increasing(JumpToDateSpec(f, files, dt).0.df)
    ensures JumpToDateSpec(f, files, dt).1.Fail? ==> JumpToDateSpec(f, files, dt).1.error == FileNotFoundError
    ensures JumpToDateSpec(f, files, dt).1.Pass? ==>
      forall x :: x in JumpToDateSpec(f, files, dt).0.df ==> x.time >= dt
  {
    EnterYearSorted(f, files, dt);
    var loaded := EnterYear(f, files, dt);
    if loaded.Ok? {
      FromIncreasing(loaded.value.df, dt);
      var g := Cut(loaded.value, dt);
      LoadYearSorted(g, files, Some(YearOf(dt) + 1));
      var next := LoadYearSpec(g, files, Some(YearOf(dt) + 1));
      if next.Ok? {
        FromIncreasing(next.value.df, dt);
      }
    }
  }

  /** The first row of a sorted frame at or after `dt` is the row with the
      least such datetime. */
  lemma FromHead(rows: seq<Row>, dt: DateTime, x: Row)
    requires Increasing(rows)
    requires x in rows && x.time == dt
    ensures |From(rows, dt)| > 0 && From(rows, dt)[0] == x
  {
    FromIncreasing(rows, dt);
    var r := From(rows, dt);
    assert x in r;
    var k :| 0 <= k < |r| && r[k] == x;
    assert r[0] in r;
    assert k == 0;
  }

  /** Jumping to the datetime of a row of the frame succeeds unless the year
      file of that datetime is missing, and puts that row first. */
  lemma JumpToRow(f: Frame, files: map<string, YearFile>, x: Row)
    requires Increasing(f.df) && x in f.df
    ensures JumpToDateSpec(f, files, x.time).1.Pass? <==> EnterYear(f, files, x.time).Ok?
    ensures JumpToDateSpec(f, files, x.time).1.Pass? ==>
      |JumpToDateSpec(f, files, x.time).0.df| > 0 && JumpToDateSpec(f, files, x.time).0.df[0] == x
  {
    EnterYearSorted(f, files, x.time);
    var loaded := EnterYear(f, files, x.time);
    if loaded.Ok? {
      FromHead(loaded.value.df, x.time, x);
    }
  }

  // ---------------------------------------------------------------------------
  // Conditions

  datatype Op = Gt | Ge | Lt | Le

  /** `{"g": ">", "ge": ">=", "l": "<", "le": "<="}[operator]` */
  function OpOf(s: string): (r: Result<Op>)
    ensures r.Ok? <==> s in {"g", "ge", "l", "le"}
    ensures r.Err? ==> r.error == KeyError
  {
    if s == "g" then Ok(Gt) else if s == "ge" then Ok(Ge)
    else if s == "l" then Ok(Lt) else if s == "le" then Ok(Le)
    else Err(KeyError)
  }

  /** A parsed `{column}_{operator}_{value}` string. */
  datatype Condition = Condition(column: string, op: Op, value: real)

  /** One condition string: it must split on `_` into three parts (else a
      ValueError from the unpacking), name a column of the frame (else an
      AssertionError), use a known operator (else a KeyError) and end in a
      number (else a ValueError). */
  function ParseCondition(cond: string, columns: set<string>): (r: Result<Condition>)
    ensures r.Ok? <==> (|Split(cond, '_')| == 3 && Split(cond, '_')[0] in columns &&
      Split(cond, '_')[1] in {"g", "ge", "l", "le"} && ParseDecimal(Split(cond, '_')[2]).Some?)
    ensures r.Ok? ==> (r.value.column == Split(cond, '_')[0] && r.value.op == OpOf(Split(cond, '_')[1]).value &&
      r.value.value == ParseDecimal(Split(cond, '_')[2]).value)
    ensures |Split(cond, '_')| != 3 ==> r == Err(ValueError)
    ensures |Split(cond, '_')| == 3 && Split(cond, '_')[0] !in columns ==> r == Err(AssertionError)
  {
    var parts := Split(cond, '_');
    if |parts| != 3 then Err(ValueError)
    else if parts[0] !in columns then Err(AssertionError)
    else
      var op :- OpOf(parts[1]);
      var v := ParseDecimal(parts[2]);
      if v.None? then Err(ValueError) else Ok(Condition(parts[0], op, v.value))
  }

  /** The conditions of the loop over `condition`, or the first failure. */
  function ParseAll(conds: seq<string>, columns: set<string>): Result<seq<Condition>> {
    if conds == [] then Ok([])
    else
      var init :- ParseAll(conds[..|conds| - 1], columns);
      var c :- ParseCondition(conds[|conds| - 1], columns);
      Ok(init + [c])
  }

  lemma {:induction false} ParseAllSpec(conds: seq<string>, columns: set<string>)
    ensures ParseAll(conds, columns).Ok? <==> forall i :: 0 <= i < |conds| ==> ParseCondition(conds[i], columns).Ok?
    ensures ParseAll(conds, columns).Ok? ==> (|ParseAll(conds, columns).value| == |conds| &&
      forall i :: 0 <= i < |conds| ==> ParseAll(conds, columns).value[i] == ParseCondition(conds[i], columns).value)
  {
    if conds != [] {
      var init := conds[..|conds| - 1];
      ParseAllSpec(init, columns);
      assert forall i :: 0 <= i < |init| ==> init[i] == conds[i];
    }
  }

  /** `df[column] <op> value`; a missing value compares false. */
  predicate Holds(c: Condition, x: Row) {
    c.column in x.values &&
    match c.op
    case Gt => x.values[c.column] > c.value
    case Ge => x.values[c.column] >= c.value
    case Lt => x.values[c.column] < c.value
    case Le => x.values[c.column] <= c.value
  }

  /** `mask | expr` over all conditions: OR semantics. */
  predicate AnyHolds(cs: seq<Condition>, x: Row) {
    exists i :: 0 <= i < |cs| && Holds(cs[i], x)
  }

  /** The index of the first row `mask` selects. */
  function FirstMatch(rows: seq<Row>, cs: seq<Condition>): (r: Option<nat>)
    ensures r.Some? ==> (r.value < |rows| && AnyHolds(cs, rows[r.value]) &&
      forall j :: 0 <= j < r.value ==> !AnyHolds(cs, rows[j]))
    ensures r.None? ==> forall j :: 0 <= j < |rows| ==> !AnyHolds(cs, rows[j])
  {
    if rows == [] then None
    else if AnyHolds(cs, rows[0]) then Some(0)
    else
      var k := FirstMatch(rows[1..], cs);
      if k.None? then None else Some(k.value + 1)
  }

  /** The years above `year` that have a file. */
  function YearsAbove(files: map<string, YearFile>, year: int): set<int> {
    set f | f in files && YearCsv(f) && ParseInt(Stem(f)).Some? && ParseInt(Stem(f)).value > year ::
      ParseInt(Stem(f)).value
  }

  lemma YearsAboveShrink(files: map<string, YearFile>, year: int)
    requires YearFileName(year + 1) in files
    ensures YearsAbove(files, year + 1) < YearsAbove(files, year)
  {
    YearFileNameParses(year + 1);
    assert year + 1 in YearsAbove(files, year);
  }

  /** The `while True` loop of `jump_to_condition`: with no matching row
      the next year is loaded (failing when there is none), otherwise the
      cursor jumps to the first matching row. */
  function SearchSpec(f: Frame, files: map<string, YearFile>, cs: seq<Condition>): (Frame, Outcome)
    decreases YearsAbove(files, f.year)
  {
    var k := FirstMatch(f.df, cs);
    if k.Some? then JumpToDateSpec(f, files, f.df[k.value].time)
    else
      var next := LoadYearSpec(f, files, None);
      if next.Err? then (f, Fail(next.error))
      else
        YearsAboveShrink(files, f.year);
        SearchSpec(next.value, files, cs)
  }

  /** A match in the frame itself: the jump to its datetime. */
  lemma SearchHere(f: Frame, files: map<string, YearFile>, cs: seq<Condition>, k: nat)
    requires Increasing(f.df) && k < |f.df| && AnyHolds(cs, f.df[k])
    ensures var j := JumpToDateSpec(f, files, f.df[k].time);
      Increasing(j.0.df)
      && (j.1.Pass? ==> |j.0.df| > 0 && AnyHolds(cs, j.0.df[0]))
      && (j.1.Fail? ==> j.1.error == FileNotFoundError)
  {
    var x := f.df[k];
    JumpToDateSorted(f, files, x.time);
    JumpToRow(f, files, x);
  }

  /** A successful search leaves the cursor on a row meeting one of the
      conditions, the first such row of the frame it searched. */
  lemma {:induction false} SearchFindsMatch(f: Frame, files: map<string, YearFile>, cs: seq<Condition>)
    requires Increasing(f.df)
    ensures Increasing(SearchSpec(f, files, cs).0.df)
    ensures SearchSpec(f, files, cs).1.Pass? ==>
      |SearchSpec(f, files, cs).0.df| > 0 && AnyHolds(cs, SearchSpec(f, files, cs).0.df[0])
    ensures SearchSpec(f, files, cs).1.Fail? ==> SearchSpec(f, files, cs).1.error == FileNotFoundError
    decreases YearsAbove(files, f.year)
  {
    var k := FirstMatch(f.df, cs);
    if k.Some? {
      SearchHere(f, files, cs, k.value);
    } else {
      LoadYearSorted(f, files, None);
      var next := LoadYearSpec(f, files, None);
      if next.Ok? {
        YearsAboveShrink(files, f.year);
        SearchFindsMatch(next.value, files, cs);
      }
    }
  }

  // ---------------------------------------------------------------------------
  // The class

  class TestDataset {
    const name: string
    /** The names `os.listdir` returns for the data directory. */
    const listing: seq<string>
    /** The contents of its CSV files, by file name. */
    const files: map<string, YearFile>
    var df: seq<Row>
    var year: int
    var columns: set<string>

    ghost predicate Valid()
      reads this
    {
      Increasing(df)
    }

    function State(): Frame
      reads this
    {
      Frame(df, year, columns)
    }

    /** `TestDataset(name)` on an existing data directory: an empty frame
        with the price columns and year 0. */
    constructor(name: string, listing: seq<string>, files: map<string, YearFile>)
      ensures Valid()
      ensures this.name == name && this.listing == listing && this.files == files
      ensures df == [] && year == 0 && columns == PriceCols
    {
      this.name := name;
      this.listing := listing;
      this.files := files;
      df := [];
      year := 0;
      columns := PriceCols;
    }

    function AvailableYearsOf(): Result<seq<int>>
      reads this
    {
      AvailableYears(listing)
    }

    /** `current_datetime`: the first datetime of the frame; an empty frame
        is an IndexError. */
    function CurrentDatetime(): (r: Result<DateTime>)
      reads this
      ensures r.Ok? <==> |df| > 0
      ensures r.Ok? ==> r.value == df[0].time && (Valid() ==> forall x :: x in df ==> r.value <= x.time)
      ensures r.Err? ==> r.error == IndexError
    {
      if |df| == 0 then Err(IndexError) else Ok(df[0].time)
    }

    method LoadYear(arg: Option<int>) returns (o: Outcome)
      requires Valid()
      modifies this
      ensures Valid()
      ensures var r := LoadYearSpec(old(State()), files, arg);
        (r.Err? ==> o == Fail(r.error) && State() == old(State())) &&
        (r.Ok? ==> o == Pass && State() == r.value)
    {
      var r := LoadYearSpec(State(), files, arg);
      if r.Err? {
        return Fail(r.error);
      }
      MergeRowsSpec(df, files[YearFileName(r.value.year)].rows);
      df, year, columns := r.value.df, r.value.year, r.value.columns;
      o := Pass;
    }

    method JumpToDate(dt: DateTime) returns (o: Outcome)
      requires Valid()
      modifies this
      ensures Valid()
      ensures (State(), o) == JumpToDateSpec(old(State()), files, dt)
    {
      ghost var f := State();
      JumpToDateSorted(f, files, dt);
      if YearOf(dt) != year {
        o := LoadYear(Some(YearOf(dt)));
        if o.Fail? {
          return;
        }
      }
      FromIncreasing(df, dt);
      df := From(df, dt);
      if |df| == 0 {
        o := LoadYear(Some(YearOf(dt) + 1));
        if o.Fail? {
          return;
        }
        df := From(df, dt);
      }
      o := Pass;
    }

    /** `jump_days(n)`: to the first row at or after midnight of the current
        date plus `n` days. */
    method JumpDays(n: int) returns (o: Outcome)
      requires Valid()
      modifies this
      ensures Valid()
      ensures old(CurrentDatetime()).Err? ==> o == Fail(IndexError) && State() == old(State())
      ensures old(CurrentDatetime()).Ok? ==>
        (State(), o) == JumpToDateSpec(old(State()), files, TruncDay(old(CurrentDatetime()).value) + n * DAY)
    {
      var now := CurrentDatetime();
      if now.Err? {
        return Fail(now.error);
      }
      o := JumpToDate(TruncDay(now.value) + n * DAY);
    }

    /** `jump_hours(n)`: from the start of the current hour. */
    method JumpHours(n: int) returns (o: Outcome)
      requires Valid()
      modifies this
      ensures Valid()
      ensures old(CurrentDatetime()).Err? ==> o == Fail(IndexError) && State() == old(State())
      ensures old(CurrentDatetime()).Ok? ==>
        (State(), o) == JumpToDateSpec(old(State()), files, TruncHour(old(CurrentDatetime()).value) + n * HOUR)
    {
      var now := CurrentDatetime();
      if now.Err? {
        return Fail(now.error);
      }
      o := JumpToDate(TruncHour(now.value) + n * HOUR);
    }

    /** `jump_minutes(n)`: from the start of the current minute. */
    method JumpMinutes(n: int) returns (o: Outcome)
      requires Valid()
      modifies this
      ensures Valid()
      ensures old(CurrentDatetime()).Err? ==> o == Fail(IndexError) && State() == old(State())
      ensures old(CurrentDatetime()).Ok? ==>
        (State(), o) == JumpToDateSpec(old(State()), files, TruncMinute(old(CurrentDatetime()).value) + n * MINUTE)
    {
      var now := CurrentDatetime();
      if now.Err? {
        return Fail(now.error);
      }
      o := JumpToDate(TruncMinute(now.value) + n * MINUTE);
    }

    /** `jump_to_condition(*condition)`: no condition fails the assertion;
        the conditions are parsed against the frame's columns first, then
        the search runs. */
    method JumpToCondition(conds: seq<string>) returns (o: Outcome)
      requires Valid()
      modifies this
      ensures Valid()
      ensures conds == [] ==> o == Fail(AssertionError) && State() == old(State())
      ensures conds != [] && ParseAll(conds, old(columns)).Err? ==>
        o == Fail(ParseAll(conds, old(columns)).error) && State() == old(State())
      ensures conds != [] && ParseAll(conds, old(columns)).Ok? ==>
        (State(), o) == SearchSpec(old(State()), files, ParseAll(conds, old(columns)).value)
    {
      if conds == [] {
        return Fail(AssertionError);
      }
      var parsed := ParseConditions(conds, columns);
      if parsed.Err? {
        return Fail(parsed.error);
      }
      var cs := parsed.value;
      while true
        invariant Valid()
        invariant SearchSpec(State(), files, cs) == SearchSpec(old(State()), files, cs)
        decreases YearsAbove(files, year)
      {
        var k := FirstMatch(df, cs);
        if k.Some? {
          o := JumpToDate(df[k.value].time);
          return;
        }
        o := LoadYear(None);
        if o.Fail? {
          return;
        }
        YearsAboveShrink(files, year - 1);
      }
    }
  }

  /** The loop over `condition` that builds the expressions. */
  method ParseConditions(conds: seq<string>, columns: set<string>) returns (r: Result<seq<Condition>>)
    ensures r == ParseAll(conds, columns)
  {
    var cs: seq<Condition> := [];
    var i := 0;
    while i < |conds|
      invariant 0 <= i <= |conds|
      invariant ParseAll(conds[..i], columns) == Ok(cs)
    {
      assert conds[..i + 1][..i] == conds[..i];
      var c := ParseCondition(conds[i], columns);
      if c.Err? {
        ParseAllErrPrefix(conds, columns, i + 1);
        return Err(c.error);
      }
      cs := cs + [c.value];
      i := i + 1;
    }
    assert conds[..i] == conds;
    r := Ok(cs);
  }

  lemma {:induction false} ParseAllErrPrefix(conds: seq<string>, columns: set<string>, n: nat)
    requires n <= |conds|
    requires ParseAll(conds[..n], columns).Err?
    ensures ParseAll(conds, columns) == ParseAll(conds[..n], columns)
    decreases |conds| - n
  {
    if n < |conds| {
      var init := conds[..|conds| - 1];
      assert init[..n] == conds[..n];
      ParseAllErrPrefix(init, columns, n);
    } else {
      assert conds[..n] == conds;
    }
  }

  /** `TestDataset(name)`: the data directory must exist. `dirs` maps each
      existing data directory name to its listing and file contents. */
  method OpenDataset(name: string, dirs: map<string, (seq<string>, map<string, YearFile>)>)
    returns (r: Result<TestDataset>)
    ensures r.Ok? <==> name in dirs
    ensures r.Err? ==> r.error == AssertionError
    ensures r.Ok? ==> (fresh(r.value) && r.value.Valid() && r.value.listing == dirs[name].0 &&
      r.value.files == dirs[name].1 && r.value.df == [] && r.value.year == 0 && r.value.columns == PriceCols)
  {
    if name !in dirs {
      return Err(AssertionError);
    }
    var d := new TestDataset(name, dirs[name].0, dirs[name].1);
    r := Ok(d);
  }
}
