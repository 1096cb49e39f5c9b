/** The two bots' test-data build scripts
    (thales/bots/FoXyLady/test/build_script.py and
    thales/bots/FXyLady/test/build_script.py). From the GBPJPY toy minute
    files they write one JSON file per date with the 6-7am session high, low
    and mean, `dates.csv` listing those dates and, in the FXyLady script, one
    JSON file per minute with that minute's prices. Both scripts write into
    `bot_data/FXyLady/test` (the FoXyLady script also names its bot
    "FXyLady"). The directories are modelled as maps from file name to
    content. */
module BuildScripts {
  import opened Common
  import opened Sorting
  import opened DateTimes
  import opened Baseline

  /** Which of the two scripts runs. */
  datatype Script = FoXyLadyScript | FXyLadyScript

  /** `REBUILD`: True in the FoXyLady script, False in the FXyLady one. */
  predicate Rebuild(script: Script) {
    script.FoXyLadyScript?
  }

  /** The content of `<date>.json`: `67_high`, `67_low`, `mean` and, in the
      FoXyLady script only, `date`. */
  datatype DayJson = DayJson(high67: real, low67: real, mean: real, date: Option<string>)

  /** The content of `<minute>.json`: the row without its `datetime`. */
  datatype MinuteJson = MinuteJson(open: real, high: real, low: real, close: real)

  /** The toy-dataset directory: file name to minute bars. */
  type ToyFiles = map<string, seq<Bar>>

  // ---------------------------------------------------------------------------
  // Choosing the years to build

  /** Python's `s[i:j]` for non-negative bounds. */
  function Slice(s: string, i: nat, j: nat): (r: string)
    ensures |r| <= |s|
  {
    var lo := if i < |s| then i else |s|;
    var hi := if j < lo then lo else if j < |s| then j else |s|;
    s[lo..hi]
  }

  /** `f"GBPJPY_{year}_1m.csv"` */
  function ToyName(y: int): string {
    "GBPJPY_" + IntToString(y) + "_1m.csv"
  }

  predicate IsToyName(f: string) {
    StartsWith(f, "GBPJPY_") && EndsWith(f, "_1m.csv")
  }

  /** `int(f[7:11])` */
  function CsvYear(f: string): Option<int> {
    ParseInt(Slice(f, 7, 11))
  }

  /** `int(f[:4])` */
  function StemYear(f: string): Option<int> {
    ParseInt(Slice(f, 0, 4))
  }

  /** `csv_years`: the years of the toy files; a name whose year does not
      parse raises ValueError. */
  function CsvYears(names: set<string>): (r: Result<set<int>>)
    ensures r.Err? ==> r.error == ValueError
  {
    if forall f :: f in names && IsToyName(f) ==> CsvYear(f).Some? then
      Ok(set f | f in names && IsToyName(f) && CsvYear(f).Some? :: CsvYear(f).value)
    else Err(ValueError)
  }

  /** `years_parsed`: the years of the JSON files already written. */
  function ParsedYears(names: set<string>): (r: Result<set<int>>)
    ensures r.Err? ==> r.error == ValueError
  {
    if forall f :: f in names && EndsWith(f, ".json") ==> StemYear(f).Some? then
      Ok(set f | f in names && EndsWith(f, ".json") && StemYear(f).Some? :: StemYear(f).value)
    else Err(ValueError)
  }

  /** The years the loop builds: the toy years, less those already parsed
      unless `REBUILD`. */
  function YearsToBuild(script: Script, written: set<string>, toyNames: set<string>): (r: Result<set<int>>)
    ensures r.Err? ==> r.error == ValueError
  {
    var parsed :- ParsedYears(written);
    var csv :- CsvYears(toyNames);
    Ok(if Rebuild(script) then csv else csv - parsed)
  }

  /** A year is built exactly when it is the year of some toy file and,
      without `REBUILD`, no JSON file of that year exists yet; any name whose
      year does not parse stops the script with ValueError. */
  lemma YearsToBuildSpec(script: Script, written: set<string>, toyNames: set<string>, y: int)
    ensures YearsToBuild(script, written, toyNames).Ok? <==>
      (forall f :: f in written && EndsWith(f, ".json") ==> StemYear(f).Some?) &&
      (forall f :: f in toyNames && IsToyName(f) ==> CsvYear(f).Some?)
    ensures YearsToBuild(script, written, toyNames).Ok? ==>
      (y in YearsToBuild(script, written, toyNames).value <==>
        (exists f :: f in toyNames && IsToyName(f) && CsvYear(f) == Some(y)) &&
        (Rebuild(script) || !exists f :: f in written && EndsWith(f, ".json") && StemYear(f) == Some(y)))
  {
  }

  lemma {:induction false} NatToStringAtLeast(n: nat)
    requires n >= 1000
    ensures |NatToString(n)| >= 4
  {
    assert NatToString(n) == NatToString(n / 10) + [DigitChar(n % 10)];
    assert NatToString(n / 10) == NatToString(n / 100) + [DigitChar(n / 10 % 10)];
    assert NatToString(n / 100) == NatToString(n / 1000) + [DigitChar(n / 100 % 10)];
  }

  /** The file `make_67_json(y)` opens is one whose name the listing reads
      back as year y, for every four-digit year. */
  lemma ToyNameYear(y: int)
    requires 1000 <= y < 10000
    ensures IsToyName(ToyName(y))
    ensures CsvYear(ToyName(y)) == Some(y)
  {
    var s := NatToString(y);
    NatToStringLength(y, 4);
    NatToStringAtLeast(y);
    DigitsOfNat(y);
    var f := ToyName(y);
    assert f[..7] == "GBPJPY_";
    assert f[|f| - 7..] == "_1m.csv";
    assert Slice(f, 7, 11) == s;
  }

  // ---------------------------------------------------------------------------
  // The 6-7am records

  /** The dates of the session bars, in file order. */
  function SessionDates(bars: seq<Bar>): seq<Date> {
    if bars == [] then []
    else (if InSession(bars[0].time) then [DateOf(bars[0].time)] else []) + SessionDates(bars[1..])
  }

  lemma {:induction false} SessionDatesSpec(bars: seq<Bar>)
    ensures forall d :: d in SessionDates(bars) <==> exists b :: b in bars && SessionBar(b, d)
  {
    if bars != [] {
      SessionDatesSpec(bars[1..]);
      var head := if InSession(bars[0].time) then [DateOf(bars[0].time)] else [];
      assert SessionDates(bars) == head + SessionDates(bars[1..]);
      forall d ensures d in SessionDates(bars) <==> exists b :: b in bars && SessionBar(b, d) {
        if d in head {
          assert SessionBar(bars[0], d);
        }
        if exists b :: b in bars && SessionBar(b, d) {
          var b :| b in bars && SessionBar(b, d);
          if b != bars[0] {
            assert b in bars[1..];
          }
        }
      }
    }
  }

  /** `data.index`: the dates that keep both a 6-7am high and low after
      `dropna()`, ascending. */
  function Index(bars: seq<Bar>): seq<Date> {
    SortedSet(SessionDates(bars), IntLe)
  }

  lemma IndexSpec(bars: seq<Bar>)
    ensures SortedBy(Index(bars), IntLe) && NoDups(Index(bars))
    ensures forall d :: d in Index(bars) <==> d in Sessions(bars)
  {
    IntLeTotalOrder();
    SortedSetSpec(SessionDates(bars), IntLe);
    SessionDatesSpec(bars);
  }

  /** `data.loc[ix].to_dict()`, with `date` added by the FoXyLady script. */
  function DayRecord(script: Script, d: Date, s: Session): DayJson {
    DayJson(s.high, s.low, s.mean, if script.FoXyLadyScript? then Some(FormatDate(d)) else None)
  }

  /** `(fn, json_data)` of one date. */
  function DayEntry(script: Script, d: Date, s: Session): (string, DayJson) {
    (FormatDate(d) + ".json", DayRecord(script, d, s))
  }

  /** One file per date of `ds`, in order, from the table `data`. */
  function DayEntriesFrom(script: Script, ds: seq<Date>, data: map<Date, Session>): (r: seq<(string, DayJson)>)
    requires forall d :: d in ds ==> d in data
    ensures |r| == |ds|
  {
    seq(|ds|, i requires 0 <= i < |ds| => DayEntry(script, ds[i], data[ds[i]]))
  }

  lemma DayEntriesFromSpec(script: Script, ds: seq<Date>, data: map<Date, Session>, e: (string, DayJson))
    requires forall d :: d in ds ==> d in data
    ensures e in DayEntriesFrom(script, ds, data) <==> exists d :: d in ds && e == DayEntry(script, d, data[d])
  {
    var es := DayEntriesFrom(script, ds, data);
    if e in es {
      var i :| 0 <= i < |es| && es[i] == e;
      assert ds[i] in ds;
    }
    if exists d :: d in ds && e == DayEntry(script, d, data[d]) {
      var d :| d in ds && e == DayEntry(script, d, data[d]);
      var i :| 0 <= i < |ds| && ds[i] == d;
      assert es[i] == e;
    }
  }

  /** The files `make_67_json` writes, in order. */
  function DayEntries(script: Script, bars: seq<Bar>): seq<(string, DayJson)> {
    IndexSpec(bars);
    DayEntriesFrom(script, Index(bars), Sessions(bars))
  }

  /** One file is written per date with 6-7am bars, and no other. */
  lemma DayEntriesSpec(script: Script, bars: seq<Bar>, e: (string, DayJson))
    ensures e in DayEntries(script, bars) <==>
      exists d :: d in Sessions(bars) && e == DayEntry(script, d, Sessions(bars)[d])
  {
    IndexSpec(bars);
    DayEntriesFromSpec(script, Index(bars), Sessions(bars), e);
  }

  /** A date's record holds the highest high and the lowest low of its 6-7am
      bars and their mean, and carries its date string in the FoXyLady
      script only. */
  lemma DayRecordSpec(script: Script, bars: seq<Bar>, d: Date)
    requires d in Sessions(bars)
    ensures var r := DayRecord(script, d, Sessions(bars)[d]);
      (forall b :: b in bars && SessionBar(b, d) ==> b.high <= r.high67 && r.low67 <= b.low) &&
      (exists b :: b in bars && SessionBar(b, d) && b.high == r.high67) &&
      (exists b :: b in bars && SessionBar(b, d) && b.low == r.low67) &&
      r.mean == (r.high67 + r.low67) / 2.0 &&
      (r.date.Some? <==> script == FoXyLadyScript) &&
      (r.date.Some? ==> r.date.value == FormatDate(d))
  {
    assert DaySession(bars, d) == Some(Sessions(bars)[d]);
  }

  /** The files `make_minute_json` writes, one per row, in file order. */
  function MinuteEntries(bars: seq<Bar>): (r: seq<(string, MinuteJson)>)
    ensures |r| == |bars|
  {
    seq(|bars|, i requires 0 <= i < |bars| => MinuteEntry(bars[i]))
  }

  function MinuteEntry(b: Bar): (string, MinuteJson) {
    (FormatMinute(b.time) + ".json", MinuteJson(b.open, b.high, b.low, b.close))
  }

  function YearDayEntries(script: Script, toy: ToyFiles, y: int): seq<(string, DayJson)> {
    if ToyName(y) in toy then DayEntries(script, toy[ToyName(y)]) else []
  }

  function YearMinuteEntries(toy: ToyFiles, y: int): seq<(string, MinuteJson)> {
    if ToyName(y) in toy then MinuteEntries(toy[ToyName(y)]) else []
  }

  // ---------------------------------------------------------------------------
  // Writing files

  /** A directory after writing the given files in order. */
  function WriteAll<V>(m: map<string, V>, es: seq<(string, V)>): map<string, V>
    decreases |es|
  {
    if es == [] then m
    else WriteAll(m, es[..|es| - 1])[es[|es| - 1].0 := es[|es| - 1].1]
  }

  /** Writing one more file. */
  lemma WriteAllStep<V>(m: map<string, V>, es: seq<(string, V)>, i: nat)
    requires i < |es|
    ensures WriteAll(m, es[..i + 1]) == WriteAll(m, es[..i])[es[i].0 := es[i].1]
  {
    assert es[..i + 1][..i] == es[..i];
  }

  /** Writing never removes a file. */
  lemma {:induction false} WriteAllKeeps<V>(m: map<string, V>, es: seq<(string, V)>, k: string)
    requires k in m
    ensures k in WriteAll(m, es)
  {
    if es != [] {
      WriteAllKeeps(m, es[..|es| - 1], k);
    }
  }

  /** Every file written exists afterwards. */
  lemma {:induction false} WriteAllHas<V>(m: map<string, V>, es: seq<(string, V)>, e: (string, V))
    requires e in es
    ensures e.0 in WriteAll(m, es)
  {
    var init := es[..|es| - 1];
    if e != es[|es| - 1] {
      assert e in init;
      WriteAllHas(m, init, e);
    }
  }

  /** Every file afterwards is untouched or holds one of the written
      contents under its own name. */
  lemma {:induction false} WriteAllSound<V>(m: map<string, V>, es: seq<(string, V)>, k: string)
    requires k in WriteAll(m, es)
    ensures (k in m && WriteAll(m, es)[k] == m[k]) || (k, WriteAll(m, es)[k]) in es
  {
    if es != [] {
      var init := es[..|es| - 1];
      if es[|es| - 1].0 != k {
        WriteAllSound(m, init, k);
        assert forall e :: e in init ==> e in es;
      }
    }
  }

  /** A name written holds one of the contents written under it. */
  lemma {:induction false} WriteAllWritten<V>(m: map<string, V>, es: seq<(string, V)>, e: (string, V))
    requires e in es
    ensures e.0 in WriteAll(m, es) && (e.0, WriteAll(m, es)[e.0]) in es
  {
    var init := es[..|es| - 1];
    var last := es[|es| - 1];
    if last.0 != e.0 {
      assert e in init;
      WriteAllWritten(m, init, e);
      assert forall f :: f in init ==> f in es;
    }
  }

  /** A name written several times holds its last content. */
  lemma {:induction false} WriteAllLast<V>(m: map<string, V>, es: seq<(string, V)>, i: nat)
    requires i < |es|
    requires forall j :: i < j < |es| ==> es[j].0 != es[i].0
    ensures es[i].0 in WriteAll(m, es) && WriteAll(m, es)[es[i].0] == es[i].1
  {
    if i < |es| - 1 {
      WriteAllLast(m, es[..|es| - 1], i);
    }
  }

  /** Every file is either as before or one written for some year done. */
  ghost predicate FromYears<V>(cur: map<string, V>, prev: map<string, V>, done: set<int>, entries: int -> seq<(string, V)>) {
    forall k :: k in cur ==>
      (k in prev && cur[k] == prev[k]) || exists y :: y in done && (k, cur[k]) in entries(y)
  }

  /** No file was removed and every file of every year done exists, holding
      the content written for one of those years. */
  ghost predicate CoversYears<V>(cur: map<string, V>, prev: map<string, V>, done: set<int>, entries: int -> seq<(string, V)>) {
    (forall k :: k in prev ==> k in cur) &&
    forall y, e :: y in done && e in entries(y) ==>
      e.0 in cur && exists z :: z in done && (e.0, cur[e.0]) in entries(z)
  }

  lemma YearStep<V>(cur: map<string, V>, prev: map<string, V>, done: set<int>, entries: int -> seq<(string, V)>, y: int)
    requires FromYears(cur, prev, done, entries) && CoversYears(cur, prev, done, entries)
    ensures FromYears(WriteAll(cur, entries(y)), prev, done + {y}, entries)
    ensures CoversYears(WriteAll(cur, entries(y)), prev, done + {y}, entries)
  {
    var next := WriteAll(cur, entries(y));
    forall k | k in next
      ensures (k in prev && next[k] == prev[k]) || exists y' :: y' in done + {y} && (k, next[k]) in entries(y')
    {
      WriteAllSound(cur, entries(y), k);
    }
    forall k | k in prev ensures k in next {
      WriteAllKeeps(cur, entries(y), k);
    }
    forall y', e | y' in done + {y} && e in entries(y')
      ensures e.0 in next && exists z :: z in done + {y} && (e.0, next[e.0]) in entries(z)
    {
      if exists f :: f in entries(y) && f.0 == e.0 {
        var f :| f in entries(y) && f.0 == e.0;
        WriteAllWritten(cur, entries(y), f);
      } else {
        WriteAllKeeps(cur, entries(y), e.0);
        WriteAllSound(cur, entries(y), e.0);
        var z :| z in done && (e.0, cur[e.0]) in entries(z);
        assert z in done + {y};
      }
    }
  }

  lemma FromYearsWider<V>(cur: map<string, V>, prev: map<string, V>, done: set<int>, all: set<int>, entries: int -> seq<(string, V)>)
    requires FromYears(cur, prev, done, entries) && done <= all
    ensures FromYears(cur, prev, all, entries)
  {
  }

  lemma NonEmptyHas(s: set<int>)
    requires s != {}
    ensures exists y :: y in s
  {
    if forall y :: y !in s {
      assert false;
    }
  }

  /** Every year's toy file exists. */
  predicate ToysPresent(toy: ToyFiles, years: set<int>) {
    forall y :: y in years ==> ToyName(y) in toy
  }

  function DayEntriesOf(script: Script, toy: ToyFiles): int -> seq<(string, DayJson)> {
    y => YearDayEntries(script, toy, y)
  }

  function MinuteEntriesOf(toy: ToyFiles): int -> seq<(string, MinuteJson)> {
    y => YearMinuteEntries(toy, y)
  }

  // ---------------------------------------------------------------------------
  // The dates list

  /** `{f[:-5] for f in listing if f.endswith(".json")}` */
  function Stems(names: set<string>): set<string> {
    set f | f in names && EndsWith(f, ".json") :: f[..|f| - 5]
  }

  /** What `dates.csv` holds: the stems, each once, ascending. */
  ghost predicate DatesList(ds: seq<string>, names: set<string>) {
    StrictlySortedStrings(ds) && forall x :: x in ds <==> x in Stems(names)
  }

  /** At most one list is a dates list of a listing. */
  lemma DatesListUnique(a: seq<string>, b: seq<string>, names: set<string>)
    requires DatesList(a, names) && DatesList(b, names)
    ensures a == b
  {
    SortedStringsUnique(a, b);
    SortedStringsUnique(a, a);
  }

  /** Every date with a written file is listed under its date string. */
  lemma DayListed(names: set<string>, d: Date)
    requires FormatDate(d) + ".json" in names
    ensures FormatDate(d) in Stems(names)
  {
    var f := FormatDate(d) + ".json";
    assert f[|f| - 5..] == ".json";
    assert f[..|f| - 5] == FormatDate(d);
  }

  /** `sorted({f[:-5] for f in listing if f.endswith(".json")})` */
  method SortedStems(names: set<string>) returns (ds: seq<string>)
    ensures DatesList(ds, names)
  {
    var rest := names;
    var stems: seq<string> := [];
    while rest != {}
      invariant rest <= names
      invariant forall x :: x in stems <==> x in Stems(names - rest)
      decreases |rest|
    {
      var f :| f in rest;
      if EndsWith(f, ".json") {
        stems := stems + [f[..|f| - 5]];
      }
      rest := rest - {f};
    }
    assert names - rest == names;
    ds := SortedStrings(stems);
    SortedStringsSpec(stems);
  }

  // ---------------------------------------------------------------------------
  // Years already built

  /** A JSON file whose name starts with a year is parsed as that year, so
      the FXyLady script skips the year. */
  lemma ParsedYear(names: set<string>, toyNames: set<string>, k: string, y: int)
    requires k in names && EndsWith(k, ".json") && StemYear(k) == Some(y)
    ensures ParsedYears(names).Ok? ==> y in ParsedYears(names).value
    ensures YearsToBuild(FXyLadyScript, names, toyNames).Ok? ==> y !in YearsToBuild(FXyLadyScript, names, toyNames).value
  {
  }

  /** The name of a date's or a minute's file starts with its year. */
  lemma StemYearOfDate(d: Date, rest: string)
    requires 0 <= YearOfDate(d) < 10000
    ensures StemYear(FormatDate(d) + rest) == Some(YearOfDate(d))
  {
    FormatDateYear(d, rest);
    assert Slice(FormatDate(d) + rest, 0, 4) == (FormatDate(d) + rest)[..4];
  }

  /** A year whose toy file has a 6-7am bar of that year is, once built,
      among the years parsed from the 6-7am directory, so the FXyLady script
      does not build it again. */
  lemma DayYearSkipped(toy: ToyFiles, files: map<string, DayJson>, y: int, b: Bar)
    requires 0 <= y < 10000 && ToyName(y) in toy
    requires b in toy[ToyName(y)] && InSession(b.time) && YearOf(b.time) == y
    ensures var after := WriteAll(files, YearDayEntries(FXyLadyScript, toy, y));
      (ParsedYears(after.Keys).Ok? ==> y in ParsedYears(after.Keys).value) &&
      (YearsToBuild(FXyLadyScript, after.Keys, toy.Keys).Ok? ==> y !in YearsToBuild(FXyLadyScript, after.Keys, toy.Keys).value)
  {
    var bars := toy[ToyName(y)];
    var d := DateOf(b.time);
    assert SessionBar(b, d);
    var e := DayEntry(FXyLadyScript, d, Sessions(bars)[d]);
    DayEntriesSpec(FXyLadyScript, bars, e);
    var after := WriteAll(files, DayEntries(FXyLadyScript, bars));
    WriteAllHas(files, DayEntries(FXyLadyScript, bars), e);
    StemYearOfDate(d, ".json");
    assert EndsWith(e.0, ".json") by {
      assert e.0[|e.0| - 5..] == ".json";
    }
    ParsedYear(after.Keys, toy.Keys, e.0, y);
  }

  /** The same for the minute directory: a year with any bar of its own is
      parsed back once its minute files exist. */
  lemma MinuteYearSkipped(toy: ToyFiles, files: map<string, MinuteJson>, y: int, b: Bar)
    requires 0 <= y < 10000 && ToyName(y) in toy
    requires b in toy[ToyName(y)] && YearOf(b.time) == y
    ensures var after := WriteAll(files, YearMinuteEntries(toy, y));
      (ParsedYears(after.Keys).Ok? ==> y in ParsedYears(after.Keys).value) &&
      (YearsToBuild(FXyLadyScript, after.Keys, toy.Keys).Ok? ==> y !in YearsToBuild(FXyLadyScript, after.Keys, toy.Keys).value)
  {
    var bars := toy[ToyName(y)];
    var i :| 0 <= i < |bars| && bars[i] == b;
    var e := MinuteEntry(b);
    assert MinuteEntries(bars)[i] == e;
    var after := WriteAll(files, MinuteEntries(bars));
    WriteAllHas(files, MinuteEntries(bars), e);
    var d := DateOf(b.time);
    FormatMinuteStartsWithDate(b.time, ".json");
    var tail :| e.0 == FormatDate(d) + tail;
    StemYearOfDate(d, tail);
    assert EndsWith(e.0, ".json") by {
      assert e.0[|e.0| - 5..] == ".json";
    }
    ParsedYear(after.Keys, toy.Keys, e.0, y);
  }

  /** Of several rows stamped with the same minute, the file of that minute
      holds the prices of the last. */
  lemma MinuteFileLastRow(files: map<string, MinuteJson>, bars: seq<Bar>, i: nat)
    requires i < |bars|
    requires forall j :: i < j < |bars| ==> FormatMinute(bars[j].time) != FormatMinute(bars[i].time)
    ensures var after := WriteAll(files, MinuteEntries(bars));
      var k := FormatMinute(bars[i].time) + ".json";
      k in after && after[k] == MinuteJson(bars[i].open, bars[i].high, bars[i].low, bars[i].close)
  {
    var es := MinuteEntries(bars);
    forall j | i < j < |es| ensures es[j].0 != es[i].0 {
      assert es[j].0 == FormatMinute(bars[j].time) + ".json";
      assert es[j].0[..|es[j].0| - 5] == FormatMinute(bars[j].time);
      assert es[i].0[..|es[i].0| - 5] == FormatMinute(bars[i].time);
    }
    WriteAllLast(files, es, i);
  }

  // ---------------------------------------------------------------------------
  // The scripts' file system

  /** The bot's `test` data directory and the toy-dataset directory the
      scripts read. Directory names are relative to `bot_data/FXyLady`. */
  class TestData {
    const toy: ToyFiles
    var dirs: set<string>
    var files67: map<string, DayJson>
    var filesMinute: map<string, MinuteJson>
    var datesCsv: Option<seq<string>>

    constructor(toy: ToyFiles, dirs: set<string>, files67: map<string, DayJson>,
                filesMinute: map<string, MinuteJson>, datesCsv: Option<seq<string>>)
      ensures this.toy == toy && this.dirs == dirs && this.files67 == files67
      ensures this.filesMinute == filesMinute && this.datesCsv == datesCsv
    {
      this.toy := toy;
      this.dirs := dirs;
      this.files67 := files67;
      this.filesMinute := filesMinute;
      this.datesCsv := datesCsv;
    }

    /** The FXyLady script's directory setup: `test`, then its two
        sub-directories, each made only when missing. */
    method MakeDirs()
      modifies this`dirs
      ensures dirs == old(dirs) + {"test", "test/67_data", "test/minute_data"}
    {
      if "test" !in dirs {
        dirs := dirs + {"test"};
      }
      var subdirs := ["67_data", "minute_data"];
      for i := 0 to |subdirs|
        invariant dirs == old(dirs) + {"test"} + (set j | 0 <= j < i :: "test/" + subdirs[j])
      {
        var subdir := "test/" + subdirs[i];
        if subdir !in dirs {
          dirs := dirs + {subdir};
        }
      }
      assert (set j | 0 <= j < 2 :: "test/" + subdirs[j]) == {"test/67_data", "test/minute_data"} by {
        assert "test/" + subdirs[0] == "test/67_data";
        assert "test/" + subdirs[1] == "test/minute_data";
      }
    }

    /** `make_67_json(year)`: a missing toy file raises FileNotFoundError
        before anything is written; otherwise one file per date, in date
        order. */
    method Make67Json(script: Script, year: int) returns (o: Outcome)
      modifies this`files67
      ensures ToyName(year) !in toy ==> o == Fail(FileNotFoundError) && files67 == old(files67)
      ensures ToyName(year) in toy ==> o == Pass && files67 == WriteAll(old(files67), YearDayEntries(script, toy, year))
    {
      var fn := ToyName(year);
      if fn !in toy {
        return Fail(FileNotFoundError);
      }
      var bars := toy[fn];
      IndexSpec(bars);
      WriteDays(script, Index(bars), Sessions(bars));
      o := Pass;
    }

    /** `for ix in data.index:` writing `<date>.json` for each date. */
    method WriteDays(script: Script, index: seq<Date>, data: map<Date, Session>)
      modifies this`files67
      requires forall d :: d in index ==> d in data
      ensures files67 == WriteAll(old(files67), DayEntriesFrom(script, index, data))
    {
      ghost var before := files67;
      ghost var es := DayEntriesFrom(script, index, data);
      for i := 0 to |index|
        invariant files67 == WriteAll(before, es[..i])
      {
        var ix := index[i];
        var dateStr := FormatDate(ix);
        var jsonData := DayRecord(script, ix, data[ix]);
        files67 := files67[dateStr + ".json" := jsonData];
        WriteAllStep(before, es, i);
      }
      assert es[..|index|] == es;
    }

    /** `for y in csv_years: make_67_json(y)`, in the set's order, stopping
        at the first failure. */
    method Make67Years(script: Script, years: set<int>) returns (o: Outcome)
      modifies this`files67
      ensures o.Pass? <==> ToysPresent(toy, years)
      ensures o.Fail? ==> o.error == FileNotFoundError
      ensures FromYears(files67, old(files67), years, DayEntriesOf(script, toy))
      ensures o.Pass? ==> CoversYears(files67, old(files67), years, DayEntriesOf(script, toy))
    {
      var rest := years;
      ghost var done: set<int> := {};
      ghost var entries := DayEntriesOf(script, toy);
      while rest != {}
        invariant rest <= years && done == years - rest
        invariant ToysPresent(toy, done)
        invariant FromYears(files67, old(files67), done, entries)
        invariant CoversYears(files67, old(files67), done, entries)
        decreases |rest|
      {
        NonEmptyHas(rest);
        var y :| y in rest;
        ghost var before := files67;
        o := Make67Json(script, y);
        if o.Fail? {
          FromYearsWider(files67, old(files67), done, years, entries);
          return;
        }
        assert entries(y) == YearDayEntries(script, toy, y);
        YearStep(before, old(files67), done, entries, y);
        done := done + {y};
        rest := rest - {y};
      }
      o := Pass;
    }

    /** The 6-7am block: choose the years, then build each. */
    method Build67(script: Script) returns (o: Outcome)
      modifies this`files67
      ensures YearsToBuild(script, old(files67).Keys, toy.Keys).Err? ==>
        o == Fail(ValueError) && files67 == old(files67)
      ensures YearsToBuild(script, old(files67).Keys, toy.Keys).Ok? ==>
        var years := YearsToBuild(script, old(files67).Keys, toy.Keys).value;
        (o.Pass? <==> ToysPresent(toy, years)) &&
        (o.Fail? ==> o.error == FileNotFoundError) &&
        FromYears(files67, old(files67), years, DayEntriesOf(script, toy)) &&
        (o.Pass? ==> CoversYears(files67, old(files67), years, DayEntriesOf(script, toy)))
    {
      var years := YearsToBuild(script, files67.Keys, toy.Keys);
      if years.Err? {
        return Fail(years.error);
      }
      o := Make67Years(script, years.value);
    }

    /** The dates block: `dates.csv` is (re)written when `REBUILD` is set or
        the file is missing, listing the stems of the 6-7am files. */
    method WriteDatesCsv(script: Script)
      modifies this`datesCsv
      ensures Rebuild(script) || old(datesCsv).None? ==> datesCsv.Some? && DatesList(datesCsv.value, files67.Keys)
      ensures !Rebuild(script) && old(datesCsv).Some? ==> datesCsv == old(datesCsv)
    {
      if Rebuild(script) || datesCsv.None? {
        var dates := SortedStems(files67.Keys);
        datesCsv := Some(dates);
      }
    }

    /** `make_minute_json(year)`: one file per row, named by its minute. */
    method MakeMinuteJson(year: int) returns (o: Outcome)
      modifies this`filesMinute
      ensures ToyName(year) !in toy ==> o == Fail(FileNotFoundError) && filesMinute == old(filesMinute)
      ensures ToyName(year) in toy ==> o == Pass && filesMinute == WriteAll(old(filesMinute), YearMinuteEntries(toy, year))
    {
      var fn := ToyName(year);
      if fn !in toy {
        return Fail(FileNotFoundError);
      }
      var yearDf := toy[fn];
      ghost var es := MinuteEntries(yearDf);
      for ix := 0 to |yearDf|
        invariant filesMinute == WriteAll(old(filesMinute), es[..ix])
      {
        var row := yearDf[ix];
        var name := FormatMinute(row.time) + ".json";
        filesMinute := filesMinute[name := MinuteJson(row.open, row.high, row.low, row.close)];
        WriteAllStep(old(filesMinute), es, ix);
      }
      assert es[..|yearDf|] == es;
      o := Pass;
    }

    /** `for y in csv_years: make_minute_json(y)` */
    method MakeMinuteYears(years: set<int>) returns (o: Outcome)
      modifies this`filesMinute
      ensures o.Pass? <==> ToysPresent(toy, years)
      ensures o.Fail? ==> o.error == FileNotFoundError
      ensures FromYears(filesMinute, old(filesMinute), years, MinuteEntriesOf(toy))
      ensures o.Pass? ==> CoversYears(filesMinute, old(filesMinute), years, MinuteEntriesOf(toy))
    {
      var rest := years;
      ghost var done: set<int> := {};
      ghost var entries := MinuteEntriesOf(toy);
      while rest != {}
        invariant rest <= years && done == years - rest
        invariant ToysPresent(toy, done)
        invariant FromYears(filesMinute, old(filesMinute), done, entries)
        invariant CoversYears(filesMinute, old(filesMinute), done, entries)
        decreases |rest|
      {
        NonEmptyHas(rest);
        var y :| y in rest;
        ghost var before := filesMinute;
        o := MakeMinuteJson(y);
        if o.Fail? {
          FromYearsWider(filesMinute, old(filesMinute), done, years, entries);
          return;
        }
        assert entries(y) == YearMinuteEntries(toy, y);
        YearStep(before, old(filesMinute), done, entries, y);
        done := done + {y};
        rest := rest - {y};
      }
      o := Pass;
    }

    /** The FXyLady script's minute block: the years not yet in the minute
        directory, each through `make_minute_json`. */
    method BuildMinute() returns (o: Outcome)
      modifies this`filesMinute
      ensures YearsToBuild(FXyLadyScript, old(filesMinute).Keys, toy.Keys).Err? ==>
        o == Fail(ValueError) && filesMinute == old(filesMinute)
      ensures YearsToBuild(FXyLadyScript, old(filesMinute).Keys, toy.Keys).Ok? ==>
        var years := YearsToBuild(FXyLadyScript, old(filesMinute).Keys, toy.Keys).value;
        (o.Pass? <==> ToysPresent(toy, years)) &&
        (o.Fail? ==> o.error == FileNotFoundError) &&
        FromYears(filesMinute, old(filesMinute), years, MinuteEntriesOf(toy)) &&
        (o.Pass? ==> CoversYears(filesMinute, old(filesMinute), years, MinuteEntriesOf(toy)))
    {
      var years := YearsToBuild(FXyLadyScript, filesMinute.Keys, toy.Keys);
      if years.Err? {
        return Fail(years.error);
      }
      o := MakeMinuteYears(years.value);
    }
  }
}
