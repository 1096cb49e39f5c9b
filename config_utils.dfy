/** Helpers of thales/config/utils.py: the datetime string formats and
    `parse_datetime`, and `merge_dupe_cols` on a frame whose column names
    repeat. A frame is a sequence of named columns in column order; a
    missing cell (None or NaN) is `VNone`. */
module ConfigUtils {
  import opened Common
  import opened Sorting
  import opened DateTimes

  // ---------------------------------------------------------------------------
  // parse_datetime

  datatype DateFormat = MilliFormat | SecondFormat | MinuteFormat | DayFormat

  /** `DATE_FORMATS` */
  function FormatText(f: DateFormat): string {
    match f
    case MilliFormat => "%Y_%m_%d %H;%M;%S;%f"
    case SecondFormat => "%Y_%m_%d %H;%M;%S"
    case MinuteFormat => "%Y_%m_%d %H;%M"
    case DayFormat => "%Y_%m_%d"
  }

  /** The formats a string is tried against, most specific first. */
  const TryOrder: seq<DateFormat> := [MilliFormat, SecondFormat, MinuteFormat, DayFormat]

  /** The kinds of value `parse_datetime` distinguishes. */
  datatype Moment =
    | DateTimeValue(t: DateTime)
    | DateValue(d: Date)
    | TimestampValue(stamp: DateTime)
    | TextValue(s: string)
    | OtherValue

  /** The first of `formats` that `strptime` accepts `s` in. `strptime`
      gives None where Python raises ValueError. */
  function TryFormats(s: string, formats: seq<DateFormat>, strptime: (string, string) -> Option<DateTime>): Option<DateTime> {
    if formats == [] then None
    else if strptime(s, FormatText(formats[0])).Some? then strptime(s, FormatText(formats[0]))
    else TryFormats(s, formats[1..], strptime)
  }

  /** `parse_datetime(dt)`: datetimes and timestamps are returned as they
      are, a date becomes its midnight, a string goes through the fixed
      formats and then `fallback` (dateutil's parser), and any other value
      gives None. */
  function ParseDatetimeSpec(dt: Moment, strptime: (string, string) -> Option<DateTime>,
                             fallback: string -> Result<DateTime>): Result<Option<DateTime>> {
    match dt
    case DateTimeValue(t) => Ok(Some(t))
    case DateValue(d) => Ok(Some(Midnight(d)))
    case TimestampValue(t) => Ok(Some(t))
    case TextValue(s) =>
      var tried := TryFormats(s, TryOrder, strptime);
      if tried.Some? then Ok(tried)
      else
        var parsed :- fallback(s);
        Ok(Some(parsed))
    case OtherValue => Ok(None)
  }

  /** The loop over the formats, returning at the first one that parses. */
  method ParseDatetime(dt: Moment, strptime: (string, string) -> Option<DateTime>,
                       fallback: string -> Result<DateTime>) returns (r: Result<Option<DateTime>>)
    ensures r == ParseDatetimeSpec(dt, strptime, fallback)
  {
    match dt {
      case DateTimeValue(t) => return Ok(Some(t));
      case DateValue(d) => return Ok(Some(Midnight(d)));
      case TimestampValue(t) => return Ok(Some(t));
      case OtherValue => return Ok(None);
      case TextValue(s) =>
        var i := 0;
        while i < |TryOrder|
          invariant 0 <= i <= |TryOrder|
          invariant TryFormats(s, TryOrder, strptime) == TryFormats(s, TryOrder[i..], strptime)
        {
          var parsed := strptime(s, FormatText(TryOrder[i]));
          if parsed.Some? {
            return Ok(parsed);
          }
          assert TryOrder[i..][1..] == TryOrder[i + 1..];
          i := i + 1;
        }
        var t := fallback(s);
        if t.Err? {
          return Err(t.error);
        }
        r := Ok(Some(t.value));
    }
  }

  /** A string is parsed in the first format `strptime` accepts: the result
      comes from format `k` exactly when every earlier format fails and `k`
      succeeds. */
  lemma {:induction false} TryFormatsFirst(s: string, formats: seq<DateFormat>,
                                           strptime: (string, string) -> Option<DateTime>, t: DateTime)
    ensures TryFormats(s, formats, strptime) == Some(t) <==>
      exists k :: 0 <= k < |formats| && strptime(s, FormatText(formats[k])) == Some(t) &&
        forall j :: 0 <= j < k ==> strptime(s, FormatText(formats[j])).None?
  {
    if formats != [] {
      TryFormatsFirst(s, formats[1..], strptime, t);
      if strptime(s, FormatText(formats[0])).None? {
        if exists k :: 0 <= k < |formats| && strptime(s, FormatText(formats[k])) == Some(t) &&
            forall j :: 0 <= j < k ==> strptime(s, FormatText(formats[j])).None? {
          var k :| 0 <= k < |formats| && strptime(s, FormatText(formats[k])) == Some(t) &&
            forall j :: 0 <= j < k ==> strptime(s, FormatText(formats[j])).None?;
          assert k > 0;
          assert formats[1..][k - 1] == formats[k];
          assert forall j :: 0 <= j < k - 1 ==> formats[1..][j] == formats[j + 1];
        }
        if TryFormats(s, formats, strptime) == Some(t) {
          var k :| 0 <= k < |formats[1..]| && strptime(s, FormatText(formats[1..][k])) == Some(t) &&
            forall j :: 0 <= j < k ==> strptime(s, FormatText(formats[1..][j])).None?;
          assert formats[k + 1] == formats[1..][k];
          forall j | 0 <= j < k + 1 ensures strptime(s, FormatText(formats[j])).None? {
            if j > 0 {
              assert formats[j] == formats[1..][j - 1];
            }
          }
        }
      } else {
        if TryFormats(s, formats, strptime) == Some(t) {
          assert strptime(s, FormatText(formats[0])) == Some(t);
        }
      }
    }
  }

  /** A date becomes that day's midnight, and datetimes come back unchanged,
      so parsing a parsed value changes nothing. */
  lemma ParseDatetimeValues(d: Date, t: DateTime, strptime: (string, string) -> Option<DateTime>,
                            fallback: string -> Result<DateTime>)
    ensures ParseDatetimeSpec(DateValue(d), strptime, fallback).Ok?
    ensures var m := ParseDatetimeSpec(DateValue(d), strptime, fallback).value.value;
      DateOf(m) == d && TruncDay(m) == m
    ensures ParseDatetimeSpec(DateTimeValue(t), strptime, fallback) == Ok(Some(t))
    ensures ParseDatetimeSpec(TimestampValue(t), strptime, fallback) == Ok(Some(t))
  {
    MidnightOfDate(Midnight(d));
  }

  // ---------------------------------------------------------------------------
  // Frames of named columns

  type Column = (string, seq<Value>)
  type Table = seq<Column>

  /** The columns named `c`, in column order: `df[c]`. */
  function Named(t: Table, c: string): seq<seq<Value>> {
    if t == [] then []
    else if t[0].0 == c then [t[0].1] + Named(t[1..], c)
    else Named(t[1..], c)
  }

  lemma {:induction false} NamedEmpty(t: Table, c: string)
    ensures Named(t, c) == [] <==> c !in Keys(t)
  {
    if t != [] {
      NamedEmpty(t[1..], c);
      assert Keys(t) == [t[0].0] + Keys(t[1..]);
    }
  }

  /** `df.drop(columns=c)` */
  function DropNamed(t: Table, c: string): (r: Table)
    ensures forall x :: x in r <==> x in t && x.0 != c
  {
    if t == [] then []
    else if t[0].0 == c then DropNamed(t[1..], c)
    else [t[0]] + DropNamed(t[1..], c)
  }

  /** Every column has `n` rows. */
  predicate Rectangular(t: Table, n: nat) {
    forall i :: 0 <= i < |t| ==> |t[i].1| == n
  }

  /** `a.fillna(b)`: the missing cells of `a` taken from `b`. */
  function Fill(a: seq<Value>, b: seq<Value>): (r: seq<Value>)
    ensures |r| == |a|
    ensures forall k :: 0 <= k < |a| ==> r[k] == (if a[k].VNone? && k < |b| then b[k] else a[k])
  {
    seq(|a|, k requires 0 <= k < |a| => if a[k].VNone? && k < |b| then b[k] else a[k])
  }

  /** The first column filled from each later one in turn. */
  function Coalesce(cols: seq<seq<Value>>): (r: seq<Value>)
    ensures |cols| > 0 ==> |r| == |cols[0]|
  {
    if |cols| == 0 then []
    else if |cols| == 1 then cols[0] else Fill(Coalesce(cols[..|cols| - 1]), cols[|cols| - 1])
  }

  /** The first present value, or missing when there is none. */
  function FirstPresent(vs: seq<Value>): Value {
    if vs == [] then VNone else if !vs[0].VNone? then vs[0] else FirstPresent(vs[1..])
  }

  /** Row `k` across the columns. */
  function Across(cols: seq<seq<Value>>, k: nat): (r: seq<Value>)
    ensures |r| == |cols|
  {
    seq(|cols|, i requires 0 <= i < |cols| => if k < |cols[i]| then cols[i][k] else VNone)
  }

  lemma {:induction false} FirstPresentSnoc(vs: seq<Value>, v: Value)
    ensures FirstPresent(vs + [v]) == if FirstPresent(vs).VNone? then v else FirstPresent(vs)
  {
    if vs != [] {
      assert (vs + [v])[1..] == vs[1..] + [v];
      FirstPresentSnoc(vs[1..], v);
    }
  }

  /** Merging by `fillna` keeps, in each row, the first value present among
      the columns, in column order. */
  lemma {:induction false} CoalesceSpec(cols: seq<seq<Value>>, n: nat, k: nat)
    requires |cols| > 0 && k < n
    requires forall i :: 0 <= i < |cols| ==> |cols[i]| == n
    ensures Coalesce(cols)[k] == FirstPresent(Across(cols, k))
  {
    if |cols| > 1 {
      var init := cols[..|cols| - 1];
      CoalesceSpec(init, n, k);
      assert Across(cols, k) == Across(init, k) + [cols[|cols| - 1][k]];
      FirstPresentSnoc(Across(init, k), cols[|cols| - 1][k]);
    } else {
      assert Across(cols, k) == [cols[0][k]];
    }
  }

  // ---------------------------------------------------------------------------
  // merge_dupe_cols

  /** The distinct names in order of first appearance: the keys of
      `Counter(df.columns)`. */
  function DistinctFirst(s: seq<string>): (r: seq<string>)
    ensures NoDups(r)
    ensures forall x :: x in r <==> x in s
  {
    if s == [] then []
    else
      var init := DistinctFirst(s[..|s| - 1]);
      assert forall x :: x in s <==> x in s[..|s| - 1] || x == s[|s| - 1];
      if s[|s| - 1] in init then init else init + [s[|s| - 1]]
  }

  /** The names of `names` that name more than one column. */
  function Repeated(t: Table, names: seq<string>): (r: seq<string>)
    ensures forall c :: c in r <==> c in names && |Named(t, c)| > 1
    ensures NoDups(names) ==> NoDups(r)
  {
    if names == [] then []
    else
      var rest := Repeated(t, names[1..]);
      if |Named(t, names[0])| > 1 then [names[0]] + rest else rest
  }

  /** `dupe_cols`: the repeated names in order of first appearance. */
  function Dupes(t: Table): seq<string> {
    Repeated(t, DistinctFirst(Keys(t)))
  }

  /** One turn of the loop: the columns named `c` are dropped and their
      merge is appended as a single column `c`. */
  function MergeStep(t: Table, c: string): Table {
    if Named(t, c) == [] then t else DropNamed(t, c) + [(c, Coalesce(Named(t, c)))]
  }

  /** The frame after the loop has merged the names `cs` in turn. */
  function MergeAll(t: Table, cs: seq<string>): Table {
    if cs == [] then t else MergeStep(MergeAll(t, cs[..|cs| - 1]), cs[|cs| - 1])
  }

  method MergeDupeCols(t: Table) returns (r: Table)
    ensures r == MergeAll(t, Dupes(t))
  {
    var dupes := Dupes(t);
    r := t;
    var i := 0;
    while i < |dupes|
      invariant 0 <= i <= |dupes|
      invariant r == MergeAll(t, dupes[..i])
    {
      assert dupes[..i + 1][..i] == dupes[..i];
      r := MergeStep(r, dupes[i]);
      i := i + 1;
    }
    assert dupes[..i] == dupes;
  }

  lemma NamedCons(x: Column, t: Table, d: string)
    ensures Named([x] + t, d) == if x.0 == d then [x.1] + Named(t, d) else Named(t, d)
  {
    assert ([x] + t)[1..] == t;
  }

  lemma {:induction false} NamedAppend(a: Table, b: Table, d: string)
    ensures Named(a + b, d) == Named(a, d) + Named(b, d)
  {
    if a == [] {
      assert a + b == b;
    } else {
      var x := a[0];
      assert a == [x] + a[1..];
      assert a + b == [x] + (a[1..] + b);
      NamedCons(x, a[1..] + b, d);
      NamedCons(x, a[1..], d);
      NamedAppend(a[1..], b, d);
      if x.0 == d {
        assert ([x.1] + Named(a[1..], d)) + Named(b, d) == [x.1] + (Named(a[1..], d) + Named(b, d));
      }
    }
  }

  lemma {:induction false} NamedDrop(t: Table, c: string, d: string)
    ensures Named(DropNamed(t, c), d) == if d == c then [] else Named(t, d)
  {
    if t != [] {
      NamedDrop(t[1..], c, d);
    }
  }

  lemma NamedStep(t: Table, c: string, d: string)
    ensures Named(MergeStep(t, c), d) ==
      if d == c && Named(t, c) != [] then [Coalesce(Named(t, c))] else Named(t, d)
  {
    if Named(t, c) != [] {
      NamedAppend(DropNamed(t, c), [(c, Coalesce(Named(t, c)))], d);
      NamedDrop(t, c, d);
      assert Named([(c, Coalesce(Named(t, c)))], d) == if d == c then [Coalesce(Named(t, c))] else [];
    }
  }

  /** After merging the distinct names `cs`, each of them names a single
      column holding its merge, and every other name keeps its columns. */
  lemma {:induction false} NamedMergeAll(t: Table, cs: seq<string>, d: string)
    requires NoDups(cs)
    requires forall c :: c in cs ==> c in Keys(t)
    ensures Named(MergeAll(t, cs), d) == if d in cs then [Coalesce(Named(t, d))] else Named(t, d)
  {
    if cs != [] {
      var init := cs[..|cs| - 1];
      var c := cs[|cs| - 1];
      assert forall x :: x in cs <==> x in init || x == c;
      assert NoDups(init) by {
        forall i, j | 0 <= i < j < |init| ensures init[i] != init[j] {
          assert init[i] == cs[i] && init[j] == cs[j];
        }
      }
      assert c !in init by {
        forall i | 0 <= i < |init| ensures init[i] != c {
          assert init[i] == cs[i];
        }
      }
      NamedMergeAll(t, init, d);
      NamedMergeAll(t, init, c);
      NamedEmpty(t, c);
      NamedStep(MergeAll(t, init), c, d);
    }
  }

  lemma {:induction false} SingleNamesNoDups(t: Table)
    requires forall d :: |Named(t, d)| <= 1
    ensures NoDups(Keys(t))
  {
    if t != [] {
      forall d ensures |Named(t[1..], d)| <= 1 {
        assert |Named(t, d)| <= 1;
      }
      SingleNamesNoDups(t[1..]);
      assert Named(t, t[0].0) == [t[0].1] + Named(t[1..], t[0].0);
      NamedEmpty(t[1..], t[0].0);
      assert t[0].0 !in Keys(t[1..]);
      assert Keys(t) == [t[0].0] + Keys(t[1..]);
    }
  }

  /** The columns of each name after `merge_dupe_cols`. */
  lemma MergedNamed(t: Table, d: string)
    ensures Named(MergeAll(t, Dupes(t)), d) == if d in Keys(t) then [Coalesce(Named(t, d))] else []
  {
    NamedMergeAll(t, Dupes(t), d);
    NamedEmpty(t, d);
    if d in Keys(t) && d !in Dupes(t) {
      assert |Named(t, d)| == 1;
      assert Named(t, d) == [Named(t, d)[0]];
    }
  }

  /** `merge_dupe_cols` leaves no repeated column name and no name lost or
      added, and the column of each name is the merge of that name's
      columns (a name that did not repeat keeps its column). */
  lemma MergeDupeColsSpec(t: Table)
    ensures NoDups(Keys(MergeAll(t, Dupes(t))))
    ensures forall c :: c in Keys(MergeAll(t, Dupes(t))) <==> c in Keys(t)
    ensures forall c :: c in Keys(t) ==> Named(MergeAll(t, Dupes(t)), c) == [Coalesce(Named(t, c))]
  {
    var r := MergeAll(t, Dupes(t));
    forall c ensures (c in Keys(r) <==> c in Keys(t)) && |Named(r, c)| <= 1 &&
      (c in Keys(t) ==> Named(r, c) == [Coalesce(Named(t, c))]) {
      MergedNamed(t, c);
      NamedEmpty(r, c);
    }
    SingleNamesNoDups(r);
  }

  /** With every column `n` rows long, the value of each name in each row of
      the merged frame is the first value present among that name's columns
      in column order. */
  lemma MergeDupeColsRows(t: Table, n: nat, c: string, k: nat)
    requires Rectangular(t, n) && k < n
    requires c in Keys(t)
    ensures |Named(MergeAll(t, Dupes(t)), c)| == 1 && |Named(MergeAll(t, Dupes(t)), c)[0]| == n
    ensures Named(MergeAll(t, Dupes(t)), c)[0][k] == FirstPresent(Across(Named(t, c), k))
  {
    MergeDupeColsSpec(t);
    NamedRectangular(t, n, c);
    NamedEmpty(t, c);
    assert |Named(t, c)| > 0;
    CoalesceSpec(Named(t, c), n, k);
  }

  lemma {:induction false} NamedRectangular(t: Table, n: nat, c: string)
    requires Rectangular(t, n)
    ensures forall i :: 0 <= i < |Named(t, c)| ==> |Named(t, c)[i]| == n
  {
    if t != [] {
      NamedRectangular(t[1..], n, c);
    }
  }
}
