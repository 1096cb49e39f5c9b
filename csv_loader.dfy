/** `CSVLoader` (thales/data/csv_loader.py): which symbol files are loaded,
    how a frame whose columns carry both standard and source-specific names
    is cleaned, how rows scraped more than once are de-duplicated, and how
    open, high and low are rescaled by the adjusted close. */
module CsvLoader {
  import opened Common
  import opened Sorting
  import opened DateTimes
  import opened ConfigUtils

  // ---------------------------------------------------------------------------
  // load_by_symbol: choosing the files

  /** `[f"{str.upper(s)}.csv" for s in sym]` */
  function Targets(syms: seq<string>): (r: seq<string>)
    ensures |r| == |syms| && forall i :: 0 <= i < |syms| ==> r[i] == Upper(syms[i]) + ".csv"
  {
    if syms == [] then [] else [Upper(syms[0]) + ".csv"] + Targets(syms[1..])
  }

  /** `[m[:-4] for m in missing]` */
  function Stems(names: seq<string>): (r: seq<string>)
    ensures |r| == |names|
    ensures forall i :: 0 <= i < |names| ==> r[i] == (if |names[i]| >= 4 then names[i][..|names[i]| - 4] else "")
  {
    if names == [] then []
    else [if |names[0]| >= 4 then names[0][..|names[0]| - 4] else ""] + Stems(names[1..])
  }

  /** The files to read, in sorted order, and the symbols without a file,
      for the warning. */
  datatype Selection = Selection(toLoad: seq<string>, missing: seq<string>)

  /** The file selection of `load_by_symbol`. No symbols means the master
      list; a missing data directory fails the assertion; nothing loadable
      gives None. */
  function SelectFiles(syms: seq<string>, master: seq<string>, dirExists: bool, csvs: seq<string>): Result<Option<Selection>> {
    if !dirExists then Err(AssertionError)
    else
      var targets := Targets(if syms == [] then master else syms);
      var toLoad := SortedStrings(Within(targets, csvs));
      var missing := SortedStrings(Without(targets, toLoad));
      if toLoad == [] then Ok(None) else Ok(Some(Selection(toLoad, Stems(missing))))
  }

  /** The files loaded are exactly the targets present in the directory,
      sorted and each once. */
  lemma ToLoadSpec(targets: seq<string>, csvs: seq<string>)
    ensures StrictlySortedStrings(SortedStrings(Within(targets, csvs)))
    ensures forall f :: f in SortedStrings(Within(targets, csvs)) <==> f in targets && f in csvs
  {
    SortedStringsSpec(Within(targets, csvs));
  }

  /** The files reported missing are exactly the targets absent from the
      directory, sorted and each once. */
  lemma MissingSpec(targets: seq<string>, csvs: seq<string>)
    ensures Without(targets, SortedStrings(Within(targets, csvs))) == Without(targets, csvs)
    ensures StrictlySortedStrings(SortedStrings(Without(targets, csvs)))
    ensures forall f :: f in SortedStrings(Without(targets, csvs)) <==> f in targets && f !in csvs
  {
    ToLoadSpec(targets, csvs);
    WithoutSameMembers(targets, SortedStrings(Within(targets, csvs)), csvs, targets);
    SortedStringsSpec(Without(targets, csvs));
  }

  /** A missing directory is the only error; nothing is loaded exactly when
      no target is in the directory; otherwise the files loaded and the
      symbols reported missing split the targets between them. */
  lemma SelectFilesSpec(syms: seq<string>, master: seq<string>, dirExists: bool, csvs: seq<string>)
    ensures SelectFiles(syms, master, dirExists, csvs).Err? <==> !dirExists
    ensures SelectFiles(syms, master, dirExists, csvs) == Ok(None) <==>
      dirExists && forall f :: f in Targets(if syms == [] then master else syms) ==> f !in csvs
    ensures var targets := Targets(if syms == [] then master else syms);
      var r := SelectFiles(syms, master, dirExists, csvs);
      r.Ok? && r.value.Some? ==>
        r.value.value.toLoad == SortedStrings(Within(targets, csvs)) &&
        r.value.value.missing == Stems(SortedStrings(Without(targets, csvs)))
  {
    var targets := Targets(if syms == [] then master else syms);
    NothingToLoad(targets, csvs);
    MissingSpec(targets, csvs);
  }

  lemma NothingToLoad(targets: seq<string>, csvs: seq<string>)
    ensures SortedStrings(Within(targets, csvs)) == [] <==> forall f :: f in targets ==> f !in csvs
  {
    var toLoad := SortedStrings(Within(targets, csvs));
    ToLoadSpec(targets, csvs);
    if toLoad != [] {
      assert toLoad[0] in toLoad;
    }
  }

  /** Removing elements depends only on which elements are removed, among
      the ones that can occur. */
  lemma {:induction false} WithoutSameMembers(s: seq<string>, a: seq<string>, b: seq<string>, universe: seq<string>)
    requires forall x :: x in s ==> x in universe
    requires forall x :: x in universe ==> (x in a <==> x in b)
    ensures Without(s, a) == Without(s, b)
  {
    if s != [] {
      WithoutSameMembers(s[1..], a, b, universe);
    }
  }

  // ---------------------------------------------------------------------------
  // clean_dataset

  /** `df[c] = v` on a frame where `c` names at most one column: replaced in
      place when present, appended otherwise. */
  function SetColumn(t: Table, c: string, v: seq<Value>): Table {
    if c in Keys(t) then Replace(t, c, v) else t + [(c, v)]
  }

  function Replace(t: Table, c: string, v: seq<Value>): (r: Table)
    ensures Keys(r) == Keys(t)
  {
    if t == [] then []
    else [if t[0].0 == c then (c, v) else t[0]] + Replace(t[1..], c, v)
  }

  /** The column named `c`, or no rows when there is none. */
  function Col(t: Table, c: string): seq<Value> {
    if Named(t, c) == [] then [] else Named(t, c)[0]
  }

  /** No name repeats. */
  ghost predicate SingleNames(t: Table) {
    forall d :: |Named(t, d)| <= 1
  }

  /** One turn of the loop over `fieldmap.items()`: the standard column
      `keep` is filled from the source column `drop` when both exist, and is
      copied from it when only the source column exists. */
  function PairStep(t: Table, keep: string, drop: string): Table {
    if keep in Keys(t) && drop in Keys(t) then SetColumn(t, keep, Fill(Col(t, keep), Col(t, drop)))
    else if drop in Keys(t) then SetColumn(t, keep, Col(t, drop))
    else t
  }

  /** The frame after the pairs `items` have been handled in turn. */
  function Pairs(t: Table, items: seq<(string, string)>): Table {
    if items == [] then t
    else var last := items[|items| - 1];
      PairStep(Pairs(t, items[..|items| - 1]), last.0, last.1)
  }

  /** `fieldmap.values()` */
  function Values(items: seq<(string, string)>): (r: seq<string>)
    ensures |r| == |items| && forall i :: 0 <= i < |items| ==> r[i] == items[i].1
  {
    if items == [] then [] else [items[0].1] + Values(items[1..])
  }

  /** `df[[c for c in df.columns if c not in drop_cols]]` */
  function DropAll(t: Table, drops: seq<string>): Table {
    if t == [] then []
    else if t[0].0 in drops then DropAll(t[1..], drops)
    else [t[0]] + DropAll(t[1..], drops)
  }

  /** `astype(str)` of a cell; the text of a number is given. */
  function CellText(v: Value, numText: real -> string): string {
    match v
    case VNone => "nan"
    case VBool(b) => if b then "True" else "False"
    case VNum(n) => numText(n)
    case VStr(s) => s
  }

  /** `df["symbol"].astype(str).str.upper()` */
  function UpperSymbols(col: seq<Value>, numText: real -> string): (r: seq<Value>)
    ensures |r| == |col|
    ensures forall k :: 0 <= k < |col| ==> r[k] == VStr(Upper(CellText(col[k], numText)))
  {
    seq(|col|, k requires 0 <= k < |col| => VStr(Upper(CellText(col[k], numText))))
  }

  /** `astype(float)` of a cell: a string must be a decimal number. */
  function CellFloat(v: Value): Result<Value> {
    match v
    case VNone => Ok(VNone)
    case VBool(b) => Ok(VNum(if b then 1.0 else 0.0))
    case VNum(n) => Ok(v)
    case VStr(s) => if ParseDecimal(s).Some? then Ok(VNum(ParseDecimal(s).value)) else Err(ValueError)
  }

  /** `astype(float)` of a column. */
  function ColumnFloat(col: seq<Value>): (r: Result<seq<Value>>)
    ensures r.Ok? <==> forall k :: 0 <= k < |col| ==> CellFloat(col[k]).Ok?
    ensures r.Ok? ==> |r.value| == |col| && forall k :: 0 <= k < |col| ==> r.value[k] == CellFloat(col[k]).value
    ensures r.Err? ==> r.error == ValueError
  {
    if col == [] then Ok([])
    else
      var rest := ColumnFloat(col[1..]);
      var v := CellFloat(col[0]);
      if v.Err? then Err(v.error)
      else if rest.Err? then rest
      else Ok([v.value] + rest.value)
  }

  /** `float_cols`: the standard names other than datetime and symbol. */
  function FloatCols(items: seq<(string, string)>): seq<string> {
    Without(Keys(items), ["datetime", "symbol"])
  }

  /** One turn of the loop over `float_cols`: a missing column is a
      KeyError. */
  function FloatStep(t: Table, c: string): Result<Table> {
    if c !in Keys(t) then Err(KeyError)
    else
      var v :- ColumnFloat(Col(t, c));
      Ok(SetColumn(t, c, v))
  }

  function FloatAll(t: Table, cs: seq<string>): Result<Table> {
    if cs == [] then Ok(t)
    else
      var init :- FloatAll(t, cs[..|cs| - 1]);
      FloatStep(init, cs[|cs| - 1])
  }

  /** The frame `clean_dataset` returns for the merged frame: pairs
      handled, source columns dropped, a missing datetime or symbol column a
      KeyError, symbols upper-cased and the numeric columns converted. The
      datetime values are already datetimes here. */
  function CleanFrom(m: Table, items: seq<(string, string)>, numText: real -> string): Result<Table> {
    var q := DropAll(Pairs(m, items), Values(items));
    if "datetime" !in Keys(q) || "symbol" !in Keys(q) then Err(KeyError)
    else FloatAll(SetColumn(q, "symbol", UpperSymbols(Col(q, "symbol"), numText)), FloatCols(items))
  }

  /** The loop over `fieldmap.items()`. */
  method MergePairs(m: Table, items: seq<(string, string)>) returns (r: Table)
    ensures r == Pairs(m, items)
  {
    r := m;
    var i := 0;
    while i < |items|
      invariant 0 <= i <= |items|
      invariant r == Pairs(m, items[..i])
    {
      assert items[..i + 1][..i] == items[..i];
      r := PairStep(r, items[i].0, items[i].1);
      i := i + 1;
    }
    assert items[..i] == items;
  }

  /** The loop over `float_cols`, stopping at the first column that is
      missing or does not convert. */
  method ConvertFloats(t: Table, cs: seq<string>) returns (r: Result<Table>)
    ensures r == FloatAll(t, cs)
  {
    var q := t;
    var j := 0;
    while j < |cs|
      invariant 0 <= j <= |cs|
      invariant FloatAll(t, cs[..j]) == Ok(q)
    {
      FloatAllSnoc(t, cs, j);
      var next := FloatStep(q, cs[j]);
      if next.Err? {
        FloatAllErrPrefix(t, cs, j + 1);
        return next;
      }
      q := next.value;
      j := j + 1;
    }
    assert cs[..j] == cs;
    r := Ok(q);
  }

  /** `clean_dataset(df)` with the source's fieldmap in item order. */
  method CleanDataset(t: Table, items: seq<(string, string)>, numText: real -> string) returns (r: Result<Table>)
    ensures r == CleanFrom(MergeAll(t, Dupes(t)), items, numText)
  {
    var m := MergeDupeCols(t);
    m := MergePairs(m, items);
    var q := DropAll(m, Values(items));
    if "datetime" !in Keys(q) || "symbol" !in Keys(q) {
      return Err(KeyError);
    }
    q := SetColumn(q, "symbol", UpperSymbols(Col(q, "symbol"), numText));
    r := ConvertFloats(q, FloatCols(items));
  }

  lemma FloatAllSnoc(t: Table, cs: seq<string>, j: nat)
    requires j < |cs| && FloatAll(t, cs[..j]).Ok?
    ensures FloatAll(t, cs[..j + 1]) == FloatStep(FloatAll(t, cs[..j]).value, cs[j])
  {
    assert cs[..j + 1][..j] == cs[..j];
  }

  lemma {:induction false} FloatAllErrPrefix(t: Table, cs: seq<string>, n: nat)
    requires n <= |cs|
    requires FloatAll(t, cs[..n]).Err?
    ensures FloatAll(t, cs) == FloatAll(t, cs[..n])
    decreases |cs| - n
  {
    if n < |cs| {
      var init := cs[..|cs| - 1];
      assert init[..n] == cs[..n];
      FloatAllErrPrefix(t, init, n);
    } else {
      assert cs[..n] == cs;
    }
  }

  // Column lemmas

  lemma {:induction false} NamedReplace(t: Table, c: string, v: seq<Value>, d: string)
    requires |Named(t, c)| <= 1
    ensures Named(Replace(t, c, v), d) == if d == c then (if c in Keys(t) then [v] else []) else Named(t, d)
  {
    if t != [] {
      NamedCons(t[0], t[1..], c);
      assert t == [t[0]] + t[1..];
      NamedReplace(t[1..], c, v, d);
      NamedEmpty(t[1..], c);
      var x := if t[0].0 == c then (c, v) else t[0];
      assert Replace(t, c, v) == [x] + Replace(t[1..], c, v);
      NamedCons(x, Replace(t[1..], c, v), d);
      NamedCons(t[0], t[1..], d);
    }
  }

  /** Assigning a column sets exactly that name's single column. */
  lemma NamedSet(t: Table, c: string, v: seq<Value>, d: string)
    requires |Named(t, c)| <= 1
    ensures Named(SetColumn(t, c, v), d) == if d == c then [v] else Named(t, d)
  {
    if c in Keys(t) {
      NamedReplace(t, c, v, d);
    } else {
      NamedAppend(t, [(c, v)], d);
      NamedEmpty(t, c);
      NamedCons((c, v), [], d);
    }
  }

  lemma {:induction false} NamedDropAll(t: Table, drops: seq<string>, d: string)
    ensures Named(DropAll(t, drops), d) == if d in drops then [] else Named(t, d)
  {
    if t != [] {
      NamedDropAll(t[1..], drops, d);
      NamedCons(t[0], t[1..], d);
      assert t == [t[0]] + t[1..];
      if t[0].0 !in drops {
        NamedCons(t[0], DropAll(t[1..], drops), d);
      }
    }
  }

  /** A pair turn touches only its standard column: that column is filled
      from, or copied from, the source column. */
  lemma NamedPairStep(t: Table, keep: string, drop: string, d: string)
    requires SingleNames(t)
    ensures Named(PairStep(t, keep, drop), d) ==
      if d == keep && drop in Keys(t) then
        (if keep in Keys(t) then [Fill(Col(t, keep), Col(t, drop))] else [Col(t, drop)])
      else Named(t, d)
  {
    var v := if keep in Keys(t) then Fill(Col(t, keep), Col(t, drop)) else Col(t, drop);
    if drop in Keys(t) {
      assert |Named(t, keep)| <= 1;
      NamedSet(t, keep, v, d);
    }
  }

  lemma PairStepSingle(t: Table, keep: string, drop: string)
    requires SingleNames(t)
    ensures SingleNames(PairStep(t, keep, drop))
  {
    forall d ensures |Named(PairStep(t, keep, drop), d)| <= 1 {
      NamedPairStep(t, keep, drop, d);
    }
  }

  /** The fieldmap of the source is a proper renaming: standard names
      distinct, source names distinct, and no name on both sides. */
  predicate Separate(items: seq<(string, string)>) {
    (forall i, j :: 0 <= i < j < |items| ==> items[i].0 != items[j].0 && items[i].1 != items[j].1) &&
    (forall i, j :: 0 <= i < |items| && 0 <= j < |items| ==> items[i].0 != items[j].1)
  }

  lemma SeparatePrefix(items: seq<(string, string)>, n: nat)
    requires Separate(items) && n <= |items|
    ensures Separate(items[..n])
  {
    assert forall i :: 0 <= i < n ==> items[..n][i] == items[i];
  }

  /** The pairs loop leaves every name single. */
  lemma {:induction false} PairsSingle(m: Table, items: seq<(string, string)>)
    requires SingleNames(m)
    ensures SingleNames(Pairs(m, items))
  {
    if items != [] {
      var last := items[|items| - 1];
      PairsSingle(m, items[..|items| - 1]);
      PairStepSingle(Pairs(m, items[..|items| - 1]), last.0, last.1);
    }
  }

  lemma KeysPrefix(items: seq<(string, string)>, n: nat)
    requires n <= |items|
    ensures forall d :: d in Keys(items[..n]) ==> d in Keys(items)
  {
    forall d | d in Keys(items[..n]) ensures d in Keys(items) {
      var i :| 0 <= i < n && Keys(items[..n])[i] == d;
      assert Keys(items)[i] == items[..n][i].0;
    }
  }

  /** A name that is not a standard name keeps its columns through the
      pairs loop. */
  lemma {:induction false} PairsOther(m: Table, items: seq<(string, string)>, d: string)
    requires SingleNames(m) && d !in Keys(items)
    ensures Named(Pairs(m, items), d) == Named(m, d)
  {
    if items != [] {
      var init := items[..|items| - 1];
      var last := items[|items| - 1];
      KeysPrefix(items, |items| - 1);
      assert Keys(items)[|items| - 1] == last.0;
      PairsOther(m, init, d);
      PairsSingle(m, init);
      NamedPairStep(Pairs(m, init), last.0, last.1, d);
    }
  }

  /** With a proper renaming, the column of each standard name after the
      pairs loop is what its own pair makes of the merged frame. */
  lemma {:induction false} PairsKeep(m: Table, items: seq<(string, string)>, i: nat)
    requires SingleNames(m) && Separate(items) && i < |items|
    ensures Named(Pairs(m, items), items[i].0) == Named(PairStep(m, items[i].0, items[i].1), items[i].0)
  {
    var init := items[..|items| - 1];
    var last := items[|items| - 1];
    if i == |items| - 1 {
      PairsKeepLast(m, items);
    } else {
      SeparatePrefix(items, |items| - 1);
      assert init[i] == items[i];
      PairsDropLast(m, items, items[i].0);
      PairsKeep(m, init, i);
    }
  }

  /** The last pair leaves every other name's columns as they were. */
  lemma PairsDropLast(m: Table, items: seq<(string, string)>, d: string)
    requires SingleNames(m) && items != [] && d != items[|items| - 1].0
    ensures Named(Pairs(m, items), d) == Named(Pairs(m, items[..|items| - 1]), d)
  {
    var init := items[..|items| - 1];
    var last := items[|items| - 1];
    PairsSingle(m, init);
    NamedPairStep(Pairs(m, init), last.0, last.1, d);
  }

  lemma PairsKeepLast(m: Table, items: seq<(string, string)>)
    requires SingleNames(m) && Separate(items) && items != []
    ensures var last := items[|items| - 1];
      Named(Pairs(m, items), last.0) == Named(PairStep(m, last.0, last.1), last.0)
  {
    var init := items[..|items| - 1];
    var last := items[|items| - 1];
    var p := Pairs(m, init);
    PairsSingle(m, init);
    assert last.0 !in Keys(init) && last.1 !in Keys(init) by {
      forall j | 0 <= j < |init| ensures Keys(init)[j] != last.0 && Keys(init)[j] != last.1 {
        assert init[j] == items[j];
      }
    }
    PairsOther(m, init, last.0);
    PairsOther(m, init, last.1);
    NamedEmpty(p, last.0);
    NamedEmpty(m, last.0);
    NamedEmpty(p, last.1);
    NamedEmpty(m, last.1);
    assert Col(p, last.0) == Col(m, last.0) && Col(p, last.1) == Col(m, last.1);
    NamedPairStep(p, last.0, last.1, last.0);
    NamedPairStep(m, last.0, last.1, last.0);
  }

  /** Under a proper renaming no source name is a numeric column. */
  lemma ValuesNotFloat(items: seq<(string, string)>, d: string)
    requires Separate(items) && d in Values(items)
    ensures d !in FloatCols(items)
  {
    var j :| 0 <= j < |items| && Values(items)[j] == d;
    forall i | 0 <= i < |items| ensures Keys(items)[i] != d {
      assert items[i].0 != items[j].1;
    }
  }

  /** Cutting the frame down: names stay single and no source name is
      left. */
  lemma DroppedSpec(m: Table, items: seq<(string, string)>)
    requires SingleNames(m)
    ensures var q := DropAll(Pairs(m, items), Values(items));
      SingleNames(q) && forall d :: d in Values(items) ==> Named(q, d) == []
  {
    var p := Pairs(m, items);
    PairsSingle(m, items);
    forall d ensures Named(DropAll(p, Values(items)), d) == if d in Values(items) then [] else Named(p, d) {
      NamedDropAll(p, Values(items), d);
    }
  }

  /** Assigning a column keeps names single. */
  lemma SetSingle(t: Table, c: string, v: seq<Value>)
    requires SingleNames(t)
    ensures SingleNames(SetColumn(t, c, v))
    ensures forall d :: Named(SetColumn(t, c, v), d) == if d == c then [v] else Named(t, d)
  {
    forall d ensures Named(SetColumn(t, c, v), d) == if d == c then [v] else Named(t, d) {
      NamedSet(t, c, v, d);
    }
  }

  /** What cleaning guarantees of the frame it returns: every name single,
      no source name left, datetime and symbol present, and every numeric
      column present. */
  lemma CleanFromSpec(m: Table, items: seq<(string, string)>, numText: real -> string)
    requires SingleNames(m) && Separate(items)
    ensures var r := CleanFrom(m, items, numText);
      r.Ok? ==> (SingleNames(r.value) &&
        (forall d :: d in Values(items) ==> Named(r.value, d) == []) &&
        "datetime" in Keys(r.value) && "symbol" in Keys(r.value) &&
        (forall c :: c in FloatCols(items) ==> c in Keys(r.value)))
  {
    var q := DropAll(Pairs(m, items), Values(items));
    DroppedSpec(m, items);
    if "datetime" in Keys(q) && "symbol" in Keys(q) {
      var u := UpperSymbols(Col(q, "symbol"), numText);
      var s := SetColumn(q, "symbol", u);
      SetSingle(q, "symbol", u);
      var cs := FloatCols(items);
      FloatAllSpec(s, cs);
      var r := FloatAll(s, cs);
      if r.Ok? {
        NamedEmpty(q, "symbol");
        forall d | d in Values(items) ensures Named(r.value, d) == [] {
          ValuesNotFloat(items, d);
          assert d != "symbol";
          FloatAllNamed(s, cs, d, items);
        }
        NamedEmpty(q, "datetime");
        FloatAllNamed(s, cs, "datetime", items);
        FloatAllNamed(s, cs, "symbol", items);
        NamedEmpty(r.value, "datetime");
        NamedEmpty(r.value, "symbol");
        forall c | c in cs ensures c in Keys(r.value) {
          NamedEmpty(r.value, c);
          FloatAllHas(s, cs, c);
        }
      }
    }
  }

  /** The numeric conversion keeps names single and each converted column
      present. */
  lemma {:induction false} FloatAllSpec(t: Table, cs: seq<string>)
    requires SingleNames(t)
    ensures FloatAll(t, cs).Ok? ==> SingleNames(FloatAll(t, cs).value)
  {
    if cs != [] {
      FloatAllSpec(t, cs[..|cs| - 1]);
      var init := FloatAll(t, cs[..|cs| - 1]);
      if init.Ok? && FloatAll(t, cs).Ok? {
        var c := cs[|cs| - 1];
        var v := ColumnFloat(Col(init.value, c)).value;
        forall d ensures |Named(FloatAll(t, cs).value, d)| <= 1 {
          assert |Named(init.value, c)| <= 1;
          NamedSet(init.value, c, v, d);
        }
      }
    }
  }

  /** A name that is no numeric column is left alone by the conversion, and
      a name that is one is present afterwards. */
  lemma {:induction false} FloatAllNamed(t: Table, cs: seq<string>, d: string, items: seq<(string, string)>)
    requires SingleNames(t) && d !in cs
    ensures FloatAll(t, cs).Ok? ==> Named(FloatAll(t, cs).value, d) == Named(t, d)
  {
    if cs != [] {
      FloatAllNamed(t, cs[..|cs| - 1], d, items);
      FloatAllSpec(t, cs[..|cs| - 1]);
      var init := FloatAll(t, cs[..|cs| - 1]);
      if init.Ok? && FloatAll(t, cs).Ok? {
        var c := cs[|cs| - 1];
        assert |Named(init.value, c)| <= 1;
        NamedSet(init.value, c, ColumnFloat(Col(init.value, c)).value, d);
      }
    }
  }

  lemma {:induction false} FloatAllHas(t: Table, cs: seq<string>, c: string)
    requires SingleNames(t) && c in cs
    ensures FloatAll(t, cs).Ok? ==> Named(FloatAll(t, cs).value, c) != []
  {
    var init := FloatAll(t, cs[..|cs| - 1]);
    var last := cs[|cs| - 1];
    FloatAllSpec(t, cs[..|cs| - 1]);
    if init.Ok? && FloatAll(t, cs).Ok? {
      assert |Named(init.value, last)| <= 1;
      NamedSet(init.value, last, ColumnFloat(Col(init.value, last)).value, c);
      if c != last {
        assert c in cs[..|cs| - 1];
        FloatAllHas(t, cs[..|cs| - 1], c);
        FloatAllStep(init.value, last, c);
      }
    }
  }

  lemma FloatAllStep(t: Table, last: string, c: string)
    requires SingleNames(t) && c != last
    ensures FloatStep(t, last).Ok? ==> Named(FloatStep(t, last).value, c) == Named(t, c)
  {
    if FloatStep(t, last).Ok? {
      NamedSet(t, last, ColumnFloat(Col(t, last)).value, c);
    }
  }

  /** Every symbol of the cleaned frame is a string with no lower-case
      letter, and the values of a converted column are numbers or missing. */
  lemma CleanedValues(col: seq<Value>, numText: real -> string)
    ensures forall k :: 0 <= k < |col| ==>
      UpperSymbols(col, numText)[k].VStr? && forall i :: 0 <= i < |UpperSymbols(col, numText)[k].s| ==>
        !IsAsciiLower(UpperSymbols(col, numText)[k].s[i])
    ensures ColumnFloat(col).Ok? ==> forall k :: 0 <= k < |col| ==>
      ColumnFloat(col).value[k].VNum? || ColumnFloat(col).value[k].VNone?
  {
  }

  // ---------------------------------------------------------------------------
  // dedupe_by_request_time

  /** A row as de-duplication sees it: its datetime, its request time
      (None when the column or the cell is missing), its volume and the
      other cells. */
  datatype Quote = Quote(time: DateTime, requestTime: Option<DateTime>, volume: real, rest: map<string, Value>)

  /** `"2020_01_01 00;00;00"` read in the seconds format. */
  const DefaultRequestTime: DateTime := Midnight(DaysFromCivil(Civil(2020, 1, 1)))

  function RequestTimeOf(q: Quote): DateTime {
    q.requestTime.GetOr(DefaultRequestTime)
  }

  /** `fillna(default_request_time)` */
  function WithDefault(rows: seq<Quote>): (r: seq<Quote>)
    ensures |r| == |rows|
    ensures forall i :: 0 <= i < |rows| ==> r[i] == rows[i].(requestTime := Some(RequestTimeOf(rows[i])))
  {
    seq(|rows|, i requires 0 <= i < |rows| => rows[i].(requestTime := Some(RequestTimeOf(rows[i]))))
  }

  /** The ascending order on (datetime, request_time, volume). */
  predicate QuoteLe(a: Quote, b: Quote) {
    a.time < b.time ||
    (a.time == b.time && (RequestTimeOf(a) < RequestTimeOf(b) ||
      (RequestTimeOf(a) == RequestTimeOf(b) && a.volume <= b.volume)))
  }

  lemma QuoteLeTotalPreorder()
    ensures TotalPreorder(QuoteLe)
  {
  }

  function TimesOf(rows: seq<Quote>): set<DateTime> {
    set q | q in rows :: q.time
  }

  /** `drop_duplicates(subset=["datetime"], keep="last")` */
  function KeepLast(rows: seq<Quote>): (r: seq<Quote>)
    ensures forall q :: q in r ==> q in rows
  {
    if rows == [] then []
    else (if rows[0].time in TimesOf(rows[1..]) then [] else [rows[0]]) + KeepLast(rows[1..])
  }

  /** `dedupe_by_request_time(df)`: the frame passed in is left sorted with
      its request times filled (`sorted`), and the de-duplicated frame is
      returned. */
  method DedupeByRequestTime(rows: seq<Quote>) returns (sorted: seq<Quote>, r: seq<Quote>)
    ensures sorted == Sort(WithDefault(rows), QuoteLe)
    ensures r == KeepLast(sorted)
  {
    sorted := Sort(WithDefault(rows), QuoteLe);
    r := KeepLast(sorted);
  }

  lemma {:induction false} KeepLastTimes(rows: seq<Quote>)
    ensures TimesOf(KeepLast(rows)) == TimesOf(rows)
  {
    if rows != [] {
      var tail := rows[1..];
      KeepLastTimes(tail);
      var head := if rows[0].time in TimesOf(tail) then [] else [rows[0]];
      var k := KeepLast(rows);
      assert k == head + KeepLast(tail);
      forall t | t in TimesOf(k) ensures t in TimesOf(rows) {
        var q :| q in k && q.time == t;
        assert q in rows;
      }
      forall t | t in TimesOf(rows) ensures t in TimesOf(k) {
        var q :| q in rows && q.time == t;
        if q in tail || rows[0].time in TimesOf(tail) {
          assert t in TimesOf(tail);
          var q3 :| q3 in KeepLast(tail) && q3.time == t;
          assert q3 in k;
        } else {
          assert q == rows[0];
          assert q in k;
        }
      }
    }
  }

  lemma {:induction false} KeepLastIncreasing(rows: seq<Quote>)
    requires SortedBy(rows, QuoteLe)
    ensures forall i, j :: 0 <= i < j < |KeepLast(rows)| ==> KeepLast(rows)[i].time < KeepLast(rows)[j].time
  {
    if rows != [] {
      var tail := rows[1..];
      assert SortedBy(tail, QuoteLe) by {
        forall i, j | 0 <= i < j < |tail| ensures QuoteLe(tail[i], tail[j]) {
          assert tail[i] == rows[i + 1] && tail[j] == rows[j + 1];
        }
      }
      KeepLastIncreasing(tail);
      if rows[0].time !in TimesOf(tail) {
        forall q | q in KeepLast(tail) ensures rows[0].time < q.time {
          var k :| 0 <= k < |tail| && tail[k] == q;
          assert rows[k + 1] == q;
          assert QuoteLe(rows[0], rows[k + 1]);
        }
      }
    }
  }

  /** A kept row is the last of its datetime: every row with that datetime
      comes no later in the sort order. */
  lemma {:induction false} KeepLastIsLatest(rows: seq<Quote>, x: Quote, y: Quote)
    requires SortedBy(rows, QuoteLe)
    requires x in KeepLast(rows) && y in rows && y.time == x.time
    ensures QuoteLe(y, x)
  {
    var tail := rows[1..];
    assert SortedBy(tail, QuoteLe) by {
      forall i, j | 0 <= i < j < |tail| ensures QuoteLe(tail[i], tail[j]) {
        assert tail[i] == rows[i + 1] && tail[j] == rows[j + 1];
      }
    }
    if x in KeepLast(tail) {
      if y in tail {
        KeepLastIsLatest(tail, x, y);
      } else {
        assert y == rows[0];
        var k :| 0 <= k < |tail| && tail[k] == x;
        assert rows[k + 1] == x;
      }
    } else {
      assert x == rows[0] && x.time !in TimesOf(tail);
      assert y !in tail;
      assert y == rows[0];
    }
  }

  lemma WithDefaultTimes(rows: seq<Quote>)
    ensures TimesOf(WithDefault(rows)) == TimesOf(rows)
  {
    var w := WithDefault(rows);
    forall t | t in TimesOf(rows) ensures t in TimesOf(w) {
      var q :| q in rows && q.time == t;
      var k :| 0 <= k < |rows| && rows[k] == q;
      assert w[k].time == t;
    }
    forall t | t in TimesOf(w) ensures t in TimesOf(rows) {
      var q :| q in w && q.time == t;
      var k :| 0 <= k < |w| && w[k] == q;
      assert rows[k].time == t;
    }
  }

  /** De-duplication leaves one row per datetime, in increasing datetime
      order, covering every datetime; the row kept is one with the latest
      request time among its datetime's rows, ties going to the largest
      volume. */
  lemma DedupeSpec(rows: seq<Quote>)
    ensures var r := KeepLast(Sort(WithDefault(rows), QuoteLe));
      (forall i, j :: 0 <= i < j < |r| ==> r[i].time < r[j].time) &&
      TimesOf(r) == TimesOf(rows) &&
      (forall x :: x in r ==> x in WithDefault(rows)) &&
      forall x, y :: x in r && y in WithDefault(rows) && y.time == x.time ==>
        RequestTimeOf(y) < RequestTimeOf(x) ||
        (RequestTimeOf(y) == RequestTimeOf(x) && y.volume <= x.volume)
  {
    var w := WithDefault(rows);
    var s := Sort(w, QuoteLe);
    QuoteLeTotalPreorder();
    SortSorted(w, QuoteLe);
    SameElements(w, s);
    KeepLastIncreasing(s);
    KeepLastTimes(s);
    assert TimesOf(s) == TimesOf(w);
    WithDefaultTimes(rows);
    forall x, y | x in KeepLast(s) && y in w && y.time == x.time
      ensures RequestTimeOf(y) < RequestTimeOf(x) || (RequestTimeOf(y) == RequestTimeOf(x) && y.volume <= x.volume)
    {
      KeepLastIsLatest(s, x, y);
    }
  }

  // ---------------------------------------------------------------------------
  // rows_need_adjusting and adjust_prices

  /** A price row: a column absent from the map is missing (NaN) there. */
  type PriceRow = map<string, real>

  /** High, low and open all above close; a missing value compares
      false. */
  predicate NeedsAdjusting(row: PriceRow) {
    "high" in row && "low" in row && "open" in row && "close" in row &&
    row["high"] > row["close"] && row["low"] > row["close"] && row["open"] > row["close"]
  }

  /** `rows_need_adjusting(df)`: a frame without one of the four price
      columns is a KeyError. */
  function RowsNeedAdjusting(columns: set<string>, rows: seq<PriceRow>): (r: Result<seq<PriceRow>>)
    ensures r.Ok? <==> {"high", "low", "open", "close"} <= columns
    ensures r.Err? ==> r.error == KeyError
    ensures r.Ok? ==> forall x :: x in r.value <==> x in rows && NeedsAdjusting(x)
  {
    if !({"high", "low", "open", "close"} <= columns) then Err(KeyError)
    else Ok(Selected(rows))
  }

  function Selected(rows: seq<PriceRow>): (r: seq<PriceRow>)
    ensures forall x :: x in r <==> x in rows && NeedsAdjusting(x)
    ensures r == [] <==> forall i :: 0 <= i < |rows| ==> !NeedsAdjusting(rows[i])
  {
    if rows == [] then []
    else (if NeedsAdjusting(rows[0]) then [rows[0]] else []) + Selected(rows[1..])
  }

  /** `close / raw_close` of a row; missing when either value is missing or
      the divisor is zero. */
  function Factor(row: PriceRow): Option<real> {
    if "close" in row && "raw_close" in row && row["raw_close"] != 0.0
    then Some(row["close"] / row["raw_close"]) else None
  }

  /** `df[col] * adjustment_factor` in one row. */
  function ScaleCell(row: PriceRow, col: string, factor: Option<real>): PriceRow {
    if col in row && factor.Some? then row[col := row[col] * factor.value] else row - {col}
  }

  /** The row after the loop over low, high and open. */
  function Adjusted(row: PriceRow): PriceRow {
    ScaleCell(ScaleCell(ScaleCell(row, "low", Factor(row)), "high", Factor(row)), "open", Factor(row))
  }

  /** `df[col] * adjustment_factor` over the rows. */
  function ScaleColumn(rows: seq<PriceRow>, col: string): (r: seq<PriceRow>)
    ensures |r| == |rows|
  {
    if rows == [] then [] else [ScaleCell(rows[0], col, Factor(rows[0]))] + ScaleColumn(rows[1..], col)
  }

  /** What `adjust_prices` leaves in the frame and whether its final
      assertion holds: nothing happens without both close columns or when no
      row needs adjusting, a missing price column is a KeyError, and
      otherwise low, high and open are scaled in every row and the assertion
      checks that no row needs adjusting any more. */
  function AdjustOutcome(columns: set<string>, rows: seq<PriceRow>): (Outcome, seq<PriceRow>) {
    if !("raw_close" in columns && "close" in columns) then (Pass, rows)
    else match RowsNeedAdjusting(columns, rows)
      case Err(e) => (Fail(e), rows)
      case Ok(need) =>
        if need == [] then (Pass, rows)
        else
          var scaled := ScaleColumn(ScaleColumn(ScaleColumn(rows, "low"), "high"), "open");
          (if Selected(scaled) == [] then Pass else Fail(AssertionError), scaled)
  }

  class PriceFrame {
    var columns: set<string>
    var rows: seq<PriceRow>

    constructor(columns: set<string>, rows: seq<PriceRow>)
      ensures this.columns == columns && this.rows == rows
    {
      this.columns := columns;
      this.rows := rows;
    }

    /** `adjust_prices(df)`, in place: a failed final assertion leaves the
        scaled frame behind. */
    method AdjustPrices() returns (o: Outcome)
      modifies this
      ensures columns == old(columns)
      ensures (o, rows) == AdjustOutcome(columns, old(rows))
    {
      if !("raw_close" in columns && "close" in columns) {
        return Pass;
      }
      var need := RowsNeedAdjusting(columns, rows);
      if need.Err? {
        return Fail(need.error);
      }
      if need.value == [] {
        return Pass;
      }
      var cols := ["low", "high", "open"];
      var c := 0;
      while c < 3
        invariant 0 <= c <= 3 && columns == old(columns)
        invariant rows == ScaledColumns(old(rows), cols[..c])
      {
        assert cols[..c + 1][..c] == cols[..c];
        rows := ScaleColumn(rows, cols[c]);
        c := c + 1;
      }
      AdjustedSteps(old(rows));
      assert cols[..3] == cols;
      var after := RowsNeedAdjusting(columns, rows);
      if after.value != [] {
        return Fail(AssertionError);
      }
      o := Pass;
    }
  }

  /** The rows with the columns `cols` scaled in turn. The factor is read
      afresh each time, but no scaled column enters it. */
  function ScaledColumns(rows: seq<PriceRow>, cols: seq<string>): seq<PriceRow> {
    if cols == [] then rows else ScaleColumn(ScaledColumns(rows, cols[..|cols| - 1]), cols[|cols| - 1])
  }

  lemma AdjustedSteps(rows: seq<PriceRow>)
    ensures ScaledColumns(rows, ["low", "high", "open"]) ==
      ScaleColumn(ScaleColumn(ScaleColumn(rows, "low"), "high"), "open")
  {
    var cols := ["low", "high", "open"];
    assert cols[..2] == ["low", "high"] && cols[..2][..1] == ["low"] && cols[..2][..1][..0] == [];
    assert ScaledColumns(rows, ["low"]) == ScaleColumn(rows, "low");
    assert ScaledColumns(rows, ["low", "high"]) == ScaleColumn(ScaledColumns(rows, ["low"]), "high");
    assert ScaledColumns(rows, cols) == ScaleColumn(ScaledColumns(rows, ["low", "high"]), "open");
  }

  /** Scaling a column never changes the factor, since neither close price
      is scaled. */
  lemma FactorKept(row: PriceRow, col: string, f: Option<real>)
    requires col !in {"close", "raw_close"}
    ensures Factor(ScaleCell(row, col, f)) == Factor(row)
  {
  }

  /** The frame-level scaling is the row-level one, row by row. */
  lemma {:induction false} ScaleColumnsAdjusted(rows: seq<PriceRow>)
    ensures var s := ScaleColumn(ScaleColumn(ScaleColumn(rows, "low"), "high"), "open");
      |s| == |rows| && forall i :: 0 <= i < |rows| ==> s[i] == Adjusted(rows[i])
  {
    if rows != [] {
      ScaleColumnsAdjusted(rows[1..]);
      var r0 := rows[0];
      var a := ScaleCell(r0, "low", Factor(r0));
      FactorKept(r0, "low", Factor(r0));
      var b := ScaleCell(a, "high", Factor(a));
      FactorKept(a, "high", Factor(a));
      var s1 := ScaleColumn(rows, "low");
      assert s1 == [a] + ScaleColumn(rows[1..], "low");
      assert s1[1..] == ScaleColumn(rows[1..], "low");
      var s2 := ScaleColumn(s1, "high");
      assert s2 == [b] + ScaleColumn(s1[1..], "high");
      assert s2[1..] == ScaleColumn(s1[1..], "high");
      var s3 := ScaleColumn(s2, "open");
      assert s3 == [ScaleCell(b, "open", Factor(b))] + ScaleColumn(s2[1..], "open");
      assert s3[0] == Adjusted(r0);
      forall i | 1 <= i < |rows| ensures s3[i] == Adjusted(rows[i]) {
        assert s3[i] == ScaleColumn(s2[1..], "open")[i - 1];
        assert rows[1..][i - 1] == rows[i];
      }
    }
  }

  /** Scaling keeps both close prices and no other column changes. */
  lemma AdjustedKeeps(row: PriceRow)
    ensures forall c :: c in row && c !in {"low", "high", "open"} ==> c in Adjusted(row) && Adjusted(row)[c] == row[c]
    ensures forall c :: c in Adjusted(row) ==> c in row
  {
  }

  lemma GreaterScaled(x: real, close: real, raw: real)
    requires close > 0.0 && raw > 0.0
    ensures x * (close / raw) > close <==> x > raw
  {
    var f := close / raw;
    assert f * raw == close;
    if x > raw {
      assert x * f > raw * f;
    } else {
      assert x * f <= raw * f;
    }
  }

  /** An adjusted row holds each price of the raw row times the factor,
      and the same close. */
  lemma AdjustedValues(row: PriceRow)
    requires "high" in row && "low" in row && "open" in row && Factor(row).Some?
    ensures var a := Adjusted(row);
      "high" in a && "low" in a && "open" in a && "close" in a &&
      a["high"] == row["high"] * Factor(row).value && a["low"] == row["low"] * Factor(row).value &&
      a["open"] == row["open"] * Factor(row).value && a["close"] == row["close"]
  {
  }

  /** With positive close prices, an adjusted row still needs adjusting
      exactly when its raw high, low and open all exceed its raw close: the
      final assertion of `adjust_prices` fails on such data. */
  lemma AdjustedNeedsIff(row: PriceRow)
    requires "high" in row && "low" in row && "open" in row && "close" in row && "raw_close" in row
    requires row["close"] > 0.0 && row["raw_close"] > 0.0
    ensures NeedsAdjusting(Adjusted(row)) <==>
      row["high"] > row["raw_close"] && row["low"] > row["raw_close"] && row["open"] > row["raw_close"]
  {
    var close, raw := row["close"], row["raw_close"];
    assert Factor(row) == Some(close / raw);
    AdjustedValues(row);
    GreaterScaled(row["high"], close, raw);
    GreaterScaled(row["low"], close, raw);
    GreaterScaled(row["open"], close, raw);
  }
}
