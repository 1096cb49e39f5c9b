/** Target lists of stock symbols and of FX currency pairs. Each list is
    stored as a sorted, duplicate-free list and updated by set union and
    difference:
    - thales/config/symbols.py `Symbols` (also thales/config/__init__.py);
    - thales/config/fx_pairs.py `FXPairs`;
    - tradez/symbols.py, the master list of the older package;
    - __init__.py `Tradez.add_symbol`/`remove_symbol`, which always rewrite.
    The YAML files are a map from file name to the stored list. */
module Registries {
  import opened Common
  import opened Sorting

  // ---------------------------------------------------------------------------
  // The list arithmetic shared by every store

  /** `sorted(set(current) | set(given))` */
  function Union<T(==,!new)>(current: seq<T>, given: seq<T>, le: (T, T) -> bool): seq<T> {
    SortedSet(given + current, le)
  }

  /** `sorted(set(current) - set(given))` */
  function Difference<T(==,!new)>(current: seq<T>, given: seq<T>, le: (T, T) -> bool): seq<T> {
    SortedSet(Without(current, given), le)
  }

  /** The reported additions, `sorted(set(given) - set(current))`. */
  function Added<T(==,!new)>(current: seq<T>, given: seq<T>, le: (T, T) -> bool): seq<T> {
    SortedSet(Without(given, current), le)
  }

  /** The reported removals, `sorted(set(given) & set(current))`. */
  function Removed<T(==,!new)>(current: seq<T>, given: seq<T>, le: (T, T) -> bool): seq<T> {
    SortedSet(Within(given, current), le)
  }

  /** The list `add` leaves: rewritten as the union only when something is
      new, otherwise the stored list untouched. */
  function Merged<T(==,!new)>(current: seq<T>, given: seq<T>, le: (T, T) -> bool): seq<T> {
    if Added(current, given, le) != [] then Union(current, given, le) else current
  }

  /** The list `remove` leaves: rewritten as the difference only when some
      given element is stored, otherwise the stored list untouched. */
  function Pruned<T(==,!new)>(current: seq<T>, given: seq<T>, le: (T, T) -> bool): seq<T> {
    if Removed(current, given, le) != [] then Difference(current, given, le) else current
  }

  /** A stored list in the form every write produces. */
  ghost predicate IsSortedSet<T(!new)>(s: seq<T>, le: (T, T) -> bool) {
    SortedBy(s, le) && NoDups(s)
  }

  lemma UnionSpec<T(!new)>(current: seq<T>, given: seq<T>, le: (T, T) -> bool)
    requires TotalOrder(le)
    ensures IsSortedSet(Union(current, given, le), le)
    ensures forall x :: x in Union(current, given, le) <==> x in current || x in given
  {
    SortedSetSpec(given + current, le);
  }

  lemma DifferenceSpec<T(!new)>(current: seq<T>, given: seq<T>, le: (T, T) -> bool)
    requires TotalOrder(le)
    ensures IsSortedSet(Difference(current, given, le), le)
    ensures forall x :: x in Difference(current, given, le) <==> x in current && x !in given
  {
    SortedSetSpec(Without(current, given), le);
  }

  /** The reported additions are exactly the given elements not yet stored,
      sorted. */
  lemma AddedSpec<T(!new)>(current: seq<T>, given: seq<T>, le: (T, T) -> bool)
    requires TotalOrder(le)
    ensures IsSortedSet(Added(current, given, le), le)
    ensures forall x :: x in Added(current, given, le) <==> x in given && x !in current
  {
    SortedSetSpec(Without(given, current), le);
  }

  /** The reported removals are exactly the given elements that are stored,
      sorted. */
  lemma RemovedSpec<T(!new)>(current: seq<T>, given: seq<T>, le: (T, T) -> bool)
    requires TotalOrder(le)
    ensures IsSortedSet(Removed(current, given, le), le)
    ensures forall x :: x in Removed(current, given, le) <==> x in given && x in current
  {
    SortedSetSpec(Within(given, current), le);
  }

  /** After `add` the list holds the old and the given elements. */
  lemma MergedElements<T(!new)>(current: seq<T>, given: seq<T>, le: (T, T) -> bool)
    requires TotalOrder(le)
    ensures forall x :: x in Merged(current, given, le) <==> x in current || x in given
  {
    UnionSpec(current, given, le);
    AddedSpec(current, given, le);
    if Added(current, given, le) == [] {
      assert forall x :: x in given ==> x in current;
    }
  }

  /** `add` leaves the stored list untouched exactly when nothing is new. */
  lemma MergedUnchanged<T(!new)>(current: seq<T>, given: seq<T>, le: (T, T) -> bool)
    requires TotalOrder(le)
    ensures Merged(current, given, le) == current <==> forall x :: x in given ==> x in current
  {
    UnionSpec(current, given, le);
    AddedSpec(current, given, le);
    if Added(current, given, le) != [] {
      var x := Added(current, given, le)[0];
      assert x in Union(current, given, le) && x !in current;
    }
  }

  /** Every write leaves a sorted, duplicate-free list, and an untouched
      list keeps that form. */
  lemma MergedSorted<T(!new)>(current: seq<T>, given: seq<T>, le: (T, T) -> bool)
    requires TotalOrder(le)
    requires IsSortedSet(current, le)
    ensures IsSortedSet(Merged(current, given, le), le)
  {
    UnionSpec(current, given, le);
  }

  /** After `remove` the list holds the old elements that were not given. */
  lemma PrunedElements<T(!new)>(current: seq<T>, given: seq<T>, le: (T, T) -> bool)
    requires TotalOrder(le)
    ensures forall x :: x in Pruned(current, given, le) <==> x in current && x !in given
  {
    DifferenceSpec(current, given, le);
    RemovedSpec(current, given, le);
    if Removed(current, given, le) == [] {
      assert forall x :: x in current ==> x !in given;
    }
  }

  /** `remove` leaves the stored list untouched exactly when no given element
      is stored. */
  lemma PrunedUnchanged<T(!new)>(current: seq<T>, given: seq<T>, le: (T, T) -> bool)
    requires TotalOrder(le)
    ensures Pruned(current, given, le) == current <==> forall x :: x in given ==> x !in current
  {
    DifferenceSpec(current, given, le);
    RemovedSpec(current, given, le);
    if Removed(current, given, le) != [] {
      var x := Removed(current, given, le)[0];
      assert x in current && x !in Difference(current, given, le);
    }
  }

  lemma PrunedSorted<T(!new)>(current: seq<T>, given: seq<T>, le: (T, T) -> bool)
    requires TotalOrder(le)
    requires IsSortedSet(current, le)
    ensures IsSortedSet(Pruned(current, given, le), le)
  {
    DifferenceSpec(current, given, le);
  }

  /** Adding X and then removing X leaves exactly the previously stored
      elements not in X; on a sorted list that is `sorted(set(current) - X)`. */
  lemma AddThenRemove<T(!new)>(current: seq<T>, given: seq<T>, le: (T, T) -> bool)
    requires TotalOrder(le)
    requires IsSortedSet(current, le)
    ensures Pruned(Merged(current, given, le), given, le) == Difference(current, given, le)
  {
    var m := Merged(current, given, le);
    MergedElements(current, given, le);
    MergedSorted(current, given, le);
    PrunedElements(m, given, le);
    PrunedSorted(m, given, le);
    DifferenceSpec(current, given, le);
    SortedUnique(Pruned(m, given, le), Difference(current, given, le), le);
  }

  /** Adding the same elements twice is adding them once. */
  lemma MergedIdempotent<T(!new)>(current: seq<T>, given: seq<T>, le: (T, T) -> bool)
    requires TotalOrder(le)
    ensures Merged(Merged(current, given, le), given, le) == Merged(current, given, le)
  {
    MergedElements(current, given, le);
    MergedUnchanged(Merged(current, given, le), given, le);
  }

  /** Removing the same elements twice is removing them once. */
  lemma PrunedIdempotent<T(!new)>(current: seq<T>, given: seq<T>, le: (T, T) -> bool)
    requires TotalOrder(le)
    ensures Pruned(Pruned(current, given, le), given, le) == Pruned(current, given, le)
  {
    PrunedElements(current, given, le);
    PrunedUnchanged(Pruned(current, given, le), given, le);
  }

  /** `remove_all`/`clear_all`: removing the stored list itself empties it. */
  lemma RemoveAllEmpties<T(!new)>(current: seq<T>, le: (T, T) -> bool)
    requires TotalOrder(le)
    ensures Pruned(current, current, le) == []
  {
    WithoutAll(current, current);
  }

  // ---------------------------------------------------------------------------
  // Symbols

  /** `[str.upper(s) for s in sym]` */
  function UpperAll(syms: seq<string>): (r: seq<string>)
    ensures |r| == |syms|
    ensures forall i :: 0 <= i < |syms| ==> r[i] == Upper(syms[i])
  {
    if syms == [] then [] else [Upper(syms[0])] + UpperAll(syms[1..])
  }

  /** The symbols `remove` takes away: the given ones uppercased, or with none
      given and `remove_all` set, the stored list itself. */
  function RemovalTarget(syms: seq<string>, current: seq<string>): seq<string> {
    if syms != [] then UpperAll(syms) else current
  }

  /** A source's symbol directory (thales/config/symbols.py and the same class
      in thales/config/__init__.py). `lists` maps a list's file name to the
      stored symbols; an empty file reads as the empty list. A method that
      fails has written nothing. */
  class SymbolStore {
    var lists: map<string, seq<string>>

    constructor(lists: map<string, seq<string>>)
      ensures this.lists == lists
    {
      this.lists := lists;
    }

    /** `get`: a missing file gives no path, and opening None is a TypeError. */
    function Get(filename: string): Result<seq<string>>
      reads this
    {
      if filename in lists then Ok(lists[filename]) else Err(TypeError)
    }

    /** `add(*sym, filename)`: `added` is the list it prints. */
    method Add(syms: seq<string>, filename: string) returns (o: Outcome, added: seq<string>)
      modifies this
      ensures filename !in old(lists) ==> o == Fail(TypeError) && lists == old(lists) && added == []
      ensures filename in old(lists) ==>
        var current := old(lists)[filename];
        o == Pass && added == Added(current, UpperAll(syms), StrLe) &&
        lists == old(lists)[filename := Merged(current, UpperAll(syms), StrLe)]
    {
      var current := Get(filename);
      if current.Err? {
        return Fail(current.error), [];
      }
      var up := UpperAll(syms);
      added := Added(current.value, up, StrLe);
      if added != [] {
        lists := lists[filename := Union(current.value, up, StrLe)];
      }
      o := Pass;
    }

    /** `remove(*sym, filename, remove_all)`: `removed` is the list it prints. */
    method Remove(syms: seq<string>, filename: string, removeAll: bool) returns (o: Outcome, removed: seq<string>)
      modifies this
      ensures syms == [] && !removeAll ==> o == Pass && lists == old(lists) && removed == []
      ensures (syms != [] || removeAll) && filename !in old(lists) ==>
        o == Fail(TypeError) && lists == old(lists) && removed == []
      ensures (syms != [] || removeAll) && filename in old(lists) ==>
        var current := old(lists)[filename];
        var target := RemovalTarget(syms, current);
        o == Pass && removed == Removed(current, target, StrLe) &&
        lists == old(lists)[filename := Pruned(current, target, StrLe)]
    {
      if syms == [] && !removeAll {
        return Pass, [];
      }
      var current := Get(filename);
      if current.Err? {
        return Fail(current.error), [];
      }
      var target := RemovalTarget(syms, current.value);
      removed := Removed(current.value, target, StrLe);
      if removed != [] {
        lists := lists[filename := Difference(current.value, target, StrLe)];
      }
      o := Pass;
    }
  }

  /** The master list of tradez/symbols.py; None when the file is absent,
      where `open` raises FileNotFoundError. */
  class MasterList {
    var master: Option<seq<string>>

    constructor(master: Option<seq<string>>)
      ensures this.master == master
    {
      this.master := master;
    }

    /** `get_symbols_master` */
    function Get(): Result<seq<string>>
      reads this
    {
      if master.Some? then Ok(master.value) else Err(FileNotFoundError)
    }

    /** `add_master_symbol(*sym)` */
    method AddSymbols(syms: seq<string>) returns (o: Outcome, added: seq<string>)
      modifies this
      ensures old(master).None? ==> o == Fail(FileNotFoundError) && master == old(master) && added == []
      ensures old(master).Some? ==>
        o == Pass && added == Added(old(master).value, UpperAll(syms), StrLe) &&
        master == Some(Merged(old(master).value, UpperAll(syms), StrLe))
    {
      var up := UpperAll(syms);
      var current := Get();
      if current.Err? {
        return Fail(current.error), [];
      }
      added := Added(current.value, up, StrLe);
      if added != [] {
        master := Some(Union(current.value, up, StrLe));
      }
      o := Pass;
    }

    /** `remove_master_symbol(*sym, clear_all)` */
    method RemoveSymbols(syms: seq<string>, clearAll: bool) returns (o: Outcome, removed: seq<string>)
      modifies this
      ensures syms == [] && !clearAll ==> o == Pass && master == old(master) && removed == []
      ensures (syms != [] || clearAll) && old(master).None? ==>
        o == Fail(FileNotFoundError) && master == old(master) && removed == []
      ensures (syms != [] || clearAll) && old(master).Some? ==>
        var current := old(master).value;
        var target := RemovalTarget(syms, current);
        o == Pass && removed == Removed(current, target, StrLe) &&
        master == Some(Pruned(current, target, StrLe))
    {
      if syms == [] && !clearAll {
        return Pass, [];
      }
      var current := Get();
      if current.Err? {
        return Fail(current.error), [];
      }
      var target := RemovalTarget(syms, current.value);
      removed := Removed(current.value, target, StrLe);
      if removed != [] {
        master := Some(Difference(current.value, target, StrLe));
      }
      o := Pass;
    }
  }

  /** What `yaml.safe_load(stream)["symbols"]` meets in the file of
      __init__.py: no file (FileNotFoundError), a file without data (None,
      so indexing it is a TypeError), or a stored list. */
  datatype SymbolFile = Absent | Blank | Listed(symbols: seq<string>)

  function ReadSymbols(f: SymbolFile): Result<seq<string>> {
    match f
    case Absent => Err(FileNotFoundError)
    case Blank => Err(TypeError)
    case Listed(s) => Ok(s)
  }

  /** The symbol list of `Tradez`, which rewrites its file on every call. */
  class TradezSymbols {
    var file: SymbolFile

    constructor(file: SymbolFile)
      ensures this.file == file
    {
      this.file := file;
    }

    /** `Tradez.add_symbol(*sym)` */
    method AddSymbol(syms: seq<string>) returns (o: Outcome, added: seq<string>)
      modifies this
      ensures ReadSymbols(old(file)).Err? ==>
        o == Fail(ReadSymbols(old(file)).error) && file == old(file) && added == []
      ensures ReadSymbols(old(file)).Ok? ==>
        var current := ReadSymbols(old(file)).value;
        o == Pass && added == Added(current, UpperAll(syms), StrLe) &&
        file == Listed(Union(current, UpperAll(syms), StrLe))
    {
      var up := UpperAll(syms);
      var current := ReadSymbols(file);
      if current.Err? {
        return Fail(current.error), [];
      }
      added := Added(current.value, up, StrLe);
      file := Listed(Union(current.value, up, StrLe));
      o := Pass;
    }

    /** `Tradez.remove_symbol(*sym)` */
    method RemoveSymbol(syms: seq<string>) returns (o: Outcome, removed: seq<string>)
      modifies this
      ensures ReadSymbols(old(file)).Err? ==>
        o == Fail(ReadSymbols(old(file)).error) && file == old(file) && removed == []
      ensures ReadSymbols(old(file)).Ok? ==>
        var current := ReadSymbols(old(file)).value;
        o == Pass && removed == Removed(current, UpperAll(syms), StrLe) &&
        file == Listed(Difference(current, UpperAll(syms), StrLe))
    {
      var up := UpperAll(syms);
      var current := ReadSymbols(file);
      if current.Err? {
        return Fail(current.error), [];
      }
      removed := Removed(current.value, up, StrLe);
      file := Listed(Difference(current.value, up, StrLe));
      o := Pass;
    }
  }

  /** `Tradez.add_symbol` always leaves a sorted, duplicate-free list holding
      the old and the given symbols, even when it reports nothing added. */
  lemma TradezAddSorted(current: seq<string>, syms: seq<string>)
    ensures StrictlySortedStrings(Union(current, UpperAll(syms), StrLe))
    ensures forall x :: x in Union(current, UpperAll(syms), StrLe) <==> x in current || x in UpperAll(syms)
  {
    SortedStringsSpec(UpperAll(syms) + current);
  }

  // ---------------------------------------------------------------------------
  // FX pairs

  type Pair = (string, string)

  /** One positional argument of `add`/`remove`: whether it is a tuple, and
      its items. */
  datatype PairArg = PairArg(isTuple: bool, items: seq<Value>)

  /** The assertions of `validate_pairs` on one argument: a tuple of exactly
      two strings that differ ignoring case. */
  predicate ValidPairArg(a: PairArg) {
    a.isTuple && |a.items| == 2 && a.items[0].VStr? && a.items[1].VStr? &&
    Lower(a.items[0].s) != Lower(a.items[1].s)
  }

  function UpperPair(a: PairArg): Pair
    requires ValidPairArg(a)
  {
    (Upper(a.items[0].s), Upper(a.items[1].s))
  }

  /** `FXPairs.validate_pairs(*pair)` */
  function ValidatePairs(args: seq<PairArg>): (r: Result<seq<Pair>>)
    ensures r.Ok? <==> forall i :: 0 <= i < |args| ==> ValidPairArg(args[i])
    ensures r.Err? ==> r.error == AssertionError
    ensures r.Ok? ==> |r.value| == |args|
    ensures r.Ok? ==> forall i :: 0 <= i < |args| ==> r.value[i] == UpperPair(args[i])
  {
    if args == [] then Ok([])
    else if !ValidPairArg(args[0]) then Err(AssertionError)
    else
      var rest := ValidatePairs(args[1..]);
      if rest.Err? then rest else Ok([UpperPair(args[0])] + rest.value)
  }

  /** A pair passed back in as a tuple argument. */
  function AsArg(p: Pair): PairArg {
    PairArg(true, [VStr(p.0), VStr(p.1)])
  }

  function AsArgs(ps: seq<Pair>): (r: seq<PairArg>)
    ensures |r| == |ps|
    ensures forall i :: 0 <= i < |ps| ==> r[i] == AsArg(ps[i])
  {
    if ps == [] then [] else [AsArg(ps[0])] + AsArgs(ps[1..])
  }

  /** The pairs `validate_pairs` returns are distinct ignoring case, and
      validating them again returns them unchanged. */
  lemma ValidateIdempotent(args: seq<PairArg>)
    requires ValidatePairs(args).Ok?
    ensures forall p :: p in ValidatePairs(args).value ==> Lower(p.0) != Lower(p.1)
    ensures ValidatePairs(AsArgs(ValidatePairs(args).value)) == ValidatePairs(args)
  {
    var ps := ValidatePairs(args).value;
    forall i | 0 <= i < |ps|
      ensures Lower(ps[i].0) != Lower(ps[i].1)
      ensures ValidPairArg(AsArgs(ps)[i]) && UpperPair(AsArgs(ps)[i]) == ps[i]
    {
      var a := args[i];
      assert ValidPairArg(a);
      LowerOfUpper(a.items[0].s);
      LowerOfUpper(a.items[1].s);
      UpperIdempotent(a.items[0].s);
      UpperIdempotent(a.items[1].s);
    }
    var again := ValidatePairs(AsArgs(ps));
    assert again.value == ps;
  }

  /** The pairs `remove` takes away: the validated arguments, or with none
      given and `remove_all` set, the stored pairs. */
  function PairRemovalTarget(pairs: seq<Pair>, current: seq<Pair>, given: bool): seq<Pair> {
    if given then pairs else current
  }

  /** A source's FX-pair directory; `lists` maps a list's file name to its
      stored pairs. */
  class PairStore {
    var lists: map<string, seq<Pair>>

    constructor(lists: map<string, seq<Pair>>)
      ensures this.lists == lists
    {
      this.lists := lists;
    }

    /** `get`: the stored pairs as tuples; a missing file is a TypeError. */
    function Get(filename: string): Result<seq<Pair>>
      reads this
    {
      if filename in lists then Ok(lists[filename]) else Err(TypeError)
    }

    /** `add(*pair, filename)`: reads the list first, then validates. */
    method Add(args: seq<PairArg>, filename: string) returns (o: Outcome, added: seq<Pair>)
      modifies this
      ensures filename !in old(lists) ==> o == Fail(TypeError) && lists == old(lists) && added == []
      ensures filename in old(lists) && ValidatePairs(args).Err? ==>
        o == Fail(AssertionError) && lists == old(lists) && added == []
      ensures filename in old(lists) && ValidatePairs(args).Ok? ==>
        var current := old(lists)[filename];
        var pairs := ValidatePairs(args).value;
        o == Pass && added == Added(current, pairs, PairLe) &&
        lists == old(lists)[filename := Merged(current, pairs, PairLe)]
    {
      var current := Get(filename);
      if current.Err? {
        return Fail(current.error), [];
      }
      var pairs := ValidatePairs(args);
      if pairs.Err? {
        return Fail(pairs.error), [];
      }
      added := Added(current.value, pairs.value, PairLe);
      if added != [] {
        lists := lists[filename := Union(current.value, pairs.value, PairLe)];
      }
      o := Pass;
    }

    /** `remove(*pair, filename, remove_all)` */
    method Remove(args: seq<PairArg>, filename: string, removeAll: bool) returns (o: Outcome, removed: seq<Pair>)
      modifies this
      ensures args == [] && !removeAll ==> o == Pass && lists == old(lists) && removed == []
      ensures args != [] && ValidatePairs(args).Err? ==>
        o == Fail(AssertionError) && lists == old(lists) && removed == []
      ensures (args != [] || removeAll) && ValidatePairs(args).Ok? && filename !in old(lists) ==>
        o == Fail(TypeError) && lists == old(lists) && removed == []
      ensures (args != [] || removeAll) && ValidatePairs(args).Ok? && filename in old(lists) ==>
        var current := old(lists)[filename];
        var target := PairRemovalTarget(ValidatePairs(args).value, current, args != []);
        o == Pass && removed == Removed(current, target, PairLe) &&
        lists == old(lists)[filename := Pruned(current, target, PairLe)]
    {
      var target: seq<Pair>;
      if args != [] {
        var pairs := ValidatePairs(args);
        if pairs.Err? {
          return Fail(pairs.error), [];
        }
        target := pairs.value;
      } else if removeAll {
        var stored := Get(filename);
        if stored.Err? {
          return Fail(stored.error), [];
        }
        target := stored.value;
      } else {
        return Pass, [];
      }
      var current := Get(filename);
      if current.Err? {
        return Fail(current.error), [];
      }
      removed := Removed(current.value, target, PairLe);
      if removed != [] {
        lists := lists[filename := Difference(current.value, target, PairLe)];
      }
      o := Pass;
    }
  }

  /** With the pair order, `add` then `remove` of the same validated pairs
      leaves the stored pairs not given, and `remove_all` empties the list. */
  lemma PairAddThenRemove(current: seq<Pair>, args: seq<PairArg>)
    requires IsSortedSet(current, PairLe)
    requires ValidatePairs(args).Ok?
    ensures Pruned(Merged(current, ValidatePairs(args).value, PairLe), ValidatePairs(args).value, PairLe)
         == Difference(current, ValidatePairs(args).value, PairLe)
    ensures Pruned(current, current, PairLe) == []
  {
    PairLeTotalOrder();
    AddThenRemove(current, ValidatePairs(args).value, PairLe);
    RemoveAllEmpties(current, PairLe);
  }
}
