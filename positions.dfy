/** Trading positions of thales/positions.py. A position is a record that is
    saved as `<name>.yaml` in the `open` store of its directory while it is
    open and in the `closed` store once it has been sold. Position
    directories are keyed by the bot they belong to and by the back-test
    timestamp they were created for. */
module Positions {
  import opened Common
  import opened Sorting
  import opened DateTimes
  import Bots

  datatype PType = Long | Short

  type Metadata = map<string, Value>

  /** The saved fields of a position (the `__slots__` together with its
      class). */
  datatype Record = Record(
    ptype: PType,
    test: bool,
    uuid: string,
    botName: Option<string>,
    openTimestamp: string,
    buyPrice: real,
    amount: real,
    closeTimestamp: Option<string>,
    sellPrice: Option<real>,
    metadata: Metadata)
  {
    /** `is_open`: no close timestamp (None or "") and no numeric sell price. */
    predicate IsOpen() {
      !Truthy(closeTimestamp) && sellPrice.None?
    }

    /** `sell_buy_ratio`: None while open; a closed position without a sell
        price raises TypeError and a zero buy price ZeroDivisionError. */
    function SellBuyRatio(): (r: Result<Option<real>>)
      ensures r == Ok(None) <==> IsOpen()
      ensures r.Ok? && r.value.Some? ==>
                sellPrice.Some? && buyPrice != 0.0 && r.value.value * buyPrice == sellPrice.value
      ensures r.Err? <==> !IsOpen() && (sellPrice.None? || buyPrice == 0.0)
      ensures r.Err? ==> r.error == (if sellPrice.None? then TypeError else ZeroDivisionError)
    {
      if IsOpen() then Ok(None)
      else if sellPrice.None? then Err(TypeError)
      else if buyPrice == 0.0 then Err(ZeroDivisionError)
      else Ok(Some(sellPrice.value / buyPrice))
    }

    /** `delta`: None while open; `amount * ratio - amount` for a long
        position and its negation for a short one. */
    function Delta(): (r: Result<Option<real>>)
      ensures IsOpen() ==> r == Ok(None)
      ensures r.Err? <==> SellBuyRatio().Err?
    {
      match SellBuyRatio()
      case Err(e) => Err(e)
      case Ok(None) => Ok(None)
      case Ok(Some(ratio)) =>
        var gain := amount * ratio - amount;
        Ok(Some(if ptype == Long then gain else -gain))
    }

    /** `name`: `test__<uuid>` for a test position, the bare uuid otherwise. */
    function Name(): (n: string)
      ensures test ==> n == TEST_PREFIX + uuid
      ensures !test ==> n == uuid
    {
      (if test then TEST_PREFIX else "") + uuid
    }

    function FileName(): string {
      Name() + ".yaml"
    }
  }

  const TEST_PREFIX: string := "test__"

  /** A closed position with a price and a non-zero buy price has a delta; the
      long delta is `amount*sell/buy - amount` and the short delta is exactly
      its negation. */
  lemma DeltaOfClosed(r: Record)
    requires !r.IsOpen() && r.sellPrice.Some? && r.buyPrice != 0.0
    ensures r.Delta().Ok? && r.Delta().value.Some?
    ensures r.ptype == Long ==> r.Delta().value.value == r.amount * (r.sellPrice.value / r.buyPrice) - r.amount
    ensures r.ptype == Short ==> r.Delta().value.value == -(r.amount * (r.sellPrice.value / r.buyPrice) - r.amount)
  {
    assert r.SellBuyRatio() == Ok(Some(r.sellPrice.value / r.buyPrice));
  }

  /** For a positive amount and buy price a long position gains exactly when
      it is sold above its buy price, and a short one exactly when it is sold
      below. */
  lemma DeltaSign(r: Record)
    requires !r.IsOpen() && r.sellPrice.Some? && r.buyPrice > 0.0 && r.amount > 0.0
    ensures r.Delta().Ok? && r.Delta().value.Some?
    ensures r.ptype == Long ==> (r.Delta().value.value > 0.0 <==> r.sellPrice.value > r.buyPrice)
    ensures r.ptype == Short ==> (r.Delta().value.value > 0.0 <==> r.sellPrice.value < r.buyPrice)
  {
    var s, b, a := r.sellPrice.value, r.buyPrice, r.amount;
    var ratio := s / b;
    assert ratio * b == s;
    assert r.Delta().value.value == (if r.ptype == Long then a * (ratio - 1.0) else a * (1.0 - ratio));
    RatioAboveOne(s, b);
    ProductSign(a, ratio - 1.0);
    ProductSign(a, 1.0 - ratio);
  }

  lemma RatioAboveOne(s: real, b: real)
    requires b > 0.0
    ensures s / b > 1.0 <==> s > b
    ensures s / b < 1.0 <==> s < b
  {
    var ratio := s / b;
    assert ratio * b == s;
    if ratio > 1.0 { assert (ratio - 1.0) * b > 0.0; }
    if ratio < 1.0 { assert (1.0 - ratio) * b > 0.0; }
    if ratio == 1.0 { assert s == b; }
  }

  lemma ProductSign(a: real, x: real)
    requires a > 0.0
    ensures a * x > 0.0 <==> x > 0.0
  {
    if x > 0.0 { assert a * x > 0.0; }
    if x <= 0.0 { assert a * (-x) >= 0.0; }
  }

  // ---------------------------------------------------------------------------
  // Position directories

  /** One position directory: the files of its `open` and `closed` stores
      and its optional `metadata.yaml`. */
  datatype Dir = Dir(open: map<string, Record>, closed: map<string, Record>, metadata: Option<Metadata>)

  const EMPTY_DIR: Dir := Dir(map[], map[], None)

  /** Which directory: `positions[/<bot>][/<timestamp>]`. */
  datatype Scope = Scope(bot: Option<string>, timestamp: Option<string>)

  /** `save()`: an open position is written to `open/<name>.yaml`; a closed
      one to `closed/<name>.yaml`, and its open file is removed. */
  function Saved(d: Dir, r: Record): Dir {
    var f := r.FileName();
    if r.IsOpen() then d.(open := d.open[f := r])
    else d.(closed := d.closed[f := r], open := d.open - {f})
  }

  /** After saving, the position's file holds the record in exactly one store
      (the store its state selects), and no other file changes. */
  lemma SavedInOneStore(d: Dir, r: Record)
    requires r.IsOpen() ==> r.FileName() !in d.closed
    ensures r.FileName() in Saved(d, r).open <==> r.IsOpen()
    ensures r.FileName() in Saved(d, r).closed <==> !r.IsOpen()
    ensures r.IsOpen() ==> Saved(d, r).open[r.FileName()] == r
    ensures !r.IsOpen() ==> Saved(d, r).closed[r.FileName()] == r
    ensures forall g :: g != r.FileName() ==>
              (g in Saved(d, r).open <==> g in d.open) && (g in Saved(d, r).closed <==> g in d.closed)
    ensures forall g :: g != r.FileName() && g in d.open ==> Saved(d, r).open[g] == d.open[g]
    ensures forall g :: g != r.FileName() && g in d.closed ==> Saved(d, r).closed[g] == d.closed[g]
    ensures Saved(d, r).metadata == d.metadata
  {
  }

  /** Saving the same record twice is the same as saving it once. */
  lemma SavedIdempotent(d: Dir, r: Record)
    ensures Saved(Saved(d, r), r) == Saved(d, r)
  {
  }

  /** `_list_positions`: the names (file names without `.yaml`) of the
      `.yaml` files of a listing whose `test_` prefix matches `test`. */
  function Listed(m: set<string>, test: bool): set<string> {
    set f | f in m && EndsWith(f, ".yaml") && StartsWith(f[..|f| - 5], "test_") == test :: f[..|f| - 5]
  }

  lemma ListedSpec(m: set<string>, test: bool, name: string)
    ensures name in Listed(m, test) <==> name + ".yaml" in m && StartsWith(name, "test_") == test
  {
    var f := name + ".yaml";
    assert f[..|f| - 5] == name;
    assert EndsWith(f, ".yaml");
    if name in Listed(m, test) {
      var g :| g in m && EndsWith(g, ".yaml") && StartsWith(g[..|g| - 5], "test_") == test && g[..|g| - 5] == name;
      assert g == g[..|g| - 5] + g[|g| - 5..];
    }
  }

  /** A saved position is listed by a manager exactly when its test flag
      matches the manager's (uuids never start with `test_`, as uuid4 text
      does not). */
  lemma SavedIsListed(d: Dir, r: Record, test: bool)
    requires !StartsWith(r.uuid, "test_")
    ensures r.IsOpen() ==> (r.Name() in Listed(Saved(d, r).open.Keys, test) <==> r.test == test)
    ensures !r.IsOpen() ==> (r.Name() in Listed(Saved(d, r).closed.Keys, test) <==> r.test == test)
    ensures !r.IsOpen() ==> r.Name() !in Listed(Saved(d, r).open.Keys, test)
  {
    var s := Saved(d, r);
    ListedSpec(s.open.Keys, test, r.Name());
    ListedSpec(s.closed.Keys, test, r.Name());
    if r.test {
      assert r.Name()[..5] == "test_";
    } else {
      assert r.Name() == r.uuid;
    }
  }

  /** The `.yaml` files of a listing whose name contains `uuid`. */
  function Matches(m: set<string>, uuid: string): set<string> {
    set f | f in m && Contains(f, uuid) && EndsWith(f, ".yaml")
  }

  lemma SingletonUnique<T>(s: set<T>)
    requires |s| == 1
    ensures forall x, y :: x in s && y in s ==> x == y
  {
    forall x, y | x in s && y in s ensures x == y {
      assert |s - {x}| == 0;
      assert s - {x} == {};
    }
  }

  /** The one file of a store that matches. */
  function Single(m: map<string, Record>, fs: set<string>): (r: Record)
    requires |fs| == 1 && fs <= m.Keys
    ensures exists f :: f in fs && r == m[f]
  {
    SingletonUnique(fs);
    var f :| f in fs;
    m[f]
  }

  /** `get_position(name)`: the uuid is the text after the last `__`; the
      open store is searched first, then the closed store. One matching file
      is the answer; several in one store, or none in either, is a
      ValueError. */
  function Lookup(d: Dir, name: string): (r: Result<Record>)
    ensures r.Err? ==> r.error == ValueError
  {
    var uuid := LastPieceStr(name, "__");
    var inOpen := Matches(d.open.Keys, uuid);
    var inClosed := Matches(d.closed.Keys, uuid);
    if |inOpen| == 1 then Ok(Single(d.open, inOpen))
    else if |inOpen| > 1 then Err(ValueError)
    else if |inClosed| == 1 then Ok(Single(d.closed, inClosed))
    else Err(ValueError)
  }

  lemma LookupOutcomes(d: Dir, name: string)
    ensures var uuid := LastPieceStr(name, "__");
      Lookup(d, name).Err? <==>
        |Matches(d.open.Keys, uuid)| > 1
        || (|Matches(d.open.Keys, uuid)| == 0 && |Matches(d.closed.Keys, uuid)| != 1)
    ensures var uuid := LastPieceStr(name, "__");
      Lookup(d, name).Ok? && |Matches(d.open.Keys, uuid)| == 1 ==> Lookup(d, name).value in d.open.Values
  {
  }

  /** Cutting at `__` only touches the text after a leading character that
      is not `_`. */
  lemma SplitStrCons(c: char, rest: string)
    requires c != '_'
    ensures SplitStr([c] + rest, "__") == [[c] + SplitStr(rest, "__")[0]] + SplitStr(rest, "__")[1..]
  {
    var s := [c] + rest;
    assert s[1..] == rest;
    if |s| >= 2 {
      assert s[..2][0] == c;
    } else {
      assert rest == [];
    }
  }

  /** The uuid recovered from a position's name is its own uuid. */
  lemma UuidOfName(r: Record)
    requires !Contains(r.uuid, "__")
    ensures LastPieceStr(r.Name(), "__") == r.uuid
  {
    SplitStrNoSep(r.uuid, "__");
    if r.test {
      TestNameSplit(r.uuid);
    }
  }

  lemma TestNameSplit(u: string)
    requires SplitStr(u, "__") == [u]
    ensures SplitStr(TEST_PREFIX + u, "__") == ["test", u]
  {
    SplitStrPrefix("test", u);
    assert "test" + "__" + u == TEST_PREFIX + u;
  }

  /** A prefix free of `_` followed by `__` and a text that is not cut splits
      into exactly those two pieces. */
  lemma {:induction false} SplitStrPrefix(p: string, u: string)
    requires forall i :: 0 <= i < |p| ==> p[i] != '_'
    requires SplitStr(u, "__") == [u]
    ensures SplitStr(p + "__" + u, "__") == [p, u]
    decreases |p|
  {
    if p == [] {
      var t0 := "__" + u;
      assert p + "__" + u == t0;
      assert t0[..2] == "__";
      assert t0[2..] == u;
    } else {
      SplitStrPrefix(p[1..], u);
      SplitStrCons(p[0], p[1..] + "__" + u);
      assert p + "__" + u == [p[0]] + (p[1..] + "__" + u);
      assert [p[0]] + p[1..] == p;
    }
  }

  /** Looking a saved position up by its name gives back the saved record,
      provided no other `.yaml` file of the directory mentions its uuid. */
  lemma LookupAfterSave(d: Dir, r: Record)
    requires !Contains(r.uuid, "__")
    requires forall f :: f in d.open && f != r.FileName() && EndsWith(f, ".yaml") ==> !Contains(f, r.uuid)
    requires forall f :: f in d.closed && f != r.FileName() && EndsWith(f, ".yaml") ==> !Contains(f, r.uuid)
    ensures Lookup(Saved(d, r), r.Name()) == Ok(r)
  {
    var s := Saved(d, r);
    var f := r.FileName();
    UuidOfName(r);
    assert f == (if r.test then TEST_PREFIX else "") + r.uuid + ".yaml";
    ContainsMiddle(if r.test then TEST_PREFIX else "", r.uuid, ".yaml");
    assert EndsWith(f, ".yaml");
    if r.IsOpen() {
      OnlyMatch(s.open.Keys, r.uuid, f);
    } else {
      NoMatch(s.open.Keys, r.uuid);
      OnlyMatch(s.closed.Keys, r.uuid, f);
    }
  }

  lemma OnlyMatch(keys: set<string>, u: string, f: string)
    requires f in keys && Contains(f, u) && EndsWith(f, ".yaml")
    requires forall g :: g in keys && g != f && EndsWith(g, ".yaml") ==> !Contains(g, u)
    ensures Matches(keys, u) == {f}
  {
  }

  lemma NoMatch(keys: set<string>, u: string)
    requires forall g :: g in keys && EndsWith(g, ".yaml") ==> !Contains(g, u)
    ensures Matches(keys, u) == {}
  {
  }

  /** The record `__init__` builds before saving: a missing or empty uuid is
      replaced by a fresh one and a given bot name by its registered
      spelling. */
  function Prepared(registry: seq<string>, ptype: PType, openTimestamp: string, buyPrice: real,
                    amount: real, test: bool, botName: Option<string>,
                    closeTimestamp: Option<string>, sellPrice: Option<real>,
                    uuid: Option<string>, freshUuid: string, metadata: Metadata): (r: Result<Record>)
    ensures r.Ok? ==> r.value.ptype == ptype && r.value.test == test && r.value.openTimestamp == openTimestamp
                      && r.value.buyPrice == buyPrice && r.value.amount == amount
                      && r.value.closeTimestamp == closeTimestamp && r.value.sellPrice == sellPrice
                      && r.value.metadata == metadata
    ensures r.Ok? ==> r.value.uuid == (if Truthy(uuid) then uuid.value else freshUuid)
    ensures r.Ok? && Truthy(botName) ==>
              r.value.botName.Some? && Bots.ValidateBotName(registry, botName.value) == Ok(r.value.botName.value)
    ensures r.Ok? && !Truthy(botName) ==> r.value.botName == botName
    ensures r.Err? <==> Truthy(botName) && Bots.ValidateBotName(registry, botName.value).Err?
  {
    var bot :- if Truthy(botName) then
                 var v :- Bots.ValidateBotName(registry, botName.value); Ok(Some(v))
               else Ok(botName);
    Ok(Record(ptype, test, if Truthy(uuid) then uuid.value else freshUuid, bot,
              openTimestamp, buyPrice, amount, closeTimestamp, sellPrice, metadata))
  }

  /** Rebuilding a stored record, as `get_position` does, gives the record
      back when its uuid is present and its bot name is already the
      registered spelling. */
  lemma PreparedOfStored(registry: seq<string>, r: Record, freshUuid: string)
    requires r.uuid != ""
    requires Truthy(r.botName) ==> Bots.ValidateBotName(registry, r.botName.value) == Ok(r.botName.value)
    ensures Prepared(registry, r.ptype, r.openTimestamp, r.buyPrice, r.amount, r.test, r.botName,
                     r.closeTimestamp, r.sellPrice, Some(r.uuid), freshUuid, r.metadata) == Ok(r)
  {
  }

  /** `io_path(..., make_subdirs=True)`: the directory exists afterwards. */
  function Created(dirs: map<Scope, Dir>, s: Scope): (r: map<Scope, Dir>)
    ensures s in r && r.Keys == dirs.Keys + {s}
    ensures forall t :: t in dirs ==> r[t] == dirs[t]
  {
    if s in dirs then dirs else dirs[s := EMPTY_DIR]
  }

  /** All position directories on disk, and the names in the process's
      working directory (what `os.listdir(None)` shows). */
  class PositionFiles {
    var dirs: map<Scope, Dir>
    const cwd: set<string>

    constructor (dirs: map<Scope, Dir>, cwd: set<string>)
      ensures this.dirs == dirs && this.cwd == cwd
    {
      this.dirs := dirs;
      this.cwd := cwd;
    }
  }

  class Position {
    const ptype: PType
    var test: bool
    var uuid: string
    var botName: Option<string>
    var openTimestamp: string
    var buyPrice: real
    var amount: real
    var closeTimestamp: Option<string>
    var sellPrice: Option<real>
    var metadata: Metadata
    var directory: Scope
    const files: PositionFiles

    function Data(): Record
      reads this
    {
      Record(ptype, test, uuid, botName, openTimestamp, buyPrice, amount, closeTimestamp, sellPrice, metadata)
    }

    constructor (files: PositionFiles, r: Record, directory: Scope)
      ensures Data() == r && this.directory == directory && this.files == files
    {
      ptype := r.ptype;
      test := r.test;
      uuid := r.uuid;
      botName := r.botName;
      openTimestamp := r.openTimestamp;
      buyPrice := r.buyPrice;
      amount := r.amount;
      closeTimestamp := r.closeTimestamp;
      sellPrice := r.sellPrice;
      metadata := r.metadata;
      this.directory := directory;
      this.files := files;
    }

    /** `save()`: the record (with its delta, whose failure propagates) is
        written to its store; writing into a missing directory fails. */
    method Save() returns (o: Outcome)
      modifies files
      ensures o.Pass? <==> Data().Delta().Ok? && directory in old(files.dirs)
      ensures o.Pass? ==> files.dirs == old(files.dirs)[directory := Saved(old(files.dirs)[directory], Data())]
      ensures o.Fail? ==> files.dirs == old(files.dirs)
      ensures o.Fail? ==> o.error == (if Data().Delta().Err? then Data().Delta().error else FileNotFoundError)
    {
      var delta := Data().Delta();
      if delta.Err? {
        return Fail(delta.error);
      }
      if directory !in files.dirs {
        return Fail(FileNotFoundError);
      }
      files.dirs := files.dirs[directory := Saved(files.dirs[directory], Data())];
      o := Pass;
    }

    /** `sell(timestamp, price, **metadata)`: only an open position can be
        sold, and only with a non-empty timestamp and a price. The position is
        closed afterwards, its metadata is merged with the new keys winning,
        and it is saved. */
    method Sell(timestamp: Option<string>, price: Option<real>, extra: Metadata) returns (o: Outcome)
      modifies this, files
      ensures directory == old(directory)
      ensures !old(Data().IsOpen()) || !(Truthy(timestamp) && price.Some?) ==>
                o == Fail(AssertionError) && Data() == old(Data()) && files.dirs == old(files.dirs)
      ensures old(Data().IsOpen()) && Truthy(timestamp) && price.Some? ==>
                Data() == old(Data()).(closeTimestamp := timestamp, sellPrice := price,
                                       metadata := old(metadata) + extra)
                && !Data().IsOpen()
                && (o.Pass? <==> Data().Delta().Ok? && directory in old(files.dirs))
                && (o.Pass? ==> files.dirs == old(files.dirs)[directory := Saved(old(files.dirs)[directory], Data())])
                && (o.Fail? ==> files.dirs == old(files.dirs))
                && (o.Fail? ==> o.error == (if Data().Delta().Err? then Data().Delta().error else FileNotFoundError))
    {
      if !Data().IsOpen() {
        return Fail(AssertionError);
      }
      if !(Truthy(timestamp) && price.Some?) {
        return Fail(AssertionError);
      }
      closeTimestamp := timestamp;
      sellPrice := price;
      metadata := metadata + extra;
      if Data().IsOpen() {
        return Fail(AssertionError);
      }
      o := Save();
    }
  }

  /** `_Position.__init__`: prepares the record, resolves the directory (a
      given one must exist; otherwise the bot's directory is created) and
      saves. */
  method NewPosition(files: PositionFiles, registry: seq<string>, ptype: PType,
                     openTimestamp: string, buyPrice: real, amount: real, test: bool,
                     botName: Option<string>, closeTimestamp: Option<string>,
                     sellPrice: Option<real>, uuid: Option<string>, freshUuid: string,
                     directory: Option<Scope>, metadata: Metadata)
    returns (r: Result<Position>)
    modifies files
    ensures var p := Prepared(registry, ptype, openTimestamp, buyPrice, amount, test, botName,
                              closeTimestamp, sellPrice, uuid, freshUuid, metadata);
      p.Err? ==> r == Err(p.error) && files.dirs == old(files.dirs)
    ensures directory.Some? && directory.value !in old(files.dirs) ==>
              r.Err? && files.dirs == old(files.dirs)
    ensures var p := Prepared(registry, ptype, openTimestamp, buyPrice, amount, test, botName,
                              closeTimestamp, sellPrice, uuid, freshUuid, metadata);
      p.Ok? && directory.Some? && directory.value !in old(files.dirs) ==> r == Err(AssertionError)
    ensures var p := Prepared(registry, ptype, openTimestamp, buyPrice, amount, test, botName,
                              closeTimestamp, sellPrice, uuid, freshUuid, metadata);
      p.Ok? && (directory.None? || directory.value in old(files.dirs)) ==>
        var at := if directory.Some? then directory.value else Scope(p.value.botName, None);
        (r.Ok? <==> p.value.Delta().Ok?)
        && (r.Err? ==> r == Err(p.value.Delta().error) && files.dirs == Created(old(files.dirs), at))
    ensures r.Ok? ==>
              var p := Prepared(registry, ptype, openTimestamp, buyPrice, amount, test, botName,
                                closeTimestamp, sellPrice, uuid, freshUuid, metadata);
              var at := if directory.Some? then directory.value else Scope(p.value.botName, None);
              fresh(r.value) && r.value.files == files
              && p.Ok? && r.value.Data() == p.value && r.value.directory == at
              && at in old(files.dirs) + Created(old(files.dirs), at)
              && files.dirs == Created(old(files.dirs), at)[at := Saved(Created(old(files.dirs), at)[at], p.value)]
  {
    var p := Prepared(registry, ptype, openTimestamp, buyPrice, amount, test, botName,
                      closeTimestamp, sellPrice, uuid, freshUuid, metadata);
    if p.Err? {
      return Err(p.error);
    }
    var at: Scope;
    if directory.Some? {
      if directory.value !in files.dirs {
        return Err(AssertionError);
      }
      at := directory.value;
    } else {
      at := Scope(p.value.botName, None);
      files.dirs := Created(files.dirs, at);
    }
    var pos := new Position(files, p.value, at);
    var o := pos.Save();
    if o.Fail? {
      return Err(o.error);
    }
    r := Ok(pos);
  }

  /** The record `get_position` rebuilds from a stored one. */
  function Rebuilt(registry: seq<string>, rec: Record, freshUuid: string): Result<Record> {
    Prepared(registry, rec.ptype, rec.openTimestamp, rec.buyPrice, rec.amount, rec.test, rec.botName,
             rec.closeTimestamp, rec.sellPrice, Some(rec.uuid), freshUuid, rec.metadata)
  }

  /** `sell(timestamp, price, **metadata)` on a position `p` of directory
      `ds`: the outcome and the directories afterwards. */
  function Closing(dirs: map<Scope, Dir>, ds: Scope, p: Record, timestamp: Option<string>,
                   price: Option<real>, extra: Metadata): (Outcome, map<Scope, Dir>)
    requires ds in dirs
  {
    if !(p.IsOpen() && Truthy(timestamp) && price.Some?) then (Fail(AssertionError), dirs)
    else
      var q := p.(closeTimestamp := timestamp, sellPrice := price, metadata := p.metadata + extra);
      if q.Delta().Err? then (Fail(q.Delta().error), dirs)
      else (Pass, dirs[ds := Saved(dirs[ds], q)])
  }

  /** Closing succeeds exactly for an open position given a timestamp and a
      price, with a non-zero buy price. It then moves the position's file
      from the open store to the closed store, holding the sold record with
      the merged metadata, and changes no other file or directory; otherwise
      nothing changes. */
  lemma CloseMovesFile(dirs: map<Scope, Dir>, ds: Scope, p: Record, timestamp: Option<string>,
                       price: Option<real>, extra: Metadata)
    requires ds in dirs
    ensures var c := Closing(dirs, ds, p, timestamp, price, extra);
      (c.0.Pass? <==> p.IsOpen() && Truthy(timestamp) && price.Some? && p.buyPrice != 0.0)
      && (c.0.Fail? ==>
            c.1 == dirs
            && c.0.error == (if p.IsOpen() && Truthy(timestamp) && price.Some? then ZeroDivisionError else AssertionError))
    ensures var c := Closing(dirs, ds, p, timestamp, price, extra);
      var f := p.FileName();
      c.0.Pass? ==>
        c.1.Keys == dirs.Keys && (forall t :: t in dirs && t != ds ==> c.1[t] == dirs[t])
        && f !in c.1[ds].open && f in c.1[ds].closed
        && (forall g :: g != f ==> (g in c.1[ds].open <==> g in dirs[ds].open)
                                   && (g in c.1[ds].closed <==> g in dirs[ds].closed))
        && (var q := c.1[ds].closed[f];
            !q.IsOpen() && q.closeTimestamp == timestamp && q.sellPrice == price
            && q.uuid == p.uuid && q.test == p.test && q.buyPrice == p.buyPrice && q.amount == p.amount
            && q.metadata.Keys == p.metadata.Keys + extra.Keys
            && (forall k :: k in extra ==> q.metadata[k] == extra[k])
            && (forall k :: k in p.metadata && k !in extra ==> q.metadata[k] == p.metadata[k]))
  {
    if p.IsOpen() && Truthy(timestamp) && price.Some? {
      var q := p.(closeTimestamp := timestamp, sellPrice := price, metadata := p.metadata + extra);
      if p.buyPrice != 0.0 {
        DeltaOfClosed(q);
      }
      assert q.FileName() == p.FileName();
    }
  }

  /** The latest of the datetimes that `parse` reads from `names`, or None
      when it reads none (`max` over the timestamped directories). */
  method MostRecent(names: set<string>, parse: string -> Option<DateTime>) returns (best: Option<DateTime>)
    ensures best.None? <==> forall n :: n in names ==> parse(n).None?
    ensures best.Some? ==> exists n :: n in names && parse(n) == best
    ensures best.Some? ==> forall n :: n in names && parse(n).Some? ==> parse(n).value <= best.value
  {
    var todo := names;
    best := None;
    while todo != {}
      invariant todo <= names
      invariant best.None? <==> forall n :: n in names - todo ==> parse(n).None?
      invariant best.Some? ==> exists n :: n in names - todo && parse(n) == best
      invariant best.Some? ==> forall n :: n in names - todo && parse(n).Some? ==> parse(n).value <= best.value
      decreases todo
    {
      var n :| n in todo;
      var t := parse(n);
      if t.Some? && (best.None? || t.value > best.value) {
        best := t;
      }
      todo := todo - {n};
    }
  }

  /** The sub-directories of `positions[/<bot>]`. */
  function SubdirNames(dirs: map<Scope, Dir>, bot: Option<string>): set<string> {
    (set s | s in dirs && s.bot == bot && s.timestamp.Some? :: s.timestamp.value)
    + (if bot.None? then set s | s in dirs && s.bot.Some? :: s.bot.value else {})
    + (if Scope(bot, None) in dirs then {"open", "closed"} else {})
  }

  /** Everything `os.listdir` shows in `positions[/<bot>]`. */
  function Entries(dirs: map<Scope, Dir>, bot: Option<string>): set<string> {
    SubdirNames(dirs, bot)
    + (if Scope(bot, None) in dirs && dirs[Scope(bot, None)].metadata.Some? then {"metadata.yaml"} else {})
  }

  /** `del_test_positions` on one store: every `test__*.yaml` file goes and
      every other file stays. */
  function WithoutTests(m: map<string, Record>): map<string, Record> {
    map f | f in m && !IsTestFile(f) :: m[f]
  }

  predicate IsTestFile(f: string) {
    StartsWith(f, TEST_PREFIX) && EndsWith(f, ".yaml")
  }

  /** `cumsum` on the delta column: missing deltas (open positions) stay
      missing and the running total skips them. */
  function DeltaCumsum(deltas: seq<Option<real>>): (r: seq<Option<real>>)
    ensures |r| == |deltas|
    ensures forall k :: 0 <= k < |r| ==> (r[k].Some? <==> deltas[k].Some?)
  {
    DeltaCumsumFrom(deltas, 0.0)
  }

  function DeltaCumsumFrom(deltas: seq<Option<real>>, total: real): (r: seq<Option<real>>)
    ensures |r| == |deltas|
    ensures forall k :: 0 <= k < |r| ==> (r[k].Some? <==> deltas[k].Some?)
  {
    if deltas == [] then []
    else if deltas[0].None? then [None] + DeltaCumsumFrom(deltas[1..], total)
    else [Some(total + deltas[0].value)] + DeltaCumsumFrom(deltas[1..], total + deltas[0].value)
  }

  /** The sum of the present deltas. */
  function PresentSum(deltas: seq<Option<real>>): real {
    if deltas == [] then 0.0
    else PresentSum(deltas[..|deltas| - 1]) + deltas[|deltas| - 1].GetOr(0.0)
  }

  lemma {:induction false} PresentSumCons(deltas: seq<Option<real>>)
    requires deltas != []
    ensures PresentSum(deltas) == deltas[0].GetOr(0.0) + PresentSum(deltas[1..])
  {
    if |deltas| > 1 {
      PresentSumCons(deltas[..|deltas| - 1]);
      assert deltas[..|deltas| - 1][1..] == deltas[1..][..|deltas[1..]| - 1];
    } else {
      assert deltas[1..] == [];
      assert deltas[..0] == [];
    }
  }

  lemma {:induction false} DeltaCumsumFromValue(deltas: seq<Option<real>>, total: real, k: nat)
    requires k < |deltas| && deltas[k].Some?
    ensures DeltaCumsumFrom(deltas, total)[k] == Some(total + PresentSum(deltas[..k + 1]))
  {
    PresentSumCons(deltas[..k + 1]);
    assert deltas[..k + 1][1..] == deltas[1..][..k];
    if k > 0 {
      var next := total + deltas[0].GetOr(0.0);
      DeltaCumsumFromValue(deltas[1..], next, k - 1);
    } else {
      assert deltas[1..][..0] == [];
    }
  }

  /** Each present running total is the sum of the present deltas up to and
      including its row. */
  lemma DeltaCumsumValue(deltas: seq<Option<real>>, k: nat)
    requires k < |deltas| && deltas[k].Some?
    ensures DeltaCumsum(deltas)[k] == Some(PresentSum(deltas[..k + 1]))
  {
    DeltaCumsumFromValue(deltas, 0.0, k);
  }

  /** A row of the frame `construct_dataframe` builds, as `cumsum` reads it;
      an open position has no close time and no running total. */
  datatype TradeRow = TradeRow(openTime: Option<DateTime>, closeTime: Option<DateTime>, deltaCumsum: Option<real>)

  /** A row that survives `dropna()`. */
  datatype Trade = Trade(openTime: DateTime, closeTime: DateTime, deltaCumsum: real)

  datatype Event = Event(time: DateTime, cumsum: real)

  predicate Complete(r: TradeRow) {
    r.openTime.Some? && r.closeTime.Some? && r.deltaCumsum.Some?
  }

  function AsTrade(r: TradeRow): Trade
    requires Complete(r)
  {
    Trade(r.openTime.value, r.closeTime.value, r.deltaCumsum.value)
  }

  /** `dropna()` on the three columns. */
  function CompleteRows(rows: seq<TradeRow>): (r: seq<Trade>)
    ensures |r| <= |rows|
    ensures forall t :: t in r <==> exists x :: x in rows && Complete(x) && AsTrade(x) == t
  {
    if rows == [] then []
    else if Complete(rows[0]) then [AsTrade(rows[0])] + CompleteRows(rows[1..])
    else CompleteRows(rows[1..])
  }

  /** The open events: each trade opens at the running total before it (0
      for the first). */
  function OpenEvents(kept: seq<Trade>): (r: seq<Event>)
    ensures |r| == |kept|
    ensures forall k :: 0 <= k < |r| ==>
              r[k] == Event(kept[k].openTime, if k == 0 then 0.0 else kept[k - 1].deltaCumsum)
  {
    seq(|kept|, k requires 0 <= k < |kept| =>
      Event(kept[k].openTime, if k == 0 then 0.0 else kept[k - 1].deltaCumsum))
  }

  /** The close events: each trade closes at its own running total. */
  function CloseEvents(kept: seq<Trade>): (r: seq<Event>)
    ensures |r| == |kept|
    ensures forall k :: 0 <= k < |r| ==> r[k] == Event(kept[k].closeTime, kept[k].deltaCumsum)
  {
    seq(|kept|, k requires 0 <= k < |kept| => Event(kept[k].closeTime, kept[k].deltaCumsum))
  }

  predicate EventLe(a: Event, b: Event) {
    a.time <= b.time
  }

  /** The `cumsum` property: the open events followed by the close events,
      ordered by timestamp. An empty frame makes pandas reject the single
      leading 0 (ValueError). */
  function Cumsum(rows: seq<TradeRow>): Result<seq<Event>> {
    var kept := CompleteRows(rows);
    if kept == [] then Err(ValueError)
    else Ok(Sort(OpenEvents(kept) + CloseEvents(kept), EventLe))
  }

  /** The events are ordered by time and are exactly one open and one close
      event per complete trade. */
  lemma CumsumSpec(rows: seq<TradeRow>)
    requires CompleteRows(rows) != []
    ensures Cumsum(rows).Ok?
    ensures var kept := CompleteRows(rows);
      SortedBy(Cumsum(rows).value, EventLe)
      && multiset(Cumsum(rows).value) == multiset(OpenEvents(kept)) + multiset(CloseEvents(kept))
      && |Cumsum(rows).value| == 2 * |kept|
  {
    var kept := CompleteRows(rows);
    SortSorted(OpenEvents(kept) + CloseEvents(kept), EventLe);
  }

  class PositionManager {
    var botName: Option<string>
    var timestamp: Option<string>
    /** `dir_fp` (None after `del_test_dir`). `open_fp` and `closed_fp` are
        its two stores. */
    var dirScope: Option<Scope>
    var test: bool
    const files: PositionFiles

    ghost predicate Valid()
      reads this
    {
      (dirScope.Some? ==> dirScope.value == Scope(botName, timestamp))
      && (dirScope.None? ==> timestamp.None? && botName.None?)
    }

    constructor (files: PositionFiles, botName: Option<string>, timestamp: Option<string>, test: bool)
      ensures Valid()
      ensures this.files == files && this.botName == botName && this.timestamp == timestamp
      ensures this.test == test && dirScope == Some(Scope(botName, timestamp))
    {
      this.files := files;
      this.botName := botName;
      this.timestamp := timestamp;
      this.test := test;
      this.dirScope := Some(Scope(botName, timestamp));
    }

    /** The manager's position directory, as it is on disk. */
    function CurrentDir(): (r: Result<Dir>)
      reads this, files
    {
      if dirScope.None? then Err(TypeError)
      else if dirScope.value !in files.dirs then Err(FileNotFoundError)
      else Ok(files.dirs[dirScope.value])
    }

    /** What `os.listdir` shows for the open or closed store: with the paths
        cleared by `del_test_dir` it lists the working directory. */
    function Listing(closed: bool): (r: Result<set<string>>)
      reads this, files
      ensures dirScope.None? ==> r == Ok(files.cwd)
      ensures r.Err? <==> dirScope.Some? && dirScope.value !in files.dirs
      ensures r.Err? ==> r.error == FileNotFoundError
    {
      if dirScope.None? then Ok(files.cwd)
      else if dirScope.value !in files.dirs then Err(FileNotFoundError)
      else if closed then Ok(files.dirs[dirScope.value].closed.Keys)
      else Ok(files.dirs[dirScope.value].open.Keys)
    }

    /** `open_positions` / `closed_positions` */
    function ListPositions(closed: bool): (r: Result<set<string>>)
      reads this, files
      ensures r.Err? <==> dirScope.Some? && dirScope.value !in files.dirs
      ensures r.Err? ==> r.error == FileNotFoundError
      ensures r.Ok? && dirScope.None? ==> forall n :: n in r.value <==>
                n + ".yaml" in files.cwd && StartsWith(n, "test_") == test
      ensures r.Ok? && dirScope.Some? ==> forall n :: n in r.value <==>
                var d := files.dirs[dirScope.value];
                n + ".yaml" in (if closed then d.closed else d.open) && StartsWith(n, "test_") == test
    {
      var m :- Listing(closed);
      forall n ensures n in Listed(m, test) <==> n + ".yaml" in m && StartsWith(n, "test_") == test {
        ListedSpec(m, test, n);
      }
      Ok(Listed(m, test))
    }

    /** The record `get_position(name)` reads. With the paths cleared both
        searches list the working directory, where a single match cannot be
        opened (TypeError). */
    function Find(name: string): (r: Result<Record>)
      reads this, files
      ensures dirScope.None? ==>
                r == Err(if |Matches(files.cwd, LastPieceStr(name, "__"))| == 1 then TypeError else ValueError)
      ensures dirScope.Some? && dirScope.value !in files.dirs ==> r == Err(FileNotFoundError)
      ensures r.Ok? ==> dirScope.Some? && dirScope.value in files.dirs
      ensures dirScope.Some? && dirScope.value in files.dirs ==> r == Lookup(files.dirs[dirScope.value], name)
    {
      if dirScope.None? then
        Err(if |Matches(files.cwd, LastPieceStr(name, "__"))| == 1 then TypeError else ValueError)
      else if dirScope.value !in files.dirs then Err(FileNotFoundError)
      else Lookup(files.dirs[dirScope.value], name)
    }

    /** `get_position(name)`: finds the record and rebuilds the position in
        the manager's directory, which saves it again. */
    method GetPosition(name: string, registry: seq<string>, freshUuid: string) returns (r: Result<Position>)
      requires Valid()
      modifies files
      ensures old(Find(name)).Err? ==> r == Err(old(Find(name)).error) && files.dirs == old(files.dirs)
      ensures old(Find(name)).Ok? ==>
                var p := Rebuilt(registry, old(Find(name)).value, freshUuid);
                (p.Err? ==> r == Err(p.error) && files.dirs == old(files.dirs))
                && (p.Ok? ==> (r.Ok? <==> p.value.Delta().Ok?))
                && (p.Ok? && r.Err? ==> r == Err(p.value.Delta().error) && files.dirs == old(files.dirs))
      ensures r.Ok? ==> fresh(r.value) && r.value.files == files
      ensures r.Ok? ==>
                old(Find(name)).Ok?
                && var p := Rebuilt(registry, old(Find(name)).value, freshUuid);
                   p.Ok? && r.value.Data() == p.value && r.value.directory == dirScope.value
                   && files.dirs == old(files.dirs)[dirScope.value := Saved(old(files.dirs)[dirScope.value], p.value)]
      ensures dirScope == old(dirScope)
    {
      var found := Find(name);
      if found.Err? {
        return Err(found.error);
      }
      var rec := found.value;
      r := NewPosition(files, registry, rec.ptype, rec.openTimestamp, rec.buyPrice, rec.amount,
                       rec.test, rec.botName, rec.closeTimestamp, rec.sellPrice, Some(rec.uuid),
                       freshUuid, dirScope, rec.metadata);
    }

    /** `del_test_positions(del_open, del_closed)`: with the paths cleared the
        working directory is listed, and removing a test file from it fails
        (TypeError). */
    method DelTestPositions(delOpen: bool, delClosed: bool) returns (o: Outcome)
      requires Valid()
      modifies files
      ensures !(delOpen || delClosed) ==> o.Pass? && files.dirs == old(files.dirs)
      ensures (delOpen || delClosed) && dirScope.None? ==>
                o == (if exists f :: f in files.cwd && IsTestFile(f) then Fail(TypeError) else Pass)
                && files.dirs == old(files.dirs)
      ensures (delOpen || delClosed) && dirScope.Some? && dirScope.value !in old(files.dirs) ==>
                o == Fail(FileNotFoundError) && files.dirs == old(files.dirs)
      ensures (delOpen || delClosed) && old(CurrentDir()).Ok? ==>
                o.Pass?
                && var d := old(CurrentDir()).value;
                   files.dirs == old(files.dirs)[dirScope.value := d.(
                     open := if delOpen then WithoutTests(d.open) else d.open,
                     closed := if delClosed then WithoutTests(d.closed) else d.closed)]
    {
      if !(delOpen || delClosed) {
        return Pass;
      }
      if dirScope.None? {
        if exists f :: f in files.cwd && IsTestFile(f) {
          return Fail(TypeError);
        }
        return Pass;
      }
      var d := CurrentDir();
      if d.Err? {
        return Fail(d.error);
      }
      var dir := d.value;
      if delOpen {
        var kept := RemoveTestFiles(dir.open);
        dir := dir.(open := kept);
      }
      if delClosed {
        var kept := RemoveTestFiles(dir.closed);
        dir := dir.(closed := kept);
      }
      files.dirs := files.dirs[dirScope.value := dir];
      o := Pass;
    }

    /** `del_test_dir()`: with a back-test timestamp, the whole directory is
        removed and the manager forgets its paths and bot name. */
    method DelTestDir() returns (o: Outcome)
      requires Valid()
      modifies this, files
      ensures Valid() && test == old(test)
      ensures !Truthy(old(timestamp)) ==> o.Pass? && unchanged(this) && files.dirs == old(files.dirs)
      ensures Truthy(old(timestamp)) && old(dirScope).value !in old(files.dirs) ==>
                o == Fail(FileNotFoundError) && unchanged(this) && files.dirs == old(files.dirs)
      ensures Truthy(old(timestamp)) && old(dirScope).value in old(files.dirs) ==>
                o.Pass? && files.dirs == old(files.dirs) - {old(dirScope).value}
                && timestamp.None? && dirScope.None? && botName.None?
    {
      if !Truthy(timestamp) {
        return Pass;
      }
      if dirScope.None? || dirScope.value !in files.dirs {
        return Fail(FileNotFoundError);
      }
      files.dirs := files.dirs - {dirScope.value};
      timestamp := None;
      dirScope := None;
      botName := None;
      o := Pass;
    }

    /** `open_new_position(ptype, ...)`: `ptype` is "long" or "short" in any
        case (otherwise KeyError); the position is created in the manager's
        directory with the manager's bot, or with the paths cleared in the
        top-level directory. */
    method OpenNewPosition(ptype: string, openTimestamp: string, buyPrice: real, amount: real,
                           test: bool, metadata: Metadata, registry: seq<string>, freshUuid: string)
      returns (r: Result<Position>)
      requires Valid()
      modifies files
      ensures Lower(ptype) != "long" && Lower(ptype) != "short" ==> r == Err(KeyError) && files.dirs == old(files.dirs)
      ensures r.Ok? ==> r.value.ptype == (if Lower(ptype) == "long" then Long else Short)
                        && r.value.Data().IsOpen() && r.value.test == test && r.value.uuid == freshUuid
                        && r.value.Data().buyPrice == buyPrice && r.value.Data().amount == amount
      ensures r.Ok? && dirScope.Some? ==> r.value.directory == dirScope.value
      ensures Lower(ptype) == "long" || Lower(ptype) == "short" ==>
                var p := Prepared(registry, if Lower(ptype) == "long" then Long else Short, openTimestamp,
                                  buyPrice, amount, test, botName, None, None, None, freshUuid, metadata);
                var at := if dirScope.Some? then dirScope.value else Scope(None, None);
                (p.Err? ==> r == Err(p.error) && files.dirs == old(files.dirs))
                && (p.Ok? && dirScope.Some? && at !in old(files.dirs) ==>
                      r == Err(AssertionError) && files.dirs == old(files.dirs))
                && (p.Ok? && (dirScope.None? || at in old(files.dirs)) ==>
                      r.Ok? && fresh(r.value) && r.value.Data() == p.value && r.value.directory == at
                      && files.dirs == Created(old(files.dirs), at)[at := Saved(Created(old(files.dirs), at)[at], p.value)])
    {
      var kind: PType;
      if Lower(ptype) == "short" {
        kind := Short;
      } else if Lower(ptype) == "long" {
        kind := Long;
      } else {
        return Err(KeyError);
      }
      r := NewPosition(files, registry, kind, openTimestamp, buyPrice, amount, test, botName,
                       None, None, None, freshUuid, dirScope, metadata);
    }

    /** `close_position(name, timestamp, price, **metadata)`: the position is
        found and rebuilt (which saves it), then sold. */
    method ClosePosition(name: string, timestamp: Option<string>, price: Option<real>, extra: Metadata,
                         registry: seq<string>, freshUuid: string) returns (o: Outcome)
      requires Valid()
      modifies files
      ensures old(Find(name)).Err? ==> o == Fail(old(Find(name)).error) && files.dirs == old(files.dirs)
      ensures old(Find(name)).Ok? ==>
                var ds := dirScope.value;
                var p := Rebuilt(registry, old(Find(name)).value, freshUuid);
                (p.Err? ==> o == Fail(p.error) && files.dirs == old(files.dirs))
                && (p.Ok? && p.value.Delta().Err? ==> o == Fail(p.value.Delta().error) && files.dirs == old(files.dirs))
                && (p.Ok? && p.value.Delta().Ok? ==>
                      (o, files.dirs) == Closing(old(files.dirs)[ds := Saved(old(files.dirs)[ds], p.value)], ds,
                                                 p.value, timestamp, price, extra))
      ensures o.Pass? ==> dirScope.Some? && dirScope.value in files.dirs
    {
      var found := GetPosition(name, registry, freshUuid);
      if found.Err? {
        return Fail(found.error);
      }
      var pos := found.value;
      o := pos.Sell(timestamp, price, extra);
    }

    /** The `metadata` property: the directory's `metadata.yaml`, or {} when
        there is none. */
    function Metadata(): (r: Result<Metadata>)
      reads this, files
      ensures r.Err? <==> dirScope.None?
    {
      if dirScope.None? then Err(TypeError)
      else if dirScope.value !in files.dirs then Ok(map[])
      else Ok(files.dirs[dirScope.value].metadata.GetOr(map[]))
    }

    /** `save_metadata(**data)`: with some data, the stored metadata is merged
        with it, the new keys winning; without data nothing happens. */
    method SaveMetadata(data: Metadata) returns (o: Outcome)
      requires Valid()
      modifies files
      ensures data == map[] ==> o.Pass? && files.dirs == old(files.dirs)
      ensures data != map[] && dirScope.None? ==> o == Fail(TypeError) && files.dirs == old(files.dirs)
      ensures data != map[] && dirScope.Some? && dirScope.value !in old(files.dirs) ==>
                o == Fail(FileNotFoundError) && files.dirs == old(files.dirs)
      ensures o.Pass? && data != map[] ==>
                var d := old(files.dirs)[dirScope.value];
                files.dirs == old(files.dirs)[dirScope.value := d.(metadata := Some(d.metadata.GetOr(map[]) + data))]
      ensures o.Pass? && data != map[] ==>
                Metadata() == Ok(old(Metadata()).value + data)
                && forall k :: k in data ==> Metadata().value[k] == data[k]
    {
      if data == map[] {
        return Pass;
      }
      var current := Metadata();
      if current.Err? {
        return Fail(current.error);
      }
      if dirScope.value !in files.dirs {
        return Fail(FileNotFoundError);
      }
      var d := files.dirs[dirScope.value];
      files.dirs := files.dirs[dirScope.value := d.(metadata := Some(current.value + data))];
      o := Pass;
    }
  }

  /** Removes the `test__*.yaml` files of one store, one file at a time. */
  method RemoveTestFiles(m: map<string, Record>) returns (kept: map<string, Record>)
    ensures kept == WithoutTests(m)
    ensures forall f :: f in kept ==> !IsTestFile(f)
    ensures forall f :: f in m && !IsTestFile(f) ==> f in kept && kept[f] == m[f]
  {
    var doomed := set f | f in m && IsTestFile(f);
    kept := m;
    while doomed != {}
      invariant doomed <= m.Keys
      invariant forall f :: f in doomed ==> IsTestFile(f)
      invariant kept == map f | f in m && (!IsTestFile(f) || f in doomed) :: m[f]
      decreases doomed
    {
      var f :| f in doomed;
      kept := map g | g in kept && g != f :: kept[g];
      doomed := doomed - {f};
    }
  }

  /** More than one of the three directory options is given. */
  predicate Conflicting(createTestDir: bool, openMostRecent: bool, openTimestamp: Option<string>) {
    (if createTestDir then 1 else 0) + (if openMostRecent then 1 else 0) + (if Truthy(openTimestamp) then 1 else 0) > 1
  }

  /** The manager's bot: a given name in its registered spelling. */
  function ManagerBot(registry: seq<string>, botName: Option<string>): (r: Result<Option<string>>)
    ensures r.Err? <==> Truthy(botName) && Bots.ValidateBotName(registry, botName.value).Err?
    ensures r.Ok? && Truthy(botName) ==> r.value == Some(Bots.ValidateBotName(registry, botName.value).value)
    ensures r.Ok? && !Truthy(botName) ==> r.value.None?
  {
    if !Truthy(botName) then Ok(None)
    else
      var v :- Bots.ValidateBotName(registry, botName.value);
      Ok(Some(v))
  }

  /** `PositionManager.__init__`: at most one of `create_test_dir`,
      `open_most_recent` and `open_timestamp` may be given, and each forces
      `test`. A new back-test directory takes the current time `now`; the most
      recent one is the latest sub-directory name `parse` (strptime with the
      millisecond format) reads, printed back with `format`; a named one must
      be listed. The manager's directory is created when missing. */
  method NewManager(files: PositionFiles, registry: seq<string>, botName: Option<string>, test: bool,
                    createTestDir: bool, openMostRecent: bool, openTimestamp: Option<string>,
                    now: string, parse: string -> Option<DateTime>, format: DateTime -> string)
    returns (r: Result<PositionManager>)
    modifies files
    ensures ((createTestDir && openMostRecent) || (createTestDir && Truthy(openTimestamp))
             || (openMostRecent && Truthy(openTimestamp))) ==> r == Err(AssertionError)
    ensures Truthy(botName) && Bots.ValidateBotName(registry, botName.value).Err? ==> r.Err?
    ensures r.Ok? ==> fresh(r.value) && r.value.Valid() && r.value.files == files
    ensures r.Ok? ==> r.value.dirScope.Some? && r.value.dirScope.value in files.dirs
    ensures r.Ok? ==> r.value.test == (test || createTestDir || openMostRecent || Truthy(openTimestamp))
    ensures r.Ok? && Truthy(botName) ==> r.value.botName == Some(Bots.ValidateBotName(registry, botName.value).value)
    ensures r.Ok? && !Truthy(botName) ==> r.value.botName.None?
    ensures r.Ok? && createTestDir ==> r.value.timestamp == Some(now)
    ensures r.Ok? && Truthy(openTimestamp) ==>
              r.value.timestamp == openTimestamp
              && openTimestamp.value in Entries(Created(old(files.dirs), Scope(r.value.botName, None)), r.value.botName)
    ensures r.Ok? && openMostRecent ==>
              exists t :: r.value.timestamp == Some(format(t))
                && (exists n :: n in SubdirNames(Created(old(files.dirs), Scope(r.value.botName, None)), r.value.botName)
                                && parse(n) == Some(t))
                && forall n :: (n in SubdirNames(Created(old(files.dirs), Scope(r.value.botName, None)), r.value.botName)
                                && parse(n).Some?) ==> parse(n).value <= t
    ensures r.Ok? && !createTestDir && !openMostRecent && !Truthy(openTimestamp) ==> r.value.timestamp.None?
    ensures Conflicting(createTestDir, openMostRecent, openTimestamp) || ManagerBot(registry, botName).Err? ==>
              r.Err? && files.dirs == old(files.dirs)
    ensures !Conflicting(createTestDir, openMostRecent, openTimestamp) && ManagerBot(registry, botName).Ok? ==>
              var bot := ManagerBot(registry, botName).value;
              var searched := openMostRecent || Truthy(openTimestamp);
              var base := if searched then Created(old(files.dirs), Scope(bot, None)) else old(files.dirs);
              (r.Err? ==> r == Err(AssertionError) && searched && files.dirs == base)
              && (r.Ok? ==> r.value.botName == bot && files.dirs == Created(base, r.value.dirScope.value))
              && (openMostRecent ==> (r.Ok? <==> exists n :: n in SubdirNames(base, bot) && parse(n).Some?))
              && (Truthy(openTimestamp) ==> (r.Ok? <==> openTimestamp.value in Entries(base, bot)))
              && (!searched ==> r.Ok?)
  {
    if Conflicting(createTestDir, openMostRecent, openTimestamp) {
      return Err(AssertionError);
    }
    var resolved := ManagerBot(registry, botName);
    if resolved.Err? {
      return Err(resolved.error);
    }
    var bot := resolved.value;
    var ts: Option<string> := None;
    var isTest := test;
    if createTestDir {
      isTest := true;
      ts := Some(now);
    } else if openMostRecent {
      isTest := true;
      files.dirs := Created(files.dirs, Scope(bot, None));
      var best := MostRecent(SubdirNames(files.dirs, bot), parse);
      if best.None? {
        return Err(AssertionError);
      }
      ts := Some(format(best.value));
    } else if Truthy(openTimestamp) {
      isTest := true;
      files.dirs := Created(files.dirs, Scope(bot, None));
      if openTimestamp.value !in Entries(files.dirs, bot) {
        return Err(AssertionError);
      }
      ts := openTimestamp;
    }
    files.dirs := Created(files.dirs, Scope(bot, ts));
    var m := new PositionManager(files, bot, ts, isTest);
    r := Ok(m);
  }
}
