/** The back-test trade handler and bot loop of the FoXyLady and FXyLady
    bots (thales/bots/FoXyLady/test/__init__.py, thales/bots/FXyLady/test/__init__.py).
    The handler closes every open position whose stop or target the bar
    crosses; with nothing open it opens one position when the bar breaks
    above the session mean but closes below the sell level, on a date not
    traded yet. The position store the handler talks to is held here as two
    maps, open and closed, from uuid to position. */
module TestHandler {
  import opened Common
  import opened Sorting
  import opened DateTimes
  import opened Baseline
  import opened TestGenerator

  /** A stored position as the handler uses it. */
  datatype Lot = Lot(openTimestamp: string, buyPrice: real, amount: real,
                     closeTimestamp: Option<string>, sellPrice: Option<real>)

  /** The handler's thresholds, each added to a reference price. */
  datatype Signals = Signals(open: real, sell: real, stop: real)

  /** The later revision's defaults, and the earlier revision's constants
      (its stop is 0.2 below the buy price). */
  const FOXY_SIGNALS: Signals := Signals(0.2, 0.3, -0.3)
  const FXY_SIGNALS: Signals := Signals(0.2, 0.3, -0.2)

  /** Every position is bought for 100. */
  const AMOUNT: real := 100.0

  /** The position store and the handler's `dates_traded`. */
  datatype HandlerState = HandlerState(open: map<string, Lot>, closed: map<string, Lot>, traded: seq<Date>)

  predicate ShouldClose(sig: Signals, lot: Lot, bar: Bar) {
    bar.low < lot.buyPrice + sig.stop || bar.high > lot.buyPrice + sig.sell
  }

  predicate ShouldOpen(sig: Signals, s: Session, bar: Bar, traded: seq<Date>) {
    bar.high > s.mean + sig.open && bar.close < s.mean + sig.sell && DateOf(bar.time) !in traded
  }

  /** `sorted(set(dates_traded) | {date})` */
  function AddDate(traded: seq<Date>, d: Date): (r: seq<Date>)
    ensures SortedBy(r, IntLe) && NoDups(r)
    ensures forall x :: x in r <==> x in traded || x == d
  {
    IntLeTotalOrder();
    SortedSetSpec(traded + [d], IntLe);
    SortedSet(traded + [d], IntLe)
  }

  /** Adding a date already listed to a sorted duplicate-free list changes
      nothing: closing several positions on one bar records its date once. */
  lemma AddDateKeeps(traded: seq<Date>, d: Date)
    requires SortedBy(traded, IntLe) && NoDups(traded)
    requires d in traded
    ensures AddDate(traded, d) == traded
  {
    IntLeTotalOrder();
    SortedUnique(AddDate(traded, d), traded, IntLe);
  }

  function Sold(lot: Lot, timestamp: string, price: real): Lot {
    lot.(closeTimestamp := Some(timestamp), sellPrice := Some(price))
  }

  /** The set of open positions the bar closes. */
  function Closing(sig: Signals, open: map<string, Lot>, bar: Bar): set<string> {
    set f | f in open && ShouldClose(sig, open[f], bar)
  }

  /** One call of the handler on an item; `uuid` names a position it opens. */
  function Handled(sig: Signals, s: HandlerState, it: Item, uuid: string): HandlerState {
    var bar := it.minute;
    var ts := FormatMilli(bar.time);
    if s.open != map[] then
      var closing := Closing(sig, s.open, bar);
      HandlerState(map f | f in s.open && f !in closing :: s.open[f],
                 s.closed + map f | f in closing :: Sold(s.open[f], ts, bar.close),
                 if closing != {} then AddDate(s.traded, DateOf(bar.time)) else s.traded)
    else if ShouldOpen(sig, it.session, bar, s.traded) then
      HandlerState(s.open[uuid := Lot(ts, bar.close, AMOUNT, None, None)], s.closed,
                 AddDate(s.traded, DateOf(bar.time)))
    else s
  }

  /** Whether the handler opened a position on this item. */
  predicate Opens(sig: Signals, s: HandlerState, it: Item) {
    s.open == map[] && ShouldOpen(sig, it.session, it.minute, s.traded)
  }

  /** A bar either closes positions or opens one, never both; positions it
      closes are sold at its close price; a new position is bought at the
      close price for 100 on a date not traded before, which is then
      recorded. */
  lemma HandledSpec(sig: Signals, s: HandlerState, it: Item, uuid: string)
    requires SortedBy(s.traded, IntLe) && NoDups(s.traded)
    ensures var r := Handled(sig, s, it, uuid);
      SortedBy(r.traded, IntLe) && NoDups(r.traded)
      && (forall x :: x in s.traded ==> x in r.traded)
      && (s.open != map[] ==>
            r.open.Keys <= s.open.Keys
            && (forall f :: f in s.open ==>
                  (f in r.open <==> !ShouldClose(sig, s.open[f], it.minute))
                  && (f !in r.open ==> r.closed[f] == Sold(s.open[f], FormatMilli(it.minute.time), it.minute.close))))
      && (Opens(sig, s, it) ==>
            DateOf(it.minute.time) !in s.traded && DateOf(it.minute.time) in r.traded
            && r.open == map[uuid := Lot(FormatMilli(it.minute.time), it.minute.close, AMOUNT, None, None)]
            && r.closed == s.closed)
      && (s.open == map[] && !Opens(sig, s, it) ==> r == s)
  {
    HandledTraded(sig, s, it, uuid);
  }

  /** A bar with positions open adds to the closed store exactly the
      positions it closes and keeps every other closed entry as it was; the
      bar's date is recorded exactly when it closes something. */
  lemma HandledClosed(sig: Signals, s: HandlerState, it: Item, uuid: string)
    requires s.open != map[]
    ensures var r := Handled(sig, s, it, uuid);
      var closing := Closing(sig, s.open, it.minute);
      r.closed.Keys == s.closed.Keys + closing
      && (forall f :: f in s.closed && f !in closing ==> r.closed[f] == s.closed[f])
      && (closing != {} ==> DateOf(it.minute.time) in r.traded)
      && (closing == {} ==> r.traded == s.traded)
  {
    var closing := Closing(sig, s.open, it.minute);
    var sold := map f | f in closing :: Sold(s.open[f], FormatMilli(it.minute.time), it.minute.close);
    assert Handled(sig, s, it, uuid).closed == s.closed + sold;
  }

  /** The dates traded stay sorted and duplicate-free, and none is lost. */
  lemma HandledTraded(sig: Signals, s: HandlerState, it: Item, uuid: string)
    requires SortedBy(s.traded, IntLe) && NoDups(s.traded)
    ensures SortedBy(Handled(sig, s, it, uuid).traded, IntLe) && NoDups(Handled(sig, s, it, uuid).traded)
    ensures forall x :: x in s.traded ==> x in Handled(sig, s, it, uuid).traded
  {
  }

  /** The handler over a run of items, item `i` opening under `uuids(i)`. */
  function HandledAll(sig: Signals, s: HandlerState, items: seq<Item>, uuids: nat -> string): HandlerState
  {
    if items == [] then s
    else
      var n := |items| - 1;
      Handled(sig, HandledAll(sig, s, items[..n], uuids), items[n], uuids(n))
  }

  /** The state reached after the first `k` items. */
  function Prefix(sig: Signals, s: HandlerState, items: seq<Item>, uuids: nat -> string, k: nat): HandlerState
    requires k <= |items|
  {
    HandledAll(sig, s, items[..k], uuids)
  }

  lemma PrefixStep(sig: Signals, s: HandlerState, items: seq<Item>, uuids: nat -> string, k: nat)
    requires k < |items|
    ensures Prefix(sig, s, items, uuids, k + 1) == Handled(sig, Prefix(sig, s, items, uuids, k), items[k], uuids(k))
  {
    assert items[..k + 1][..k] == items[..k];
  }

  lemma {:induction false} PrefixSorted(sig: Signals, s: HandlerState, items: seq<Item>, uuids: nat -> string, k: nat)
    requires SortedBy(s.traded, IntLe) && NoDups(s.traded)
    requires k <= |items|
    ensures SortedBy(Prefix(sig, s, items, uuids, k).traded, IntLe)
    ensures NoDups(Prefix(sig, s, items, uuids, k).traded)
  {
    if k > 0 {
      PrefixSorted(sig, s, items, uuids, k - 1);
      PrefixStep(sig, s, items, uuids, k - 1);
      HandledTraded(sig, Prefix(sig, s, items, uuids, k - 1), items[k - 1], uuids(k - 1));
    }
  }

  /** A date traded after `j` items is still traded after any later count. */
  lemma {:induction false} PrefixKeepsDate(sig: Signals, s: HandlerState, items: seq<Item>, uuids: nat -> string,
                                           j: nat, k: nat, d: Date)
    requires SortedBy(s.traded, IntLe) && NoDups(s.traded)
    requires j <= k <= |items|
    requires d in Prefix(sig, s, items, uuids, j).traded
    ensures d in Prefix(sig, s, items, uuids, k).traded
    decreases k - j
  {
    if j < k {
      PrefixSorted(sig, s, items, uuids, j);
      PrefixStep(sig, s, items, uuids, j);
      HandledTraded(sig, Prefix(sig, s, items, uuids, j), items[j], uuids(j));
      PrefixKeepsDate(sig, s, items, uuids, j + 1, k, d);
    }
  }

  /** At most one position is opened per date in a run: two items that both
      open fall on different dates. */
  lemma OncePerDate(sig: Signals, s: HandlerState, items: seq<Item>, uuids: nat -> string, i: nat, j: nat)
    requires SortedBy(s.traded, IntLe) && NoDups(s.traded)
    requires i < j < |items|
    requires Opens(sig, Prefix(sig, s, items, uuids, i), items[i])
    requires Opens(sig, Prefix(sig, s, items, uuids, j), items[j])
    ensures DateOf(items[i].minute.time) != DateOf(items[j].minute.time)
  {
    var d := DateOf(items[i].minute.time);
    PrefixSorted(sig, s, items, uuids, i);
    PrefixStep(sig, s, items, uuids, i);
    HandledSpec(sig, Prefix(sig, s, items, uuids, i), items[i], uuids(i));
    PrefixKeepsDate(sig, s, items, uuids, i + 1, j, d);
  }

  /** The store `ManagePositions` manages. */
  class Book {
    var open: map<string, Lot>
    var closed: map<string, Lot>

    constructor (open: map<string, Lot>, closed: map<string, Lot>)
      ensures this.open == open && this.closed == closed
    {
      this.open := open;
      this.closed := closed;
    }
  }

  class TradeHandler {
    const signals: Signals
    const book: Book
    var datesTraded: seq<Date>

    ghost predicate Valid()
      reads this
    {
      SortedBy(datesTraded, IntLe) && NoDups(datesTraded)
    }

    function Current(): HandlerState
      reads this, book
    {
      HandlerState(book.open, book.closed, datesTraded)
    }

    /** A handler with no traded dates. */
    constructor (signals: Signals, book: Book)
      ensures Valid() && this.signals == signals && this.book == book && datesTraded == []
    {
      this.signals := signals;
      this.book := book;
      datesTraded := [];
    }

    /** `__call__(**item)`: each listed open position is looked at in turn
        and sold at the close price when the bar crosses its stop or target. */
    method Handle(it: Item, uuid: string)
      requires Valid()
      modifies this, book
      ensures Valid()
      ensures Current() == Handled(signals, old(Current()), it, uuid)
    {
      var bar := it.minute;
      var ts := FormatMilli(bar.time);
      var date := DateOf(bar.time);
      if book.open != map[] {
        var open, closed, traded := SellCrossed(signals, book.open, book.closed, datesTraded, bar, ts);
        book.open, book.closed, datesTraded := open, closed, traded;
      } else if ShouldOpen(signals, it.session, bar, datesTraded) {
        book.open := book.open[uuid := Lot(ts, bar.close, AMOUNT, None, None)];
        datesTraded := AddDate(datesTraded, date);
      }
    }
  }

  /** The loop over the open positions: each one the bar crosses is moved to
      the closed store, sold at the close price, and its date recorded. */
  method SellCrossed(sig: Signals, open0: map<string, Lot>, closed0: map<string, Lot>, traded0: seq<Date>,
                     bar: Bar, ts: string)
    returns (open: map<string, Lot>, closed: map<string, Lot>, traded: seq<Date>)
    requires SortedBy(traded0, IntLe) && NoDups(traded0)
    ensures open == map f | f in open0 && f !in Closing(sig, open0, bar) :: open0[f]
    ensures closed == closed0 + map f | f in Closing(sig, open0, bar) :: Sold(open0[f], ts, bar.close)
    ensures traded == if Closing(sig, open0, bar) != {} then AddDate(traded0, DateOf(bar.time)) else traded0
  {
    var date := DateOf(bar.time);
    ghost var closing := Closing(sig, open0, bar);
    open, closed, traded := open0, closed0, traded0;
    var todo := open0.Keys;
    ghost var done: set<string> := {};
    while todo != {}
      invariant todo == open0.Keys - done && done <= open0.Keys && closing <= open0.Keys
      invariant open == OpenAfter(open0, done * closing)
      invariant closed == ClosedAfter(open0, closed0, done * closing, ts, bar.close)
      invariant traded == if done * closing != {} then AddDate(traded0, date) else traded0
      decreases todo
    {
      var p :| p in todo;
      open, closed, traded := SellOne(sig, open0, closed0, traded0, bar, ts, closing, done, p, open, closed, traded);
      todo := todo - {p};
      done := done + {p};
    }
    assert done * closing == closing;
  }

  /** One pass of the loop over the open positions, on position `p`. */
  method SellOne(sig: Signals, open0: map<string, Lot>, closed0: map<string, Lot>, traded0: seq<Date>,
                 bar: Bar, ts: string, ghost closing: set<string>, ghost done: set<string>, p: string,
                 open: map<string, Lot>, closed: map<string, Lot>, traded: seq<Date>)
    returns (open1: map<string, Lot>, closed1: map<string, Lot>, traded1: seq<Date>)
    requires SortedBy(traded0, IntLe) && NoDups(traded0)
    requires closing == Closing(sig, open0, bar) && done <= open0.Keys && p in open0 && p !in done
    requires open == OpenAfter(open0, done * closing)
    requires closed == ClosedAfter(open0, closed0, done * closing, ts, bar.close)
    requires traded == if done * closing != {} then AddDate(traded0, DateOf(bar.time)) else traded0
    ensures open1 == OpenAfter(open0, (done + {p}) * closing)
    ensures closed1 == ClosedAfter(open0, closed0, (done + {p}) * closing, ts, bar.close)
    ensures traded1 == if (done + {p}) * closing != {} then AddDate(traded0, DateOf(bar.time)) else traded0
  {
    var date := DateOf(bar.time);
    var lot := open0[p];
    open1, closed1, traded1 := open, closed, traded;
    if ShouldClose(sig, lot, bar) {
      assert p in closing;
      SellOneStep(open0, closed0, done * closing, p, ts, bar.close);
      open1 := open - {p};
      closed1 := closed[p := Sold(lot, ts, bar.close)];
      if done * closing != {} {
        AddDateKeeps(AddDate(traded0, date), date);
      }
      traded1 := AddDate(traded, date);
      assert (done + {p}) * closing == done * closing + {p};
    } else {
      assert p !in closing;
      assert (done + {p}) * closing == done * closing;
    }
  }

  /** The open store once the positions in `sold` have been sold. */
  function OpenAfter(open0: map<string, Lot>, sold: set<string>): map<string, Lot> {
    map f | f in open0 && f !in sold :: open0[f]
  }

  /** The closed store once the positions in `sold` have been sold. */
  function ClosedAfter(open0: map<string, Lot>, closed0: map<string, Lot>, sold: set<string>, ts: string, price: real): map<string, Lot>
    requires sold <= open0.Keys
  {
    closed0 + map f | f in sold :: Sold(open0[f], ts, price)
  }

  /** Selling one more position `p` moves it from the open store to the
      closed one. */
  lemma SellOneStep(open0: map<string, Lot>, closed0: map<string, Lot>, sold: set<string>, p: string,
                    ts: string, price: real)
    requires sold <= open0.Keys && p in open0 && p !in sold
    ensures OpenAfter(open0, sold + {p}) == OpenAfter(open0, sold) - {p}
    ensures ClosedAfter(open0, closed0, sold + {p}, ts, price) == ClosedAfter(open0, closed0, sold, ts, price)[p := Sold(open0[p], ts, price)]
  {
  }

  /** `TestBot.__call__`: the handler is called on every item the generator
      yields, item `i` opening under `uuids(i)`. When the generator is
      exhausted the later revision stops cleanly and the earlier one lets
      StopIteration escape; any other error of the generator propagates. */
  method RunBot(gen: TestDataGenerator, handler: TradeHandler, start: DateTime, nDays: int,
                uuids: nat -> string) returns (o: Outcome, ghost items: seq<Item>, ghost exhausted: bool)
    requires gen.Valid() && handler.Valid()
    modifies gen, handler, handler.book
    ensures gen.Valid() && handler.Valid()
    ensures handler.Current() == HandledAll(handler.signals, old(handler.Current()), items, uuids)
    ensures var run := gen.Run(start, nDays, old(gen.year), old(gen.yearRows));
      items == gen.Yielded(run.0) && (exhausted <==> run.1.Pass?)
    ensures exhausted ==> o == (if gen.revision == FoXyLady then Pass else Fail(StopIteration))
    ensures !exhausted ==> o.Fail? && o.error != StopIteration
  {
    gen.RunSpec(start, nDays, gen.year, gen.yearRows);
    var generated, outcome, visited := gen.Generate(start, nDays);
    items := generated;
    ghost var s0 := handler.Current();
    var i := 0;
    while i < |generated|
      invariant 0 <= i <= |generated|
      invariant handler.Valid()
      invariant handler.Current() == Prefix(handler.signals, s0, generated, uuids, i)
      modifies handler, handler.book
    {
      PrefixStep(handler.signals, s0, generated, uuids, i);
      handler.Handle(generated[i], uuids(i));
      i := i + 1;
    }
    assert generated[..i] == generated;
    exhausted := outcome.Pass?;
    if outcome.Fail? {
      return outcome, items, exhausted;
    }
    o := if gen.revision == FoXyLady then Pass else Fail(StopIteration);
  }
}
