/** The fast back-tester of the FoXyLady strategy
    (thales/bots/FoXyLady/backtester.py). Each minute row from 08:00 on is
    compared with its date's 6-7am baseline to give four signal columns.
    The trade loop opens at the first entry signal and closes on the same
    date, at the first exit signal or at the date's last row, then moves on
    to the next date. */
module Backtester {
  import opened Common
  import opened DateTimes
  import opened Baseline
  import Positions

  const BOT_NAME: string := "FoXyLady"
  const AMOUNT: real := 100.0

  /** A row of the tester's frame: the bar, its date, the baseline columns
      `h`, `l`, `mu` and the signal columns. */
  datatype Row = Row(bar: Bar, date: Date, h: real, l: real, mu: real,
                     alphaL: bool, alphaS: bool, betaL: bool, betaS: bool)

  /** The columns computed for one bar from its date's baseline. */
  function RowOf(b: Bar, s: Session, alpha: real, beta: real): Row {
    Row(b, DateOf(b.time), s.high, s.low, s.mean,
        b.high > s.high + alpha, b.low < s.low - alpha,
        b.high > s.high + (alpha + beta), b.low < s.low - (alpha + beta))
  }

  /** A bar survives `dropna()` (its date has a baseline) and the
      `hour >= 8` filter. */
  predicate Kept(all: seq<Bar>, b: Bar) {
    HourOf(b.time) >= 8 && DaySession(all, DateOf(b.time)).Some?
  }

  predicate Increasing(bars: seq<Bar>) {
    forall i, j :: 0 <= i < j < |bars| ==> bars[i].time < bars[j].time
  }

  /** Rows in strictly increasing datetime order, each carrying its own
      date: the shape of a frame indexed and sorted by datetime. */
  predicate Ordered(rows: seq<Row>) {
    (forall i, j :: 0 <= i < j < |rows| ==> rows[i].bar.time < rows[j].bar.time)
    && (forall i :: 0 <= i < |rows| ==> rows[i].date == DateOf(rows[i].bar.time))
  }

  lemma DateOfMonotone(a: DateTime, b: DateTime)
    requires a <= b
    ensures DateOf(a) <= DateOf(b)
  {
  }

  /** In an ordered frame dates never decrease. */
  lemma OrderedDates(rows: seq<Row>, i: int, j: int)
    requires Ordered(rows) && 0 <= i <= j < |rows|
    ensures rows[i].date <= rows[j].date
  {
    if i < j {
      DateOfMonotone(rows[i].bar.time, rows[j].bar.time);
    }
  }

  /** The columns of a kept bar. */
  function RowFor(all: seq<Bar>, b: Bar, alpha: real, beta: real): Row
    requires Kept(all, b)
  {
    RowOf(b, DaySession(all, DateOf(b.time)).value, alpha, beta)
  }

  /** The signal frame of `all` restricted to the bars of `bars`, in order. */
  function SignalsOf(all: seq<Bar>, bars: seq<Bar>, alpha: real, beta: real): (r: seq<Row>)
    ensures |r| <= |bars|
    ensures forall x :: x in r ==> x.bar in bars && Kept(all, x.bar) && x == RowFor(all, x.bar, alpha, beta)
    ensures forall b :: b in bars && Kept(all, b) ==> RowFor(all, b, alpha, beta) in r
  {
    if bars == [] then []
    else
      var rest := SignalsOf(all, bars[1..], alpha, beta);
      assert forall b :: b in bars[1..] ==> b in bars;
      if Kept(all, bars[0]) then [RowFor(all, bars[0], alpha, beta)] + rest else rest
  }

  /** A row put in front of an ordered frame whose rows are all later. */
  lemma ConsOrdered(x: Row, rest: seq<Row>)
    requires Ordered(rest) && x.date == DateOf(x.bar.time)
    requires forall y :: y in rest ==> x.bar.time < y.bar.time
    ensures Ordered([x] + rest)
  {
    var r := [x] + rest;
    forall i, j | 0 <= i < j < |r| ensures r[i].bar.time < r[j].bar.time {
      assert r[j] == rest[j - 1];
      if i > 0 {
        assert r[i] == rest[i - 1];
      }
    }
    forall i | 0 <= i < |r| ensures r[i].date == DateOf(r[i].bar.time) {
      if i > 0 {
        assert r[i] == rest[i - 1];
      }
    }
  }

  /** The bars of a file sorted by datetime give an ordered frame. */
  lemma {:induction false} SignalsOrdered(all: seq<Bar>, bars: seq<Bar>, alpha: real, beta: real)
    requires Increasing(bars)
    ensures Ordered(SignalsOf(all, bars, alpha, beta))
  {
    if bars != [] {
      SignalsOrdered(all, bars[1..], alpha, beta);
      var rest := SignalsOf(all, bars[1..], alpha, beta);
      if Kept(all, bars[0]) {
        forall y | y in rest ensures bars[0].time < y.bar.time {
          var m :| 0 <= m < |bars[1..]| && bars[1..][m] == y.bar;
          assert bars[m + 1] == y.bar;
        }
        ConsOrdered(RowFor(all, bars[0], alpha, beta), rest);
      }
    }
  }

  /** The frame `__init__` builds from the dataset's bars. */
  function Signals(bars: seq<Bar>, alpha: real, beta: real): seq<Row> {
    SignalsOf(bars, bars, alpha, beta)
  }

  /** What the signal columns mean: each row is a bar from 08:00 on whose
      date has a baseline; `h`, `l` and `mu` are that baseline; the entry
      signals compare with the baseline shifted by alpha, the exit signals
      by alpha + beta; and with a non-negative beta every exit signal
      implies the matching entry signal. */
  lemma SignalsSpec(bars: seq<Bar>, alpha: real, beta: real, x: Row)
    requires x in Signals(bars, alpha, beta)
    ensures x.bar in bars && HourOf(x.bar.time) >= 8 && x.date == DateOf(x.bar.time)
    ensures DaySession(bars, x.date) == Some(Session(x.h, x.l, x.mu))
    ensures x.alphaL <==> x.bar.high > x.h + alpha
    ensures x.alphaS <==> x.bar.low < x.l - alpha
    ensures x.betaL <==> x.bar.high > x.h + (alpha + beta)
    ensures x.betaS <==> x.bar.low < x.l - (alpha + beta)
    ensures beta >= 0.0 ==> (x.betaL ==> x.alphaL) && (x.betaS ==> x.alphaS)
  {
  }

  /** Every bar from 08:00 on whose date has a baseline gets a row. */
  lemma SignalsComplete(bars: seq<Bar>, alpha: real, beta: real, b: Bar)
    requires b in bars && HourOf(b.time) >= 8
    requires exists c :: c in bars && SessionBar(c, DateOf(b.time))
    ensures exists x :: x in Signals(bars, alpha, beta) && x.bar == b
  {
    assert RowFor(bars, b, alpha, beta) in Signals(bars, alpha, beta);
  }

  /** `len(df["date"].unique())` */
  function DatesOfRows(rows: seq<Row>): set<Date> {
    set x | x in rows :: x.date
  }

  /** `alpha > 0`: some entry signal fires. */
  predicate IsAlpha(x: Row) {
    x.alphaL || x.alphaS
  }

  /** `stop_signal`: a missing stop loss is the default infinity, which
      never fires. */
  predicate StopFires(ptype: Positions.PType, buy: real, stopLoss: Option<real>, x: Row) {
    stopLoss.Some? &&
    (if ptype == Positions.Short then x.bar.high > buy + stopLoss.value else x.bar.low < buy - stopLoss.value)
  }

  /** `beta_col > 0 or stop_signal > 0` */
  predicate Exits(ptype: Positions.PType, buy: real, stopLoss: Option<real>, x: Row) {
    (if ptype == Positions.Long then x.betaL else x.betaS) || StopFires(ptype, buy, stopLoss, x)
  }

  /** The index of the first entry row. */
  function FirstAlpha(rows: seq<Row>): (k: Option<nat>)
    ensures k.Some? ==> k.value < |rows| && IsAlpha(rows[k.value])
    ensures k.Some? ==> forall i :: 0 <= i < k.value ==> !IsAlpha(rows[i])
    ensures k.None? ==> forall i :: 0 <= i < |rows| ==> !IsAlpha(rows[i])
  {
    if rows == [] then None
    else if IsAlpha(rows[0]) then Some(0)
    else match FirstAlpha(rows[1..])
      case None => None
      case Some(k) => Some(k + 1)
  }

  /** The index of the first row that fires an exit. */
  function FirstExit(rows: seq<Row>, ptype: Positions.PType, buy: real, stopLoss: Option<real>): (k: Option<nat>)
    ensures k.Some? ==> k.value < |rows| && Exits(ptype, buy, stopLoss, rows[k.value])
    ensures k.Some? ==> forall i :: 0 <= i < k.value ==> !Exits(ptype, buy, stopLoss, rows[i])
    ensures k.None? ==> forall i :: 0 <= i < |rows| ==> !Exits(ptype, buy, stopLoss, rows[i])
  {
    if rows == [] then None
    else if Exits(ptype, buy, stopLoss, rows[0]) then Some(0)
    else match FirstExit(rows[1..], ptype, buy, stopLoss)
      case None => None
      case Some(k) => Some(k + 1)
  }

  /** The index of the last row on date `d`. */
  function LastOfDate(rows: seq<Row>, d: Date): (k: Option<nat>)
    ensures k.Some? ==> k.value < |rows| && rows[k.value].date == d
    ensures k.Some? ==> forall i :: k.value < i < |rows| ==> rows[i].date != d
    ensures k.None? ==> forall i :: 0 <= i < |rows| ==> rows[i].date != d
  {
    if rows == [] then None
    else match LastOfDate(rows[1..], d)
      case Some(k) => Some(k + 1)
      case None => if rows[0].date == d then Some(0) else None
  }

  /** The closing row of a trade opened on date `d` at price `buy`, looked
      for in the rows after the opening one: the first exit row if it falls
      on `d`, otherwise the last row of `d`; None when no later row is on
      `d`. */
  function CloseRow(later: seq<Row>, d: Date, ptype: Positions.PType, buy: real, stopLoss: Option<real>): (r: Option<Row>)
    requires forall y :: y in later ==> y.date >= d
    ensures r.Some? ==> r.value in later && r.value.date == d
  {
    var j := FirstExit(later, ptype, buy, stopLoss);
    if j.None? || later[j.value].date > d then
      match LastOfDate(later, d)
      case None => None
      case Some(k) => Some(later[k])
    else
      Some(later[j.value])
  }

  /** Which row closes: none exactly when no later row is on `d`; no row
      before the closing one fires an exit; and the closing row fires one or
      is the last row of `d`. */
  lemma CloseRowSpec(later: seq<Row>, d: Date, ptype: Positions.PType, buy: real, stopLoss: Option<real>)
    requires Ordered(later) && forall y :: y in later ==> y.date >= d
    ensures var r := CloseRow(later, d, ptype, buy, stopLoss);
      r.None? <==> forall y :: y in later ==> y.date != d
    ensures var r := CloseRow(later, d, ptype, buy, stopLoss);
      r.Some? ==> forall y :: y in later && y.bar.time < r.value.bar.time ==> !Exits(ptype, buy, stopLoss, y)
    ensures var r := CloseRow(later, d, ptype, buy, stopLoss);
      r.Some? ==> Exits(ptype, buy, stopLoss, r.value)
                  || forall y :: y in later && y.date == d ==> y.bar.time <= r.value.bar.time
  {
    var j := FirstExit(later, ptype, buy, stopLoss);
    if j.None? || later[j.value].date > d {
      match LastOfDate(later, d)
      case None =>
        forall y | y in later ensures y.date != d {
          var m :| 0 <= m < |later| && later[m] == y;
        }
      case Some(k) =>
        var c := later[k];
        if j.Some? && j.value <= k {
          OrderedDates(later, j.value, k);
        }
        forall y | y in later && y.bar.time < c.bar.time ensures !Exits(ptype, buy, stopLoss, y) {
          var m :| 0 <= m < |later| && later[m] == y;
          assert m < k;
        }
        forall y | y in later && y.date == d ensures y.bar.time <= c.bar.time {
          var m :| 0 <= m < |later| && later[m] == y;
          assert m <= k;
        }
    } else {
      var c := later[j.value];
      forall y | y in later && y.bar.time < c.bar.time ensures !Exits(ptype, buy, stopLoss, y) {
        var m :| 0 <= m < |later| && later[m] == y;
        assert m < j.value;
      }
    }
  }

  /** `df.loc[df["date"] > d]` */
  function After(rows: seq<Row>, d: Date): (r: seq<Row>)
    ensures forall x :: x in r <==> x in rows && x.date > d
    ensures |r| <= |rows|
    ensures (exists x :: x in rows && x.date <= d) ==> |r| < |rows|
  {
    if rows == [] then []
    else
      var rest := After(rows[1..], d);
      assert forall x :: x in rows[1..] ==> x in rows;
      assert (exists x :: x in rows && x.date <= d) && rows[0].date > d ==>
               exists x :: x in rows[1..] && x.date <= d;
      if rows[0].date > d then [rows[0]] + rest else rest
  }

  lemma {:induction false} AfterOrdered(rows: seq<Row>, d: Date)
    requires Ordered(rows)
    ensures Ordered(After(rows, d))
  {
    if rows != [] {
      AfterOrdered(rows[1..], d);
      var rest := After(rows[1..], d);
      if rows[0].date > d {
        forall y | y in rest ensures rows[0].bar.time < y.bar.time {
          var m :| 0 <= m < |rows[1..]| && rows[1..][m] == y;
          assert rows[m + 1] == y;
        }
        ConsOrdered(rows[0], rest);
      }
    }
  }

  /** The rows after row `k` of an ordered frame are exactly its later
      rows, all on the same date or after. */
  lemma OrderedSuffix(rows: seq<Row>, k: nat)
    requires Ordered(rows) && k < |rows|
    ensures Ordered(rows[k + 1..])
    ensures forall y :: y in rows[k + 1..] ==>
              y in rows && y.date >= rows[k].date && rows[k].bar.time < y.bar.time
    ensures forall y :: y in rows && rows[k].bar.time < y.bar.time ==> y in rows[k + 1..]
  {
    forall y | y in rows[k + 1..]
      ensures y in rows && y.date >= rows[k].date && rows[k].bar.time < y.bar.time
    {
      var m :| 0 <= m < |rows[k + 1..]| && rows[k + 1..][m] == y;
      assert rows[k + 1 + m] == y;
      OrderedDates(rows, k, k + 1 + m);
    }
    forall y | y in rows && rows[k].bar.time < y.bar.time ensures y in rows[k + 1..] {
      var m :| 0 <= m < |rows| && rows[m] == y;
      assert rows[k + 1..][m - k - 1] == y;
    }
  }

  /** One trade of the position store: its type, the row it opened on and
      the row it closed on (None while still open). */
  datatype Trade = Trade(ptype: Positions.PType, open: Row, close: Option<Row>)

  datatype Backtest = Backtest(trades: seq<Trade>, outcome: Outcome)

  /** One round of `__call__`: the trade it opens and the frame left for
      the next round, None when the closing row cannot be found. */
  datatype Step = Step(trade: Trade, next: Option<seq<Row>>)

  function FirstStep(rows: seq<Row>, stopLoss: Option<real>): (s: Option<Step>)
    requires Ordered(rows)
    ensures s.Some? && s.value.next.Some? ==> |s.value.next.value| < |rows| && Ordered(s.value.next.value)
  {
    match FirstAlpha(rows)
    case None => None
    case Some(k) =>
      var p := rows[k];
      var ptype := if p.alphaL then Positions.Long else Positions.Short;
      OrderedSuffix(rows, k);
      match CloseRow(rows[k + 1..], p.date, ptype, p.bar.close, stopLoss)
      case None => Some(Step(Trade(ptype, p, None), None))
      case Some(c) =>
        AfterOrdered(rows, c.date);
        Some(Step(Trade(ptype, p, Some(c)), Some(After(rows, c.date))))
  }

  /** How a closed trade sits in the frame: it opened on a row of the frame
      and its closing row is a later row of the same date; no row between
      the two fires an exit; and the closing row fires one or is the date's
      last row. */
  ghost predicate ClosedWell(rows: seq<Row>, stopLoss: Option<real>, t: Trade)
    requires t.close.Some?
  {
    var c := t.close.value;
    var buy := t.open.bar.close;
    t.open in rows && c in rows && c.date == t.open.date && t.open.bar.time < c.bar.time
    && (forall y :: y in rows && t.open.bar.time < y.bar.time < c.bar.time ==>
          !Exits(t.ptype, buy, stopLoss, y))
    && (Exits(t.ptype, buy, stopLoss, c) ||
        forall y :: y in rows && y.date == c.date ==> y.bar.time <= c.bar.time)
  }

  /** A round opens a trade exactly when some entry signal is left. */
  lemma FirstStepNone(rows: seq<Row>, stopLoss: Option<real>)
    requires Ordered(rows)
    ensures FirstStep(rows, stopLoss).None? <==> forall y :: y in rows ==> !IsAlpha(y)
  {
    if FirstAlpha(rows).None? {
      forall y | y in rows ensures !IsAlpha(y) {
        var m :| 0 <= m < |rows| && rows[m] == y;
      }
    }
  }

  /** A round opens at the earliest entry row, long exactly when its long
      entry signal fires, and leaves the rows of later dates once the trade
      is closed. */
  lemma FirstStepOpens(rows: seq<Row>, stopLoss: Option<real>)
    requires Ordered(rows)
    ensures var s := FirstStep(rows, stopLoss);
      s.Some? ==> var t := s.value.trade;
        t.open in rows && IsAlpha(t.open) && (t.ptype == Positions.Long <==> t.open.alphaL)
        && (forall y :: y in rows && IsAlpha(y) ==> t.open.bar.time <= y.bar.time)
        && (s.value.next.None? <==> t.close.None?)
    ensures var s := FirstStep(rows, stopLoss);
      s.Some? && s.value.next.Some? ==>
        forall x :: x in s.value.next.value <==> x in rows && x.date > s.value.trade.open.date
  {
    match FirstAlpha(rows)
    case None =>
    case Some(k) =>
      var p := rows[k];
      forall y | y in rows && IsAlpha(y) ensures p.bar.time <= y.bar.time {
        var m :| 0 <= m < |rows| && rows[m] == y;
        assert k <= m;
        if k < m {
          assert rows[k].bar.time < rows[m].bar.time;
        }
      }
  }

  /** A closed round closes where the rules say; an unclosed one opened on
      the last row of its date. */
  lemma FirstStepCloses(rows: seq<Row>, stopLoss: Option<real>)
    requires Ordered(rows)
    ensures var s := FirstStep(rows, stopLoss);
      s.Some? && s.value.next.None? ==> var t := s.value.trade;
        forall y :: y in rows && y.date == t.open.date ==> y.bar.time <= t.open.bar.time
    ensures var s := FirstStep(rows, stopLoss);
      s.Some? && s.value.next.Some? ==> var t := s.value.trade;
        t.close.Some? && ClosedWell(rows, stopLoss, t)
  {
    match FirstAlpha(rows)
    case None =>
    case Some(k) =>
      var p := rows[k];
      var ptype := if p.alphaL then Positions.Long else Positions.Short;
      OrderedSuffix(rows, k);
      var later := rows[k + 1..];
      CloseRowSpec(later, p.date, ptype, p.bar.close, stopLoss);
      match CloseRow(later, p.date, ptype, p.bar.close, stopLoss)
      case None =>
        forall y | y in rows && y.date == p.date ensures y.bar.time <= p.bar.time {
        }
      case Some(c) =>
        assert ClosedWell(rows, stopLoss, Trade(ptype, p, Some(c)));
  }

  /** The trades `__call__` performs on the remaining frame `rows`, in
      order, and how the run ends. */
  function Run(rows: seq<Row>, stopLoss: Option<real>): Backtest
    requires Ordered(rows)
    decreases |rows|
  {
    match FirstStep(rows, stopLoss)
    case None => Backtest([], Pass)
    case Some(Step(t, None)) => Backtest([t], Fail(KeyError))
    case Some(Step(t, Some(next))) =>
      var rest := Run(next, stopLoss);
      Backtest([t] + rest.trades, rest.outcome)
  }

  function TradesOf(rows: seq<Row>, stopLoss: Option<real>): seq<Trade>
    requires Ordered(rows)
  {
    Run(rows, stopLoss).trades
  }

  function Last(ts: seq<Trade>): Trade
    requires ts != []
  {
    ts[|ts| - 1]
  }

  /** A trade opened on an entry row of the frame, long exactly when the
      long entry signal fires. */
  ghost predicate OpensWell(rows: seq<Row>, t: Trade) {
    t.open in rows && IsAlpha(t.open) && (t.ptype == Positions.Long <==> t.open.alphaL)
  }

  /** A trade opened on the last row of its date. */
  ghost predicate OpenedAtDateEnd(rows: seq<Row>, t: Trade) {
    forall y :: y in rows && y.date == t.open.date ==> y.bar.time <= t.open.bar.time
  }

  /** The entry row of trade `i` is the first entry signal after the date of
      trade `i - 1`. */
  ghost predicate FirstAlphaAfter(rows: seq<Row>, ts: seq<Trade>, i: int)
    requires 0 <= i < |ts|
  {
    forall y :: y in rows && IsAlpha(y) && y.bar.time < ts[i].open.bar.time ==>
      i > 0 && y.date <= ts[i - 1].open.date
  }

  /** Each trade opens on an entry row of the frame, long exactly when the
      long entry signal fires. */
  lemma {:induction false} RunOpens(rows: seq<Row>, stopLoss: Option<real>)
    requires Ordered(rows)
    decreases |rows|
    ensures forall i :: 0 <= i < |TradesOf(rows, stopLoss)| ==>
              TradesOf(rows, stopLoss)[i].open in rows && IsAlpha(TradesOf(rows, stopLoss)[i].open)
              && (TradesOf(rows, stopLoss)[i].ptype == Positions.Long <==> TradesOf(rows, stopLoss)[i].open.alphaL)
  {
    FirstStepOpens(rows, stopLoss);
    match FirstStep(rows, stopLoss)
    case None =>
    case Some(Step(t, None)) =>
    case Some(Step(t, Some(next))) =>
      RunOpens(next, stopLoss);
      var rest := TradesOf(next, stopLoss);
      var ts := TradesOf(rows, stopLoss);
      assert ts == [t] + rest;
  }

  /** The trades' opening dates strictly increase. */
  ghost predicate OpenDatesIncrease(ts: seq<Trade>) {
    forall i, j :: 0 <= i < j < |ts| ==> ts[i].open.date < ts[j].open.date
  }

  lemma OpenDatesIncreaseCons(t: Trade, rest: seq<Trade>)
    requires OpenDatesIncrease(rest)
    requires forall k :: 0 <= k < |rest| ==> t.open.date < rest[k].open.date
    ensures OpenDatesIncrease([t] + rest)
  {
    var ts := [t] + rest;
    forall i, j | 0 <= i < j < |ts| ensures ts[i].open.date < ts[j].open.date {
      assert ts[j] == rest[j - 1];
      if i > 0 {
        assert ts[i] == rest[i - 1];
      }
    }
  }

  /** The trades' dates strictly increase: at most one trade per date. */
  lemma {:induction false} RunOneTradePerDate(rows: seq<Row>, stopLoss: Option<real>)
    requires Ordered(rows)
    decreases |rows|
    ensures OpenDatesIncrease(TradesOf(rows, stopLoss))
  {
    FirstStepOpens(rows, stopLoss);
    match FirstStep(rows, stopLoss)
    case None =>
    case Some(Step(t, None)) =>
    case Some(Step(t, Some(next))) =>
      RunOneTradePerDate(next, stopLoss);
      RunOpens(next, stopLoss);
      var rest := TradesOf(next, stopLoss);
      assert forall k :: 0 <= k < |rest| ==> t.open.date < rest[k].open.date;
      OpenDatesIncreaseCons(t, rest);
      assert TradesOf(rows, stopLoss) == [t] + rest;
  }

  /** Each entry is the first entry signal after the previous trade's
      date. */
  lemma {:induction false} RunFirstAlpha(rows: seq<Row>, stopLoss: Option<real>)
    requires Ordered(rows)
    decreases |rows|
    ensures forall i :: 0 <= i < |TradesOf(rows, stopLoss)| ==> FirstAlphaAfter(rows, TradesOf(rows, stopLoss), i)
  {
    FirstStepOpens(rows, stopLoss);
    match FirstStep(rows, stopLoss)
    case None =>
    case Some(Step(t, None)) =>
      assert FirstAlphaAfter(rows, [t], 0);
    case Some(Step(t, Some(next))) =>
      RunFirstAlpha(next, stopLoss);
      RunOneTradePerDate(rows, stopLoss);
      var rest := TradesOf(next, stopLoss);
      var ts := TradesOf(rows, stopLoss);
      assert ts == [t] + rest;
      assert FirstAlphaAfter(rows, ts, 0);
      forall i | 1 <= i < |ts| ensures FirstAlphaAfter(rows, ts, i) {
        FirstAlphaAfterCons(rows, next, t, rest, i);
      }
  }

  /** Trade `i` of a run keeps `FirstAlphaAfter` when the run continues
      after an earlier trade `t`. */
  lemma FirstAlphaAfterCons(rows: seq<Row>, next: seq<Row>, t: Trade, rest: seq<Trade>, i: int)
    requires forall x :: x in next <==> x in rows && x.date > t.open.date
    requires 1 <= i <= |rest|
    requires FirstAlphaAfter(next, rest, i - 1)
    requires forall j :: 0 <= j < |([t] + rest)| ==> t.open.date <= ([t] + rest)[j].open.date
    ensures FirstAlphaAfter(rows, [t] + rest, i)
  {
    var ts := [t] + rest;
    assert ts[i] == rest[i - 1];
    forall y | y in rows && IsAlpha(y) && y.bar.time < ts[i].open.bar.time
      ensures y.date <= ts[i - 1].open.date
    {
      if y.date > t.open.date {
        assert y in next;
        assert ts[i - 1] == rest[i - 2];
      }
    }
  }

  /** A run that ends normally leaves no entry signal after the last trade's
      date. */
  lemma {:induction false} RunNoAlphaLeft(rows: seq<Row>, stopLoss: Option<real>)
    requires Ordered(rows)
    decreases |rows|
    ensures Run(rows, stopLoss).outcome.Pass? ==>
              forall y :: y in rows && IsAlpha(y) ==>
                |TradesOf(rows, stopLoss)| > 0 && y.date <= Last(TradesOf(rows, stopLoss)).open.date
  {
    FirstStepNone(rows, stopLoss);
    FirstStepOpens(rows, stopLoss);
    match FirstStep(rows, stopLoss)
    case None =>
    case Some(Step(t, None)) =>
    case Some(Step(t, Some(next))) =>
      RunNoAlphaLeft(next, stopLoss);
      RunOneTradePerDate(rows, stopLoss);
      var rest := TradesOf(next, stopLoss);
      var ts := TradesOf(rows, stopLoss);
      assert ts == [t] + rest;
      if Run(rows, stopLoss).outcome.Pass? {
        forall y | y in rows && IsAlpha(y) ensures y.date <= ts[|ts| - 1].open.date {
          if y.date > t.open.date {
            assert y in next;
            assert ts[|ts| - 1] == rest[|rest| - 1];
          } else if |ts| > 1 {
            assert ts[0].open.date < ts[|ts| - 1].open.date;
          }
        }
      }
  }

  /** A run ends normally or with KeyError, never otherwise. */
  lemma {:induction false} RunOutcomes(rows: seq<Row>, stopLoss: Option<real>)
    requires Ordered(rows)
    decreases |rows|
    ensures Run(rows, stopLoss).outcome == Pass || Run(rows, stopLoss).outcome == Fail(KeyError)
  {
    match FirstStep(rows, stopLoss)
    case None =>
    case Some(Step(t, None)) =>
    case Some(Step(t, Some(next))) =>
      RunOutcomes(next, stopLoss);
  }

  /** Every trade before the last is closed. */
  lemma {:induction false} RunClosesAllButLast(rows: seq<Row>, stopLoss: Option<real>)
    requires Ordered(rows)
    decreases |rows|
    ensures forall i :: 0 <= i < |TradesOf(rows, stopLoss)| - 1 ==> TradesOf(rows, stopLoss)[i].close.Some?
  {
    FirstStepOpens(rows, stopLoss);
    match FirstStep(rows, stopLoss)
    case None =>
    case Some(Step(t, None)) =>
    case Some(Step(t, Some(next))) =>
      RunClosesAllButLast(next, stopLoss);
      var ts := TradesOf(rows, stopLoss);
      var rest := TradesOf(next, stopLoss);
      assert ts == [t] + rest;
  }

  /** A run fails exactly when its last trade is left open. */
  lemma {:induction false} RunFailsIffLastOpen(rows: seq<Row>, stopLoss: Option<real>)
    requires Ordered(rows)
    decreases |rows|
    ensures Run(rows, stopLoss).outcome.Fail? <==>
              |TradesOf(rows, stopLoss)| > 0 && Last(TradesOf(rows, stopLoss)).close.None?
  {
    FirstStepOpens(rows, stopLoss);
    match FirstStep(rows, stopLoss)
    case None =>
    case Some(Step(t, None)) =>
    case Some(Step(t, Some(next))) =>
      RunFailsIffLastOpen(next, stopLoss);
      var ts := TradesOf(rows, stopLoss);
      var rest := TradesOf(next, stopLoss);
      assert ts == [t] + rest;
  }

  /** Every closed trade is closed where the rules say. */
  lemma {:induction false} RunClosedWell(rows: seq<Row>, stopLoss: Option<real>)
    requires Ordered(rows)
    decreases |rows|
    ensures forall i :: 0 <= i < |TradesOf(rows, stopLoss)| && TradesOf(rows, stopLoss)[i].close.Some? ==>
              ClosedWell(rows, stopLoss, TradesOf(rows, stopLoss)[i])
  {
    FirstStepOpens(rows, stopLoss);
    FirstStepCloses(rows, stopLoss);
    match FirstStep(rows, stopLoss)
    case None =>
    case Some(Step(t, None)) =>
    case Some(Step(t, Some(next))) =>
      RunClosedWell(next, stopLoss);
      var ts := TradesOf(rows, stopLoss);
      var rest := TradesOf(next, stopLoss);
      ClosedWellWidenAll(rows, next, t.open.date, stopLoss, rest);
      assert ts == [t] + rest;
  }

  /** A run that ends with KeyError left its last trade open on the last
      row of that trade's date. */
  lemma {:induction false} RunFailsAtDateEnd(rows: seq<Row>, stopLoss: Option<real>)
    requires Ordered(rows)
    decreases |rows|
    ensures Run(rows, stopLoss).outcome.Fail? ==>
              |TradesOf(rows, stopLoss)| > 0 && OpenedAtDateEnd(rows, Last(TradesOf(rows, stopLoss)))
  {
    FirstStepOpens(rows, stopLoss);
    FirstStepCloses(rows, stopLoss);
    match FirstStep(rows, stopLoss)
    case None =>
    case Some(Step(t, None)) =>
    case Some(Step(t, Some(next))) =>
      RunFailsAtDateEnd(next, stopLoss);
      var ts := TradesOf(rows, stopLoss);
      var rest := TradesOf(next, stopLoss);
      assert ts == [t] + rest;
      if Run(rows, stopLoss).outcome.Fail? {
        var u := Last(ts);
        assert u == Last(rest);
        RunOpens(next, stopLoss);
        assert rest[|rest| - 1].open in next;
        forall y | y in rows && y.date == u.open.date ensures y.bar.time <= u.open.bar.time {
          assert y in next;
        }
      }
  }

  /** A trade closed well in the rows after date `d` is closed well in the
      whole frame, since the rows it looks at all lie on its own date. */
  lemma ClosedWellWiden(rows: seq<Row>, sub: seq<Row>, d: Date, stopLoss: Option<real>, t: Trade)
    requires Ordered(rows)
    requires forall x :: x in sub <==> x in rows && x.date > d
    requires t.close.Some? && ClosedWell(sub, stopLoss, t)
    ensures ClosedWell(rows, stopLoss, t)
  {
    var c := t.close.value;
    forall y | y in rows && t.open.bar.time < y.bar.time < c.bar.time
      ensures !Exits(t.ptype, t.open.bar.close, stopLoss, y)
    {
      RowDate(rows, y);
      RowDate(rows, t.open);
      DateOfMonotone(t.open.bar.time, y.bar.time);
      assert y in sub;
    }
    forall y | y in rows && y.date == c.date ensures y in sub {
    }
  }

  lemma ClosedWellWidenAll(rows: seq<Row>, sub: seq<Row>, d: Date, stopLoss: Option<real>, ts: seq<Trade>)
    requires Ordered(rows)
    requires forall x :: x in sub <==> x in rows && x.date > d
    requires forall i :: 0 <= i < |ts| && ts[i].close.Some? ==> ClosedWell(sub, stopLoss, ts[i])
    ensures forall i :: 0 <= i < |ts| && ts[i].close.Some? ==> ClosedWell(rows, stopLoss, ts[i])
  {
    forall i | 0 <= i < |ts| && ts[i].close.Some? ensures ClosedWell(rows, stopLoss, ts[i]) {
      ClosedWellWiden(rows, sub, d, stopLoss, ts[i]);
    }
  }

  lemma RowDate(rows: seq<Row>, y: Row)
    requires Ordered(rows) && y in rows
    ensures y.date == DateOf(y.bar.time)
  {
    var m :| 0 <= m < |rows| && rows[m] == y;
  }

  /** The number of trades of one type. */
  function CountOf(ts: seq<Trade>, ptype: Positions.PType): (n: nat)
    ensures n <= |ts|
  {
    if ts == [] then 0
    else (if ts[0].ptype == ptype then 1 else 0) + CountOf(ts[1..], ptype)
  }

  /** Exactly one of the two counters grows per trade. */
  lemma {:induction false} CountsAddUp(ts: seq<Trade>)
    ensures CountOf(ts, Positions.Long) + CountOf(ts, Positions.Short) == |ts|
  {
    if ts != [] {
      CountsAddUp(ts[1..]);
    }
  }

  lemma CountOfCons(t: Trade, ts: seq<Trade>, ptype: Positions.PType)
    ensures CountOf([t] + ts, ptype) == (if t.ptype == ptype then 1 else 0) + CountOf(ts, ptype)
  {
    assert ([t] + ts)[1..] == ts;
  }

  lemma CountOfAppend(a: seq<Trade>, b: seq<Trade>, ptype: Positions.PType)
    ensures CountOf(a + b, ptype) == CountOf(a, ptype) + CountOf(b, ptype)
  {
    if a == [] {
      assert a + b == b;
    } else {
      assert (a + b)[1..] == a[1..] + b;
      CountOfAppend(a[1..], b, ptype);
    }
  }

  lemma UpdateLast<T>(s: seq<T>, x: T, y: T)
    ensures (s + [x])[|s| := y] == s + [y]
  {
  }

  lemma AppendAssoc<T>(a: seq<T>, b: seq<T>, c: seq<T>)
    ensures (a + b) + c == a + (b + c)
  {
  }

  class Tester {
    const alphaSignal: real
    const betaSignal: real
    /** None stands for the default infinite stop loss. */
    const stopLoss: Option<real>
    const numDaysInTest: nat
    var df: seq<Row>
    var numLongTrades: nat
    var numShortTrades: nat
    /** The positions the tester's position manager has opened, in order,
        with the row each was closed on. */
    var trades: seq<Trade>

    ghost predicate Valid()
      reads this
    {
      Ordered(df)
    }

    /** `FoXyLadyTester(...)` over the bars of its dataset. */
    constructor (bars: seq<Bar>, alphaSignal: real, betaSignal: real, stopLoss: Option<real>)
      requires Increasing(bars)
      ensures Valid()
      ensures df == Signals(bars, alphaSignal, betaSignal)
      ensures this.alphaSignal == alphaSignal && this.betaSignal == betaSignal && this.stopLoss == stopLoss
      ensures numDaysInTest == |DatesOfRows(df)|
      ensures numLongTrades == 0 && numShortTrades == 0 && trades == []
    {
      this.alphaSignal := alphaSignal;
      this.betaSignal := betaSignal;
      this.stopLoss := stopLoss;
      var rows := Signals(bars, alphaSignal, betaSignal);
      SignalsOrdered(bars, bars, alphaSignal, betaSignal);
      df := rows;
      numDaysInTest := |DatesOfRows(rows)|;
      numLongTrades := 0;
      numShortTrades := 0;
      trades := [];
    }

    /** One round of `__call__`: open a position at the first entry row,
        close it, and drop the rows up to its closing date. Returns the
        outcome once the run is over, None when it goes on. */
    method Round() returns (done: Option<Outcome>)
      requires Valid()
      modifies this
      ensures Valid()
      ensures FirstStep(old(df), stopLoss).None? ==>
                done == Some(Pass) && df == old(df) && trades == old(trades)
                && numLongTrades == old(numLongTrades) && numShortTrades == old(numShortTrades)
      ensures FirstStep(old(df), stopLoss).Some? ==>
                var s := FirstStep(old(df), stopLoss).value;
                trades == old(trades) + [s.trade]
                && numLongTrades == old(numLongTrades) + (if s.trade.ptype == Positions.Long then 1 else 0)
                && numShortTrades == old(numShortTrades) + (if s.trade.ptype == Positions.Short then 1 else 0)
                && (s.next.None? ==> done == Some(Fail(KeyError)) && df == old(df))
                && (s.next.Some? ==> done.None? && df == s.next.value)
    {
      var step := FirstStep(df, stopLoss);
      if step.None? {
        return Some(Pass);
      }
      var t := step.value.trade;
      if t.ptype == Positions.Long {
        numLongTrades := numLongTrades + 1;
      } else {
        numShortTrades := numShortTrades + 1;
      }
      ghost var oldTrades := trades;
      trades := trades + [Trade(t.ptype, t.open, None)];
      if step.value.next.None? {
        return Some(Fail(KeyError));
      }
      UpdateLast(oldTrades, Trade(t.ptype, t.open, None), t);
      trades := trades[|trades| - 1 := t];
      df := step.value.next.value;
      done := None;
    }

    /** `__call__`: trade until no entry signal is left. */
    method Call() returns (o: Outcome)
      requires Valid()
      modifies this
      decreases |df|
      ensures Valid()
      ensures trades == old(trades) + TradesOf(old(df), stopLoss) && o == Run(old(df), stopLoss).outcome
      ensures numLongTrades == old(numLongTrades) + CountOf(TradesOf(old(df), stopLoss), Positions.Long)
      ensures numShortTrades == old(numShortTrades) + CountOf(TradesOf(old(df), stopLoss), Positions.Short)
      ensures forall x :: x in df ==> x in old(df)
      ensures o.Pass? ==> forall x :: x in df ==> !IsAlpha(x)
    {
      ghost var rows, oldTrades := df, trades;
      FirstStepNone(rows, stopLoss);
      FirstStepOpens(rows, stopLoss);
      var done := Round();
      if done.Some? {
        return done.value;
      }
      ghost var t := FirstStep(rows, stopLoss).value.trade;
      ghost var rest := TradesOf(df, stopLoss);
      CountOfCons(t, rest, Positions.Long);
      CountOfCons(t, rest, Positions.Short);
      AppendAssoc(oldTrades, [t], rest);
      o := Call();
    }
  }

  /** `datetime(year, 1, 1)` and `datetime(year, 12, 31)` as dates. */
  function FirstDay(year: int): Date {
    DaysFromCivil(Civil(year, 1, 1))
  }

  function LastDay(year: int): Date {
    DaysFromCivil(Civil(year, 12, 31))
  }

  /** The number of dates `pd.date_range(start, end, freq="D")` lists. */
  lemma YearLength(year: int)
    ensures 365 <= LastDay(year) - FirstDay(year) + 1 <= 366
  {
    var prev := year - 1;
    var a, b := prev % 400, year % 400;
    assert FirstDay(year) == (prev / 400) * 146097 + a * 365 + a / 4 - a / 100 + 306 - 719468;
    assert LastDay(year) == (year / 400) * 146097 + b * 365 + b / 4 - b / 100 + 305 - 719468;
    if b == 0 {
      assert prev / 400 == year / 400 - 1 && a == 399;
    } else {
      assert prev / 400 == year / 400 && a == b - 1;
      assert 0 <= b / 4 - a / 4 <= 1 && 0 <= b / 100 - a / 100 <= 1;
    }
  }

  /** The start date drawn for `year`: `choose(n)` stands for
      `random.choice` over the year's `n` dates. The generator is re-seeded
      with the same seed before every draw, so the position drawn depends
      only on the number of dates, not on the year. */
  function Picked(year: int, choose: nat -> nat): (d: Date)
    requires forall n: nat :: 0 < n ==> choose(n) < n
    ensures FirstDay(year) <= d <= LastDay(year)
  {
    YearLength(year);
    FirstDay(year) + choose(LastDay(year) - FirstDay(year) + 1)
  }

  /** With the seed reset before each draw, two years of the same length
      get their start on the same day of the year. */
  lemma SameSeedSameOffset(y1: int, y2: int, choose: nat -> nat)
    requires forall n: nat :: 0 < n ==> choose(n) < n
    requires LastDay(y1) - FirstDay(y1) == LastDay(y2) - FirstDay(y2)
    ensures Picked(y1, choose) - FirstDay(y1) == Picked(y2, choose) - FirstDay(y2)
  {
  }

  /** Midnight of the start date drawn for `year`. */
  function PickedStart(year: int, choose: nat -> nat): (t: DateTime)
    requires forall n: nat :: 0 < n ==> choose(n) < n
    ensures StartOfYear(year) <= t <= Midnight(LastDay(year))
  {
    Midnight(Picked(year, choose))
  }

  /** `generate_start_end_dates`: one start per year of
      [startYear, endYear), each with its end `nDays` later. */
  method GenerateStartEndDates(startYear: int, endYear: int, nDays: int, choose: nat -> nat)
    returns (starts: seq<DateTime>, ends: seq<DateTime>)
    requires forall n: nat :: 0 < n ==> choose(n) < n
    ensures |starts| == |ends| == if endYear > startYear then endYear - startYear else 0
    ensures forall i :: 0 <= i < |starts| ==> starts[i] == PickedStart(startYear + i, choose)
    ensures forall i :: 0 <= i < |ends| ==> ends[i] == starts[i] + nDays * DAY
  {
    starts, ends := [], [];
    var year := startYear;
    while year < endYear
      invariant |starts| == |ends| == if year > startYear then year - startYear else 0
      invariant year == startYear || startYear < year <= endYear
      invariant forall i :: 0 <= i < |starts| ==> starts[i] == PickedStart(startYear + i, choose)
      invariant forall i :: 0 <= i < |ends| ==> ends[i] == starts[i] + nDays * DAY
    {
      var start := PickedStart(year, choose);
      starts := starts + [start];
      ends := ends + [start + nDays * DAY];
      year := year + 1;
    }
  }

}
