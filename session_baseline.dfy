/** Minute bars of a price series and the 6-7am session baseline computed
    from them: per date, the highest high and the lowest low of the bars
    stamped 06:xx or 07:xx, and their mean. The FoXyLady back-tester
    (thales/bots/FoXyLady/backtester.py), the live test source
    (thales/bots/foxylady.py) and both test-data build scripts compute it
    the same way. */
module Baseline {
  import opened Common
  import opened DateTimes

  /** One row of a minute price file. */
  datatype Bar = Bar(time: DateTime, open: real, high: real, low: real, close: real)

  /** The session summary of one date. */
  datatype Session = Session(high: real, low: real, mean: real)

  /** `hour.isin([6, 7])` */
  predicate InSession(t: DateTime) {
    HourOf(t) == 6 || HourOf(t) == 7
  }

  predicate SessionBar(b: Bar, d: Date) {
    DateOf(b.time) == d && InSession(b.time)
  }

  /** The bars of date `d` inside the session, in file order. */
  function SessionBars(bars: seq<Bar>, d: Date): (r: seq<Bar>)
    ensures forall b :: b in r <==> b in bars && SessionBar(b, d)
  {
    if bars == [] then []
    else (if SessionBar(bars[0], d) then [bars[0]] else []) + SessionBars(bars[1..], d)
  }

  /** `max()` of the highs. */
  function MaxHigh(bars: seq<Bar>): (m: real)
    requires bars != []
    ensures forall b :: b in bars ==> b.high <= m
    ensures exists b :: b in bars && b.high == m
  {
    if |bars| == 1 then bars[0].high
    else
      var rest := MaxHigh(bars[1..]);
      assert forall b :: b in bars[1..] ==> b in bars;
      if bars[0].high >= rest then bars[0].high else rest
  }

  /** `min()` of the lows. */
  function MinLow(bars: seq<Bar>): (m: real)
    requires bars != []
    ensures forall b :: b in bars ==> m <= b.low
    ensures exists b :: b in bars && b.low == m
  {
    if |bars| == 1 then bars[0].low
    else
      var rest := MinLow(bars[1..]);
      assert forall b :: b in bars[1..] ==> b in bars;
      if bars[0].low <= rest then bars[0].low else rest
  }

  /** The baseline of date `d`; None when the date has no bar in the
      session (the row `dropna()` removes). */
  function DaySession(bars: seq<Bar>, d: Date): (r: Option<Session>)
    ensures r.None? <==> forall b :: b in bars ==> !SessionBar(b, d)
    ensures r.Some? ==> r.value.mean == (r.value.high + r.value.low) / 2.0
    ensures r.Some? ==> forall b :: b in bars && SessionBar(b, d) ==>
                          b.high <= r.value.high && r.value.low <= b.low
    ensures r.Some? ==> exists b :: b in bars && SessionBar(b, d) && b.high == r.value.high
    ensures r.Some? ==> exists b :: b in bars && SessionBar(b, d) && b.low == r.value.low
  {
    var s := SessionBars(bars, d);
    if s == [] then
      assert forall b :: b in bars && SessionBar(b, d) ==> b in s;
      None
    else
      var h, l := MaxHigh(s), MinLow(s);
      Some(Session(h, l, (h + l) / 2.0))
  }

  function DatesOf(bars: seq<Bar>): set<Date> {
    set b | b in bars :: DateOf(b.time)
  }

  /** The per-date baselines of a series. */
  function Sessions(bars: seq<Bar>): (r: map<Date, Session>)
    ensures forall d :: d in r <==> exists b :: b in bars && SessionBar(b, d)
    ensures forall d :: d in r ==> DaySession(bars, d) == Some(r[d])
  {
    map d | d in DatesOf(bars) && DaySession(bars, d).Some? :: DaySession(bars, d).value
  }

  /** When every bar's low is at most its high, a date's mean lies between
      its session low and high. */
  lemma MeanBetween(bars: seq<Bar>, d: Date)
    requires forall b :: b in bars ==> b.low <= b.high
    requires DaySession(bars, d).Some?
    ensures var s := DaySession(bars, d).value; s.low <= s.mean <= s.high
  {
    var s := DaySession(bars, d).value;
    var b :| b in bars && SessionBar(b, d) && b.high == s.high;
    assert s.low <= b.low;
  }

  /** Bars outside the session do not change any baseline. */
  lemma {:induction false} SessionsIgnoreOtherHours(bars: seq<Bar>, b: Bar, d: Date)
    requires !InSession(b.time)
    ensures SessionBars(bars + [b], d) == SessionBars(bars, d)
  {
    if bars == [] {
      assert SessionBars([b], d) == [] + SessionBars([], d);
    } else {
      assert (bars + [b])[1..] == bars[1..] + [b];
      SessionsIgnoreOtherHours(bars[1..], b, d);
    }
  }
}
