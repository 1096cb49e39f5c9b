/** `HistoryAnalyzer.analyze` (thales/history_analyzer.py): every pair of a
    sell row and the row a fixed number of periods later, for every holding
    length up to a maximum, with the margin and the holding time of each
    such trade, sorted by sell date (latest first) and then by buy date. */
module HistoryAnalyzer {
  import opened Common
  import opened Sorting
  import opened DateTimes

  /** A row of the loaded history: its datetime and the target price, None
      where the price is missing. */
  datatype Bar = Bar(time: DateTime, price: Option<real>)

  /** One row of the result, in the result's column order. */
  datatype Trade = Trade(buyDate: DateTime, buy: real, sellDate: DateTime, sell: real,
                         holdDuration: int, holdN: nat, margin: real)

  /** Row `j` survives `dropna()` for holding length `i`: its own price and
      the price `i` rows later (the shifted "buy") are both present. */
  predicate Complete(rows: seq<Bar>, j: nat, i: nat) {
    j + i < |rows| && rows[j].price.Some? && rows[j + i].price.Some?
  }

  /** The trade that sells at row `j` and buys at row `j + i`. */
  function TradeAt(rows: seq<Bar>, j: nat, i: nat): (t: Trade)
    requires Complete(rows, j, i)
    ensures t.margin == t.sell - t.buy && t.holdDuration == t.sellDate - t.buyDate && t.holdN == i
    ensures t.sellDate == rows[j].time && t.buyDate == rows[j + i].time
  {
    var sell := rows[j].price.value;
    var buy := rows[j + i].price.value;
    Trade(rows[j + i].time, buy, rows[j].time, sell, rows[j].time - rows[j + i].time, i, sell - buy)
  }

  /** `df.dropna()` after shifting by `i`, from row `j` on. */
  function HoldFrom(rows: seq<Bar>, i: nat, j: nat): seq<Trade>
    decreases |rows| - j
  {
    if j + i >= |rows| then []
    else (if Complete(rows, j, i) then [TradeAt(rows, j, i)] else []) + HoldFrom(rows, i, j + 1)
  }

  /** The trades of holding length `i`. */
  function Hold(rows: seq<Bar>, i: nat): seq<Trade> {
    HoldFrom(rows, i, 0)
  }

  /** `pd.concat(dfs)` for the holding lengths 1 to `k`. */
  function Holds(rows: seq<Bar>, k: nat): seq<Trade> {
    if k == 0 then [] else Holds(rows, k - 1) + Hold(rows, k)
  }

  /** Sell date descending, then buy date ascending. */
  predicate TradeLe(a: Trade, b: Trade) {
    a.sellDate > b.sellDate || (a.sellDate == b.sellDate && a.buyDate <= b.buyDate)
  }

  lemma TradeLeTotalPreorder()
    ensures TotalPreorder(TradeLe)
  {
  }

  /** The number of pairs when no price is missing: `n - i` for each holding
      length `i` below `n`. */
  function PairCount(n: nat, m: nat): nat {
    if m == 0 then 0 else PairCount(n, m - 1) + (if m < n then n - m else 0)
  }

  /** `expected_n` as the source computes it. */
  function ClosedFormCount(n: nat, m: nat): int {
    n * m - m * (m + 1) / 2
  }

  /** The result of `analyze` for the loaded rows, with the row count
      checked against `expected`. */
  function AnalyzeWith(rows: seq<Bar>, maxHold: int, expected: int): Result<seq<Trade>> {
    if maxHold < 1 then Err(AssertionError)
    else
      var df := Sort(Holds(rows, maxHold), TradeLe);
      if |df| != expected then Err(AssertionError) else Ok(df)
  }

  /** `analyze` as written: the check uses the closed form. */
  function AnalyzeAsWritten(rows: seq<Bar>, maxHold: int): Result<seq<Trade>> {
    AnalyzeWith(rows, maxHold, if maxHold < 1 then 0 else ClosedFormCount(|rows|, maxHold))
  }

  /** `analyze` with the count it evidently means: the pair count. */
  function AnalyzeSpec(rows: seq<Bar>, maxHold: int): Result<seq<Trade>> {
    AnalyzeWith(rows, maxHold, if maxHold < 1 then 0 else PairCount(|rows|, maxHold))
  }

  /** `HistoryAnalyzer.analyze(sym, max_hold_n)` on the loaded rows. */
  method Analyze(rows: seq<Bar>, maxHold: int) returns (r: Result<seq<Trade>>)
    ensures r == AnalyzeSpec(rows, maxHold)
  {
    if maxHold < 1 {
      return Err(AssertionError);
    }
    var dfs: seq<Trade> := [];
    for i := 1 to maxHold + 1
      invariant dfs == Holds(rows, i - 1)
    {
      dfs := dfs + Hold(rows, i);
    }
    var df := Sort(dfs, TradeLe);
    if |df| != PairCount(|rows|, maxHold) {
      return Err(AssertionError);
    }
    r := Ok(df);
  }

  // ---------------------------------------------------------------------------
  // What the trades are

  lemma {:induction false} HoldFromSound(rows: seq<Bar>, i: nat, j: nat, t: Trade)
    requires t in HoldFrom(rows, i, j)
    ensures exists k: nat :: j <= k && Complete(rows, k, i) && t == TradeAt(rows, k, i)
    decreases |rows| - j
  {
    if t !in HoldFrom(rows, i, j + 1) {
      assert Complete(rows, j, i) && t == TradeAt(rows, j, i);
    } else {
      HoldFromSound(rows, i, j + 1, t);
    }
  }

  lemma {:induction false} HoldFromComplete(rows: seq<Bar>, i: nat, j: nat, k: nat)
    requires j <= k && Complete(rows, k, i)
    ensures TradeAt(rows, k, i) in HoldFrom(rows, i, j)
    decreases k - j
  {
    if j < k {
      HoldFromComplete(rows, i, j + 1, k);
    }
  }

  lemma HoldFromSpec(rows: seq<Bar>, i: nat, j: nat, t: Trade)
    ensures t in HoldFrom(rows, i, j) <==> exists k: nat :: j <= k && Complete(rows, k, i) && t == TradeAt(rows, k, i)
  {
    if t in HoldFrom(rows, i, j) {
      HoldFromSound(rows, i, j, t);
    }
    if exists k: nat :: j <= k && Complete(rows, k, i) && t == TradeAt(rows, k, i) {
      var k: nat :| j <= k && Complete(rows, k, i) && t == TradeAt(rows, k, i);
      HoldFromComplete(rows, i, j, k);
    }
  }

  /** A trade of holding length `i` is exactly the trade of a complete row
      and the row `i` later. */
  lemma HoldSpec(rows: seq<Bar>, i: nat, t: Trade)
    ensures t in Hold(rows, i) <==> exists j: nat :: Complete(rows, j, i) && t == TradeAt(rows, j, i)
  {
    HoldFromSpec(rows, i, 0, t);
  }

  lemma {:induction false} HoldsSpec(rows: seq<Bar>, k: nat, t: Trade)
    ensures t in Holds(rows, k) <==> exists i :: 1 <= i <= k && t in Hold(rows, i)
  {
    if k > 0 {
      HoldsSpec(rows, k - 1, t);
    }
  }

  /** The rows `analyze` returns are, in the stated order, the trades of
      every holding length from 1 to the maximum and every complete row,
      each with its margin and holding time. */
  lemma AnalyzeTrades(rows: seq<Bar>, maxHold: int)
    ensures var r := AnalyzeSpec(rows, maxHold);
      r.Ok? ==> SortedBy(r.value, TradeLe) && multiset(r.value) == multiset(Holds(rows, maxHold))
    ensures var r := AnalyzeSpec(rows, maxHold);
      r.Ok? ==> forall t :: t in r.value <==> exists i :: 1 <= i <= maxHold && t in Hold(rows, i)
  {
    if maxHold >= 1 {
      TradeLeTotalPreorder();
      SortSorted(Holds(rows, maxHold), TradeLe);
      SameElements(Holds(rows, maxHold), Sort(Holds(rows, maxHold), TradeLe));
      forall t ensures t in Holds(rows, maxHold) <==> exists i :: 1 <= i <= maxHold && t in Hold(rows, i) {
        HoldsSpec(rows, maxHold, t);
      }
    }
  }

  /** Each trade's fields agree: its margin is the sell price minus the buy
      price, and its holding time the sell date minus the buy date, for the
      row `hold_n` periods after the sell row. */
  lemma TradeFields(rows: seq<Bar>, i: nat, t: Trade)
    requires t in Hold(rows, i)
    ensures t.margin == t.sell - t.buy && t.holdDuration == t.sellDate - t.buyDate && t.holdN == i
    ensures exists j: nat :: (j + i < |rows| && t.sellDate == rows[j].time && t.buyDate == rows[j + i].time &&
      rows[j].price == Some(t.sell) && rows[j + i].price == Some(t.buy))
  {
    HoldSpec(rows, i, t);
    var j: nat :| Complete(rows, j, i) && t == TradeAt(rows, j, i);
    assert j + i < |rows| && t.sellDate == rows[j].time && t.buyDate == rows[j + i].time;
  }

  // ---------------------------------------------------------------------------
  // The row count

  /** No price is missing. */
  predicate AllPriced(rows: seq<Bar>) {
    forall j :: 0 <= j < |rows| ==> rows[j].price.Some?
  }

  lemma {:induction false} HoldFromCount(rows: seq<Bar>, i: nat, j: nat)
    requires AllPriced(rows)
    ensures |HoldFrom(rows, i, j)| == if j + i < |rows| then |rows| - i - j else 0
    decreases |rows| - j
  {
    if j + i < |rows| {
      HoldFromCount(rows, i, j + 1);
    }
  }

  /** With no price missing there are `n - i` trades of each holding length
      `i` below `n`, and so `PairCount` in all. */
  lemma {:induction false} HoldsCount(rows: seq<Bar>, k: nat)
    requires AllPriced(rows)
    ensures |Holds(rows, k)| == PairCount(|rows|, k)
  {
    if k > 0 {
      HoldsCount(rows, k - 1);
      HoldFromCount(rows, k, 0);
    }
  }

  /** The corrected check never fails on a fully priced history. */
  lemma AnalyzeSucceeds(rows: seq<Bar>, maxHold: int)
    requires AllPriced(rows) && maxHold >= 1
    ensures AnalyzeSpec(rows, maxHold).Ok?
  {
    HoldsCount(rows, maxHold);
  }

  /** `1 + 2 + ... + m` */
  function Tri(m: nat): nat {
    if m == 0 then 0 else Tri(m - 1) + m
  }

  lemma {:induction false} TriClosed(m: nat)
    ensures 2 * Tri(m) == m * (m + 1)
  {
    if m > 0 {
      TriClosed(m - 1);
      assert m * (m + 1) == (m - 1) * m + 2 * m;
    }
  }

  lemma HalfOfProduct(m: nat)
    ensures m * (m + 1) / 2 == Tri(m)
  {
    TriClosed(m);
    var p := m * (m + 1);
    assert p == 2 * Tri(m);
  }

  /** Up to the history's length the pair count is `n m - (1 + ... + m)`. */
  lemma {:induction false} PairCountShort(n: nat, m: nat)
    requires m <= n
    ensures PairCount(n, m) == n * m - Tri(m)
  {
    if m > 0 {
      PairCountShort(n, m - 1);
      assert n * m == n * (m - 1) + n;
    }
  }

  /** Beyond the history's length the pair count stops growing. */
  lemma {:induction false} PairCountLong(n: nat, m: nat)
    requires m >= n
    ensures PairCount(n, m) == PairCount(n, n)
  {
    if m > n {
      PairCountLong(n, m - 1);
    }
  }

  /** The closed form is right when the history is at least as long as the
      longest hold. */
  lemma ClosedFormAgrees(n: nat, m: nat)
    requires m <= n
    ensures ClosedFormCount(n, m) == PairCount(n, m)
  {
    PairCountShort(n, m);
    HalfOfProduct(m);
  }

  lemma {:induction false} TriGap(n: nat, m: nat)
    requires n <= m
    ensures Tri(m) - Tri(n) >= (m - n) * (n + 1)
  {
    if n < m {
      TriGap(n, m - 1);
      assert (m - n) * (n + 1) == (m - 1 - n) * (n + 1) + (n + 1);
    }
  }

  /** For a history shorter than the longest hold the closed form falls
      short of the real count. */
  lemma ClosedFormShort(n: nat, m: nat)
    requires n < m
    ensures ClosedFormCount(n, m) < PairCount(n, m)
  {
    PairCountLong(n, m);
    PairCountShort(n, n);
    HalfOfProduct(m);
    TriGap(n, m);
    assert (m - n) * (n + 1) == (m - n) * n + (m - n);
    assert n * m == n * n + (m - n) * n;
  }

  /** As written, `analyze` fails its own assertion on every fully priced
      history shorter than the longest hold, the empty one included,
      although nothing went wrong. */
  lemma AsWrittenFailsShortHistory(rows: seq<Bar>, maxHold: int)
    requires AllPriced(rows) && |rows| < maxHold
    ensures AnalyzeAsWritten(rows, maxHold) == Err(AssertionError)
    ensures AnalyzeSpec(rows, maxHold).Ok?
  {
    HoldsCount(rows, maxHold);
    ClosedFormShort(|rows|, maxHold);
  }

  /** Concretely: one priced row and holds of up to 2 periods. */
  lemma AsWrittenCounterexample()
    ensures AnalyzeAsWritten([Bar(0, Some(1.0))], 2) == Err(AssertionError)
    ensures AnalyzeSpec([Bar(0, Some(1.0))], 2) == Ok([])
  {
    var rows := [Bar(0, Some(1.0))];
    assert Hold(rows, 1) == [] && Hold(rows, 2) == [];
    assert Holds(rows, 2) == [];
    assert ClosedFormCount(1, 2) == -1;
  }

  /** Where the closed form holds, the source and the corrected model give
      the same result. */
  lemma AsWrittenAgrees(rows: seq<Bar>, maxHold: int)
    requires maxHold <= |rows|
    ensures AnalyzeAsWritten(rows, maxHold) == AnalyzeSpec(rows, maxHold)
  {
    if maxHold >= 1 {
      ClosedFormAgrees(|rows|, maxHold);
    }
  }
}
