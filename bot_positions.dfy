/** The bare position object of thales/bots/positions.py: a buy that is
    open until one sale fills in its close timestamp, sell price, ratio and
    delta. A missing value is None; Python treats None, "" and 0.0 alike as
    false when deciding whether the position is still open. */
module BotPositions {
  import opened Common

  /** Python truthiness of an optional number. */
  predicate TruthyNum(x: Option<real>) {
    x.Some? && x.value != 0.0
  }

  /** `open`: none of the four sale fields holds a true value. */
  predicate OpenOf(closeTimestamp: Option<string>, sellPrice: Option<real>,
                   sellBuyRatio: Option<real>, delta: Option<real>) {
    !(Truthy(closeTimestamp) || TruthyNum(sellPrice) || TruthyNum(sellBuyRatio) || TruthyNum(delta))
  }

  /** What a sale fills in when it succeeds: the price relative to the buy
      price and the gain on the amount invested. */
  function SaleRatio(buyPrice: real, price: real): (r: real)
    requires buyPrice != 0.0
    ensures r * buyPrice == price
  {
    price / buyPrice
  }

  function SaleDelta(buyPrice: real, amount: real, price: real): (d: real)
    requires buyPrice != 0.0
    ensures buyPrice > 0.0 && amount > 0.0 ==> (d > 0.0 <==> price > buyPrice)
    ensures buyPrice > 0.0 && amount > 0.0 ==> (d == 0.0 <==> price == buyPrice)
  {
    var ratio := SaleRatio(buyPrice, price);
    SaleDeltaSign(buyPrice, amount, price, ratio);
    amount * ratio - amount
  }

  lemma SaleDeltaSign(buyPrice: real, amount: real, price: real, ratio: real)
    requires buyPrice > 0.0 || buyPrice < 0.0
    requires ratio * buyPrice == price
    ensures buyPrice > 0.0 && amount > 0.0 ==> (amount * ratio - amount > 0.0 <==> price > buyPrice)
    ensures buyPrice > 0.0 && amount > 0.0 ==> (amount * ratio - amount == 0.0 <==> price == buyPrice)
  {
    if buyPrice > 0.0 && amount > 0.0 {
      assert amount * ratio - amount == amount * (ratio - 1.0);
      assert price - buyPrice == buyPrice * (ratio - 1.0);
      ProductPositive(amount, ratio - 1.0);
      ProductPositive(buyPrice, ratio - 1.0);
    }
  }

  lemma ProductPositive(a: real, b: real)
    requires a > 0.0
    ensures a * b > 0.0 <==> b > 0.0
    ensures a * b == 0.0 <==> b == 0.0
  {
    if b > 0.0 {
      assert a * b > 0.0;
    } else if b < 0.0 {
      assert a * b < 0.0;
    }
  }

  /** A sale with a non-empty timestamp always leaves the position closed,
      whatever the price, so no second sale can pass the opening check. */
  lemma SoldIsClosed(timestamp: string, price: real, buyPrice: real, amount: real)
    requires timestamp != "" && buyPrice != 0.0
    ensures !OpenOf(Some(timestamp), Some(price), Some(SaleRatio(buyPrice, price)),
                    Some(SaleDelta(buyPrice, amount, price)))
  {
  }

  class Position {
    var openTimestamp: string
    var buyPrice: real
    var amount: real
    var closeTimestamp: Option<string>
    var sellPrice: Option<real>
    var sellBuyRatio: Option<real>
    var delta: Option<real>

    predicate IsOpen()
      reads this
    {
      OpenOf(closeTimestamp, sellPrice, sellBuyRatio, delta)
    }

    /** `Position(timestamp, price, amount)`: a fresh position is open. */
    constructor (timestamp: string, price: real, amount: real)
      ensures openTimestamp == timestamp && buyPrice == price && this.amount == amount
      ensures closeTimestamp.None? && sellPrice.None? && sellBuyRatio.None? && delta.None?
      ensures IsOpen()
    {
      openTimestamp := timestamp;
      buyPrice := price;
      this.amount := amount;
      closeTimestamp := None;
      sellPrice := None;
      sellBuyRatio := None;
      delta := None;
    }

    /** `sell(timestamp, price)`: asserts the position is open and has no
        sell price, then records the sale. A zero buy price raises
        ZeroDivisionError once the timestamp and price are already stored. */
    method Sell(timestamp: string, price: real) returns (o: Outcome)
      modifies this
      ensures openTimestamp == old(openTimestamp) && buyPrice == old(buyPrice) && amount == old(amount)
      ensures !old(IsOpen()) || TruthyNum(old(sellPrice)) ==>
                o == Fail(AssertionError) && unchanged(this)
      ensures old(IsOpen()) && !TruthyNum(old(sellPrice)) && buyPrice == 0.0 ==>
                o == Fail(ZeroDivisionError)
                && closeTimestamp == Some(timestamp) && sellPrice == Some(price)
                && sellBuyRatio == old(sellBuyRatio) && delta == old(delta)
      ensures old(IsOpen()) && !TruthyNum(old(sellPrice)) && buyPrice != 0.0 ==>
                o.Pass?
                && closeTimestamp == Some(timestamp) && sellPrice == Some(price)
                && sellBuyRatio == Some(SaleRatio(buyPrice, price))
                && delta == Some(SaleDelta(buyPrice, amount, price))
      ensures o.Pass? && timestamp != "" ==> !IsOpen()
    {
      if !IsOpen() || TruthyNum(sellPrice) {
        return Fail(AssertionError);
      }
      closeTimestamp := Some(timestamp);
      sellPrice := Some(price);
      if buyPrice == 0.0 {
        return Fail(ZeroDivisionError);
      }
      var ratio := SaleRatio(buyPrice, price);
      sellBuyRatio := Some(ratio);
      delta := Some(SaleDelta(buyPrice, amount, price));
      o := Pass;
    }
  }
}
