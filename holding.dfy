/**
 * `BitmexHolding.TotalCloseProfit`: the profit of closing a position at the
 * current quote, for inverse contracts whose profit is the relative price move.
 */
module BitmexHolding {
  import opened Wrappers
  import opened Orders

  /**
   * The holding and security values the computation reads. `closingFees(q)` is the
   * fee, converted to the account currency, that the security's fee model charges
   * for a market order of quantity `q`.
   */
  datatype HoldingState = HoldingState(
    quantity: real,
    averagePrice: real,
    bidPrice: real,
    askPrice: real,
    conversionRate: real,
    contractMultiplier: real,
    closingFees: real -> real)

  /** The price a position closes at: the bid when the closing order sells, the ask when it buys. */
  function ClosingPrice(h: HoldingState): (price: real)
    ensures h.quantity > 0.0 ==> price == h.bidPrice
    ensures h.quantity <= 0.0 ==> price == h.askPrice
  {
    if DirectionOf(-h.quantity) == Sell then h.bidPrice else h.askPrice
  }

  /**
   * `TotalCloseProfit`: 0 for a flat position; otherwise the relative move from
   * the average price to the closing price, times quantity, conversion rate and
   * contract multiplier, less the fee of the closing order. A zero closing price
   * divides by zero.
   */
  function TotalCloseProfit(h: HoldingState): (r: Result<real>)
    ensures h.quantity == 0.0 ==> r == Ok(0.0)
    ensures h.quantity != 0.0 ==> (r.Err? <==> ClosingPrice(h) == 0.0)
    ensures r.Err? ==> r.error == DivideByZeroException
    ensures h.quantity != 0.0 && r.Ok? ==>
      (r.value + h.closingFees(-h.quantity)) * ClosingPrice(h)
      == (ClosingPrice(h) - h.averagePrice) * h.quantity * h.conversionRate * h.contractMultiplier
  {
    if h.quantity == 0.0 then Ok(0.0)
    else
      var closingQuantity := -h.quantity;
      var feesInAccountCurrency := h.closingFees(closingQuantity);
      var price := if DirectionOf(closingQuantity) == Sell then h.bidPrice else h.askPrice;
      if price == 0.0 then Err(DivideByZeroException)
      else Ok((price - h.averagePrice) / price * h.quantity * h.conversionRate * h.contractMultiplier - feesInAccountCurrency)
  }

  /** Closing at the average price loses exactly the closing fee. */
  lemma BreakEvenCostsTheFee(h: HoldingState)
    requires h.quantity != 0.0 && ClosingPrice(h) == h.averagePrice && h.averagePrice != 0.0
    ensures TotalCloseProfit(h) == Ok(-h.closingFees(-h.quantity))
  {
  }

  /**
   * Before fees, with positive prices, rate and multiplier, a long position gains
   * exactly when the bid is above its average price and a short one exactly when
   * the ask is below it.
   */
  lemma {:induction false} GrossProfitSign(h: HoldingState)
    requires h.quantity != 0.0 && ClosingPrice(h) > 0.0
    requires h.conversionRate > 0.0 && h.contractMultiplier > 0.0
    ensures TotalCloseProfit(h).Ok?
    ensures var gross := TotalCloseProfit(h).value + h.closingFees(-h.quantity);
      gross > 0.0 <==> (if h.quantity > 0.0 then h.bidPrice > h.averagePrice else h.askPrice < h.averagePrice)
  {
    var p := ClosingPrice(h);
    var gross := TotalCloseProfit(h).value + h.closingFees(-h.quantity);
    var k := h.quantity * h.conversionRate * h.contractMultiplier;
    assert gross == (p - h.averagePrice) / p * k;
    assert k > 0.0 <==> h.quantity > 0.0 by {
      assert h.conversionRate * h.contractMultiplier > 0.0;
    }
    assert (p - h.averagePrice) / p > 0.0 <==> p > h.averagePrice;
    MulPositive((p - h.averagePrice) / p, k);
  }

  lemma MulPositive(a: real, b: real)
    requires b != 0.0
    ensures a * b > 0.0 <==> (a > 0.0 && b > 0.0) || (a < 0.0 && b < 0.0)
  {
  }
}
