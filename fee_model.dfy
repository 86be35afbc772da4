/**
 * `BitmexFeeModel`: tier-one maker and taker rates applied to the order's
 * absolute quantity, charged in the security's quote currency.
 */
module BitmexFeeModel {
  import opened Wrappers
  import opened Orders

  /** Tier-one maker rate: a rebate for adding liquidity. */
  const MakerFee: real := -0.00025

  /** Tier-one taker rate. */
  const TakerFee: real := 0.00075

  /** `BitmexOrderProperties`: the hidden and post-only flags. */
  datatype BitmexOrderProperties = BitmexOrderProperties(hidden: bool, postOnly: bool)

  /**
   * What the fee model reads from an order: the order, its properties when they
   * are BitMEX properties (`None` for any other kind), and whether it would cross
   * the book (`Order.IsMarketable`, computed by the host from market prices).
   */
  datatype FeeOrder = FeeOrder(order: Order, properties: Option<BitmexOrderProperties>, isMarketable: bool)

  /** What the fee model reads from a security. */
  datatype FeeSecurity = FeeSecurity(askPrice: real, bidPrice: real, contractMultiplier: real, quoteCurrency: string)

  datatype CashAmount = CashAmount(amount: real, currency: string)

  /**
   * A limit order that is not hidden and is either post-only or not marketable
   * rests on the book and pays the maker rate; every other order pays the taker rate.
   */
  predicate RestsOnBook(o: FeeOrder)
  {
    && o.order.orderType == Limit
    && !(o.properties.Some? && o.properties.value.hidden)
    && ((o.properties.Some? && o.properties.value.postOnly) || !o.isMarketable)
  }

  /**
   * `GetOrderFee`: absolute quantity times the rate, in the quote currency. The
   * unit price the source computes from the security's prices never reaches the
   * result and is left out.
   */
  function GetOrderFee(o: FeeOrder, security: FeeSecurity): (fee: CashAmount)
    ensures fee.currency == security.quoteCurrency
    ensures RestsOnBook(o) ==> fee.amount == o.order.AbsoluteQuantity() * MakerFee
    ensures !RestsOnBook(o) ==> fee.amount == o.order.AbsoluteQuantity() * TakerFee
  {
    var rate := if RestsOnBook(o) then MakerFee else TakerFee;
    CashAmount(1.0 * o.order.AbsoluteQuantity() * rate, security.quoteCurrency)
  }

  /** Market orders always pay the taker rate, whatever their properties say. */
  lemma MarketOrderPaysTaker(o: FeeOrder, security: FeeSecurity)
    requires o.order.orderType == Market
    ensures GetOrderFee(o, security).amount == o.order.AbsoluteQuantity() * TakerFee
  {
  }

  /** Hidden orders always pay the taker rate. */
  lemma HiddenOrderPaysTaker(o: FeeOrder, security: FeeSecurity)
    requires o.properties.Some? && o.properties.value.hidden
    ensures GetOrderFee(o, security).amount == o.order.AbsoluteQuantity() * TakerFee
  {
  }

  /** Maker fees are a rebate (never positive); taker fees are never negative. */
  lemma FeeSign(o: FeeOrder, security: FeeSecurity)
    ensures RestsOnBook(o) ==> GetOrderFee(o, security).amount <= 0.0
    ensures !RestsOnBook(o) ==> GetOrderFee(o, security).amount >= 0.0
  {
  }

  /**
   * The fee depends neither on prices nor on direction: two orders of the same
   * type, size and properties pay the same on securities with the same quote
   * currency, long or short, at any limit price and market prices.
   */
  lemma FeeIndependentOfPriceAndDirection(o1: FeeOrder, o2: FeeOrder, s1: FeeSecurity, s2: FeeSecurity)
    requires o1.order.orderType == o2.order.orderType
    requires o1.order.AbsoluteQuantity() == o2.order.AbsoluteQuantity()
    requires o1.properties == o2.properties && o1.isMarketable == o2.isMarketable
    requires s1.quoteCurrency == s2.quoteCurrency
    ensures GetOrderFee(o1, s1) == GetOrderFee(o2, s2)
  {
  }
}
