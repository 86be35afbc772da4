/**
 * The host's order and security vocabulary that the adapters translate to and
 * from. Only the members the adapters use are modelled.
 */
module Orders {

  datatype OrderDirection = Buy | Sell | Hold

  datatype OrderStatus =
    | New | Submitted | PartiallyFilled | Filled | Canceled | None | Invalid | CancelPending | UpdateSubmitted

  datatype OrderType =
    | Market | Limit | StopMarket | StopLimit | MarketOnOpen | MarketOnClose | OptionExercise

  datatype AccountType = Margin | Cash

  datatype SecurityType = Base | Equity | Option | Commodity | Forex | Future | Cfd | Crypto

  datatype Resolution = Tick | Second | Minute | Hour | Daily

  /** A host symbol: its ticker value, security type and market. */
  datatype Symbol = Symbol(value: string, securityType: SecurityType, market: string)

  /** `Market.Bitmex`. */
  const BitmexMarket: string := "bitmex"

  /** Direction of an order of the given signed quantity (`Order.Direction`). */
  function DirectionOf(quantity: real): (d: OrderDirection)
    ensures d == Buy <==> quantity > 0.0
    ensures d == Sell <==> quantity < 0.0
  {
    if quantity > 0.0 then Buy else if quantity < 0.0 then Sell else Hold
  }

  function Abs(x: real): (r: real)
    ensures r >= 0.0 && (r == x || r == -x)
  {
    if x < 0.0 then -x else x
  }

  /** `Math.Sign` on a decimal. */
  function Sign(x: real): (s: real)
    ensures s * Abs(x) == x
    ensures s == 0.0 <==> x == 0.0
  {
    if x > 0.0 then 1.0 else if x < 0.0 then -1.0 else 0.0
  }

  /**
   * A host order: its id, symbol, signed quantity, type, the limit and stop
   * prices its subclass carries (ignored for other types), and its list of
   * brokerage-side ids.
   */
  datatype Order = Order(
    id: int,
    symbol: Symbol,
    quantity: real,
    orderType: OrderType,
    limitPrice: real,
    stopPrice: real,
    brokerId: seq<string>)
  {
    /** `Order.Direction`. */
    function Direction(): OrderDirection { DirectionOf(quantity) }

    /** `Order.AbsoluteQuantity`. */
    function AbsoluteQuantity(): real { Abs(quantity) }
  }

  /** An `OrderEvent` as raised through `OnOrderEvent`: the fields the adapters set. */
  datatype OrderEvent = OrderEvent(
    orderId: int,
    symbol: Symbol,
    status: OrderStatus,
    fillPrice: real,
    fillQuantity: real,
    direction: OrderDirection,
    fee: real)

  /**
   * The event `new OrderEvent(order, time, 0, message) { Status = status }`
   * raises: the order's id, symbol and direction with the given status, nothing
   * filled and no fee.
   */
  function StatusEvent(order: Order, status: OrderStatus): (e: OrderEvent)
    ensures e.orderId == order.id && e.symbol == order.symbol && e.status == status
    ensures e.fillQuantity == 0.0 && e.fillPrice == 0.0 && e.fee == 0.0 && e.direction == order.Direction()
  {
    OrderEvent(order.id, order.symbol, status, 0.0, 0.0, order.Direction(), 0.0)
  }
}
