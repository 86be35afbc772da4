/**
 * The pure converters, filters and the request loop of the Bitfinex
 * brokerage's utility partial (`BitfinexBrokerage.Utility.cs`).
 */
module BitfinexUtility {
  import opened Wrappers
  import opened Orders
  import opened Rest

  /** `ApiVersion`. */
  const ApiVersion: string := "v1"

  /** `GetEndpoint`: the path of an API method under `/v1/`. */
  function GetEndpoint(apiMethod: string): (endpoint: string)
    ensures |endpoint| == 4 + |apiMethod|
    ensures endpoint[..4] == "/v1/" && endpoint[4..] == apiMethod
  {
    "/" + ApiVersion + "/" + apiMethod
  }

  /** The fields of a Bitfinex order record the converters read. */
  datatype BfxOrder = BfxOrder(
    isLive: bool,
    isCancelled: bool,
    isExchange: bool,
    executedAmount: real,
    remainingAmount: real)

  /** The fields of a Bitfinex wallet record the filter reads. */
  datatype BfxWallet = BfxWallet(walletType: string, currency: string, amount: real)

  /**
   * `ConvertOrderStatus`, a first-match chain: live and nothing executed is
   * Submitted; something executed and something remaining is PartiallyFilled;
   * nothing remaining is Filled; cancelled is Canceled; otherwise None.
   */
  function ConvertOrderStatus(order: BfxOrder): (r: OrderStatus)
    ensures r in {Submitted, PartiallyFilled, Filled, Canceled, OrderStatus.None}
    ensures r == Submitted <==> order.isLive && order.executedAmount == 0.0
    ensures r == PartiallyFilled <==> order.executedAmount > 0.0 && order.remainingAmount > 0.0
    ensures r == Filled <==> order.remainingAmount == 0.0 && !(order.isLive && order.executedAmount == 0.0)
    ensures r == Canceled ==> order.isCancelled && order.remainingAmount != 0.0
  {
    if order.isLive && order.executedAmount == 0.0 then Submitted
    else if order.executedAmount > 0.0 && order.remainingAmount > 0.0 then PartiallyFilled
    else if order.remainingAmount == 0.0 then Filled
    else if order.isCancelled then Canceled
    else OrderStatus.None
  }

  /**
   * The order of the tests matters: a live order with nothing executed reads as
   * Submitted even when nothing remains, and a cancelled order with nothing
   * remaining reads as Filled.
   */
  lemma ConvertOrderStatusShadowing(executed: real, exchange: bool)
    ensures ConvertOrderStatus(BfxOrder(true, false, exchange, 0.0, 0.0)) == Submitted
    ensures ConvertOrderStatus(BfxOrder(false, true, exchange, executed, 0.0)) == Filled
  {
  }

  /**
   * `ConvertOrderType`: Limit and Market by their lower-case names, StopMarket as
   * "stop", prefixed with "exchange " for a cash account; `NotSupportedException`
   * for every other type.
   */
  function ConvertOrderType(accountType: AccountType, orderType: OrderType): (r: Result<string>)
    ensures r.Ok? <==> orderType in {Limit, Market, StopMarket}
    ensures r.Err? ==> r.error == NotSupportedException
  {
    var outputOrderType :=
      match orderType
      case Limit => Ok("limit")
      case Market => Ok("market")
      case StopMarket => Ok("stop")
      case _ => Err(NotSupportedException);
    if outputOrderType.Err? then outputOrderType
    else Ok((if accountType == Cash then "exchange " else "") + outputOrderType.value)
  }

  /** Reads a Bitfinex order type back into the account and order types: the partner of `ConvertOrderType`. */
  function ParseOrderType(bfxType: string): Option<(AccountType, OrderType)>
  {
    var (accountType, name) :=
      if |bfxType| >= 9 && bfxType[..9] == "exchange " then (Cash, bfxType[9..]) else (Margin, bfxType);
    if name == "limit" then Some((accountType, Limit))
    else if name == "market" then Some((accountType, Market))
    else if name == "stop" then Some((accountType, StopMarket))
    else Option.None
  }

  /** The Bitfinex order type determines both the account type and the order type. */
  lemma {:induction false} ConvertOrderTypeRoundTrip(accountType: AccountType, orderType: OrderType)
    requires ConvertOrderType(accountType, orderType).Ok?
    ensures ParseOrderType(ConvertOrderType(accountType, orderType).value) == Some((accountType, orderType))
  {
    var s := ConvertOrderType(accountType, orderType).value;
    if accountType == Cash {
      assert s[..9] == "exchange ";
      assert s[9..] == s[9..];
    } else {
      var name := if orderType == Limit then "limit" else if orderType == Market then "market" else "stop";
      assert s == "" + name;
      assert "" + name == name;
    }
  }

  /** `ConvertOrderDirection`: "buy" or "sell"; `NotSupportedException` for Hold. */
  function ConvertOrderDirection(direction: OrderDirection): (r: Result<string>)
    ensures r.Ok? <==> direction != Hold
    ensures r.Ok? ==> (r.value == "buy" <==> direction == Buy) && (r.value == "sell" <==> direction == Sell)
    ensures r.Err? ==> r.error == NotSupportedException
  {
    match direction
    case Buy => Ok("buy")
    case Sell => Ok("sell")
    case Hold => Err(NotSupportedException)
  }

  /**
   * `GetOrderPrice`: the limit price of a limit order, 1 for a market order, the
   * stop price of a stop-market order; `NotSupportedException` for other types.
   */
  function GetOrderPrice(order: Order): (r: Result<real>)
    ensures r.Ok? <==> order.orderType in {Limit, Market, StopMarket}
    ensures r.Ok? && order.orderType == Limit ==> r.value == order.limitPrice
    ensures r.Ok? && order.orderType == Market ==> r.value == 1.0
    ensures r.Ok? && order.orderType == StopMarket ==> r.value == order.stopPrice
    ensures r.Err? ==> r.error == NotSupportedException
  {
    match order.orderType
    case Limit => Ok(order.limitPrice)
    case Market => Ok(1.0)
    case StopMarket => Ok(order.stopPrice)
    case _ => Err(NotSupportedException)
  }

  /** `WalletFilter(accountType)`: exchange wallets for a cash account, trading wallets for a margin account. */
  predicate WalletFilter(accountType: AccountType, wallet: BfxWallet)
  {
    || (wallet.walletType == "exchange" && accountType == Cash)
    || (wallet.walletType == "trading" && accountType == Margin)
  }

  /** `OrderFilter(accountType)`: exchange orders for a cash account, the others for a margin account. */
  predicate OrderFilter(accountType: AccountType, order: BfxOrder)
  {
    || (order.isExchange && accountType == Cash)
    || (!order.isExchange && accountType == Margin)
  }

  /** No wallet is kept for both account types; exactly the exchange and trading wallets are kept for one. */
  lemma WalletFilterExclusive(wallet: BfxWallet)
    ensures !(WalletFilter(Cash, wallet) && WalletFilter(Margin, wallet))
    ensures WalletFilter(Cash, wallet) || WalletFilter(Margin, wallet) <==> wallet.walletType in {"exchange", "trading"}
  {
  }

  /** Every order is kept for exactly one account type. */
  lemma OrderFilterPartition(order: BfxOrder)
    ensures OrderFilter(Cash, order) != OrderFilter(Margin, order)
  {
  }

  /**
   * `ExecuteRestRequest`: a do-while over attempts, each waiting for the rate
   * gate; returns the last status and the attempt count.
   */
  method ExecuteRestRequest(responses: nat -> int) returns (status: int, attempts: nat)
    ensures attempts == AttemptsNeeded(responses)
    ensures 1 <= attempts <= MaxAttempts
    ensures status == responses(attempts - 1)
    ensures attempts < MaxAttempts ==> status != TooManyRequests
  {
    attempts := 0;
    status := 0;
    while true
      invariant 0 <= attempts < MaxAttempts
      invariant AttemptsFrom(responses, attempts) == AttemptsNeeded(responses)
      decreases MaxAttempts - attempts
    {
      status := responses(attempts);
      attempts := attempts + 1;
      if !(attempts < MaxAttempts && status == TooManyRequests) {
        break;
      }
    }
  }
}
