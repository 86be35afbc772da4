/**
 * The BitMEX stream's message classes (`Messages.cs`): classification of a
 * decoded JSON object by its keys, the accessors the handlers read, and the
 * satoshi-denominated amounts. Text decoding is not modelled: a message is
 * an already decoded object, a map from keys to tokens, and the `data`
 * arrays are already decoded into entry records.
 */
module BitmexMessages {
  import opened Wrappers
  import opened Orders

  /** One satoshi, 10^-8 bitcoin. */
  const Satoshi: real := 0.00000001

  /** A wallet record; the exchange reports the amount in satoshi. */
  datatype Wallet = Wallet(currency: string, amountInSatoshi: real)
  {
    /** `Wallet.Amount`. */
    function Amount(): (amount: real)
      ensures amount * 100000000.0 == amountInSatoshi
    {
      amountInSatoshi * Satoshi
    }
  }

  /** A position record; the exchange reports the unrealised profit in satoshi. */
  datatype Position = Position(symbol: string, averagePrice: real, quantity: real, unrealisedPnlInSatoshi: real)
  {
    /** `Position.UnrealisedPnl`. */
    function UnrealisedPnl(): (pnl: real)
      ensures pnl * 100000000.0 == unrealisedPnlInSatoshi
    {
      unrealisedPnlInSatoshi * Satoshi
    }
  }

  /** An entry of an `orderBookL2` table: one price level. */
  datatype OrderBookEntry = OrderBookEntry(id: int, symbol: string, side: OrderDirection, size: real, price: real)

  /** An entry of a `trade` table. The timestamp is kept as an opaque tick count. */
  datatype TradeDataEntry = TradeDataEntry(symbol: string, price: real, size: real, timestamp: int)

  /**
   * An entry of an `execution` table. The handler tests the side for presence and
   * reads an execution type, so both are modelled as the handler uses them.
   */
  datatype ExecutionDataEntry = ExecutionDataEntry(
    orderId: string,
    symbol: string,
    lastPrice: Option<real>,
    lastQuantity: Option<real>,
    side: Option<OrderDirection>,
    timestamp: int,
    status: string,
    execType: string,
    feeInSatoshi: Option<real>,
    feeCurrency: string)
  {
    /**
     * `ExecutionDataEntry.Fee`: commission in satoshi times the last price, in
     * bitcoin; 0 when either operand is missing (a lifted product is null).
     */
    function Fee(): (fee: real)
      ensures feeInSatoshi.None? || lastPrice.None? ==> fee == 0.0
      ensures feeInSatoshi.Some? && lastPrice.Some? ==>
        fee * 100000000.0 == feeInSatoshi.value * lastPrice.value
    {
      if feeInSatoshi.Some? && lastPrice.Some? then feeInSatoshi.value * lastPrice.value * Satoshi else 0.0
    }
  }

  /** A decoded JSON token as far as the messages read it. */
  datatype Token =
    | JString(text: string)
    | JBool(flag: bool)
    | JNull
    | JBookEntries(bookEntries: seq<OrderBookEntry>)
    | JTradeEntries(tradeEntries: seq<TradeDataEntry>)
    | JExecutionEntries(executionEntries: seq<ExecutionDataEntry>)

  /** A decoded JSON object. */
  type JObject = map<string, Token>

  /**
   * `JObject.Value<string>(key)`: null for a missing key or a null token, the text
   * of a string, the .NET rendering of a boolean, and `InvalidCastException` for an
   * array.
   */
  function StringValue(obj: JObject, key: string): (r: Result<Option<string>>)
    ensures r.Ok? && r.value.Some? ==> key in obj && (obj[key].JString? || obj[key].JBool?)
    ensures key in obj && obj[key].JString? ==> r == Ok(Some(obj[key].text))
    ensures key !in obj ==> r == Ok(Option.None)
  {
    if key !in obj then Ok(Option.None)
    else match obj[key]
      case JString(text) => Ok(Some(text))
      case JBool(flag) => Ok(Some(if flag then "True" else "False"))
      case JNull => Ok(Option.None)
      case _ => Err(InvalidCastException)
  }

  datatype EventType = None | Subscribe | Unsubscribe | OrderBook | Trade | Order | Execution

  /** The message classes; each wraps the object it was built from. */
  datatype BaseMessage =
    | BaseMessage(obj: JObject)
    | SubscribeMessage(obj: JObject)
    | UnsubscribeMessage(obj: JObject)
    | OrderBookData(obj: JObject)
    | TradeData(obj: JObject)
    | ExecutionData(obj: JObject)
  {
    /** The `Type` each class reports; the base class reports None. */
    function Type(): (t: EventType)
      ensures t == EventType.None <==> this.BaseMessage?
      ensures t == EventType.Subscribe <==> this.SubscribeMessage?
      ensures t == EventType.Unsubscribe <==> this.UnsubscribeMessage?
      ensures t == EventType.OrderBook <==> this.OrderBookData?
      ensures t == EventType.Trade <==> this.TradeData?
      ensures t == EventType.Execution <==> this.ExecutionData?
      ensures t != EventType.Order
    {
      match this
      case BaseMessage(_) => EventType.None
      case SubscribeMessage(_) => EventType.Subscribe
      case UnsubscribeMessage(_) => EventType.Unsubscribe
      case OrderBookData(_) => EventType.OrderBook
      case TradeData(_) => EventType.Trade
      case ExecutionData(_) => EventType.Execution
    }

    /** The `Action` of a table message: the "action" string, or null. */
    function Action(): Result<Option<string>>
      requires OrderBookData? || TradeData? || ExecutionData?
    {
      StringValue(obj, "action")
    }
  }

  /**
   * `BaseMessage.Parse`: a "subscribe" key makes a Subscribe; otherwise an
   * "unsubscribe" key an Unsubscribe; otherwise a "table" of orderBookL2, trade or
   * execution the matching table message; anything else null. A "table" token that
   * is an array cannot be read as a string and throws.
   */
  function Parse(obj: JObject): (r: Result<Option<BaseMessage>>)
    ensures r.Ok? && r.value.Some? ==> r.value.value.obj == obj && !r.value.value.BaseMessage?
    ensures "subscribe" in obj ==> r == Ok(Some(SubscribeMessage(obj)))
    ensures "subscribe" !in obj && "unsubscribe" in obj ==> r == Ok(Some(UnsubscribeMessage(obj)))
    ensures "subscribe" !in obj && "unsubscribe" !in obj ==>
      (r == Ok(Some(OrderBookData(obj))) <==> "table" in obj && obj["table"] == JString("orderBookL2"))
      && (r == Ok(Some(TradeData(obj))) <==> "table" in obj && obj["table"] == JString("trade"))
      && (r == Ok(Some(ExecutionData(obj))) <==> "table" in obj && obj["table"] == JString("execution"))
    ensures r.Err? ==> "table" in obj && r.error == InvalidCastException
  {
    if "subscribe" in obj then Ok(Some(SubscribeMessage(obj)))
    else if "unsubscribe" in obj then Ok(Some(UnsubscribeMessage(obj)))
    else if "table" in obj then
      var table :- StringValue(obj, "table");
      if table == Some("orderBookL2") then Ok(Some(OrderBookData(obj)))
      else if table == Some("trade") then Ok(Some(TradeData(obj)))
      else if table == Some("execution") then Ok(Some(ExecutionData(obj)))
      else Ok(Option.None)
    else Ok(Option.None)
  }

  /** A "table" naming any other stream, or no recognised key at all, classifies as null. */
  lemma ParseUnknownTable(obj: JObject, table: string)
    requires "subscribe" !in obj && "unsubscribe" !in obj
    requires "table" in obj && obj["table"] == JString(table)
    requires table !in {"orderBookL2", "trade", "execution"}
    ensures Parse(obj) == Ok(Option.None)
  {
  }

  /** `message?.Type`: the type of a parsed message, None for null. */
  function TypeOf(message: Option<BaseMessage>): (t: EventType)
    ensures message.None? ==> t == EventType.None
    ensures message.Some? ==> t == message.value.Type()
  {
    if message.Some? then message.value.Type() else EventType.None
  }

  /** Classification is faithful: a parsed message's type names the key or table that selected it. */
  lemma ParseTypes(obj: JObject)
    requires Parse(obj).Ok?
    ensures TypeOf(Parse(obj).value) == EventType.Subscribe <==> "subscribe" in obj
    ensures TypeOf(Parse(obj).value) == EventType.Unsubscribe <==> "subscribe" !in obj && "unsubscribe" in obj
    ensures TypeOf(Parse(obj).value) == EventType.OrderBook <==>
      "subscribe" !in obj && "unsubscribe" !in obj && "table" in obj && obj["table"] == JString("orderBookL2")
  {
  }

  /** `Subscribe.Channel`: the "subscribe" string. */
  function SubscribeChannel(message: BaseMessage): (r: Result<Option<string>>)
    requires message.SubscribeMessage?
    ensures "subscribe" in message.obj && message.obj["subscribe"].JString? ==>
      r == Ok(Some(message.obj["subscribe"].text))
  {
    StringValue(message.obj, "subscribe")
  }

  /**
   * `Unsubscribe.Channel` as written: it reads the "subscribe" key, the same key
   * as `Subscribe.Channel`.
   */
  function UnsubscribeChannelAsWritten(message: BaseMessage): Result<Option<string>>
    requires message.UnsubscribeMessage?
  {
    StringValue(message.obj, "subscribe")
  }

  /**
   * The defect: `Parse` builds an Unsubscribe only from an object without a
   * "subscribe" key, so the channel read as written is always null.
   */
  lemma UnsubscribeChannelAlwaysNull(obj: JObject)
    requires Parse(obj) == Ok(Some(UnsubscribeMessage(obj)))
    ensures UnsubscribeChannelAsWritten(UnsubscribeMessage(obj)) == Ok(Option.None)
  {
  }

  /** A concrete unsubscribe confirmation whose channel is lost when read as written. */
  lemma UnsubscribeChannelCounterexample()
    ensures var obj := map["unsubscribe" := JString("orderBookL2:XBTUSD"), "success" := JBool(true)];
      && Parse(obj) == Ok(Some(UnsubscribeMessage(obj)))
      && UnsubscribeChannelAsWritten(UnsubscribeMessage(obj)) == Ok(Option.None)
      && UnsubscribeChannel(UnsubscribeMessage(obj)) == Ok(Some("orderBookL2:XBTUSD"))
  {
  }

  /** `Unsubscribe.Channel` as intended: the "unsubscribe" string, the channel being left. */
  function UnsubscribeChannel(message: BaseMessage): (r: Result<Option<string>>)
    requires message.UnsubscribeMessage?
    ensures "unsubscribe" in message.obj && message.obj["unsubscribe"].JString? ==>
      r == Ok(Some(message.obj["unsubscribe"].text))
  {
    StringValue(message.obj, "unsubscribe")
  }

  /**
   * `OrderBookData.Data`, `TradeData.Data`, `ExecutionData.Data`: the decoded
   * "data" array of the table's own entry kind. A missing or null "data" fails
   * with a null reference; an array of another kind fails to convert.
   */
  function BookEntries(message: BaseMessage): (r: Result<seq<OrderBookEntry>>)
    requires message.OrderBookData?
    ensures r.Ok? <==> "data" in message.obj && message.obj["data"].JBookEntries?
  {
    if "data" !in message.obj || message.obj["data"].JNull? then Err(NullReferenceException)
    else if message.obj["data"].JBookEntries? then Ok(message.obj["data"].bookEntries)
    else Err(GeneralException)
  }

  function TradeEntries(message: BaseMessage): (r: Result<seq<TradeDataEntry>>)
    requires message.TradeData?
    ensures r.Ok? <==> "data" in message.obj && message.obj["data"].JTradeEntries?
  {
    if "data" !in message.obj || message.obj["data"].JNull? then Err(NullReferenceException)
    else if message.obj["data"].JTradeEntries? then Ok(message.obj["data"].tradeEntries)
    else Err(GeneralException)
  }

  function ExecutionEntries(message: BaseMessage): (r: Result<seq<ExecutionDataEntry>>)
    requires message.ExecutionData?
    ensures r.Ok? <==> "data" in message.obj && message.obj["data"].JExecutionEntries?
  {
    if "data" !in message.obj || message.obj["data"].JNull? then Err(NullReferenceException)
    else if message.obj["data"].JExecutionEntries? then Ok(message.obj["data"].executionEntries)
    else Err(GeneralException)
  }
}
