/**
 * The Bitfinex brokerage's stream side (`BitfinexBrokerage.Messaging.cs`) and
 * its order submission (`SubmitOrder` in `BitfinexBrokerage.Utility.cs`): the
 * socket message handler with its lock-and-buffer protocol, the channel
 * registry, the order books, the tick list, the order cache with its pending
 * closes, and the bookkeeping of a placed order.
 */
module BitfinexMessaging {
  import opened Wrappers
  import opened Orders
  import opened Text
  import opened OrderBookRows
  import opened Websockets
  import opened Sequences
  import opened BitfinexStream
  import Utility = BitfinexUtility
  import Rest

  /** The messages the brokerage raises besides order events. */
  datatype BrokerageMessage =
    /** Handling a socket message threw. */
    | ParsingFailed(message: WebSocketMessage, error: Exception)
    /** A placed order was refused, with the response's status code or -1. */
    | OrderWarning(orderId: int, code: int)

  /** Everything the handlers change, as one value. */
  datatype HandlerState = HandlerState(
    channels: map<string, Channel>,
    orderBooks: map<Symbol, seq<RowCall>>,
    ticks: seq<Tick>,
    cachedOrders: map<int, Order>,
    pendingClose: seq<string>,
    orderEvents: seq<OrderEvent>)

  /**
   * The outcome of `OnSnapshot` once the instrument is known: its book (the
   * existing one cleared, or a new one) receives one row per entry in order and
   * a quote tick of its best levels is emitted. On the first entry that throws,
   * the exception propagates with the earlier rows written and no tick.
   */
  ghost predicate SnapshotApplied(bestOf: seq<RowCall> -> Quote, books0: map<Symbol, seq<RowCall>>,
                                  ticks0: seq<Tick>, symbol: Symbol, entries: seq<seq<Scalar>>,
                                  r: Outcome, books: map<Symbol, seq<RowCall>>, ticks: seq<Tick>)
  {
    var start := SnapshotStart(books0, symbol);
    var rows := MapAll(SnapshotRow, entries);
    && symbol in books
    && books == books0[symbol := books[symbol]]
    && (rows.Ok? ==>
          && r == Pass
          && books[symbol] == start + rows.value
          && ticks == ticks0 + [QuoteTickOf(symbol, bestOf(start + rows.value))])
    && (rows.Err? ==>
          && r == Fail(rows.error)
          && ticks == ticks0
          && exists k :: 0 <= k < |entries| && MapAll(SnapshotRow, entries[..k]).Ok?
               && books[symbol] == start + MapAll(SnapshotRow, entries[..k]).value)
  }

  /**
   * Each route changes only its own part of the handler state: subscriptions the
   * channels, book data the books (and a snapshot the ticks), order updates the
   * order cache, the pending closes and the order events; an ignored message
   * changes nothing.
   */
  ghost predicate Routed(route: Route, before: HandlerState, after: HandlerState)
  {
    && (!(route.SubscribeRoute? || route.UnsubscribeRoute?) ==> after.channels == before.channels)
    && (!(route.SnapshotRoute? || route.UpdateRoute?) ==> after.orderBooks == before.orderBooks)
    && (!route.SnapshotRoute? ==> after.ticks == before.ticks)
    && (!(route.OrderCloseRoute? || route.FillRoute?) ==>
          && after.cachedOrders == before.cachedOrders
          && after.pendingClose == before.pendingClose
          && after.orderEvents == before.orderEvents)
  }

  /**
   * What `SubmitOrder` computes before it sends anything: the symbol, side, type
   * and price of the payload, and the first brokerage id when the order has one.
   * The first of these that throws is the failure.
   */
  function PayloadFailure(brokerageSymbol: Symbol -> Result<string>, parsesAsLong: string -> bool,
                          accountType: AccountType, order: Order): (failure: Option<Exception>)
    ensures failure.None? <==>
      && brokerageSymbol(order.symbol).Ok?
      && order.Direction() != Hold
      && order.orderType in {Limit, Market, StopMarket}
      && (|order.brokerId| > 0 ==> parsesAsLong(order.brokerId[0]))
  {
    if brokerageSymbol(order.symbol).Err? then Some(brokerageSymbol(order.symbol).error)
    else if Utility.ConvertOrderDirection(order.Direction()).Err? then Some(NotSupportedException)
    else if Utility.ConvertOrderType(accountType, order.orderType).Err? then Some(NotSupportedException)
    else if Utility.GetOrderPrice(order).Err? then Some(NotSupportedException)
    else if |order.brokerId| > 0 && !parsesAsLong(order.brokerId[0]) then Some(FormatException)
    else Option.None
  }

  /** `HttpStatusCode.OK`. */
  const StatusOk: int := 200

  class BitfinexBrokerage {
    /** `GetOrderByBrokerageId` of the algorithm's transactions, which the model does not hold. */
    const ledger: string -> Option<Order>
    /** The best bid and ask the base order book derives from its row calls. */
    const bestOf: seq<RowCall> -> Quote
    /** The Bitfinex symbol mapper's conversions; the mapper is not part of this model. */
    const leanSymbol: string -> Result<Symbol>
    const brokerageSymbol: Symbol -> Result<string>
    /** The fee the fee model of the order's security charges for the order. */
    const orderFee: Order -> real
    /** Whether `long.Parse` reads a text. */
    const parsesAsLong: string -> bool
    /** The account type of the algorithm's brokerage model. */
    const accountType: AccountType

    var streamLocked: bool
    var messageBuffer: seq<WebSocketMessage>
    /** Every message the socket delivered, in order. */
    ghost var arrivals: seq<WebSocketMessage>
    /** Every message handed to the handler, in order. */
    ghost var dispatched: seq<WebSocketMessage>

    var channels: map<string, Channel>
    var orderBooks: map<Symbol, seq<RowCall>>
    var ticks: seq<Tick>
    var cachedOrders: map<int, Order>
    var pendingClose: seq<string>
    var orderEvents: seq<OrderEvent>
    var messages: seq<BrokerageMessage>

    /**
     * Messages reach the handler exactly in the order they arrived, and only a
     * locked stream holds messages back; every channel is registered under its
     * own name.
     */
    ghost predicate Valid()
      reads this
    {
      && arrivals == dispatched + messageBuffer
      && (!streamLocked ==> messageBuffer == [])
      && ChannelsValid()
    }

    ghost predicate ChannelsValid()
      reads this
    {
      forall id :: id in channels ==> channels[id].name == id
    }

    ghost function State(): HandlerState
      reads this
    {
      HandlerState(channels, orderBooks, ticks, cachedOrders, pendingClose, orderEvents)
    }

    constructor (ledger: string -> Option<Order>, bestOf: seq<RowCall> -> Quote,
                 leanSymbol: string -> Result<Symbol>, brokerageSymbol: Symbol -> Result<string>,
                 orderFee: Order -> real, parsesAsLong: string -> bool, accountType: AccountType)
      ensures Valid() && !streamLocked && dispatched == [] && messages == []
      ensures State() == HandlerState(map[], map[], [], map[], [], [])
    {
      this.ledger := ledger;
      this.bestOf := bestOf;
      this.leanSymbol := leanSymbol;
      this.brokerageSymbol := brokerageSymbol;
      this.orderFee := orderFee;
      this.parsesAsLong := parsesAsLong;
      this.accountType := accountType;
      streamLocked := false;
      messageBuffer := [];
      arrivals := [];
      dispatched := [];
      channels := map[];
      orderBooks := map[];
      ticks := [];
      cachedOrders := map[];
      pendingClose := [];
      orderEvents := [];
      messages := [];
    }

    /**
     * `OnMessage`: while the stream is locked the message is queued; otherwise it
     * is handled at once.
     */
    method OnMessage(e: WebSocketMessage) returns (r: Outcome)
      requires Valid()
      modifies this`messageBuffer, this`arrivals, this`dispatched, this`channels, this`orderBooks,
               this`ticks, this`cachedOrders, this`pendingClose, this`orderEvents, this`messages
      ensures Valid()
      ensures arrivals == old(arrivals) + [e]
      ensures old(streamLocked) ==>
        && r == Pass
        && messageBuffer == old(messageBuffer) + [e]
        && dispatched == old(dispatched)
        && State() == old(State()) && messages == old(messages)
      ensures !old(streamLocked) ==> messageBuffer == [] && dispatched == old(dispatched) + [e]
    {
      arrivals := arrivals + [e];
      if streamLocked {
        messageBuffer := messageBuffer + [e];
        return Pass;
      }
      r := OnMessageImpl(e);
    }

    /**
     * `OnMessageImpl`: parses and routes the message and hands it to its handler;
     * a throw raises an error message and is rethrown.
     */
    method OnMessageImpl(e: WebSocketMessage) returns (r: Outcome)
      modifies this`dispatched, this`channels, this`orderBooks, this`ticks, this`cachedOrders,
               this`pendingClose, this`orderEvents, this`messages
      ensures dispatched == old(dispatched) + [e]
      ensures old(ChannelsValid()) ==> ChannelsValid()
      ensures r.Pass? ==> messages == old(messages)
      ensures r.Fail? ==> messages == old(messages) + [ParsingFailed(e, r.error)]
      ensures e.token.Err? ==> r == Fail(e.token.error) && State() == old(State())
      ensures e.token.Ok? && RouteOf(e.token.value).Err? ==>
        r == Fail(RouteOf(e.token.value).error) && State() == old(State())
      ensures e.token.Ok? && RouteOf(e.token.value) == Ok(Ignored) ==> r == Pass && State() == old(State())
      ensures e.token.Ok? && RouteOf(e.token.value).Ok? ==> Routed(RouteOf(e.token.value).value, old(State()), State())
    {
      dispatched := dispatched + [e];
      if e.token.Err? {
        r := Fail(e.token.error);
      } else {
        var route := RouteOf(e.token.value);
        if route.Err? {
          r := Fail(route.error);
        } else {
          r := Dispatch(route.value);
        }
      }
      if r.Fail? {
        messages := messages + [ParsingFailed(e, r.error)];
      }
    }

    /** The handler each route names. */
    method Dispatch(route: Route) returns (r: Outcome)
      modifies this`channels, this`orderBooks, this`ticks, this`cachedOrders, this`pendingClose, this`orderEvents
      ensures old(ChannelsValid()) ==> ChannelsValid()
      ensures Routed(route, old(State()), State())
      ensures route.Ignored? ==> r == Pass && State() == old(State())
    {
      match route
      case SnapshotRoute(channelId, table) =>
        r := OnSnapshot(channelId, table);
      case UpdateRoute(channelId, entries) =>
        r := OnUpdate(channelId, entries);
      case OrderCloseRoute(entries) =>
        ghost var order;
        r, order := OnOrderClose(entries);
      case FillRoute(entries) =>
        ghost var order;
        r, order := EmitFillOrder(entries);
      case SubscribeRoute(channelId, symbol) =>
        OnSubscribe(channelId, symbol);
        r := Pass;
      case UnsubscribeRoute(channelId) =>
        OnUnsubscribe(channelId);
        r := Pass;
      case Ignored =>
        r := Pass;
    }

    /** `LockStream`: from now on arriving messages are queued. */
    method LockStream()
      requires Valid()
      modifies this`streamLocked
      ensures Valid() && streamLocked
    {
      streamLocked := true;
    }

    /**
     * `UnlockStream`: handles the queued messages in arrival order, then unlocks.
     * A handler that throws stops the drain: the rest stays queued and the stream
     * stays locked.
     */
    method UnlockStream() returns (r: Outcome)
      requires Valid()
      modifies this`streamLocked, this`messageBuffer, this`dispatched, this`channels, this`orderBooks,
               this`ticks, this`cachedOrders, this`pendingClose, this`orderEvents, this`messages
      ensures Valid()
      ensures dispatched + messageBuffer == old(dispatched) + old(messageBuffer)
      ensures r.Pass? ==> !streamLocked && messageBuffer == [] && dispatched == old(dispatched) + old(messageBuffer)
      ensures r.Fail? ==> old(streamLocked) && streamLocked && |messageBuffer| < |old(messageBuffer)|
      ensures old(messageBuffer) == [] ==> r == Pass && State() == old(State()) && messages == old(messages)
    {
      while messageBuffer != []
        invariant dispatched + messageBuffer == old(dispatched) + old(messageBuffer)
        invariant streamLocked == old(streamLocked) && Valid()
        invariant old(messageBuffer) == [] ==> State() == old(State()) && messages == old(messages)
        decreases |messageBuffer|
      {
        var e := messageBuffer[0];
        assert messageBuffer == [e] + messageBuffer[1..];
        messageBuffer := messageBuffer[1..];
        r := OnMessageImpl(e);
        if r.Fail? {
          return;
        }
      }
      streamLocked := false;
      r := Pass;
    }

    /** `OnSubscribe`: (re)registers the channel under its id with the confirmed instrument. */
    method OnSubscribe(channelId: string, symbol: string)
      modifies this`channels
      ensures channels == old(channels)[channelId := Channel(channelId, symbol)]
      ensures old(ChannelsValid()) ==> ChannelsValid()
    {
      channels := channels[channelId := Channel(channelId, symbol)];
    }

    /** `OnUnsubscribe`: forgets the channel, if it is registered. */
    method OnUnsubscribe(channelId: string)
      modifies this`channels
      ensures channels == old(channels) - {channelId}
      ensures old(ChannelsValid()) ==> ChannelsValid()
    {
      channels := channels - {channelId};
    }

    /**
     * `OnSnapshot`: an unknown channel throws looking it up, an instrument the
     * mapper refuses throws mapping it; otherwise see `SnapshotApplied`.
     */
    method OnSnapshot(channelId: string, entries: seq<seq<Scalar>>) returns (r: Outcome)
      modifies this`orderBooks, this`ticks
      ensures channelId !in channels ==>
        r == Fail(KeyNotFoundException) && orderBooks == old(orderBooks) && ticks == old(ticks)
      ensures channelId in channels && leanSymbol(channels[channelId].symbol).Err? ==>
        r == Fail(leanSymbol(channels[channelId].symbol).error) && orderBooks == old(orderBooks) && ticks == old(ticks)
      ensures channelId in channels && leanSymbol(channels[channelId].symbol).Ok? ==>
        SnapshotApplied(bestOf, old(orderBooks), old(ticks), leanSymbol(channels[channelId].symbol).value,
                        entries, r, orderBooks, ticks)
    {
      if channelId !in channels {
        return Fail(KeyNotFoundException);
      }
      var mapped := leanSymbol(channels[channelId].symbol);
      if mapped.Err? {
        return Fail(mapped.error);
      }
      var symbol := mapped.value;
      var start: seq<RowCall> := [];
      if symbol in orderBooks {
        start := orderBooks[symbol] + [ClearRows];
      }
      assert start == SnapshotStart(old(orderBooks), symbol);
      orderBooks := orderBooks[symbol := start];
      assert entries[..0] == [] && start + [] == start;
      var i := 0;
      while i < |entries|
        invariant 0 <= i <= |entries|
        invariant MapAll(SnapshotRow, entries[..i]).Ok?
        invariant orderBooks == old(orderBooks)[symbol := start + MapAll(SnapshotRow, entries[..i]).value]
        invariant ticks == old(ticks)
      {
        MapAllStep(SnapshotRow, entries, i);
        var row := SnapshotRow(entries[i]);
        if row.Err? {
          MapAllPrefixFails(SnapshotRow, entries, i + 1);
          return Fail(row.error);
        }
        ghost var before := MapAll(SnapshotRow, entries[..i]).value;
        assert start + before + [row.value] == start + (before + [row.value]);
        orderBooks := orderBooks[symbol := orderBooks[symbol] + [row.value]];
        i := i + 1;
      }
      assert entries[..i] == entries;
      EmitQuoteTick(symbol, bestOf(orderBooks[symbol]));
      r := Pass;
    }

    /**
     * `OnUpdate`: an unknown channel, an instrument the mapper refuses or one with
     * no book throws; otherwise the update's rows (see `UpdateRows`) are written
     * to its book.
     */
    method OnUpdate(channelId: string, entries: seq<Scalar>) returns (r: Outcome)
      modifies this`orderBooks
      ensures channelId !in channels ==> r == Fail(KeyNotFoundException) && orderBooks == old(orderBooks)
      ensures channelId in channels && leanSymbol(channels[channelId].symbol).Err? ==>
        r == Fail(leanSymbol(channels[channelId].symbol).error) && orderBooks == old(orderBooks)
      ensures channelId in channels && leanSymbol(channels[channelId].symbol).Ok? ==>
        var symbol := leanSymbol(channels[channelId].symbol).value;
        && (symbol !in old(orderBooks) ==> r == Fail(KeyNotFoundException) && orderBooks == old(orderBooks))
        && (symbol in old(orderBooks) && UpdateRows(entries).Err? ==>
              r == Fail(UpdateRows(entries).error) && orderBooks == old(orderBooks))
        && (symbol in old(orderBooks) && UpdateRows(entries).Ok? ==>
              r == Pass && orderBooks == old(orderBooks)[symbol := old(orderBooks)[symbol] + UpdateRows(entries).value])
    {
      if channelId !in channels {
        return Fail(KeyNotFoundException);
      }
      var mapped := leanSymbol(channels[channelId].symbol);
      if mapped.Err? {
        return Fail(mapped.error);
      }
      var symbol := mapped.value;
      if symbol !in orderBooks {
        return Fail(KeyNotFoundException);
      }
      var rows := UpdateRows(entries);
      if rows.Err? {
        return Fail(rows.error);
      }
      orderBooks := orderBooks[symbol := orderBooks[symbol] + rows.value];
      r := Pass;
    }

    /**
     * `OnOrderClose` for [brokerId, .., .., .., .., status]: a cancellation of an
     * order of ours that is still cached drops it from the cache and raises a
     * canceled event, and is otherwise ignored; any other close is recorded as
     * pending until its fill arrives.
     */
    method OnOrderClose(entries: seq<Scalar>) returns (r: Outcome, ghost order: Option<Order>)
      modifies this`cachedOrders, this`orderEvents, this`pendingClose
      ensures |entries| < 6 ==>
        && r == Fail(IndexOutOfRangeException)
        && cachedOrders == old(cachedOrders) && orderEvents == old(orderEvents) && pendingClose == old(pendingClose)
      ensures |entries| >= 6 && !ContainsIgnoreCase(entries[5].text, CanceledStatus) ==>
        && r == Pass
        && pendingClose == old(pendingClose) + [entries[0].text]
        && cachedOrders == old(cachedOrders) && orderEvents == old(orderEvents)
      ensures |entries| >= 6 && ContainsIgnoreCase(entries[5].text, CanceledStatus) ==>
        && r == Pass && pendingClose == old(pendingClose)
        && FoundBy(old(cachedOrders), ledger, entries[0].text, order)
        && (order.Some? && order.value.id in old(cachedOrders) ==>
              && cachedOrders == old(cachedOrders) - {order.value.id}
              && orderEvents == old(orderEvents) + [StatusEvent(order.value, Canceled)])
        && (!(order.Some? && order.value.id in old(cachedOrders)) ==>
              cachedOrders == old(cachedOrders) && orderEvents == old(orderEvents))
    {
      order := Option.None;
      if |entries| < 6 {
        return Fail(IndexOutOfRangeException), order;
      }
      var brokerId := entries[0].text;
      if ContainsIgnoreCase(entries[5].text, CanceledStatus) {
        order := CancelOrder(brokerId);
      } else {
        pendingClose := pendingClose + [brokerId];
      }
      r := Pass;
    }

    /**
     * The cancellation branch of `OnOrderClose`: an order of ours that is still
     * cached leaves the cache with a canceled event; anything else is ignored.
     */
    method CancelOrder(brokerId: string) returns (ghost order: Option<Order>)
      modifies this`cachedOrders, this`orderEvents
      ensures FoundBy(old(cachedOrders), ledger, brokerId, order)
      ensures order.Some? && order.value.id in old(cachedOrders) ==>
        && cachedOrders == old(cachedOrders) - {order.value.id}
        && orderEvents == old(orderEvents) + [StatusEvent(order.value, Canceled)]
      ensures !(order.Some? && order.value.id in old(cachedOrders)) ==>
        cachedOrders == old(cachedOrders) && orderEvents == old(orderEvents)
    {
      var found := FindOrder(brokerId);
      order := found;
      if found.Some? && found.value.id in cachedOrders {
        cachedOrders := cachedOrders - {found.value.id};
        orderEvents := orderEvents + [StatusEvent(found.value, Canceled)];
      }
    }

    /**
     * `EmitFillOrder` for [.., .., symbol, time, brokerId, quantity, price]: a fill
     * of an order that is not ours is ignored; otherwise one fill event is raised
     * (see `FillEvent`), and a pending close of the brokerage id is settled: the
     * id leaves the pending list and the order leaves the cache.
     */
    method EmitFillOrder(entries: seq<Scalar>) returns (r: Outcome, ghost order: Option<Order>)
      modifies this`cachedOrders, this`orderEvents, this`pendingClose
      ensures |entries| < 5 ==>
        && r == Fail(IndexOutOfRangeException)
        && cachedOrders == old(cachedOrders) && orderEvents == old(orderEvents) && pendingClose == old(pendingClose)
      ensures |entries| >= 5 ==> FoundBy(old(cachedOrders), ledger, entries[4].text, order)
      ensures |entries| >= 5 && order.None? ==>
        && r == Pass
        && cachedOrders == old(cachedOrders) && orderEvents == old(orderEvents) && pendingClose == old(pendingClose)
      ensures |entries| >= 5 && order.Some? ==>
        var brokerId := entries[4].text;
        var event := FillEvent(order.value, leanSymbol(entries[2].text), entries, orderFee(order.value));
        && (event.Err? ==>
              && r == Fail(event.error)
              && cachedOrders == old(cachedOrders) && orderEvents == old(orderEvents) && pendingClose == old(pendingClose))
        && (event.Ok? ==>
              && r == Pass
              && orderEvents == old(orderEvents) + [event.value]
              && pendingClose == RemoveFirst(old(pendingClose), brokerId)
              && cachedOrders == if brokerId in old(pendingClose) then old(cachedOrders) - {order.value.id} else old(cachedOrders))
    {
      order := Option.None;
      if |entries| < 5 {
        return Fail(IndexOutOfRangeException), order;
      }
      var brokerId := entries[4].text;
      var found := FindOrder(brokerId);
      order := found;
      if found.None? {
        return Pass, order;
      }
      var event := FillEvent(found.value, leanSymbol(entries[2].text), entries, orderFee(found.value));
      if event.Err? {
        return Fail(event.error), order;
      }
      if brokerId in pendingClose {
        pendingClose := RemoveFirst(pendingClose, brokerId);
        cachedOrders := cachedOrders - {found.value.id};
      }
      orderEvents := orderEvents + [event.value];
      r := Pass;
    }

    /** `EmitQuoteTick`: adds the quote tick of a book's best levels. */
    method EmitQuoteTick(symbol: Symbol, quote: Quote)
      modifies this`ticks
      ensures ticks == old(ticks) + [QuoteTickOf(symbol, quote)]
    {
      ticks := ticks + [QuoteTickOf(symbol, quote)];
    }

    /**
     * The lookup both order handlers make: a cached order carrying the brokerage
     * id, else the ledger's.
     */
    method FindOrder(brokerId: string) returns (order: Option<Order>)
      ensures FoundBy(cachedOrders, ledger, brokerId, order)
    {
      if exists id :: id in cachedOrders && brokerId in cachedOrders[id].brokerId {
        var id :| id in cachedOrders && brokerId in cachedOrders[id].brokerId;
        return Some(cachedOrders[id]);
      }
      return ledger(brokerId);
    }

    /**
     * What `SubmitOrder` records once the request is answered: with status OK
     * and an id, the id is recorded (see `RecordBrokerId`) and a submitted event
     * raised; with OK and no id, or any other status, an invalid event and a
     * warning are raised.
     */
    method RecordReply(order: Order, status: int, replyId: Option<string>)
      modifies this`cachedOrders, this`orderEvents, this`messages
      ensures status == StatusOk && replyId.Some? && replyId.value != "" ==>
        && cachedOrders == RecordBrokerId(old(cachedOrders), order, replyId.value)
        && orderEvents == old(orderEvents) + [StatusEvent(order, Submitted)]
        && messages == old(messages)
      ensures !(status == StatusOk && replyId.Some? && replyId.value != "") ==>
        && cachedOrders == old(cachedOrders)
        && orderEvents == old(orderEvents) + [StatusEvent(order, Invalid)]
        && messages == old(messages) + [OrderWarning(order.id, if status == StatusOk then StatusOk else -1)]
    {
      if status == StatusOk {
        if replyId.None? || replyId.value == "" {
          orderEvents := orderEvents + [StatusEvent(order, Invalid)];
          messages := messages + [OrderWarning(order.id, StatusOk)];
          return;
        }
        var brokerId := replyId.value;
        if order.id in cachedOrders {
          cachedOrders := cachedOrders[order.id := cachedOrders[order.id].(brokerId := [brokerId])];
        } else {
          cachedOrders := cachedOrders[order.id := order.(brokerId := order.brokerId + [brokerId])];
        }
        orderEvents := orderEvents + [StatusEvent(order, Submitted)];
        return;
      }
      orderEvents := orderEvents + [StatusEvent(order, Invalid)];
      messages := messages + [OrderWarning(order.id, -1)];
    }

    /**
     * The request `SubmitOrder` sends once the payload is built: the 429 retry
     * (the server's status codes are `responses`), then the reply recorded by
     * `RecordReply` against the status of the last attempt.
     */
    method PlaceOrder(order: Order, responses: nat -> int, replyId: Option<string>)
      modifies this`cachedOrders, this`orderEvents, this`messages
      ensures var status := responses(Rest.AttemptsNeeded(responses) - 1);
        var accepted := status == StatusOk && replyId.Some? && replyId.value != "";
        && cachedOrders == (if accepted then RecordBrokerId(old(cachedOrders), order, replyId.value) else old(cachedOrders))
        && orderEvents == old(orderEvents) + [StatusEvent(order, if accepted then Submitted else Invalid)]
        && messages == old(messages) + (if accepted then []
                                         else [OrderWarning(order.id, if status == StatusOk then StatusOk else -1)])
    {
      var status, attempts := Utility.ExecuteRestRequest(responses);
      RecordReply(order, status, replyId);
    }

    /**
     * `SubmitOrder`: locks the stream, builds the payload, sends the request with
     * the 429 retry (the server's status codes are `responses`, `replyId` the id
     * its last answer carries), records the reply and unlocks the stream, which
     * handles the messages that arrived meanwhile; every return path answers
     * true. A payload conversion that throws leaves the stream locked, and so
     * does a queued message whose handler throws.
     */
    method SubmitOrder(order: Order, responses: nat -> int, replyId: Option<string>) returns (r: Result<bool>)
      requires Valid()
      modifies this`streamLocked, this`messageBuffer, this`dispatched, this`channels, this`orderBooks,
               this`ticks, this`cachedOrders, this`pendingClose, this`orderEvents, this`messages
      ensures Valid()
      ensures r.Ok? ==> r.value && !streamLocked && messageBuffer == [] && dispatched == old(dispatched) + old(messageBuffer)
      ensures r.Err? ==> streamLocked
      ensures var failure := PayloadFailure(brokerageSymbol, parsesAsLong, accountType, order);
        && (failure.Some? ==>
              && r == Err(failure.value)
              && messageBuffer == old(messageBuffer) && dispatched == old(dispatched)
              && State() == old(State()) && messages == old(messages))
        && (failure.None? && old(messageBuffer) == [] ==>
              var status := responses(Rest.AttemptsNeeded(responses) - 1);
              var accepted := status == StatusOk && replyId.Some? && replyId.value != "";
              && r == Ok(true)
              && cachedOrders == (if accepted then RecordBrokerId(old(cachedOrders), order, replyId.value) else old(cachedOrders))
              && orderEvents == old(orderEvents) + [StatusEvent(order, if accepted then Submitted else Invalid)]
              && messages == old(messages) + (if accepted then []
                                               else [OrderWarning(order.id, if status == StatusOk then StatusOk else -1)])
              && channels == old(channels) && orderBooks == old(orderBooks)
              && ticks == old(ticks) && pendingClose == old(pendingClose))
    {
      LockStream();
      var failure := PayloadFailure(brokerageSymbol, parsesAsLong, accountType, order);
      if failure.Some? {
        return Err(failure.value);
      }
      PlaceOrder(order, responses, replyId);
      var unlocked := UnlockStream();
      if unlocked.Fail? {
        return Err(unlocked.error);
      }
      r := Ok(true);
    }
  }
}
