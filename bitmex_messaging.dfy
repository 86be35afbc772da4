/**
 * The BitMEX brokerage's stream side (`BitmexBrokerage.Messaging.cs`): the
 * socket message handler with its lock-and-buffer protocol, the subscription
 * registry, the level-2 books, the tick list, and the execution handlers that
 * raise order events and book funding.
 */
module BitmexMessaging {
  import opened Wrappers
  import opened Orders
  import opened Text
  import opened OrderBookRows
  import M = BitmexMessages
  import Mapper = BitmexSymbolMapper
  import Utility = BitmexUtility
  import opened BitmexOrderBooks
  import opened BitmexStream
  import opened Websockets
  import opened Sequences

  /** The error event raised when handling a socket message throws. */
  datatype BrokerageMessage = ParsingFailed(message: M.JObject, error: Exception)

  /** Everything the handlers change, as one value. */
  datatype HandlerState = HandlerState(
    channels: map<string, Channel>,
    orderBooks: map<Symbol, BookValue>,
    ticks: seq<Tick>,
    cachedOrders: map<int, Order>,
    orderEvents: seq<OrderEvent>,
    cashBook: map<string, real>)

  /**
   * The outcome of `ProcessSnapshot`: an empty snapshot throws taking its first
   * entry, an unknown instrument throws mapping it; otherwise the instrument's
   * book (cleared, or new) holds exactly the snapshot and one quote tick of its
   * best levels is emitted.
   */
  ghost predicate SnapshotApplied(bestOf: seq<RowCall> -> Quote,
                                  books0: map<Symbol, BookValue>, ticks0: seq<Tick>,
                                  entries: seq<M.OrderBookEntry>, r: Outcome,
                                  books: map<Symbol, BookValue>, ticks: seq<Tick>)
  {
    if |entries| == 0 then r == Fail(InvalidOperationException) && books == books0 && ticks == ticks0
    else if Mapper.GetLeanSymbolDefault(entries[0].symbol).Err? then
      r == Fail(ArgumentException) && books == books0 && ticks == ticks0
    else
      var symbol := Mapper.GetLeanSymbolDefault(entries[0].symbol).value;
      var book := SnapshotBook(SnapshotStart(books0, symbol), entries);
      && r == Pass
      && books == books0[symbol := book]
      && ticks == ticks0 + [QuoteTickOf(symbol, bestOf(book.rows))]
  }

  /**
   * The outcome of `ProcessUpdate`: the entries applied in order; on the first
   * failing entry the exception propagates and the earlier entries stay applied.
   */
  ghost predicate UpdateApplied(books0: map<Symbol, BookValue>, action: string, entries: seq<M.OrderBookEntry>,
                                r: Outcome, books: map<Symbol, BookValue>)
  {
    var all := UpdateAll(books0, action, entries);
    && (r.Pass? <==> all.Ok?)
    && (all.Ok? ==> books == all.value)
    && (all.Err? ==>
          && r.Fail? && r.error == all.error
          && exists k :: 0 <= k < |entries| && UpdateAll(books0, action, entries[..k]) == Ok(books))
  }

  /** The `orderBookL2` action that carries a full snapshot of a book. */
  const PartialAction: string := "partial"

  /**
   * The steps `ProcessUpdate` takes on the book of one entry, on the book's
   * value: see `UpdateBook`.
   */
  method UpdateLevel(book: BookValue, action: string, entry: M.OrderBookEntry) returns (r: Result<BookValue>)
    ensures r == UpdateBook(book, action, entry)
  {
    var current := book;
    if action == "delete" {
      return current.RemovePriceLevel(entry.id);
    }
    if action == "insert" {
      current := current.AddPriceLevel(entry.id, entry.side, entry.price);
    }
    var level := current.GetPriceLevel(entry.id);
    if level.Err? {
      return Err(level.error);
    }
    var priceLevel := level.value;
    if entry.side != priceLevel.side {
      current := current.RemovePriceLevel(entry.id).value;
      current := current.AddPriceLevel(entry.id, entry.side, priceLevel.price);
    }
    if entry.side == Buy {
      current := current.UpdateBidRow(priceLevel.price, entry.size);
    } else if entry.side == Sell {
      current := current.UpdateAskRow(priceLevel.price, entry.size);
    }
    r := Ok(current);
  }

  class BitmexBrokerage {
    /** `GetOrderByBrokerageId` of the algorithm's transactions, which the model does not hold. */
    const ledger: string -> Option<Order>
    /** The best bid and ask the base order book derives from its row calls. */
    const bestOf: seq<RowCall> -> Quote

    var streamLocked: bool
    var messageBuffer: seq<M.JObject>
    /** Every message the socket delivered, in order. */
    ghost var arrivals: seq<M.JObject>
    /** Every message handed to the handler, in order. */
    ghost var dispatched: seq<M.JObject>

    var channels: map<string, Channel>
    var orderBooks: map<Symbol, BookValue>
    var ticks: seq<Tick>
    var cachedOrders: map<int, Order>
    var orderEvents: seq<OrderEvent>
    var cashBook: map<string, real>
    var errors: seq<BrokerageMessage>
    /** The handler each execution entry was given to, in order: each handler logs itself on entry. */
    ghost var executionRoutes: seq<ExecutionRoute>

    /**
     * Messages reach the handler exactly in the order they arrived, and only a
     * locked stream holds messages back; every registered channel is the one its
     * key names.
     */
    ghost predicate Valid()
      reads this
    {
      && arrivals == dispatched + messageBuffer
      && (!streamLocked ==> messageBuffer == [])
      && ChannelsValid()
    }

    ghost predicate ChannelsValid()
      reads this
    {
      forall key :: key in channels ==> ParseChannel(key) == Ok(channels[key])
    }

    ghost function State(): HandlerState
      reads this
    {
      HandlerState(channels, orderBooks, ticks, cachedOrders, orderEvents, cashBook)
    }

    constructor (ledger: string -> Option<Order>, bestOf: seq<RowCall> -> Quote, cashBook: map<string, real>)
      ensures Valid() && !streamLocked && dispatched == [] && errors == []
      ensures State() == HandlerState(map[], map[], [], map[], [], cashBook)
    {
      this.ledger := ledger;
      this.bestOf := bestOf;
      streamLocked := false;
      messageBuffer := [];
      arrivals := [];
      dispatched := [];
      channels := map[];
      orderBooks := map[];
      ticks := [];
      cachedOrders := map[];
      orderEvents := [];
      this.cashBook := cashBook;
      errors := [];
      executionRoutes := [];
    }

    /**
     * `OnMessage`: while the stream is locked the message is queued; otherwise it
     * is handled at once.
     */
    method OnMessage(e: M.JObject) returns (r: Outcome)
      requires Valid()
      modifies this`messageBuffer, this`arrivals, this`dispatched, this`channels, this`orderBooks,
               this`ticks, this`cachedOrders, this`orderEvents, this`cashBook, this`errors, this`executionRoutes
      ensures Valid()
      ensures arrivals == old(arrivals) + [e]
      ensures old(streamLocked) ==>
        && r == Pass
        && messageBuffer == old(messageBuffer) + [e]
        && dispatched == old(dispatched)
        && State() == old(State()) && errors == old(errors)
      ensures !old(streamLocked) ==> messageBuffer == [] && dispatched == old(dispatched) + [e]
    {
      arrivals := arrivals + [e];
      if streamLocked {
        messageBuffer := messageBuffer + [e];
        return Pass;
      }
      r := OnMessageImpl(e);
    }

    /**
     * `OnMessageImpl`: classifies the message and hands it to its handler; a
     * throw raises an error event and is rethrown.
     */
    method OnMessageImpl(e: M.JObject) returns (r: Outcome)
      modifies this`dispatched, this`channels, this`orderBooks, this`ticks, this`cachedOrders,
               this`orderEvents, this`cashBook, this`errors, this`executionRoutes
      ensures dispatched == old(dispatched) + [e]
      ensures old(ChannelsValid()) ==> ChannelsValid()
      ensures r.Pass? ==> errors == old(errors)
      ensures r.Fail? ==> errors == old(errors) + [ParsingFailed(e, r.error)]
      ensures M.Parse(e).Err? ==> r == Fail(InvalidCastException) && State() == old(State())
      ensures M.Parse(e) == Ok(Option.None) ==> r == Pass && State() == old(State())
      ensures M.Parse(e).Ok? && M.Parse(e).value.Some? ==> Routed(M.Parse(e).value.value, old(State()), State())
    {
      dispatched := dispatched + [e];
      var parsed := M.Parse(e);
      if parsed.Err? {
        r := Fail(parsed.error);
      } else if parsed.value.None? {
        r := Pass;
      } else {
        r := Dispatch(parsed.value.value);
      }
      if r.Fail? {
        errors := errors + [ParsingFailed(e, r.error)];
      }
    }

    /**
     * Each kind of message changes only its own part of the handler state:
     * subscriptions the channels, book data the books and ticks, trades the ticks,
     * executions the order cache, the order events and the cash.
     */
    ghost predicate Routed(message: M.BaseMessage, before: HandlerState, after: HandlerState)
    {
      && (!(message.SubscribeMessage? || message.UnsubscribeMessage?) ==> after.channels == before.channels)
      && (!message.OrderBookData? ==> after.orderBooks == before.orderBooks)
      && (!(message.OrderBookData? || message.TradeData?) ==> after.ticks == before.ticks)
      && (!message.ExecutionData? ==>
            && after.cachedOrders == before.cachedOrders
            && after.orderEvents == before.orderEvents
            && after.cashBook == before.cashBook)
    }

    /**
     * The `switch` on the message type: the handler for each kind. Subscription
     * replies are handled here, table messages by `DispatchTable`.
     */
    method Dispatch(message: M.BaseMessage) returns (r: Outcome)
      modifies this`channels, this`orderBooks, this`ticks, this`cachedOrders,
               this`orderEvents, this`cashBook, this`executionRoutes
      ensures old(ChannelsValid()) ==> ChannelsValid()
      ensures Routed(message, old(State()), State())
    {
      match message
      case SubscribeMessage(_) =>
        r := OnSubscribe(message);
      case UnsubscribeMessage(_) =>
        r := OnUnsubscribe(message);
      case BaseMessage(_) =>
        r := Pass;
      case _ =>
        r := DispatchTable(message);
    }

    /** The table cases of the `switch`: order book, trade and execution data. */
    method DispatchTable(message: M.BaseMessage) returns (r: Outcome)
      requires message.OrderBookData? || message.TradeData? || message.ExecutionData?
      modifies this`orderBooks, this`ticks, this`cachedOrders,
               this`orderEvents, this`cashBook, this`executionRoutes
      ensures Routed(message, old(State()), State())
    {
      match message
      case OrderBookData(_) =>
        r := OnOrderbook(message);
      case TradeData(_) =>
        r := OnTrade(message);
      case ExecutionData(_) =>
        r := OnExecution(message);
    }

    /** `LockStream`: from now on arriving messages are queued. */
    method LockStream()
      requires Valid()
      modifies this`streamLocked
      ensures Valid() && streamLocked
    {
      streamLocked := true;
    }

    /**
     * `UnlockStream`: handles the queued messages in arrival order, then unlocks.
     * A handler that throws stops the drain: the rest stays queued and the stream
     * stays locked.
     */
    method UnlockStream() returns (r: Outcome)
      requires Valid()
      modifies this`streamLocked, this`messageBuffer, this`dispatched, this`channels, this`orderBooks,
               this`ticks, this`cachedOrders, this`orderEvents, this`cashBook, this`errors, this`executionRoutes
      ensures Valid()
      ensures dispatched + messageBuffer == old(dispatched) + old(messageBuffer)
      ensures r.Pass? ==> !streamLocked && messageBuffer == [] && dispatched == old(dispatched) + old(messageBuffer)
      ensures r.Fail? ==> old(streamLocked) && streamLocked && |messageBuffer| < |old(messageBuffer)|
    {
      while messageBuffer != []
        invariant dispatched + messageBuffer == old(dispatched) + old(messageBuffer)
        invariant streamLocked == old(streamLocked) && Valid()
        decreases |messageBuffer|
      {
        var e := messageBuffer[0];
        assert messageBuffer == [e] + messageBuffer[1..];
        messageBuffer := messageBuffer[1..];
        r := OnMessageImpl(e);
        if r.Fail? {
          return;
        }
      }
      streamLocked := false;
      r := Pass;
    }

    /**
     * `OnSubscribe`: registers the confirmed channel under its key unless the key
     * is registered already. A null channel throws splitting it; a key without a
     * ':' throws indexing the split.
     */
    method OnSubscribe(message: M.BaseMessage) returns (r: Outcome)
      requires message.SubscribeMessage?
      modifies this`channels
      ensures old(ChannelsValid()) ==> ChannelsValid()
      ensures var c := M.SubscribeChannel(message);
        && (c.Err? ==> r == Fail(c.error) && channels == old(channels))
        && (c == Ok(Option.None) ==> r == Fail(NullReferenceException) && channels == old(channels))
        && (c.Ok? && c.value.Some? && c.value.value in old(channels) ==> r == Pass && channels == old(channels))
        && (c.Ok? && c.value.Some? && c.value.value !in old(channels) ==>
              && (':' in c.value.value ==>
                    r == Pass && channels == old(channels)[c.value.value := ParseChannel(c.value.value).value])
              && (':' !in c.value.value ==> r == Fail(IndexOutOfRangeException) && channels == old(channels)))
    {
      var c := M.SubscribeChannel(message);
      if c.Err? {
        return Fail(c.error);
      }
      if c.value.None? {
        return Fail(NullReferenceException);
      }
      var key := c.value.value;
      var channel := ParseChannel(key);
      if key !in channels {
        if channel.Err? {
          return Fail(channel.error);
        }
        channels := channels[key := channel.value];
      }
      return Pass;
    }

    /**
     * `OnUnsubscribe`: forgets the channel named by the confirmation, if it is
     * registered. The channel is read as written (see
     * `M.UnsubscribeChannelAsWritten`), from the "subscribe" key; a null channel
     * throws as a dictionary key. Every confirmation `Parse` classifies as an
     * unsubscription therefore fails and leaves the channels as they were.
     */
    method OnUnsubscribe(message: M.BaseMessage) returns (r: Outcome)
      requires message.UnsubscribeMessage?
      modifies this`channels
      ensures old(ChannelsValid()) ==> ChannelsValid()
      ensures var c := M.UnsubscribeChannelAsWritten(message);
        && (c.Err? ==> r == Fail(c.error) && channels == old(channels))
        && (c == Ok(Option.None) ==> r == Fail(ArgumentNullException) && channels == old(channels))
        && (c.Ok? && c.value.Some? ==> r == Pass && channels == old(channels) - {c.value.value})
      ensures M.Parse(message.obj) == Ok(Some(message)) ==>
        r == Fail(ArgumentNullException) && channels == old(channels)
    {
      if M.Parse(message.obj) == Ok(Some(message)) {
        M.UnsubscribeChannelAlwaysNull(message.obj);
      }
      r := ForgetChannel(M.UnsubscribeChannelAsWritten(message));
    }

    /**
     * `OnUnsubscribe` as intended: the channel read from the "unsubscribe" key
     * (see `M.UnsubscribeChannel`), so that a confirmation removes the channel it
     * names.
     */
    method OnUnsubscribeCorrected(message: M.BaseMessage) returns (r: Outcome)
      requires message.UnsubscribeMessage?
      modifies this`channels
      ensures old(ChannelsValid()) ==> ChannelsValid()
      ensures var c := M.UnsubscribeChannel(message);
        && (c.Err? ==> r == Fail(c.error) && channels == old(channels))
        && (c == Ok(Option.None) ==> r == Fail(ArgumentNullException) && channels == old(channels))
        && (c.Ok? && c.value.Some? ==> r == Pass && channels == old(channels) - {c.value.value})
      ensures "unsubscribe" in message.obj && message.obj["unsubscribe"].JString? ==>
        r == Pass && channels == old(channels) - {message.obj["unsubscribe"].text}
    {
      r := ForgetChannel(M.UnsubscribeChannel(message));
    }

    /** The body of `OnUnsubscribe` once the channel is read. */
    method ForgetChannel(c: Result<Option<string>>) returns (r: Outcome)
      modifies this`channels
      ensures old(ChannelsValid()) ==> ChannelsValid()
      ensures c.Err? ==> r == Fail(c.error) && channels == old(channels)
      ensures c == Ok(Option.None) ==> r == Fail(ArgumentNullException) && channels == old(channels)
      ensures c.Ok? && c.value.Some? ==> r == Pass && channels == old(channels) - {c.value.value}
    {
      if c.Err? {
        return Fail(c.error);
      }
      if c.value.None? {
        return Fail(ArgumentNullException);
      }
      if c.value.value in channels {
        channels := channels - {c.value.value};
      }
      return Pass;
    }

    /**
     * `OnOrderbook`: a "partial" action (ignoring case) is a snapshot, any other a
     * list of updates; a null action throws comparing it.
     */
    method OnOrderbook(message: M.BaseMessage) returns (r: Outcome)
      requires message.OrderBookData?
      modifies this`orderBooks, this`ticks
      ensures var action := message.Action();
        var data := M.BookEntries(message);
        && (action.Err? ==> r == Fail(action.error) && orderBooks == old(orderBooks) && ticks == old(ticks))
        && (action == Ok(Option.None) ==>
              r == Fail(NullReferenceException) && orderBooks == old(orderBooks) && ticks == old(ticks))
        && (action.Ok? && action.value.Some? && data.Err? ==>
              r == Fail(data.error) && orderBooks == old(orderBooks) && ticks == old(ticks))
        && (action.Ok? && action.value.Some? && data.Ok? ==>
              if EqualsIgnoreCase(action.value.value, PartialAction)
              then SnapshotApplied(bestOf, old(orderBooks), old(ticks), data.value, r, orderBooks, ticks)
              else UpdateApplied(old(orderBooks), action.value.value, data.value, r, orderBooks) && ticks == old(ticks))
    {
      var action := message.Action();
      if action.Err? {
        return Fail(action.error);
      }
      if action.value.None? {
        return Fail(NullReferenceException);
      }
      var data := M.BookEntries(message);
      if data.Err? {
        return Fail(data.error);
      }
      if EqualsIgnoreCase(action.value.value, PartialAction) {
        r := ProcessSnapshot(data.value);
      } else {
        r := ProcessUpdate(action.value.value, data.value);
      }
    }

    /**
     * `ProcessSnapshot`: maps the first entry's instrument, clears that book (or
     * creates it), registers every level and sets its row, then emits one quote
     * tick of the book's best levels.
     */
    method ProcessSnapshot(entries: seq<M.OrderBookEntry>) returns (r: Outcome)
      modifies this`orderBooks, this`ticks
      ensures SnapshotApplied(bestOf, old(orderBooks), old(ticks), entries, r, orderBooks, ticks)
    {
      if |entries| == 0 {
        return Fail(InvalidOperationException);
      }
      var mapped := Mapper.GetLeanSymbolDefault(entries[0].symbol);
      if mapped.Err? {
        return Fail(mapped.error);
      }
      var symbol := mapped.value;
      var start := if symbol in orderBooks then orderBooks[symbol].Clear() else EmptyBook;
      var book := start;
      var i := 0;
      while i < |entries|
        invariant 0 <= i <= |entries|
        invariant book == SnapshotBook(start, entries[..i])
      {
        var entry := entries[i];
        assert entries[..i + 1][..i] == entries[..i];
        book := book.AddPriceLevel(entry.id, entry.side, entry.price);
        if entry.side == Buy {
          book := book.UpdateBidRow(entry.price, entry.size);
        } else {
          book := book.UpdateAskRow(entry.price, entry.size);
        }
        i := i + 1;
      }
      assert entries[..i] == entries;
      orderBooks := orderBooks[symbol := book];
      EmitQuoteTick(symbol, bestOf(book.rows));
      r := Pass;
    }

    /**
     * `ProcessUpdate`: for each entry, maps its instrument and takes that book
     * (which must exist); "delete" removes the level, anything else registers it
     * on "insert", re-registers it when the side changed, and sets the row at the
     * registered price.
     */
    method ProcessUpdate(action: string, entries: seq<M.OrderBookEntry>) returns (r: Outcome)
      modifies this`orderBooks
      ensures UpdateApplied(old(orderBooks), action, entries, r, orderBooks)
    {
      var i := 0;
      while i < |entries|
        invariant 0 <= i <= |entries|
        invariant UpdateAll(old(orderBooks), action, entries[..i]) == Ok(orderBooks)
      {
        var entry := entries[i];
        assert entries[..i + 1][..i] == entries[..i];
        var step := UpdateEntry(action, entry);
        if step.Fail? {
          assert UpdateAll(old(orderBooks), action, entries[..i + 1]) == Err(step.error);
          UpdateAllPrefixFails(old(orderBooks), action, entries, i + 1);
          return step;
        }
        i := i + 1;
      }
      assert entries[..i] == entries;
      r := Pass;
    }

    /** One entry of `ProcessUpdate`, applied to the book it names. */
    method UpdateEntry(action: string, entry: M.OrderBookEntry) returns (r: Outcome)
      modifies this`orderBooks
      ensures var expected := ApplyUpdate(old(orderBooks), action, entry);
        && (expected.Ok? ==> r == Pass && orderBooks == expected.value)
        && (expected.Err? ==> r == Fail(expected.error) && orderBooks == old(orderBooks))
    {
      var mapped := Mapper.GetLeanSymbolDefault(entry.symbol);
      if mapped.Err? {
        return Fail(mapped.error);
      }
      var symbol := mapped.value;
      if symbol !in orderBooks {
        return Fail(KeyNotFoundException);
      }
      var updated := UpdateLevel(orderBooks[symbol], action, entry);
      if updated.Err? {
        return Fail(updated.error);
      }
      orderBooks := orderBooks[symbol := updated.value];
      r := Pass;
    }

    /** `EmitQuoteTick`: adds a quote tick with unsigned sizes at the mid price. */
    method EmitQuoteTick(symbol: Symbol, quote: Quote)
      modifies this`ticks
      ensures ticks == old(ticks) + [QuoteTickOf(symbol, quote)]
    {
      ticks := ticks + [QuoteTick(symbol, quote.bidPrice, Abs(quote.bidSize), quote.askPrice, Abs(quote.askSize),
                                  (quote.askPrice + quote.bidPrice) / 2.0)];
    }

    /** `EmitTradeTick`: adds a trade tick with an unsigned quantity. */
    method EmitTradeTick(symbol: Symbol, time: int, price: real, quantity: real)
      modifies this`ticks
      ensures ticks == old(ticks) + [TradeTick(symbol, price, Abs(quantity), time)]
    {
      ticks := ticks + [TradeTick(symbol, price, Abs(quantity), time)];
    }

    /**
     * `OnTrade`: only an "insert" is handled (ordinal comparison; null is not
     * "insert"); each entry emits a trade tick, and an unknown instrument throws
     * with the ticks before it already emitted.
     */
    method OnTrade(message: M.BaseMessage) returns (r: Outcome)
      requires message.TradeData?
      modifies this`ticks
      ensures var action := message.Action();
        var data := M.TradeEntries(message);
        && (action.Err? ==> r == Fail(action.error) && ticks == old(ticks))
        && (action.Ok? && action.value != Some("insert") ==> r == Pass && ticks == old(ticks))
        && (action == Ok(Some("insert")) && data.Err? ==> r == Fail(data.error) && ticks == old(ticks))
        && (action == Ok(Some("insert")) && data.Ok? ==> TradesEmitted(data.value, old(ticks), r, ticks))
    {
      var action := message.Action();
      if action.Err? {
        return Fail(action.error);
      }
      if action.value != Some("insert") {
        return Pass;
      }
      var data := M.TradeEntries(message);
      if data.Err? {
        return Fail(data.error);
      }
      r := EmitTradeTicks(data.value);
    }

    /**
     * The trade ticks of a trade message: one per entry in order; an unknown
     * instrument throws with the ticks before it already emitted.
     */
    ghost predicate TradesEmitted(items: seq<M.TradeDataEntry>, ticks0: seq<Tick>, r: Outcome, ticks: seq<Tick>)
    {
      && (r.Pass? <==> TradeTicks(items).Ok?)
      && (r.Pass? ==> ticks == ticks0 + TradeTicks(items).value)
      && (r.Fail? ==>
            && r.error == ArgumentException
            && exists k :: 0 <= k < |items| && TradeTicks(items[..k]).Ok?
                        && ticks == ticks0 + TradeTicks(items[..k]).value)
    }

    /** The `foreach` of `OnTrade`. */
    method EmitTradeTicks(items: seq<M.TradeDataEntry>) returns (r: Outcome)
      modifies this`ticks
      ensures TradesEmitted(items, old(ticks), r, ticks)
    {
      var i := 0;
      while i < |items|
        invariant 0 <= i <= |items|
        invariant TradeTicks(items[..i]).Ok?
        invariant ticks == old(ticks) + TradeTicks(items[..i]).value
      {
        var item := items[i];
        MapAllStep(TradeTickOf, items, i);
        var mapped := Mapper.GetLeanSymbolDefault(item.symbol);
        if mapped.Err? {
          MapAllPrefixFails(TradeTickOf, items, i + 1);
          return Fail(mapped.error);
        }
        EmitTradeTick(mapped.value, item.timestamp, item.price, item.size);
        i := i + 1;
      }
      assert items[..i] == items;
      r := Pass;
    }

    /**
     * `OnExecution`: only an "insert" is handled; each entry goes to the funding,
     * fill or close handler by `RouteOf`, and a handler that throws stops the rest.
     */
    method OnExecution(message: M.BaseMessage) returns (r: Outcome)
      requires message.ExecutionData?
      modifies this`cachedOrders, this`orderEvents, this`cashBook, this`executionRoutes
      ensures old(orderEvents) <= orderEvents
      ensures cachedOrders.Keys <= old(cachedOrders).Keys
      ensures var action := message.Action();
        var data := M.ExecutionEntries(message);
        && (action.Err? ==> r == Fail(action.error) && State() == old(State()))
        && (action.Ok? && action.value != Some("insert") ==> r == Pass && State() == old(State()))
        && (action == Ok(Some("insert")) && data.Err? ==> r == Fail(data.error) && State() == old(State()))
        && (action == Ok(Some("insert")) && data.Ok? ==>
              && |orderEvents| <= |old(orderEvents)| + |data.value|
              && (r.Pass? ==> executionRoutes == old(executionRoutes) + Routes(data.value)))
    {
      var action := message.Action();
      if action.Err? {
        return Fail(action.error);
      }
      if action.value != Some("insert") {
        return Pass;
      }
      var data := M.ExecutionEntries(message);
      if data.Err? {
        return Fail(data.error);
      }
      r := HandleExecutions(data.value);
    }

    /** The `foreach` of `OnExecution`: the entries in order, stopping at the first failure. */
    method HandleExecutions(items: seq<M.ExecutionDataEntry>) returns (r: Outcome)
      modifies this`cachedOrders, this`orderEvents, this`cashBook, this`executionRoutes
      ensures old(orderEvents) <= orderEvents && |orderEvents| <= |old(orderEvents)| + |items|
      ensures cachedOrders.Keys <= old(cachedOrders).Keys
      ensures r.Pass? ==> executionRoutes == old(executionRoutes) + Routes(items)
    {
      var i := 0;
      while i < |items|
        invariant 0 <= i <= |items|
        invariant executionRoutes == old(executionRoutes) + Routes(items[..i])
        invariant old(orderEvents) <= orderEvents && |orderEvents| <= |old(orderEvents)| + i
        invariant cachedOrders.Keys <= old(cachedOrders).Keys
      {
        MappedStep(RouteOf, items, i);
        r := HandleExecution(items[i]);
        if r.Fail? {
          return;
        }
        i := i + 1;
      }
      assert items[..i] == items;
      r := Pass;
    }

    /**
     * The body of the `foreach` of `OnExecution` for one entry: the handler its
     * route names; an entry routed nowhere changes nothing but the log.
     */
    method HandleExecution(item: M.ExecutionDataEntry) returns (r: Outcome)
      modifies this`cachedOrders, this`orderEvents, this`cashBook, this`executionRoutes
      ensures executionRoutes == old(executionRoutes) + [RouteOf(item)]
      ensures old(orderEvents) <= orderEvents && |orderEvents| <= |old(orderEvents)| + 1
      ensures cachedOrders.Keys <= old(cachedOrders).Keys
      ensures r.Fail? ==> RouteOf(item) == FundingRoute || RouteOf(item) == FillRoute
      ensures RouteOf(item) == SkipRoute ==>
        && r == Pass
        && cachedOrders == old(cachedOrders) && orderEvents == old(orderEvents) && cashBook == old(cashBook)
    {
      match RouteOf(item)
      case FillRoute =>
        ghost var order;
        r, order := OnFillOrder(item);
      case CloseRoute =>
        ghost var order := OnOrderClose(item);
        r := Pass;
      case SkipRoute =>
        executionRoutes := executionRoutes + [SkipRoute];
        r := Pass;
      case FundingRoute =>
        r := OnFunding(item);
    }

    /**
     * `OnFillOrder`: an entry without a side, or for an order that is not ours, is
     * ignored; otherwise one fill event is raised (see `FillEvent`).
     */
    method OnFillOrder(item: M.ExecutionDataEntry) returns (r: Outcome, ghost order: Option<Order>)
      modifies this`orderEvents, this`executionRoutes
      ensures executionRoutes == old(executionRoutes) + [FillRoute]
      ensures item.side.None? ==> r == Pass && orderEvents == old(orderEvents)
      ensures item.side.Some? ==> FoundBy(cachedOrders, ledger, item.orderId, order)
      ensures item.side.Some? && order.None? ==> r == Pass && orderEvents == old(orderEvents)
      ensures item.side.Some? && order.Some? ==>
        var event := FillEvent(order.value, item);
        && (event.Ok? ==> r == Pass && orderEvents == old(orderEvents) + [event.value])
        && (event.Err? ==> r == Fail(event.error) && orderEvents == old(orderEvents))
    {
      executionRoutes := executionRoutes + [FillRoute];
      order := Option.None;
      if item.side.None? {
        return Pass, order;
      }
      var found := FindOrderByExternalId(item.orderId);
      order := found;
      if found.None? {
        return Pass, order;
      }
      var event := FillEvent(found.value, item);
      if event.Err? {
        return Fail(event.error), order;
      }
      orderEvents := orderEvents + [event.value];
      r := Pass;
    }

    /**
     * `OnOrderClose`: for an order of ours that is still cached, drops it from the
     * cache and raises a canceled event; anything else is ignored.
     */
    method OnOrderClose(item: M.ExecutionDataEntry) returns (ghost order: Option<Order>)
      modifies this`cachedOrders, this`orderEvents, this`executionRoutes
      ensures executionRoutes == old(executionRoutes) + [CloseRoute]
      ensures FoundBy(old(cachedOrders), ledger, item.orderId, order)
      ensures order.Some? && order.value.id in old(cachedOrders) ==>
        && cachedOrders == old(cachedOrders) - {order.value.id}
        && orderEvents == old(orderEvents) + [StatusEvent(order.value, Canceled)]
      ensures !(order.Some? && order.value.id in old(cachedOrders)) ==>
        cachedOrders == old(cachedOrders) && orderEvents == old(orderEvents)
    {
      executionRoutes := executionRoutes + [CloseRoute];
      var found := FindOrderByExternalId(item.orderId);
      order := found;
      if found.Some? && found.value.id in cachedOrders {
        cachedOrders := cachedOrders - {found.value.id};
        orderEvents := orderEvents + [StatusEvent(found.value, Canceled)];
      }
    }

    /**
     * `OnFunding`: books the funding fee against the XBT cash, negated; a cash
     * book without XBT throws.
     */
    method OnFunding(item: M.ExecutionDataEntry) returns (r: Outcome)
      modifies this`cashBook, this`executionRoutes
      ensures executionRoutes == old(executionRoutes) + [FundingRoute]
      ensures r.Pass? <==> "XBT" in old(cashBook)
      ensures r.Pass? ==> cashBook == old(cashBook)["XBT" := old(cashBook)["XBT"] - FundingAmount(item)]
      ensures r.Fail? ==> r.error == KeyNotFoundException && cashBook == old(cashBook)
    {
      executionRoutes := executionRoutes + [FundingRoute];
      if "XBT" !in cashBook {
        return Fail(KeyNotFoundException);
      }
      var amount := if item.feeInSatoshi.Some? then item.feeInSatoshi.value * M.Satoshi else 0.0;
      cashBook := cashBook["XBT" := cashBook["XBT"] + -1.0 * amount];
      r := Pass;
    }

    /** `FindOrderByExternalId`: a cached order carrying the brokerage id, else the ledger's. */
    method FindOrderByExternalId(brokerId: string) returns (order: Option<Order>)
      ensures FoundBy(cachedOrders, ledger, brokerId, order)
    {
      if exists id :: id in cachedOrders && brokerId in cachedOrders[id].brokerId {
        var id :| id in cachedOrders && brokerId in cachedOrders[id].brokerId;
        return Some(cachedOrders[id]);
      }
      return ledger(brokerId);
    }
  }
}
