/**
 * What the Bitfinex stream handlers compute, as functions on values: how a
 * socket message is routed, the book rows its entries become, the quote tick of
 * a snapshot, the fill event of a trade update, and the bookkeeping of closed
 * and submitted orders. The brokerage class in `BitfinexMessaging` is proved
 * against these.
 */
module BitfinexStream {
  import opened Wrappers
  import opened Orders
  import opened Text
  import opened OrderBookRows
  import opened Websockets
  import opened Sequences

  // ---------------------------------------------------------------- tokens

  /**
   * A JSON scalar as the handlers read it: its text, and what `decimal.Parse`
   * and `int.Parse` make of that text (`None` where they throw).
   */
  datatype Scalar = Scalar(text: string, asDecimal: Option<real>, asInteger: Option<int>)

  /** A JSON token of a socket message, as far as the handler looks into it. */
  datatype JToken =
    | JNumber(scalar: Scalar)
    | JString(scalar: Scalar)
    | JArray(items: seq<JToken>)
    /** An object, with the fields of the event replies that the handler reads. */
    | JObject(event: Option<string>, channelId: string, symbol: string)

  /** A socket message: the token `JToken.Parse` reads from its text, or the exception it throws. */
  datatype WebSocketMessage = WebSocketMessage(token: Result<JToken>)

  /** `ToObject<string>()` on an element: the text of a scalar; arrays and objects do not convert. */
  function TextOf(token: JToken): (r: Result<Scalar>)
    ensures r.Ok? <==> token.JNumber? || token.JString?
    ensures r.Err? ==> r.error == ArgumentException
  {
    match token
    case JNumber(s) => Ok(s)
    case JString(s) => Ok(s)
    case _ => Err(ArgumentException)
  }

  /** `ToObject<string[]>()`: an array whose every element converts to text. */
  function TextsOf(token: JToken): Result<seq<Scalar>>
  {
    if token.JArray? then MapAll(TextOf, token.items) else Err(ArgumentException)
  }

  /** `ToObject<string[][]>()`: an array of such arrays. */
  function TableOf(token: JToken): Result<seq<seq<Scalar>>>
  {
    if token.JArray? then MapAll(TextsOf, token.items) else Err(ArgumentException)
  }

  /** `token[0].ToObject<int>()`: the channel number leading an array message. */
  function ChannelOf(items: seq<JToken>): (r: Result<int>)
    ensures r.Ok? ==> |items| > 0 && (items[0].JNumber? || items[0].JString?) && items[0].scalar.asInteger == Some(r.value)
  {
    if |items| == 0 then Err(IndexOutOfRangeException)
    else
      var s :- TextOf(items[0]);
      if s.asInteger.None? then Err(FormatException) else Ok(s.asInteger.value)
  }

  // ---------------------------------------------------------------- routing

  /** The handler a message goes to, with the arguments it is given. */
  datatype Route =
    | SnapshotRoute(channelId: string, table: seq<seq<Scalar>>)
    | UpdateRoute(channelId: string, entries: seq<Scalar>)
    | OrderCloseRoute(entries: seq<Scalar>)
    | FillRoute(entries: seq<Scalar>)
    | SubscribeRoute(channelId: string, symbol: string)
    | UnsubscribeRoute(channelId: string)
    | Ignored

  /** The terms of the account channel (channel 0), and the events of object replies, lower-cased. */
  const OrderCloseTerm: string := "oc"
  const TradeUpdateTerm: string := "tu"
  const SubscribedEvent: string := "subscribed"
  const UnsubscribedEvent: string := "unsubscribed"

  /**
   * The routing of `OnMessageImpl`. An array on a non-zero channel whose second
   * element is not a string is book data: a snapshot when it has two elements,
   * an update otherwise. On channel 0 the second element is a term: "oc" closes
   * an order, "tu" fills one, any other term is ignored (both ignoring case). An
   * object is routed by its event ("subscribed", "unsubscribed", ignoring case);
   * every other message is ignored. Missing elements and elements that do not
   * convert throw.
   */
  function RouteOf(token: JToken): (r: Result<Route>)
    ensures r.Ok? && (r.value.SnapshotRoute? || r.value.UpdateRoute?) ==>
      && token.JArray? && |token.items| >= 2
      && ChannelOf(token.items).Ok? && ChannelOf(token.items).value != 0 && !token.items[1].JString?
      && r.value.channelId == token.items[0].scalar.text
      && (r.value.SnapshotRoute? <==> |token.items| == 2)
    ensures r.Ok? && (r.value.OrderCloseRoute? || r.value.FillRoute?) ==>
      && token.JArray? && |token.items| >= 3
      && ChannelOf(token.items) == Ok(0) && TextOf(token.items[1]).Ok?
      && (r.value.OrderCloseRoute? ==> ToLower(token.items[1].scalar.text) == OrderCloseTerm)
      && (r.value.FillRoute? ==> ToLower(token.items[1].scalar.text) == TradeUpdateTerm)
      && TextsOf(token.items[2]) == Ok(r.value.entries)
    ensures r.Ok? && r.value.SubscribeRoute? ==>
      token.JObject? && token.event.Some? && ToLower(token.event.value) == SubscribedEvent
      && r.value == SubscribeRoute(token.channelId, token.symbol)
    ensures r.Ok? && r.value.UnsubscribeRoute? ==>
      token.JObject? && token.event.Some? && ToLower(token.event.value) == UnsubscribedEvent
      && r.value == UnsubscribeRoute(token.channelId)
    ensures token.JNumber? || token.JString? ==> r == Ok(Ignored)
  {
    match token
    case JArray(items) =>
      var channel :- ChannelOf(items);
      if |items| < 2 then Err(IndexOutOfRangeException)
      else if channel != 0 then
        if items[1].JString? then Ok(Ignored)
        else if |items| == 2 then
          var entries :- TableOf(items[1]);
          Ok(SnapshotRoute(items[0].scalar.text, entries))
        else
          var all :- MapAll(TextOf, items);
          MapAllSpec(TextOf, items);
          Ok(UpdateRoute(items[0].scalar.text, all[1..]))
      else
        var term :- TextOf(items[1]);
        var lower := ToLower(term.text);
        if lower != OrderCloseTerm && lower != TradeUpdateTerm then Ok(Ignored)
        else if |items| < 3 then Err(IndexOutOfRangeException)
        else
          var entries :- TextsOf(items[2]);
          Ok(if lower == OrderCloseTerm then OrderCloseRoute(entries) else FillRoute(entries))
    case JObject(event, channelId, symbol) =>
      if event.None? then Err(NullReferenceException)
      else if ToLower(event.value) == SubscribedEvent then Ok(SubscribeRoute(channelId, symbol))
      else if ToLower(event.value) == UnsubscribedEvent then Ok(UnsubscribeRoute(channelId))
      else Ok(Ignored)
    case _ => Ok(Ignored)
  }

  /**
   * On channel 0 the term decides: "oc" goes to the close handler and "tu" to the
   * fill handler, with the third element's texts; any other term is ignored.
   */
  lemma AccountChannelRouting(items: seq<JToken>)
    requires |items| >= 3 && ChannelOf(items) == Ok(0) && TextOf(items[1]).Ok? && TextsOf(items[2]).Ok?
    ensures var term := ToLower(items[1].scalar.text);
      var entries := TextsOf(items[2]).value;
      && (term == OrderCloseTerm ==> RouteOf(JArray(items)) == Ok(OrderCloseRoute(entries)))
      && (term == TradeUpdateTerm ==> RouteOf(JArray(items)) == Ok(FillRoute(entries)))
      && (term != OrderCloseTerm && term != TradeUpdateTerm ==> RouteOf(JArray(items)) == Ok(Ignored))
  {
  }

  /**
   * On a book channel, data whose second element is not a string is a snapshot
   * when the array has two elements and an update of the remaining texts
   * otherwise; a string second element (a heartbeat) is ignored.
   */
  lemma BookChannelRouting(items: seq<JToken>)
    requires |items| >= 2 && ChannelOf(items).Ok? && ChannelOf(items).value != 0
    ensures items[1].JString? ==> RouteOf(JArray(items)) == Ok(Ignored)
    ensures !items[1].JString? && |items| == 2 && TableOf(items[1]).Ok? ==>
      RouteOf(JArray(items)) == Ok(SnapshotRoute(items[0].scalar.text, TableOf(items[1]).value))
    ensures !items[1].JString? && |items| > 2 && MapAll(TextOf, items).Ok? ==>
      RouteOf(JArray(items)) == Ok(UpdateRoute(items[0].scalar.text, MapAll(TextOf, items).value[1..]))
  {
  }

  /** The "info", "ping" and "error" events, and any other, go nowhere. */
  lemma OtherEventsIgnored(event: string, channelId: string, symbol: string)
    requires ToLower(event) != SubscribedEvent && ToLower(event) != UnsubscribedEvent
    ensures RouteOf(JObject(Some(event), channelId, symbol)) == Ok(Ignored)
  {
  }

  // ---------------------------------------------------------------- book data

  /**
   * A snapshot entry [price, count, amount]: a bid row when the amount is
   * positive, an ask row of the amount as given otherwise.
   */
  function SnapshotRow(entry: seq<Scalar>): (r: Result<RowCall>)
    ensures r.Ok? <==> |entry| >= 3 && entry[0].asDecimal.Some? && entry[2].asDecimal.Some?
    ensures r.Ok? ==>
      && (r.value.UpdateBidRow? || r.value.UpdateAskRow?)
      && r.value.price == entry[0].asDecimal.value
      && r.value.size == entry[2].asDecimal.value
      && (r.value.UpdateBidRow? <==> entry[2].asDecimal.value > 0.0)
  {
    if |entry| == 0 then Err(IndexOutOfRangeException)
    else if entry[0].asDecimal.None? then Err(FormatException)
    else if |entry| < 3 then Err(IndexOutOfRangeException)
    else if entry[2].asDecimal.None? then Err(FormatException)
    else
      var price := entry[0].asDecimal.value;
      var amount := entry[2].asDecimal.value;
      Ok(if amount > 0.0 then UpdateBidRow(price, amount) else UpdateAskRow(price, amount))
  }

  /** The rows a snapshot writes after clearing: one per entry, in order, each on its amount's side. */
  lemma SnapshotRowsPerEntry(entries: seq<seq<Scalar>>)
    requires MapAll(SnapshotRow, entries).Ok?
    ensures var rows := MapAll(SnapshotRow, entries).value;
      && |rows| == |entries|
      && forall i :: 0 <= i < |entries| ==>
           && |entries[i]| >= 3 && entries[i][0].asDecimal.Some? && entries[i][2].asDecimal.Some?
           && (rows[i].UpdateBidRow? || rows[i].UpdateAskRow?)
           && rows[i].price == entries[i][0].asDecimal.value
           && rows[i].size == entries[i][2].asDecimal.value
           && (rows[i].UpdateBidRow? <==> entries[i][2].asDecimal.value > 0.0)
           && (rows[i].UpdateAskRow? <==> entries[i][2].asDecimal.value <= 0.0)
  {
    MapAllSpec(SnapshotRow, entries);
  }

  /** The book a snapshot starts from: the existing one cleared, or a new empty one. */
  function SnapshotStart(books: map<Symbol, seq<RowCall>>, symbol: Symbol): (start: seq<RowCall>)
    ensures symbol in books ==> start == books[symbol] + [ClearRows]
    ensures symbol !in books ==> start == []
  {
    if symbol in books then books[symbol] + [ClearRows] else []
  }

  /**
   * An update [price, count, amount]: a count of 0 removes the price level;
   * otherwise a positive amount updates the bid row and a negative one the ask
   * row, and a zero amount writes nothing.
   */
  function UpdateRows(entries: seq<Scalar>): (r: Result<seq<RowCall>>)
    ensures r.Ok? <==>
      && |entries| >= 3 && entries[0].asDecimal.Some? && entries[1].asInteger.Some?
      && entries[2].asDecimal.Some?
    ensures r.Ok? ==>
      var price := entries[0].asDecimal.value;
      var amount := entries[2].asDecimal.value;
      && |r.value| <= 1
      && (entries[1].asInteger.value == 0 ==> r.value == [RemovePriceLevel(price)])
      && (entries[1].asInteger.value != 0 ==>
            && (r.value == [] <==> amount == 0.0)
            && (r.value != [] ==>
                  && (r.value[0].UpdateBidRow? || r.value[0].UpdateAskRow?)
                  && r.value[0].price == price && r.value[0].size == amount
                  && (r.value[0].UpdateBidRow? <==> amount > 0.0)))
  {
    if |entries| == 0 then Err(IndexOutOfRangeException)
    else if entries[0].asDecimal.None? then Err(FormatException)
    else if |entries| < 2 then Err(IndexOutOfRangeException)
    else if entries[1].asInteger.None? then Err(FormatException)
    else if |entries| < 3 then Err(IndexOutOfRangeException)
    else if entries[2].asDecimal.None? then Err(FormatException)
    else
      var price := entries[0].asDecimal.value;
      var amount := entries[2].asDecimal.value;
      if entries[1].asInteger.value == 0 then Ok([RemovePriceLevel(price)])
      else if amount > 0.0 then Ok([UpdateBidRow(price, amount)])
      else if amount < 0.0 then Ok([UpdateAskRow(price, amount)])
      else Ok([])
  }

  /**
   * The two handlers treat a zero amount differently: a snapshot writes it as an
   * ask row, an update with a non-zero count writes nothing.
   */
  lemma ZeroAmountSnapshotAndUpdate(price: Scalar, count: Scalar, amount: Scalar)
    requires price.asDecimal.Some? && count.asInteger.Some? && count.asInteger.value != 0
    requires amount.asDecimal == Some(0.0)
    ensures SnapshotRow([price, count, amount]) == Ok(UpdateAskRow(price.asDecimal.value, 0.0))
    ensures UpdateRows([price, count, amount]) == Ok([])
  {
  }

  /** `EmitQuoteTick`: the best bid and ask as the book reports them, valued at the mid price. */
  function QuoteTickOf(symbol: Symbol, quote: Quote): (t: Tick)
    ensures t.QuoteTick? && t.symbol == symbol
    ensures t.bidPrice == quote.bidPrice && t.bidSize == quote.bidSize
    ensures t.askPrice == quote.askPrice && t.askSize == quote.askSize
    ensures t.value - quote.bidPrice == quote.askPrice - t.value
    ensures quote.bidPrice <= quote.askPrice ==> quote.bidPrice <= t.value <= quote.askPrice
  {
    QuoteTick(symbol, quote.bidPrice, quote.bidSize, quote.askPrice, quote.askSize,
              (quote.askPrice + quote.bidPrice) / 2.0)
  }

  // ---------------------------------------------------------------- orders

  /** The status text of a close that is a cancellation (found ignoring case). */
  const CanceledStatus: string := "canceled"

  /**
   * The fill event `EmitFillOrder` raises for a trade update
   * [.., .., symbol, time, brokerId, quantity, price] against the order found for
   * it, given the mapped symbol and the order's fee: the symbol is mapped first,
   * then a missing or unreadable price or quantity throws. The status is Filled
   * exactly when the fill is the order's whole quantity, the direction is Sell
   * exactly when the fill is negative, and a zero fill pays no fee.
   */
  function FillEvent(order: Order, symbol: Result<Symbol>, entries: seq<Scalar>, fee: real): (r: Result<OrderEvent>)
    ensures r.Ok? <==> symbol.Ok? && |entries| >= 7 && entries[5].asDecimal.Some? && entries[6].asDecimal.Some?
    ensures r.Err? && symbol.Err? ==> r.error == symbol.error
    ensures r.Ok? ==>
      var quantity := entries[5].asDecimal.value;
      && r.value.orderId == order.id && r.value.symbol == symbol.value
      && r.value.fillPrice == entries[6].asDecimal.value && r.value.fillQuantity == quantity
      && (r.value.status == Filled <==> quantity == order.quantity)
      && (r.value.status == PartiallyFilled <==> quantity != order.quantity)
      && (r.value.direction == Sell <==> quantity < 0.0)
      && (r.value.direction == Buy <==> quantity >= 0.0)
      && r.value.fee == (if quantity == 0.0 then 0.0 else fee)
  {
    var s :- symbol;
    if |entries| < 7 then Err(IndexOutOfRangeException)
    else if entries[6].asDecimal.None? || entries[5].asDecimal.None? then Err(FormatException)
    else
      var fillPrice := entries[6].asDecimal.value;
      var fillQuantity := entries[5].asDecimal.value;
      var direction := if fillQuantity < 0.0 then Sell else Buy;
      var orderFee := if fillQuantity != 0.0 then fee else 0.0;
      var status := if fillQuantity == order.quantity then Filled else PartiallyFilled;
      Ok(OrderEvent(order.id, s, status, fillPrice, fillQuantity, direction, orderFee))
  }

  /** `List.Remove`: drops the first occurrence of `x`, if there is one. */
  function RemoveFirst(s: seq<string>, x: string): (r: seq<string>)
    ensures x !in s ==> r == s
    ensures x in s ==> |r| == |s| - 1
    ensures multiset(r) == multiset(s) - multiset{x}
  {
    if s == [] then []
    else
      assert s == [s[0]] + s[1..];
      if s[0] == x then s[1..]
    else [s[0]] + RemoveFirst(s[1..], x)
  }

  /**
   * A close that is not a cancellation records the brokerage id; the fill that
   * follows for the same id takes it out again, leaving the pending ids as they
   * were, counted with multiplicity.
   */
  lemma {:induction false} PendingCloseSettles(pending: seq<string>, brokerId: string)
    ensures multiset(RemoveFirst(pending + [brokerId], brokerId)) == multiset(pending)
    ensures brokerId !in pending ==> RemoveFirst(pending + [brokerId], brokerId) == pending
  {
    if brokerId !in pending {
      RemoveFirstAbsent(pending, brokerId);
    }
  }

  /** Removing an id that only the appended element carries removes that element. */
  lemma {:induction false} RemoveFirstAbsent(pending: seq<string>, brokerId: string)
    requires brokerId !in pending
    ensures RemoveFirst(pending + [brokerId], brokerId) == pending
  {
    if pending != [] {
      assert (pending + [brokerId])[1..] == pending[1..] + [brokerId];
      RemoveFirstAbsent(pending[1..], brokerId);
    }
  }

  /**
   * The bookkeeping of a placed order when the exchange answers with an id: a
   * cached order's brokerage ids become exactly that id; an order not cached yet
   * gets the id appended and is cached.
   */
  function RecordBrokerId(cached: map<int, Order>, order: Order, brokerId: string): (r: map<int, Order>)
    ensures r.Keys == cached.Keys + {order.id}
    ensures order.id in cached ==> r[order.id] == cached[order.id].(brokerId := [brokerId])
    ensures order.id !in cached ==> r[order.id] == order.(brokerId := order.brokerId + [brokerId])
    ensures forall id :: id in cached && id != order.id ==> r[id] == cached[id]
  {
    if order.id in cached then cached[order.id := cached[order.id].(brokerId := [brokerId])]
    else cached[order.id := order.(brokerId := order.brokerId + [brokerId])]
  }

  /**
   * Once the id is recorded, the stream finds a cached order for it, the one
   * just recorded or another cached order carrying the same id, without asking
   * the ledger.
   */
  lemma RecordedIdIsFound(cached: map<int, Order>, ledger: string -> Option<Order>, order: Order,
                          brokerId: string, found: Option<Order>)
    requires FoundBy(RecordBrokerId(cached, order, brokerId), ledger, brokerId, found)
    ensures found.Some? && brokerId in found.value.brokerId
    ensures exists id :: id in RecordBrokerId(cached, order, brokerId) && RecordBrokerId(cached, order, brokerId)[id] == found.value
  {
    var r := RecordBrokerId(cached, order, brokerId);
    assert brokerId in r[order.id].brokerId;
  }
}
