/**
 * What the BitMEX stream handlers compute, as functions on values: the channel
 * a subscription names, the ticks they emit, the books a snapshot or an update
 * leaves behind, the way an execution report is routed and the order events it
 * raises. The brokerage class in `BitmexMessaging` is proved against these.
 */
module BitmexStream {
  import opened Wrappers
  import opened Orders
  import opened Text
  import opened OrderBookRows
  import M = BitmexMessages
  import Mapper = BitmexSymbolMapper
  import Utility = BitmexUtility
  import opened BitmexOrderBooks
  import opened Websockets
  import opened Sequences

  // ---------------------------------------------------------------- channels

  /**
   * The channel `OnSubscribe` registers for a key: the first two pieces of the key
   * split at ':'. A key without a second piece fails indexing the split.
   */
  function ParseChannel(channel: string): (r: Result<Channel>)
    ensures r.Err? <==> ':' !in channel
    ensures r.Err? ==> r.error == IndexOutOfRangeException
    ensures r.Ok? ==> ':' !in r.value.name && ':' !in r.value.symbol
  {
    var parts := Split(channel, ':');
    SplitPieces(channel, ':');
    if |parts| < 2 then Err(IndexOutOfRangeException) else Ok(Channel(parts[0], parts[1]))
  }

  /** A split has a second piece exactly when the separator occurs. */
  lemma SplitPieces(s: string, sep: char)
    ensures |Split(s, sep)| >= 2 <==> sep in s
  {
    JoinSplit(s, sep);
    if sep !in s {
      SplitNoSep(s, sep);
    }
  }

  /** A "table:instrument" key is parsed back into exactly its two names. */
  lemma ParseChannelOfKey(name: string, symbol: string)
    requires ':' !in name && ':' !in symbol
    ensures ParseChannel(name + [':'] + symbol) == Ok(Channel(name, symbol))
  {
    SplitPair(name, symbol, ':');
  }

  /** The parsed names, joined by ':', open the key they came from. */
  lemma ParseChannelPrefix(channel: string)
    requires ParseChannel(channel).Ok?
    ensures var c := ParseChannel(channel).value;
      c.name + [':'] + c.symbol <= channel
  {
    var parts := Split(channel, ':');
    JoinSplit(channel, ':');
    assert Join(parts, ':') == parts[0] + [':'] + Join(parts[1..], ':');
    assert parts[1..][0] == parts[1];
    if |parts[1..]| > 1 {
      assert Join(parts[1..], ':') == parts[1] + [':'] + Join(parts[2..], ':');
    }
  }

  // ---------------------------------------------------------------- ticks

  /**
   * `EmitQuoteTick`: the best bid and ask of a book with unsigned sizes, valued at
   * the mid price.
   */
  function QuoteTickOf(symbol: Symbol, quote: Quote): (t: Tick)
    ensures t.QuoteTick? && t.symbol == symbol
    ensures t.bidPrice == quote.bidPrice && t.askPrice == quote.askPrice
    ensures t.bidSize == Abs(quote.bidSize) && t.askSize == Abs(quote.askSize)
    ensures t.value - quote.bidPrice == quote.askPrice - t.value
    ensures quote.bidPrice <= quote.askPrice ==> quote.bidPrice <= t.value <= quote.askPrice
  {
    QuoteTick(symbol, quote.bidPrice, Abs(quote.bidSize), quote.askPrice, Abs(quote.askSize),
              (quote.askPrice + quote.bidPrice) / 2.0)
  }

  /** The host symbol of a known BitMEX instrument. */
  function LeanSymbol(brokerageSymbol: string): Symbol
  {
    Symbol(ToUpper(brokerageSymbol), Crypto, BitmexMarket)
  }

  /** `EmitTradeTick` for one trade entry; an unknown instrument fails the mapping. */
  function TradeTickOf(item: M.TradeDataEntry): (r: Result<Tick>)
    ensures r.Ok? <==> Mapper.IsKnownBrokerageSymbol(item.symbol)
    ensures r.Err? ==> r.error == ArgumentException
    ensures r.Ok? ==> r.value == TradeTick(LeanSymbol(item.symbol), item.price, Abs(item.size), item.timestamp)
  {
    var symbol :- Mapper.GetLeanSymbolDefault(item.symbol);
    Ok(TradeTick(symbol, item.price, Abs(item.size), item.timestamp))
  }

  /** The ticks `OnTrade` emits for an "insert" of trade entries, one per entry in order. */
  function TradeTicks(items: seq<M.TradeDataEntry>): Result<seq<Tick>>
  {
    MapAll(TradeTickOf, items)
  }

  /** A trade tick's quantity is unsigned, whichever side the aggressor was on. */
  lemma TradeTicksUnsigned(items: seq<M.TradeDataEntry>)
    requires TradeTicks(items).Ok?
    ensures forall t :: t in TradeTicks(items).value ==> t.TradeTick? && t.quantity >= 0.0
  {
    MapAllSpec(TradeTickOf, items);
    var ticks := TradeTicks(items).value;
    forall t | t in ticks
      ensures t.TradeTick? && t.quantity >= 0.0
    {
      var i :| 0 <= i < |ticks| && ticks[i] == t;
      assert t == TradeTickOf(items[i]).value;
    }
  }

  // ---------------------------------------------------------------- snapshots

  /** The row call a snapshot entry makes: a bid row for Buy, an ask row otherwise. */
  function SnapshotRow(entry: M.OrderBookEntry): RowCall
  {
    if entry.side == Buy then RowCall.UpdateBidRow(entry.price, entry.size)
    else RowCall.UpdateAskRow(entry.price, entry.size)
  }

  /** One step of `ProcessSnapshot`: register the level, then set its row. */
  function SnapshotEntry(book: BookValue, entry: M.OrderBookEntry): BookValue
  {
    var registered := book.AddPriceLevel(entry.id, entry.side, entry.price);
    if entry.side == Buy then registered.UpdateBidRow(entry.price, entry.size)
    else registered.UpdateAskRow(entry.price, entry.size)
  }

  /** The book after the entries of a snapshot were applied in order. */
  function SnapshotBook(book: BookValue, entries: seq<M.OrderBookEntry>): BookValue
    decreases |entries|
  {
    if entries == [] then book
    else SnapshotEntry(SnapshotBook(book, entries[..|entries| - 1]), entries[|entries| - 1])
  }

  /** The book a snapshot starts from: the symbol's book cleared, or a new book. */
  function SnapshotStart(books: map<Symbol, BookValue>, symbol: Symbol): (book: BookValue)
    ensures book.priceLevels == map[]
    ensures symbol in books ==> book.rows == books[symbol].rows + [ClearRows]
    ensures symbol !in books ==> book.rows == []
  {
    if symbol in books then books[symbol].Clear() else EmptyBook
  }

  /** The ids of entries with one more entry at the end. */
  lemma IdsOfSnoc(front: seq<M.OrderBookEntry>, last: M.OrderBookEntry)
    ensures (set e | e in front + [last] :: e.id) == (set e | e in front :: e.id) + {last.id}
  {
    assert forall e :: e in front + [last] <==> e in front || e == last;
  }

  /** A snapshot registers exactly the ids of its entries. */
  lemma {:induction false} SnapshotRegisters(book: BookValue, entries: seq<M.OrderBookEntry>)
    ensures SnapshotBook(book, entries).priceLevels.Keys
         == book.priceLevels.Keys + (set e | e in entries :: e.id)
    decreases |entries|
  {
    if entries != [] {
      var front, last := entries[..|entries| - 1], entries[|entries| - 1];
      SnapshotRegisters(book, front);
      assert entries == front + [last];
      IdsOfSnoc(front, last);
    }
  }

  /** A snapshot makes one row call per entry, in order, on the side the entry names. */
  lemma {:induction false} SnapshotRows(book: BookValue, entries: seq<M.OrderBookEntry>)
    ensures SnapshotBook(book, entries).rows
         == book.rows + seq(|entries|, i requires 0 <= i < |entries| => SnapshotRow(entries[i]))
    decreases |entries|
  {
    if entries != [] {
      var front := entries[..|entries| - 1];
      SnapshotRows(book, front);
      var calls := seq(|entries|, i requires 0 <= i < |entries| => SnapshotRow(entries[i]));
      var frontCalls := seq(|front|, i requires 0 <= i < |front| => SnapshotRow(front[i]));
      assert calls == frontCalls + [SnapshotRow(entries[|entries| - 1])];
    }
  }

  /**
   * A snapshot with distinct ids, none of them known to the book, registers every
   * level with the side and price its entry gives.
   */
  lemma {:induction false} SnapshotLevels(book: BookValue, entries: seq<M.OrderBookEntry>)
    requires forall i, j :: 0 <= i < j < |entries| ==> entries[i].id != entries[j].id
    requires forall i :: 0 <= i < |entries| ==> entries[i].id !in book.priceLevels
    ensures forall i :: 0 <= i < |entries| ==>
      && entries[i].id in SnapshotBook(book, entries).priceLevels
      && SnapshotBook(book, entries).priceLevels[entries[i].id] == PriceLevelEntry(entries[i].side, entries[i].price)
    decreases |entries|
  {
    if entries != [] {
      var front := entries[..|entries| - 1];
      var last := entries[|entries| - 1];
      SnapshotLevels(book, front);
      var before := SnapshotBook(book, front);
      assert last.id !in before.priceLevels by {
        SnapshotRegisters(book, front);
        assert forall k :: 0 <= k < |front| ==> front[k].id != last.id;
        assert last.id !in (set e | e in front :: e.id);
      }
      var after := SnapshotBook(book, entries);
      assert after.priceLevels == before.priceLevels[last.id := PriceLevelEntry(last.side, last.price)];
      forall i | 0 <= i < |entries|
        ensures entries[i].id in after.priceLevels
        ensures after.priceLevels[entries[i].id] == PriceLevelEntry(entries[i].side, entries[i].price)
      {
        if i < |front| {
          assert front[i] == entries[i];
        }
      }
    }
  }

  // ---------------------------------------------------------------- updates

  /** The row calls an update makes for its side: bid for Buy, ask for Sell, none otherwise. */
  function SideRows(side: OrderDirection, price: real, size: real): seq<RowCall>
  {
    match side
    case Buy => [RowCall.UpdateBidRow(price, size)]
    case Sell => [RowCall.UpdateAskRow(price, size)]
    case Hold => []
  }

  /**
   * One entry of `ProcessUpdate` on the book of its instrument: "delete" removes
   * the level; anything else registers the level when the action is "insert",
   * reads the registered level, moves it to the entry's side if that differs,
   * and sets the row at the REGISTERED price with the entry's size.
   */
  function UpdateBook(book: BookValue, action: string, entry: M.OrderBookEntry): (r: Result<BookValue>)
    ensures r.Err? <==> action != "insert" && entry.id !in book.priceLevels
    ensures r.Err? ==> r.error == KeyNotFoundException
  {
    if action == "delete" then book.RemovePriceLevel(entry.id)
    else
      var registered := if action == "insert" then book.AddPriceLevel(entry.id, entry.side, entry.price) else book;
      assert registered.GetPriceLevel(entry.id).Ok? <==> action == "insert" || entry.id in book.priceLevels;
      var level :- registered.GetPriceLevel(entry.id);
      var sided :=
        if entry.side != level.side
        then registered.RemovePriceLevel(entry.id).value.AddPriceLevel(entry.id, entry.side, level.price)
        else registered;
      if entry.side == Buy then Ok(sided.UpdateBidRow(level.price, entry.size))
      else if entry.side == Sell then Ok(sided.UpdateAskRow(level.price, entry.size))
      else Ok(sided)
  }

  /**
   * One entry of `ProcessUpdate` for an action other than "partial": the
   * instrument is mapped (an unknown one throws), its book looked up (a missing
   * one throws), and the entry applied to that book alone.
   */
  function ApplyUpdate(books: map<Symbol, BookValue>, action: string, entry: M.OrderBookEntry)
    : (r: Result<map<Symbol, BookValue>>)
    ensures r.Ok? ==> r.value.Keys == books.Keys
  {
    var symbol :- Mapper.GetLeanSymbolDefault(entry.symbol);
    if symbol !in books then Err(KeyNotFoundException)
    else
      var updated :- UpdateBook(books[symbol], action, entry);
      Ok(books[symbol := updated])
  }

  /**
   * An update entry fails on an unknown instrument (the mapping throws), on an
   * instrument without a book, and on an id its book does not know unless the
   * action is "insert"; a success replaces only the entry's own book.
   */
  lemma UpdateOutcome(books: map<Symbol, BookValue>, action: string, entry: M.OrderBookEntry)
    ensures !Mapper.IsKnownBrokerageSymbol(entry.symbol) ==> ApplyUpdate(books, action, entry) == Err(ArgumentException)
    ensures Mapper.IsKnownBrokerageSymbol(entry.symbol) ==>
      var symbol := LeanSymbol(entry.symbol);
      var r := ApplyUpdate(books, action, entry);
      && (symbol !in books ==> r == Err(KeyNotFoundException))
      && (symbol in books ==> (r.Err? <==> action != "insert" && entry.id !in books[symbol].priceLevels))
      && (r.Err? ==> r.error == KeyNotFoundException)
      && (r.Ok? ==> r.value == books[symbol := UpdateBook(books[symbol], action, entry).value])
  {
  }

  /**
   * The net effect of a non-delete update on its book: the level ends on the
   * entry's side at the price it was first registered with (an update never
   * reprices a level), a change of side first removes both rows at that price,
   * and the entry's size is set on its side's row.
   */
  lemma UpdateEffect(book: BookValue, action: string, entry: M.OrderBookEntry)
    requires action != "delete" && UpdateBook(book, action, entry).Ok?
    ensures var known := entry.id in book.priceLevels;
      var price := if known then book.priceLevels[entry.id].price else entry.price;
      var moved := known && book.priceLevels[entry.id].side != entry.side;
      var after := UpdateBook(book, action, entry).value;
      && after.priceLevels == book.priceLevels[entry.id := PriceLevelEntry(entry.side, price)]
      && after.rows == book.rows + (if moved then [RemoveAskRow(price), RemoveBidRow(price)] else [])
                                 + SideRows(entry.side, price, entry.size)
  {
    var registered := if action == "insert" then book.AddPriceLevel(entry.id, entry.side, entry.price) else book;
    var level := registered.GetPriceLevel(entry.id).value;
    if entry.side != level.side {
      MoveToSide(registered, entry.id, entry.side);
    }
  }

  /** A delete forgets the level and removes both rows at its registered price. */
  lemma DeleteEffect(book: BookValue, entry: M.OrderBookEntry)
    requires UpdateBook(book, "delete", entry).Ok?
    ensures var after := UpdateBook(book, "delete", entry).value;
      && entry.id in book.priceLevels
      && after.priceLevels == book.priceLevels - {entry.id}
      && after.rows == book.rows + [RemoveAskRow(book.priceLevels[entry.id].price),
                                    RemoveBidRow(book.priceLevels[entry.id].price)]
  {
  }

  /** The books after every entry of an update was applied in order; the first failure stops it. */
  function UpdateAll(books: map<Symbol, BookValue>, action: string, entries: seq<M.OrderBookEntry>)
    : (r: Result<map<Symbol, BookValue>>)
    ensures r.Ok? ==> r.value.Keys == books.Keys
    decreases |entries|
  {
    if entries == [] then Ok(books)
    else
      var before :- UpdateAll(books, action, entries[..|entries| - 1]);
      ApplyUpdate(before, action, entries[|entries| - 1])
  }

  /** Once a prefix of the entries fails, the whole update fails. */
  lemma {:induction false} UpdateAllPrefixFails(books: map<Symbol, BookValue>, action: string,
                                                entries: seq<M.OrderBookEntry>, k: nat)
    requires k <= |entries| && UpdateAll(books, action, entries[..k]).Err?
    ensures UpdateAll(books, action, entries) == UpdateAll(books, action, entries[..k])
    decreases |entries|
  {
    if k < |entries| {
      var front := entries[..|entries| - 1];
      assert front[..k] == entries[..k];
      UpdateAllPrefixFails(books, action, front, k);
    } else {
      assert entries[..k] == entries;
    }
  }

  /** An update never creates a book: an instrument without a snapshot fails the whole update. */
  lemma UpdateNeedsSnapshot(books: map<Symbol, BookValue>, action: string, entries: seq<M.OrderBookEntry>)
    requires exists i :: 0 <= i < |entries| && Mapper.IsKnownBrokerageSymbol(entries[i].symbol)
                                            && LeanSymbol(entries[i].symbol) !in books
    ensures UpdateAll(books, action, entries).Err?
  {
    var i :| 0 <= i < |entries| && Mapper.IsKnownBrokerageSymbol(entries[i].symbol)
                                && LeanSymbol(entries[i].symbol) !in books;
    var front := entries[..i];
    assert entries[..i + 1][..i] == front;
    assert entries[..i + 1][i] == entries[i];
    if UpdateAll(books, action, front).Ok? {
      assert UpdateAll(books, action, front).value.Keys == books.Keys;
    }
    UpdateAllPrefixFails(books, action, entries, i + 1);
  }

  // ---------------------------------------------------------------- executions

  /** The execution type of a funding entry. */
  const FundingExecType: string := "Funding"

  /** Where `OnExecution` sends an execution entry. */
  datatype ExecutionRoute = FundingRoute | FillRoute | CloseRoute | SkipRoute

  /**
   * Funding entries (execution type compared ignoring case) go to `OnFunding`;
   * the others by their converted status: partially filled or filled to
   * `OnFillOrder`, canceled to `OnOrderClose`, and every other status nowhere.
   */
  function RouteOf(item: M.ExecutionDataEntry): (route: ExecutionRoute)
    ensures route == FundingRoute <==> EqualsIgnoreCase(item.execType, FundingExecType)
    ensures route == FillRoute ==> ToUpper(item.status) in {"PARTIALLYFILLED", "FILLED"}
    ensures route == CloseRoute ==> ToUpper(item.status) == "CANCELED"
  {
    if EqualsIgnoreCase(item.execType, FundingExecType) then FundingRoute
    else
      var status := Utility.ConvertOrderStatus(item.status);
      if status == PartiallyFilled || status == Filled then FillRoute
      else if status == Canceled then CloseRoute
      else SkipRoute
  }

  /** Routing ignores the case of the execution type and of the status. */
  lemma RouteIgnoresCase(a: M.ExecutionDataEntry, b: M.ExecutionDataEntry)
    requires EqualsIgnoreCase(a.execType, b.execType) && EqualsIgnoreCase(a.status, b.status)
    ensures RouteOf(a) == RouteOf(b)
  {
    Utility.ConvertOrderStatusIgnoresCase(a.status, b.status);
  }

  /** The routes of the entries of one execution message, in order. */
  function Routes(items: seq<M.ExecutionDataEntry>): seq<ExecutionRoute>
  {
    Mapped(RouteOf, items)
  }

  /**
   * The fill event `OnFillOrder` raises for an entry with a side, against the host
   * order found for it: the instrument is mapped first, then a missing last price
   * or quantity throws reading the nullable. The fill quantity carries the sign of
   * the side.
   */
  function FillEvent(order: Order, item: M.ExecutionDataEntry): (r: Result<OrderEvent>)
    requires item.side.Some?
    ensures r.Ok? <==> Mapper.IsKnownBrokerageSymbol(item.symbol) && item.lastPrice.Some? && item.lastQuantity.Some?
    ensures r.Err? ==> r.error == (if Mapper.IsKnownBrokerageSymbol(item.symbol) then InvalidOperationException
                                   else ArgumentException)
    ensures r.Ok? ==>
      && r.value.orderId == order.id
      && r.value.symbol == LeanSymbol(item.symbol)
      && r.value.status == Utility.ConvertOrderStatus(item.status)
      && r.value.direction == item.side.value
      && r.value.fillPrice == item.lastPrice.value
      && r.value.fillQuantity == (if item.side.value == Sell then -item.lastQuantity.value else item.lastQuantity.value)
      && Abs(r.value.fillQuantity) == Abs(item.lastQuantity.value)
      && r.value.fee == item.Fee()
  {
    var symbol :- Mapper.GetLeanSymbolDefault(item.symbol);
    if item.lastPrice.None? || item.lastQuantity.None? then Err(InvalidOperationException)
    else
      var fillQuantity := item.lastQuantity.value * (if item.side.value == Sell then -1.0 else 1.0);
      Ok(OrderEvent(order.id, symbol, Utility.ConvertOrderStatus(item.status),
                    item.lastPrice.value, fillQuantity, item.side.value, item.Fee()))
  }

  /** A buy or sell fill of a positive quantity is signed so that its direction is the side's. */
  lemma FillSignMatchesSide(order: Order, item: M.ExecutionDataEntry)
    requires item.side.Some? && item.side.value != Hold
    requires FillEvent(order, item).Ok? && item.lastQuantity.value > 0.0
    ensures DirectionOf(FillEvent(order, item).value.fillQuantity) == FillEvent(order, item).value.direction
  {
  }

  /** The bitcoin amount of a funding entry: its fee in satoshi, or 0 when absent. */
  function FundingAmount(item: M.ExecutionDataEntry): (amount: real)
    ensures item.feeInSatoshi.None? ==> amount == 0.0
    ensures item.feeInSatoshi.Some? ==> amount * 100000000.0 == item.feeInSatoshi.value
  {
    if item.feeInSatoshi.Some? then item.feeInSatoshi.value * M.Satoshi else 0.0
  }
}
