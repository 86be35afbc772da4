# BitMEX and Bitfinex brokerage adapters: a Dafny model

This project models the core of the BitMEX and Bitfinex brokerage adapters of the
Lean trading engine, and proves what that code promises.

- **The BitMEX price-level ladder (`BitmexOrderBookUpdater`).** Bid and ask levels keyed by the exchange's price-level id, with cached best bid and best ask. Zero stands for an empty side. Every change of a cached best raises an event.
- **The BitMEX order book (`BitmexOrderBook`).** An id → (side, price) registry over a price-keyed base book. The base book is a trace of row calls; its best-of-book is an abstract function `bestOf`.
- **The message handlers of both brokerages (`BitmexBrokerage.Messaging`, `BitfinexBrokerage.Messaging`).** These are classes whose fields are the handlers' state:
  - the stream lock and its FIFO backlog;
  - the channel table, the order books and the tick list;
  - the order cache and the order events;
  - Bitfinex's pending-close list.

  Each message arrival, lock and unlock is a method call.
- **BitMEX message classification (`Messages.cs`).** `Parse` works by key priority. Satoshi amounts are converted to coin.
- **Pure converters.**
  - the BitMEX symbol mapper;
  - the order-status, order-type, direction and resolution mappings of both adapters;
  - the lowercase hex encoder;
  - the endpoint and request-signature pre-image;
  - the bounded retry on HTTP 429.
- **Bitfinex `SubmitOrder`.** The stream lock around the REST call, and the recording of the broker id.
- **Decimal rules.**
  - the BitMEX maker/taker fee;
  - the BitMEX margin model's initial margin and order sizing for a target;
  - the BitMEX holding's close profit;
  - the BitMEX brokerage model.

  C# `decimal` is modelled as `real`.

`Wrappers` holds the error type: a C# throw becomes `Err`/`Fail` carrying the exception's kind. `Orders` holds the order, symbol and event types. `Text` holds .NET string helpers and `Sequences` holds generic lemmas. `Rest` holds the shared retry loop. `Websockets` holds the channel and tick records of the websocket base class, and the order lookup by brokerage id.

## Model

| member | source | states |
|---|---|---|
| OrderBookUpdater.Lookup | Brokerages/Bitmex/BitmexOrderBookUpdater.cs:111-112 | `TryRemove` leaves the stored level in its out-parameter for a known id and the zero level for an unknown one |
| OrderBookUpdater.HighestPriceUnique | Brokerages/Bitmex/BitmexOrderBookUpdater.cs:284-292 | all levels of highest price share one price, so the best bid price is determined whichever of them the scan picks |
| OrderBookUpdater.LowestPriceUnique | Brokerages/Bitmex/BitmexOrderBookUpdater.cs:294-302 | all levels of lowest price share one price |
| OrderBookUpdater.HighestLevel | Brokerages/Bitmex/BitmexOrderBookUpdater.cs:286-291 | the scan returns a level of highest price, or the zero level for an empty side |
| OrderBookUpdater.LowestLevel | Brokerages/Bitmex/BitmexOrderBookUpdater.cs:296-301 | the scan returns a level of lowest price, or the zero level for an empty side |
| OrderBookUpdater.HighestBounds | Brokerages/Bitmex/BitmexOrderBookUpdater.cs:284-292 | with positive prices the highest level bounds every bid from above and is non-negative |
| OrderBookUpdater.LowestBounds | Brokerages/Bitmex/BitmexOrderBookUpdater.cs:294-302 | with positive prices the lowest level is positive and bounds every ask from below, or is zero for an empty side |
| OrderBookUpdater.BitmexOrderBookUpdater.constructor | Brokerages/Bitmex/BitmexOrderBookUpdater.cs:98-101 | a new ladder has no levels, zero bests and no events, and satisfies the ladder invariant |
| OrderBookUpdater.BitmexOrderBookUpdater.CalcBestBidParts | Brokerages/Bitmex/BitmexOrderBookUpdater.cs:284-292 | the cached best bid becomes a highest bid level (zero when there are no bids); levels, asks and events are unchanged |
| OrderBookUpdater.BitmexOrderBookUpdater.CalcBestAskParts | Brokerages/Bitmex/BitmexOrderBookUpdater.cs:294-302 | the cached best ask becomes a lowest ask level (zero when there are no asks); levels, bids and events are unchanged |
| OrderBookUpdater.BitmexOrderBookUpdater.RemoveAskRow | Brokerages/Bitmex/BitmexOrderBookUpdater.cs:107-121 | the id leaves the asks; if the removed price equals the best ask, the best ask is rescanned and exactly one event fires, otherwise nothing else changes; the invariant is kept |
| OrderBookUpdater.BitmexOrderBookUpdater.RemoveBidRow | Brokerages/Bitmex/BitmexOrderBookUpdater.cs:127-141 | the id leaves the bids; if the removed price equals the best bid, the best bid is rescanned and exactly one event fires, otherwise nothing else changes; the invariant is kept |
| OrderBookUpdater.BitmexOrderBookUpdater.RemovePriceLevel | Brokerages/Bitmex/BitmexOrderBookUpdater.cs:147-160 | an id is removed from the asks if there, otherwise from the bids, never both, with the effect `RemoveAskRow` or `RemoveBidRow` states: the best of that side is rescanned with one event exactly when the removed price was the best, the other side's best is kept; an unknown id changes nothing; invariant kept |
| OrderBookUpdater.BitmexOrderBookUpdater.UpdateAskRowSize | Brokerages/Bitmex/BitmexOrderBookUpdater.cs:167-193 | an ask keeps its price with the new size and nothing else changes; a bid moves to the asks with its old price, both bests are rescanned and one event fires; an unknown id fails with `KeyNotFoundException` and changes nothing |
| OrderBookUpdater.BitmexOrderBookUpdater.UpdateBidRowSize | Brokerages/Bitmex/BitmexOrderBookUpdater.cs:200-223 | the mirror image of `UpdateAskRowSize` for a bid |
| OrderBookUpdater.BitmexOrderBookUpdater.UpdateAskRow | Brokerages/Bitmex/BitmexOrderBookUpdater.cs:230-244 | the level is stored under the id; when the best ask is zero or the price is at most the best, the best becomes this level and one event fires, otherwise the best is unchanged and no event fires |
| OrderBookUpdater.BitmexOrderBookUpdater.UpdateBidRow | Brokerages/Bitmex/BitmexOrderBookUpdater.cs:251-265 | the same for bids, with a price at least the best |
| OrderBookUpdater.BitmexOrderBookUpdater.Clear | Brokerages/Bitmex/BitmexOrderBookUpdater.cs:270-282 | both sides are empty, all four bests are zero, no event fires |
| BitmexOrderBooks.BookValue.AddPriceLevel | Brokerages/Bitmex/BitmexOrderBook.cs:29-35 | the id is registered with the side and price only when it was unknown; every registered id keeps its entry; the rows are untouched |
| BitmexOrderBooks.BookValue.GetPriceLevel | Brokerages/Bitmex/BitmexOrderBook.cs:41-44 | a registered id yields its entry; an unknown id is a `KeyNotFoundException` |
| BitmexOrderBooks.BookValue.RemovePriceLevel | Brokerages/Bitmex/BitmexOrderBook.cs:50-56 | a registered id appends the ask-row and then the bid-row removal at its price and is forgotten; an unknown id fails before any row call |
| BitmexOrderBooks.BookValue.Clear | Brokerages/Bitmex/BitmexOrderBook.cs:61-65 | the base book is cleared and the registry emptied |
| BitmexOrderBooks.BookValue.UpdateBidRow | Brokerages/Bitmex/BitmexOrderBook.cs:13 | the base book's bid-row update is appended; the registry is untouched |
| BitmexOrderBooks.BookValue.UpdateAskRow | Brokerages/Bitmex/BitmexOrderBook.cs:13 | the base book's ask-row update is appended; the registry is untouched |
| BitmexOrderBooks.AddPriceLevelIdempotent | Brokerages/Bitmex/BitmexOrderBook.cs:29-35 | adding an id twice equals adding it once with the first side and price |
| BitmexOrderBooks.GetAfterAdd | Brokerages/Bitmex/BitmexOrderBook.cs:29-44 | after an add the id is found, under the old entry if it was known |
| BitmexOrderBooks.RemoveAfterAdd | Brokerages/Bitmex/BitmexOrderBook.cs:29-56 | removing a freshly added id restores the registry and leaves exactly the two removals at its price |
| BitmexOrderBooks.GetAfterRemove | Brokerages/Bitmex/BitmexOrderBook.cs:41-56 | a removed id is unknown afterwards; every other id is found as before |
| BitmexOrderBooks.MoveToSide | Brokerages/Bitmex/BitmexOrderBook.cs:29-56 | removing a known id and re-adding it at its stored price under a new side changes only its side, after the two row removals at that price |
| BitmexOrderBooks.GetAfterClear | Brokerages/Bitmex/BitmexOrderBook.cs:41-65 | no id is known after `Clear` |
| BitmexOrderBooks.BitmexOrderBook.constructor | Brokerages/Bitmex/BitmexOrderBook.cs:20-22 | a new book has no ids and no row calls |
| BitmexOrderBooks.BitmexOrderBook.AddPriceLevel | Brokerages/Bitmex/BitmexOrderBook.cs:29-35 | the in-place add equals the value add |
| BitmexOrderBooks.BitmexOrderBook.GetPriceLevel | Brokerages/Bitmex/BitmexOrderBook.cs:41-44 | the lookup equals the value lookup |
| BitmexOrderBooks.BitmexOrderBook.RemovePriceLevel | Brokerages/Bitmex/BitmexOrderBook.cs:50-56 | the in-place remove equals the value remove; on an unknown id it fails and nothing changes |
| BitmexOrderBooks.BitmexOrderBook.Clear | Brokerages/Bitmex/BitmexOrderBook.cs:61-65 | the in-place clear equals the value clear |
| BitmexOrderBooks.BitmexOrderBook.UpdateBidRow | Brokerages/Bitmex/BitmexOrderBook.cs:13 | one bid-row call is appended |
| BitmexOrderBooks.BitmexOrderBook.UpdateAskRow | Brokerages/Bitmex/BitmexOrderBook.cs:13 | one ask-row call is appended |
| BitmexMessages.Wallet.Amount | Brokerages/Bitmex/Messages.cs:42 | the amount is the satoshi amount divided by 10^8 |
| BitmexMessages.Position.UnrealisedPnl | Brokerages/Bitmex/Messages.cs:62 | the unrealised profit is the satoshi amount divided by 10^8 |
| BitmexMessages.ExecutionDataEntry.Fee | Brokerages/Bitmex/Messages.cs:248 | the fee is fee-in-satoshi times last price over 10^8, and 0 when either is missing |
| BitmexMessages.StringValue | Brokerages/Bitmex/Messages.cs:147 | `Value<string>` of a missing key is null, of a string its text; only strings and booleans convert |
| BitmexMessages.BaseMessage.Type | Brokerages/Bitmex/Messages.cs:99-217 | each message class reports its own event type and the base class reports None; no message reports Order |
| BitmexMessages.Parse | Brokerages/Bitmex/Messages.cs:108-136 | a "subscribe" key gives Subscribe; else "unsubscribe" gives Unsubscribe; else a "table" of orderBookL2, trade or execution gives that class, each iff; a parsed message keeps its object; only a non-string table throws (`InvalidCastException`) |
| BitmexMessages.ParseUnknownTable | Brokerages/Bitmex/Messages.cs:120-135 | any other table value parses to null |
| BitmexMessages.TypeOf | Brokerages/Bitmex/Messages.cs:61 | `message?.Type` is None for null and the message's type otherwise |
| BitmexMessages.ParseTypes | Brokerages/Bitmex/Messages.cs:108-136 | the parsed type is Subscribe, Unsubscribe or OrderBook exactly when the key priority says so |
| BitmexMessages.SubscribeChannel | Brokerages/Bitmex/Messages.cs:147 | `Subscribe.Channel` is the "subscribe" string |
| BitmexMessages.UnsubscribeChannelAlwaysNull | Brokerages/Bitmex/Messages.cs:157 | as written, `Unsubscribe.Channel` is null for every parsed Unsubscribe message |
| BitmexMessages.UnsubscribeChannelCounterexample | Brokerages/Bitmex/Messages.cs:157 | a concrete unsubscribe reply whose channel the as-written accessor loses and the corrected one returns |
| BitmexMessages.UnsubscribeChannel | Brokerages/Bitmex/Messages.cs:157 | the corrected `Unsubscribe.Channel` is the "unsubscribe" string |
| BitmexMessages.BookEntries | Brokerages/Bitmex/Messages.cs:168-175 | `Data` converts exactly when "data" holds book entries |
| BitmexMessages.TradeEntries | Brokerages/Bitmex/Messages.cs:194-201 | `Data` converts exactly when "data" holds trade entries |
| BitmexMessages.ExecutionEntries | Brokerages/Bitmex/Messages.cs:219-226 | `Data` converts exactly when "data" holds execution entries |
| BitmexSymbolMapper.KnownCapitalised | Brokerages/Bitmex/BitmexSymbolMapper.cs:47-58 | every known ticker and currency is its own upper case |
| BitmexSymbolMapper.ContainsUpper | Brokerages/Bitmex/BitmexSymbolMapper.cs:47-58 | ignore-case membership in a capitalised set is membership of the capitalised probe |
| BitmexSymbolMapper.KnownNotBlank | Brokerages/Bitmex/BitmexSymbolMapper.cs:153-171 | a known ticker or currency is never blank, so the blank guards never decide membership |
| BitmexSymbolMapper.IsKnownBrokerageSymbol | Brokerages/Bitmex/BitmexSymbolMapper.cs:153-159 | known exactly when the upper-cased ticker is XBTUSD, XBTJPY, ETHXBT or XBTKRW |
| BitmexSymbolMapper.IsKnownFiatCurrency | Brokerages/Bitmex/BitmexSymbolMapper.cs:165-171 | known exactly when the upper-cased currency is USD or JPY |
| BitmexSymbolMapper.ConvertSymbol | Brokerages/Bitmex/BitmexSymbolMapper.cs:191-210 | blank input throws `ArgumentException`; otherwise each character is upper-cased in place |
| BitmexSymbolMapper.ConvertSymbolIdempotent | Brokerages/Bitmex/BitmexSymbolMapper.cs:191-210 | converting twice equals converting once |
| BitmexSymbolMapper.GetBrokerageSecurityType | Brokerages/Bitmex/BitmexSymbolMapper.cs:127-136 | Crypto for a known ticker, `ArgumentException` otherwise |
| BitmexSymbolMapper.GetLeanSecurityType | Brokerages/Bitmex/BitmexSymbolMapper.cs:143-146 | Crypto for a known ticker, `ArgumentException` otherwise |
| BitmexSymbolMapper.GetLeanSymbol | Brokerages/Bitmex/BitmexSymbolMapper.cs:94-109 | succeeds exactly for a known ticker, Crypto and the Bitmex market, giving the upper-cased ticker; otherwise `ArgumentException` |
| BitmexSymbolMapper.GetLeanSymbolDefault | Brokerages/Bitmex/BitmexSymbolMapper.cs:116-120 | the one-argument form: Crypto on the Bitmex market |
| BitmexSymbolMapper.GetBrokerageSymbol | Brokerages/Bitmex/BitmexSymbolMapper.cs:65-82 | succeeds exactly for a known value, Crypto and Bitmex, giving the upper-cased value; otherwise `ArgumentException` |
| BitmexSymbolMapper.IsKnownLeanSymbol | Brokerages/Bitmex/BitmexSymbolMapper.cs:178-186 | known exactly when the value is a known ticker and the type is Crypto |
| BitmexSymbolMapper.BrokerageRoundTrip | Brokerages/Bitmex/BitmexSymbolMapper.cs:65-120 | ticker → host symbol → ticker yields the upper-cased ticker |
| BitmexSymbolMapper.LeanRoundTrip | Brokerages/Bitmex/BitmexSymbolMapper.cs:65-120 | an upper-case host symbol → ticker → host symbol is the same symbol |
| BitmexSymbolMapper.TickerIsKnownLean | Brokerages/Bitmex/BitmexSymbolMapper.cs:178-186 | the host symbol built from a known ticker is a known host symbol |
| BitmexSymbolMapper.KnownSymbols | Brokerages/Bitmex/BitmexSymbolMapper.cs:30-42 | one known Crypto Bitmex symbol per known ticker, in order |
| BitmexSymbolMapper.LeanSymbolsOf | Brokerages/Bitmex/BitmexSymbolMapper.cs:36-39 | the loop maps each known ticker to its host symbol, in order |
| BitmexUtility.GetEndpoint | Brokerages/Bitmex/BitmexBrokerage.Utility.cs:23-26 | the endpoint is "/api/v1" followed by the method |
| BitmexUtility.SignaturePreimage | Brokerages/Bitmex/BitmexBrokerage.Utility.cs:38-39 | the signed text is verb, endpoint, expiry and payload, in that order, with nothing between |
| BitmexUtility.ConvertOrderStatus | Brokerages/Bitmex/BitmexBrokerage.Utility.cs:176-187 | ignoring case, New → Submitted, PartiallyFilled, Filled, Canceled map to themselves, each in both directions; everything else, the empty text included, → None |
| BitmexUtility.ConvertOrderStatusIgnoresCase | Brokerages/Bitmex/BitmexBrokerage.Utility.cs:176-187 | statuses that agree ignoring case convert alike |
| BitmexUtility.ConvertResolution | Brokerages/Bitmex/BitmexBrokerage.Utility.cs:196-206 | succeeds exactly for Minute, Hour and Daily, with a two-character bin size starting with 1; otherwise `ArgumentException` |
| BitmexUtility.ConvertResolutionRoundTrip | Brokerages/Bitmex/BitmexBrokerage.Utility.cs:196-206 | the bin size "1m"/"1h"/"1d" reads back as the resolution it came from |
| BitmexUtility.ExecuteRestRequest | Brokerages/Bitmex/BitmexBrokerage.Utility.cs:80-101 | between 1 and 10 attempts, every one before the last answered 429, the last answer returned, and a last answer of 429 only after the tenth attempt |
| Rest.AttemptsNeeded | Brokerages/Bitmex/BitmexBrokerage.Utility.cs:95-98 | the do-while's attempt count: 1 to 10, all earlier answers 429, and a non-429 answer unless all ten were used |
| Rest.AttemptsNeededIsFirstAccepted | Brokerages/Bitfinex/BitfinexBrokerage.Utility.cs:228-235 | any count with those properties is the count the loop makes, so the count is the first non-429 attempt (or ten) |
| Hex.DigitChar | Brokerages/Bitmex/BitmexBrokerage.Utility.cs:70 | the `x2` digit of a nibble is a lowercase hex digit |
| Hex.ByteDigits | Brokerages/Bitmex/BitmexBrokerage.Utility.cs:70 | a byte formats as two lowercase hex digits whose value is the byte |
| Hex.HexOf | Brokerages/Bitmex/BitmexBrokerage.Utility.cs:66-72 | the text of n bytes has 2n characters |
| Hex.HexOfAt | Brokerages/Bitmex/BitmexBrokerage.Utility.cs:66-72 | characters 2i and 2i+1 are the digits of byte i |
| Hex.HexOfLowerCase | Brokerages/Bitmex/BitmexBrokerage.Utility.cs:66-72 | every character is a lowercase hex digit |
| Hex.UnhexHexOf | Brokerages/Bitfinex/BitfinexBrokerage.Utility.cs:238-244 | decoding the hex text gives back the bytes |
| Hex.ByteArrayToString | Brokerages/Bitmex/BitmexBrokerage.Utility.cs:66-72 | the loop produces the hex text of the bytes, which decodes back to them |
| BitfinexUtility.GetEndpoint | Brokerages/Bitfinex/BitfinexBrokerage.Utility.cs:131-134 | the endpoint is "/v1/" followed by the method |
| BitfinexUtility.ConvertOrderStatus | Brokerages/Bitfinex/BitfinexBrokerage.Utility.cs:136-156 | first match wins: Submitted iff live with nothing executed; PartiallyFilled iff executed and remaining positive; Filled iff nothing remains and not Submitted; Canceled only for a cancelled order with something remaining |
| BitfinexUtility.ConvertOrderStatusShadowing | Brokerages/Bitfinex/BitfinexBrokerage.Utility.cs:140-153 | a live unexecuted order with nothing remaining is Submitted, and a cancelled order with nothing remaining is Filled |
| BitfinexUtility.ConvertOrderType | Brokerages/Bitfinex/BitfinexBrokerage.Utility.cs:158-175 | succeeds exactly for Limit, Market and StopMarket; otherwise `NotSupportedException` |
| BitfinexUtility.ConvertOrderTypeRoundTrip | Brokerages/Bitfinex/BitfinexBrokerage.Utility.cs:158-175 | the type text names the order type, prefixed by "exchange " exactly for a Cash account |
| BitfinexUtility.ConvertOrderDirection | Brokerages/Bitfinex/BitfinexBrokerage.Utility.cs:177-185 | "buy" iff Buy and "sell" iff Sell; Hold is a `NotSupportedException` |
| BitfinexUtility.GetOrderPrice | Brokerages/Bitfinex/BitfinexBrokerage.Utility.cs:187-200 | the limit price for Limit, 1 for Market, the stop price for StopMarket; any other type is a `NotSupportedException` |
| BitfinexUtility.WalletFilterExclusive | Brokerages/Bitfinex/BitfinexBrokerage.Utility.cs:91-95 | no wallet passes both filters; a wallet passes one iff it is an "exchange" or "trading" wallet |
| BitfinexUtility.OrderFilterPartition | Brokerages/Bitfinex/BitfinexBrokerage.Utility.cs:216-220 | every order passes exactly one of the Cash and Margin filters |
| BitfinexUtility.ExecuteRestRequest | Brokerages/Bitfinex/BitfinexBrokerage.Utility.cs:222-236 | the same bounded 429 retry as the BitMEX loop |
| BitmexFeeModel.GetOrderFee | Common/Orders/Fees/BitmexFeeModel.cs:44-73 | absolute quantity times the maker rate for a resting order, else times the taker rate, in the quote currency |
| BitmexFeeModel.MarketOrderPaysTaker | Common/Orders/Fees/BitmexFeeModel.cs:51 | a market order pays taker whatever its properties |
| BitmexFeeModel.HiddenOrderPaysTaker | Common/Orders/Fees/BitmexFeeModel.cs:48-57 | a hidden order pays taker |
| BitmexFeeModel.FeeSign | Common/Orders/Fees/BitmexFeeModel.cs:30-37 | maker fees are a rebate (≤ 0), taker fees a charge (≥ 0) |
| BitmexFeeModel.FeeIndependentOfPriceAndDirection | Common/Orders/Fees/BitmexFeeModel.cs:60-72 | two orders of equal type, size, properties and marketability pay the same, whatever their prices and directions |
| BitmexMarginModel.GetInitialMarginRequiredForOrder | Common/Securities/BitmexMarginModel.cs:56-67 | a zero order value needs no margin; a positive value is increased by the fee; for a non-negative fee the magnitude of any non-zero requirement is the value's magnitude plus the fee |
| BitmexMarginModel.RoundToLotNonNegative | Common/Securities/BitmexMarginModel.cs:115 | `q -= q % lot` on a non-negative quantity gives whole lots, no more than q and within one lot of it |
| BitmexMarginModel.RoundToLotNegative | Common/Securities/BitmexMarginModel.cs:140 | on a negative quantity the rounding stays non-positive |
| BitmexMarginModel.ReducedQuantityDropsLot | Common/Securities/BitmexMarginModel.cs:129-140 | a reduction pass above the target removes at least one whole lot |
| BitmexMarginModel.TargetDirection | Common/Securities/BitmexMarginModel.cs:88 | Buy iff the target exceeds the holdings value, never Hold |
| BitmexMarginModel.TargetOrderValueAfter | Common/Securities/BitmexMarginModel.cs:161-164 | the fee-adjusted target order value is non-negative |
| BitmexMarginModel.ReducePass | Common/Securities/BitmexMarginModel.cs:129-141 | one pass of the loop's reduction: a positive result is fewer whole lots than before |
| BitmexMarginModel.RoundDown | Common/Securities/BitmexMarginModel.cs:115 | the rounded quantity is a whole number of lots, no larger than before |
| BitmexMarginModel.GetMaximumOrderQuantityForTargetValue | Common/Securities/BitmexMarginModel.cs:69-196 | a zero target returns minus the holding; a zero price or no margin returns 0 with a reason; a zero lot size divides by zero; otherwise a non-zero result is whole lots, fits the target net of its own fee, and is positive iff Buy |
| BitmexMarginModel.ShrinkToTarget | Common/Securities/BitmexMarginModel.cs:123-192 | the do-while ends with 0 or with a positive whole number of lots that fits the target net of its own fee; its non-convergence throw is unreachable |
| BitmexHolding.ClosingPrice | Common/Securities/Crypto/BitmexHolding.cs:45-55 | a long holding closes at the bid, a short one at the ask |
| BitmexHolding.TotalCloseProfit | Common/Securities/Crypto/BitmexHolding.cs:37-59 | zero quantity gives 0; a zero closing price divides by zero; otherwise (profit + fee) × price = (price − average) × quantity × rate × multiplier |
| BitmexHolding.BreakEvenCostsTheFee | Common/Securities/Crypto/BitmexHolding.cs:57-58 | closing at the average price loses exactly the closing fee |
| BitmexHolding.GrossProfitSign | Common/Securities/Crypto/BitmexHolding.cs:45-58 | before fees a long gains iff the bid is above the average price, a short iff the ask is below it |
| BitmexBrokerageModel.NewBitmexBrokerageModel | Common/Brokerages/BitmexBrokerageModel.cs:24-30 | a Cash account throws; a Margin account is kept |
| BitmexBrokerageModel.GetLeverage | Common/Brokerages/BitmexBrokerageModel.cs:58-74 | 1 for every Crypto security, whatever its quote currency; other types throw |
| BitmexBrokerageModel.GetBuyingPowerModel | Common/Brokerages/BitmexBrokerageModel.cs:37-40 | a margin model of leverage 1 for Crypto, the same exception as `GetLeverage` otherwise |
| BitmexBrokerageModel.GetFeeModel | Common/Brokerages/BitmexBrokerageModel.cs:47-50 | the BitMEX fee model, for every security |
| BitmexBrokerageModel.GetDefaultMarkets | Common/Brokerages/BitmexBrokerageModel.cs:76-81 | the default map with Crypto sent to Bitmex and every other entry unchanged |
| Orders.DirectionOf | Brokerages/Bitfinex/BitfinexBrokerage.Utility.cs:255 | the `order.Direction` passed to `ConvertOrderDirection`: Buy iff the quantity is positive, Sell iff negative |
| Orders.StatusEvent | Brokerages/Bitfinex/BitfinexBrokerage.Messaging.cs:388 | a status event names the order, its symbol and direction and the status, with nothing filled and no fee |
| Sequences.MapAllSpec | Brokerages/Bitfinex/BitfinexBrokerage.Messaging.cs:310-317 | converting every entry in turn succeeds iff each entry converts, giving the converted entries in order |
| Sequences.MapAllStep | Brokerages/Bitfinex/BitfinexBrokerage.Messaging.cs:310-317 | one more converted entry extends the converted prefix by it |
| Sequences.MapAllPrefixFails | Brokerages/Bitfinex/BitfinexBrokerage.Messaging.cs:310-317 | a failing prefix makes the whole conversion fail the same way |
| Sequences.Mapped | Brokerages/Bitmex/BitmexBrokerage.Messaging.cs:306-324 | mapping keeps length and order |
| Sequences.MappedStep | Brokerages/Bitmex/BitmexBrokerage.Messaging.cs:306-324 | the mapped prefix grows by the mapped next item |
| BitmexStream.ParseChannel | Brokerages/Bitmex/BitmexBrokerage.Messaging.cs:120-125 | splitting "name:symbol" on ':' fails with `IndexOutOfRangeException` iff there is no ':', else gives two colon-free pieces |
| BitmexStream.SplitPieces | Brokerages/Bitmex/BitmexBrokerage.Messaging.cs:121 | a split has at least two pieces iff the separator occurs |
| BitmexStream.ParseChannelOfKey | Brokerages/Bitmex/BitmexBrokerage.Messaging.cs:120-125 | "name:symbol" built from colon-free parts parses back to them |
| BitmexStream.ParseChannelPrefix | Brokerages/Bitmex/BitmexBrokerage.Messaging.cs:120-125 | the parsed name and symbol, rejoined by ':', are a prefix of the key |
| BitmexStream.QuoteTickOf | Brokerages/Bitmex/BitmexBrokerage.Messaging.cs:253-269 | the tick carries the prices, the absolute sizes, and the mid price as value |
| BitmexStream.TradeTickOf | Brokerages/Bitmex/BitmexBrokerage.Messaging.cs:276-281 | a trade of a known ticker gives a trade tick with the absolute size; an unknown ticker is an `ArgumentException` |
| BitmexStream.TradeTicksUnsigned | Brokerages/Bitmex/BitmexBrokerage.Messaging.cs:286-299 | every trade tick's quantity is non-negative |
| BitmexStream.SnapshotStart | Brokerages/Bitmex/BitmexBrokerage.Messaging.cs:172-183 | an existing book is cleared, a missing one is created empty |
| BitmexStream.SnapshotRegisters | Brokerages/Bitmex/BitmexBrokerage.Messaging.cs:185-192 | after a snapshot every entry id is registered and no other id is added |
| BitmexStream.SnapshotRows | Brokerages/Bitmex/BitmexBrokerage.Messaging.cs:185-192 | the snapshot appends one row per entry, in order: bid for Buy, ask otherwise |
| BitmexStream.SnapshotLevels | Brokerages/Bitmex/BitmexBrokerage.Messaging.cs:185-192 | with distinct fresh ids, each id is registered with its entry's side and price |
| BitmexStream.UpdateBook | Brokerages/Bitmex/BitmexBrokerage.Messaging.cs:212-238 | an update of a book fails with `KeyNotFoundException` exactly when the action is not "insert" and the id is unknown |
| BitmexStream.ApplyUpdate | Brokerages/Bitmex/BitmexBrokerage.Messaging.cs:209-238 | an applied update keeps the set of books |
| BitmexStream.UpdateOutcome | Brokerages/Bitmex/BitmexBrokerage.Messaging.cs:209-238 | an unknown ticker is an `ArgumentException`; a missing book or unknown id a `KeyNotFoundException`; otherwise only that symbol's book changes |
| BitmexStream.UpdateEffect | Brokerages/Bitmex/BitmexBrokerage.Messaging.cs:218-237 | a known id keeps its stored price, an inserted unknown one takes the entry's; the id is registered with the entry's side; a side change first removes both rows at that price; then the entry's side gets its row at that price with the new size |
| BitmexStream.DeleteEffect | Brokerages/Bitmex/BitmexBrokerage.Messaging.cs:212-215 | "delete" removes both rows at the stored price and forgets the id |
| BitmexStream.UpdateAll | Brokerages/Bitmex/BitmexBrokerage.Messaging.cs:207-239 | applying the entries in turn keeps the set of books |
| BitmexStream.UpdateAllPrefixFails | Brokerages/Bitmex/BitmexBrokerage.Messaging.cs:207-245 | once a prefix fails, the whole update fails the same way |
| BitmexStream.UpdateNeedsSnapshot | Brokerages/Bitmex/BitmexBrokerage.Messaging.cs:210 | an update naming a known ticker with no book fails |
| BitmexStream.RouteOf | Brokerages/Bitmex/BitmexBrokerage.Messaging.cs:306-324 | "Funding" (ignoring case) goes to funding; fills only for PartiallyFilled/Filled; closes only for Canceled |
| BitmexStream.RouteIgnoresCase | Brokerages/Bitmex/BitmexBrokerage.Messaging.cs:308-315 | entries that agree ignoring case are routed alike |
| BitmexStream.FillEvent | Brokerages/Bitmex/BitmexBrokerage.Messaging.cs:336-355 | a fill of a known ticker with price and quantity gives an event with the order, symbol, converted status, side, price, fee, and the quantity negated for a Sell; otherwise the exception the source throws |
| BitmexStream.FillSignMatchesSide | Brokerages/Bitmex/BitmexBrokerage.Messaging.cs:345-347 | the fill quantity is negated for Sell, so its sign gives the side |
| BitmexStream.FundingAmount | Brokerages/Bitmex/BitmexBrokerage.Messaging.cs:385-388 | the funding fee is the satoshi amount over 10^8, and 0 when missing |
| BitmexMessaging.UpdateLevel | Brokerages/Bitmex/BitmexBrokerage.Messaging.cs:212-238 | the imperative update of one book equals `UpdateBook` |
| BitmexMessaging.BitmexBrokerage.constructor | Brokerages/Bitmex/BitmexBrokerage.Messaging.cs:18-22 | unlocked, empty buffer, no channels, books, ticks, orders or events |
| BitmexMessaging.BitmexBrokerage.OnMessage | Brokerages/Bitmex/BitmexBrokerage.Messaging.cs:29-49 | a locked stream queues the message and changes nothing else; an unlocked one dispatches it at once |
| BitmexMessaging.BitmexBrokerage.OnMessageImpl | Brokerages/Bitmex/BitmexBrokerage.Messaging.cs:56-85 | an unparsable message fails and changes nothing; a null parse is ignored; otherwise the message changes only the part of the state its kind owns; a failure is logged as an error and propagated |
| BitmexMessaging.BitmexBrokerage.Dispatch | Brokerages/Bitmex/BitmexBrokerage.Messaging.cs:61-78 | each kind of message changes only its own part of the state: subscriptions the channels, book data the books and ticks, trades the ticks, executions the orders, events and cash |
| BitmexMessaging.BitmexBrokerage.DispatchTable | Brokerages/Bitmex/BitmexBrokerage.Messaging.cs:69-77 | order-book, trade and execution messages change only the state their handlers own |
| BitmexMessaging.BitmexBrokerage.LockStream | Brokerages/Bitmex/BitmexBrokerage.Messaging.cs:90-94 | the stream is locked |
| BitmexMessaging.BitmexBrokerage.UnlockStream | Brokerages/Bitmex/BitmexBrokerage.Messaging.cs:99-111 | the backlog is dispatched in arrival order and the stream unlocked; if a handler throws, the rest stays queued and the stream stays locked |
| BitmexMessaging.BitmexBrokerage.OnSubscribe | Brokerages/Bitmex/BitmexBrokerage.Messaging.cs:113-131 | a new "name:symbol" channel is added; a known one is unchanged; a null or colon-free channel fails and changes nothing |
| BitmexMessaging.BitmexBrokerage.OnUnsubscribe | Brokerages/Bitmex/BitmexBrokerage.Messaging.cs:133-150 | the channel is read as written, from the "subscribe" key: a null channel is an `ArgumentNullException` and a present one is removed; so every unsubscribe confirmation `Parse` classifies fails with `ArgumentNullException` and leaves the channels as they were |
| BitmexMessaging.BitmexBrokerage.OnUnsubscribeCorrected | Brokerages/Bitmex/BitmexBrokerage.Messaging.cs:133-150 | the intended handler: the channel named by the "unsubscribe" key is removed, and a null channel fails with `ArgumentNullException` |
| BitmexMessaging.BitmexBrokerage.ForgetChannel | Brokerages/Bitmex/BitmexBrokerage.Messaging.cs:137-147 | a channel read with an error or as null fails and changes nothing; a present one is removed from the channel list |
| BitmexMessaging.BitmexBrokerage.OnOrderbook | Brokerages/Bitmex/BitmexBrokerage.Messaging.cs:152-162 | "partial" (ignoring case) is a snapshot; any other action an update |
| BitmexMessaging.BitmexBrokerage.ProcessSnapshot | Brokerages/Bitmex/BitmexBrokerage.Messaging.cs:164-201 | an empty snapshot is an `InvalidOperationException` and an unknown instrument an `ArgumentException`, both changing nothing; otherwise the book, cleared or new, holds exactly the snapshot and one quote tick of its best levels is emitted |
| BitmexMessaging.BitmexBrokerage.ProcessUpdate | Brokerages/Bitmex/BitmexBrokerage.Messaging.cs:203-246 | the entries are applied in order; on the first failure the exception propagates with the earlier entries applied |
| BitmexMessaging.BitmexBrokerage.UpdateEntry | Brokerages/Bitmex/BitmexBrokerage.Messaging.cs:209-238 | one entry's update equals `ApplyUpdate`; a failure changes nothing |
| BitmexMessaging.BitmexBrokerage.EmitQuoteTick | Brokerages/Bitmex/BitmexBrokerage.Messaging.cs:253-269 | exactly one quote tick is appended |
| BitmexMessaging.BitmexBrokerage.EmitTradeTick | Brokerages/Bitmex/BitmexBrokerage.Messaging.cs:286-299 | exactly one trade tick with the absolute quantity is appended |
| BitmexMessaging.BitmexBrokerage.OnTrade | Brokerages/Bitmex/BitmexBrokerage.Messaging.cs:271-284 | actions other than "insert" are ignored; inserts emit one trade tick per entry |
| BitmexMessaging.BitmexBrokerage.EmitTradeTicks | Brokerages/Bitmex/BitmexBrokerage.Messaging.cs:276-283 | the loop emits the trade ticks of the entries in order, stopping at an unknown ticker |
| BitmexMessaging.BitmexBrokerage.OnExecution | Brokerages/Bitmex/BitmexBrokerage.Messaging.cs:301-325 | actions other than "insert" are ignored; inserts route every entry in order, and at most one event per entry is raised |
| BitmexMessaging.BitmexBrokerage.HandleExecutions | Brokerages/Bitmex/BitmexBrokerage.Messaging.cs:306-324 | the loop routes the entries in order, at most one event each |
| BitmexMessaging.BitmexBrokerage.HandleExecution | Brokerages/Bitmex/BitmexBrokerage.Messaging.cs:308-323 | one entry goes to the handler its route names, raising at most one event; an entry routed nowhere passes and leaves the orders, events and cash unchanged |
| BitmexMessaging.BitmexBrokerage.OnFillOrder | Brokerages/Bitmex/BitmexBrokerage.Messaging.cs:327-363 | no side or an unknown order is ignored; otherwise exactly one fill event (see `FillEvent`) |
| BitmexMessaging.BitmexBrokerage.OnOrderClose | Brokerages/Bitmex/BitmexBrokerage.Messaging.cs:365-379 | a found order still cached leaves the cache with one Canceled event; otherwise nothing |
| BitmexMessaging.BitmexBrokerage.OnFunding | Brokerages/Bitmex/BitmexBrokerage.Messaging.cs:381-392 | the XBT cash is reduced by the funding fee; a missing XBT entry is a `KeyNotFoundException` |
| BitmexMessaging.BitmexBrokerage.FindOrderByExternalId | Brokerages/Bitmex/BitmexBrokerage.Messaging.cs:394-405 | a cached order holding the id, else the ledger's answer |
| BitfinexStream.TextOf | Brokerages/Bitfinex/BitfinexBrokerage.Messaging.cs:207 | a scalar converts to its text; arrays and objects throw |
| BitfinexStream.ChannelOf | Brokerages/Bitfinex/BitfinexBrokerage.Messaging.cs:187 | the channel is the integer reading of the first element |
| BitfinexStream.RouteOf | Brokerages/Bitfinex/BitfinexBrokerage.Messaging.cs:185-242 | snapshot/update only for a non-zero channel with a non-string second element, snapshot iff two elements; close/fill only on channel 0 with "oc"/"tu" ignoring case; subscribe/unsubscribe only for those events; scalars are ignored |
| BitfinexStream.AccountChannelRouting | Brokerages/Bitfinex/BitfinexBrokerage.Messaging.cs:205-218 | on channel 0, "oc" routes to the close handler, "tu" to the fill handler, any other term is ignored |
| BitfinexStream.BookChannelRouting | Brokerages/Bitfinex/BitfinexBrokerage.Messaging.cs:188-204 | on a book channel a string second element is ignored; two elements are a snapshot, more an update of the rest |
| BitfinexStream.OtherEventsIgnored | Brokerages/Bitfinex/BitfinexBrokerage.Messaging.cs:224-241 | every other event is ignored |
| BitfinexStream.SnapshotRow | Brokerages/Bitfinex/BitfinexBrokerage.Messaging.cs:312-318 | an entry is a bid row iff its amount is positive, else an ask row, at its price and amount |
| BitfinexStream.SnapshotRowsPerEntry | Brokerages/Bitfinex/BitfinexBrokerage.Messaging.cs:310-319 | one row per entry in order, bid iff amount > 0, ask iff amount ≤ 0 |
| BitfinexStream.SnapshotStart | Brokerages/Bitfinex/BitfinexBrokerage.Messaging.cs:299-308 | an existing book is cleared, a missing one created |
| BitfinexStream.UpdateRows | Brokerages/Bitfinex/BitfinexBrokerage.Messaging.cs:341-359 | count 0 removes the price level; otherwise amount > 0 a bid row, < 0 an ask row, 0 nothing |
| BitfinexStream.ZeroAmountSnapshotAndUpdate | Brokerages/Bitfinex/BitfinexBrokerage.Messaging.cs:314-358 | a zero amount is an ask row in a snapshot but no row at all in an update |
| BitfinexStream.QuoteTickOf | Brokerages/Bitfinex/BitfinexBrokerage.Messaging.cs:463-479 | the tick carries the prices and sizes as given and the mid price as value |
| BitfinexStream.FillEvent | Brokerages/Bitfinex/BitfinexBrokerage.Messaging.cs:418-437 | Filled iff the fill quantity equals the order quantity, else PartiallyFilled; Sell iff the quantity is negative; no fee for a zero quantity |
| BitfinexStream.RemoveFirst | Brokerages/Bitfinex/BitfinexBrokerage.Messaging.cs:444 | `List.Remove` drops one occurrence, or nothing when absent |
| BitfinexStream.PendingCloseSettles | Brokerages/Bitfinex/BitfinexBrokerage.Messaging.cs:395-447 | an id queued by a close and then settled by its fill leaves the same pending ids counted with multiplicity, and the very same list when the id was not already pending |
| BitfinexStream.RemoveFirstAbsent | Brokerages/Bitfinex/BitfinexBrokerage.Messaging.cs:395-447 | for an id not already pending, queue then settle is the identity |
| BitfinexStream.RecordBrokerId | Brokerages/Bitfinex/BitfinexBrokerage.Utility.cs:294-304 | a cached order's ids become exactly the new id; an uncached order gets it appended and is cached; other orders are unchanged |
| BitfinexStream.RecordedIdIsFound | Brokerages/Bitfinex/BitfinexBrokerage.Utility.cs:294-304 | after recording, looking the id up finds a cached order holding it |
| BitfinexMessaging.PayloadFailure | Brokerages/Bitfinex/BitfinexBrokerage.Utility.cs:250-262 | the payload is built iff the symbol maps, the direction is not Hold, the type is supported and any first broker id parses as a long |
| BitfinexMessaging.BitfinexBrokerage.constructor | Brokerages/Bitfinex/BitfinexBrokerage.Messaging.cs:41-48 | unlocked, empty buffer, no channels, books, ticks, orders, pending closes or events |
| BitfinexMessaging.BitfinexBrokerage.OnMessage | Brokerages/Bitfinex/BitfinexBrokerage.Messaging.cs:86-104 | a locked stream queues the message and changes nothing else; an unlocked one dispatches it at once |
| BitfinexMessaging.BitfinexBrokerage.OnMessageImpl | Brokerages/Bitfinex/BitfinexBrokerage.Messaging.cs:179-249 | a parse or conversion failure emits an error message, propagates and changes nothing; an ignored message changes nothing; otherwise the message changes only the part of the state its route owns |
| BitfinexMessaging.BitfinexBrokerage.Dispatch | Brokerages/Bitfinex/BitfinexBrokerage.Messaging.cs:185-242 | each route changes only its own part of the state: subscriptions the channels, book data the books (a snapshot also the ticks), order updates the cache, pending closes and events; an ignored message changes nothing |
| BitfinexMessaging.BitfinexBrokerage.LockStream | Brokerages/Bitfinex/BitfinexBrokerage.Messaging.cs:484-488 | the stream is locked |
| BitfinexMessaging.BitfinexBrokerage.UnlockStream | Brokerages/Bitfinex/BitfinexBrokerage.Messaging.cs:493-505 | the backlog is dispatched in arrival order and only then the lock cleared; a throwing handler leaves the rest queued and the lock set; an empty backlog changes nothing but the lock |
| BitfinexMessaging.BitfinexBrokerage.OnSubscribe | Brokerages/Bitfinex/BitfinexBrokerage.Messaging.cs:251-274 | the channel id maps to a channel of that name and symbol, new or overwritten |
| BitfinexMessaging.BitfinexBrokerage.OnUnsubscribe | Brokerages/Bitfinex/BitfinexBrokerage.Messaging.cs:276-290 | the channel id is removed |
| BitfinexMessaging.BitfinexBrokerage.OnSnapshot | Brokerages/Bitfinex/BitfinexBrokerage.Messaging.cs:292-331 | an unknown channel or symbol fails and changes nothing; otherwise the book, cleared or new, gets one row per entry in order and one quote tick of its best levels; a failing entry propagates with the earlier rows written and no tick |
| BitfinexMessaging.BitfinexBrokerage.OnUpdate | Brokerages/Bitfinex/BitfinexBrokerage.Messaging.cs:333-366 | an unknown channel, symbol or book fails; otherwise the book gets the rows `UpdateRows` gives |
| BitfinexMessaging.BitfinexBrokerage.OnOrderClose | Brokerages/Bitfinex/BitfinexBrokerage.Messaging.cs:368-398 | fewer than six fields is an `IndexOutOfRangeException`; "canceled" in the status (ignoring case): a found, still cached order is removed with one Canceled event, otherwise nothing; any other status queues the broker id as pending |
| BitfinexMessaging.BitfinexBrokerage.CancelOrder | Brokerages/Bitfinex/BitfinexBrokerage.Messaging.cs:372-389 | the cancellation branch: removal and one Canceled event only for a found order still cached |
| BitfinexMessaging.BitfinexBrokerage.EmitFillOrder | Brokerages/Bitfinex/BitfinexBrokerage.Messaging.cs:400-456 | fewer than five fields is an `IndexOutOfRangeException`; an unknown order is ignored; otherwise exactly one fill event (see `FillEvent`), and a pending broker id is settled and its order leaves the cache |
| BitfinexMessaging.BitfinexBrokerage.EmitQuoteTick | Brokerages/Bitfinex/BitfinexBrokerage.Messaging.cs:463-479 | exactly one quote tick is appended |
| BitfinexMessaging.BitfinexBrokerage.FindOrder | Brokerages/Bitfinex/BitfinexBrokerage.Messaging.cs:405-416 | a cached order holding the id, else the ledger's answer |
| BitfinexMessaging.BitfinexBrokerage.RecordReply | Brokerages/Bitfinex/BitfinexBrokerage.Utility.cs:280-316 | an OK reply with an id records it and raises Submitted; otherwise Invalid and a warning, cache untouched |
| BitfinexMessaging.BitfinexBrokerage.SubmitOrder | Brokerages/Bitfinex/BitfinexBrokerage.Utility.cs:246-320 | a payload failure propagates with the stream locked and nothing else changed; otherwise the stream ends unlocked with the backlog drained and true is returned, and with an empty backlog the reply is recorded: Submitted and the new broker id for an OK reply with an id, otherwise Invalid and the warning with the reply's code; channels, books, ticks and pending closes are unchanged |
| BitfinexMessaging.BitfinexBrokerage.PlaceOrder | Brokerages/Bitfinex/BitfinexBrokerage.Utility.cs:278-316 | the reply to the last of the retried attempts is recorded: Submitted and the broker id for an OK reply with an id, otherwise Invalid and a warning carrying 200 or -1 |

## Left out

- Threads: the `lock` blocks, `volatile` flags and concurrent collections become one sequential object. Arrival, lock and unlock are method calls, so interleavings are not modelled.
- JSON decoding and number parsing: BitMEX messages are an abstract key → value object. Bitfinex tokens carry each scalar's text together with what `decimal.Parse` and `int.Parse` make of it. A failed parse is an error of the handler, without the exact exception kind.
- Exception kinds are simplified. A failed conversion is an `ArgumentException`, and a missing array element is an `IndexOutOfRangeException`.
- HMAC signing, nonces, expiry clocks, `DateTime.UtcNow` and the `double.Parse` timestamp of a Bitfinex fill: foreign calls and floating point. Ticks carry an opaque time, and only the BitMEX signature pre-image is stated.
- REST traffic is not modelled. Each attempt's status code is an input, and a reply's order id is a parameter. The Bitfinex rate gate's waiting and the BitMEX rate-limit warning are I/O.
- Subscribe and authentication sends, and all logging, are I/O and are not modelled.
- The base `OrderBook` is not part of this model. Its row calls are recorded, and its best bid and ask are an abstract function `bestOf`. The detaching and re-attaching of `BestBidAskUpdated` during a snapshot is not modelled, and neither are the quote ticks that handler emits on later book changes.
- The brokerages hold their order books as values, so aliasing between a book and the map that holds it is not modelled.
- The Bitfinex symbol mapper and the securities' fee models are not part of this model. They are parameters of the Bitfinex brokerage (`leanSymbol`, `brokerageSymbol`, `orderFee`), as are `long.Parse` (`parsesAsLong`), the account type and the transaction ledger (`ledger`).
- `SecurityMarginModel`, `CryptoHolding`, `Security` and `Order.IsMarketable` are not part of this model. Margin remaining, unit price, order fees, holding values and marketability are parameters.
- The payload of a Bitfinex order (its text, nonce and signature) is not modelled, only whether building it throws.
- The channel and symbol fields of Bitfinex event replies are taken as present.
- The BitMEX `ConvertOrderStatus(Messages.Order)` overload only forwards the status text, so only the text form is modelled.
- Configuration, the downloader tool, the sample strategy and the live integration tests are outside the adapters' core.
- BitmexMessaging.BitmexBrokerage.FindOrderByExternalId: when several cached orders hold the id, the model picks any one of them, because the dictionary's enumeration order is not specified.
- BitfinexMessaging.BitfinexBrokerage.FindOrder: the same nondeterministic choice among cached orders holding the id.
- BitmexMessaging.BitmexBrokerage.Dispatch: states which part of the state each kind of message may change. What each handler does is stated by that handler's own contract, not repeated here.
- BitmexMessaging.BitmexBrokerage.OnUnsubscribeCorrected: is not reached by `Dispatch`, which sends unsubscribe confirmations to the handler as written. It states the behaviour the channel accessor's fix would give.
- BitmexMessaging.BitmexBrokerage.DispatchTable: the same, for the table messages.
- BitmexMessaging.BitmexBrokerage.OnMessageImpl: the same, after parsing.
- BitfinexMessaging.BitfinexBrokerage.Dispatch: the same, for each route.
- BitfinexMessaging.BitfinexBrokerage.OnMessageImpl: the same, after parsing and routing.
- BitmexMessaging.BitmexBrokerage.OnExecution: states the route taken by each entry, that events are only appended, and at most one event per entry. What each route does is stated by `OnFillOrder`, `OnOrderClose` and `OnFunding`, not repeated in the loop's contract.
- BitmexMessaging.BitmexBrokerage.HandleExecutions: the same, per loop.
- BitmexMessaging.BitmexBrokerage.HandleExecution: the same, per entry.
- BitfinexMessaging.BitfinexBrokerage.SubmitOrder: when messages were queued before the call, the state after draining them is stated only through `UnlockStream`'s ordering guarantees.
- BitfinexUtility.ConvertOrderStatus: Canceled is stated one way only (a cancelled order with something remaining). The converse holds only when none of the earlier cases matches.
- OrderBookUpdater.BitmexOrderBookUpdater.UpdateAskRow: the ladder invariant bounds every level by the cached best, but does not require the best to be a level still present. Overwriting or resizing the best level leaves a stale cache in the source as well.
- OrderBookUpdater.BitmexOrderBookUpdater.UpdateBidRow: the same bound-only invariant.
- Text.ToUpper: upper-cases ASCII letters only, so culture-aware casing of other letters is not modelled.
- Text.ToLower: lower-cases ASCII letters only, so the culture-aware casing of other letters by `ToLower()` when Bitfinex routes a channel term or an event name is not modelled.
- Orders.DirectionOf: `Order.Direction` is defined by the host engine, whose source is not part of this model; its rule, including Hold for a zero quantity, follows that host definition. A fill's own direction (Sell iff negative, so zero gives Buy) is modelled separately by `BitfinexStream.FillEvent`.
- BitmexMarginModel.ShrinkToTarget: the order fee and the fee-adjusted target are abstract functions of the quantity.
- BitmexMarginModel.GetMaximumOrderQuantityForTargetValue: the same abstraction of the order fee. The explanatory reason texts are reduced to their kind.

## Findings

| source | as written | input that shows it | evidently intended | confidence | as-written member | corrected member |
|---|---|---|---|---|---|---|
| Brokerages/Bitmex/Messages.cs:157 | `Unsubscribe.Channel` reads the "subscribe" key, which an unsubscribe reply never has (`Parse` sends any object with that key to `Subscribe`), so the channel is always null and `OnUnsubscribe` fails instead of removing the channel | `{"unsubscribe": "orderBookL2:XBTUSD", "success": true}` | read the "unsubscribe" key, the mirror of `Subscribe.Channel`, so that `OnUnsubscribe` removes the channel (`BitmexMessaging.BitmexBrokerage.OnUnsubscribeCorrected`) | not executed | BitmexMessages.UnsubscribeChannelCounterexample | BitmexMessages.UnsubscribeChannel |
