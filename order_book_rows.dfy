/**
 * The base `OrderBook` that both adapters write price rows into is not part of
 * this model. Its row operations are recorded as a trace of calls, and what the
 * adapters read back from it (the best bid and ask) is a parameter of the
 * brokerages that read it.
 */
module OrderBookRows {

  /** A call on the base book's row operations, keyed by price. */
  datatype RowCall =
    | UpdateBidRow(price: real, size: real)
    | UpdateAskRow(price: real, size: real)
    | RemoveBidRow(price: real)
    | RemoveAskRow(price: real)
    | RemovePriceLevel(price: real)
    | ClearRows

  /** Best bid price and size, best ask price and size, as the base book reports them. */
  datatype Quote = Quote(bidPrice: real, bidSize: real, askPrice: real, askSize: real)
}
