/**
 * The records the websocket brokerage base class keeps for both adapters (the
 * subscribed channels and the ticks handed to the data queue) and the lookup
 * both adapters make of an order by its brokerage id. The base class itself is
 * not part of this model.
 */
module Websockets {
  import opened Wrappers
  import opened Orders

  /** A subscribed channel: its name and the instrument it streams. */
  datatype Channel = Channel(name: string, symbol: string)

  /** A tick as added to the brokerage's tick list. Times are opaque tick counts. */
  datatype Tick =
    | QuoteTick(symbol: Symbol, bidPrice: real, bidSize: real, askPrice: real, askSize: real, value: real)
    | TradeTick(symbol: Symbol, value: real, quantity: real, time: int)

  /**
   * The order the handlers find for a brokerage id: some cached order whose
   * brokerage ids contain it (the dictionary's enumeration order is not
   * specified, so any of them), else the transaction ledger's answer.
   */
  ghost predicate FoundBy(cached: map<int, Order>, ledger: string -> Option<Order>, brokerId: string, found: Option<Order>)
  {
    if exists id :: id in cached && brokerId in cached[id].brokerId
    then found.Some? && brokerId in found.value.brokerId && exists id :: id in cached && cached[id] == found.value
    else found == ledger(brokerId)
  }
}
