/**
 * The BitMEX order book: a price-keyed base book (a trace of row calls here)
 * with a registry from the exchange's price-level id to the side and price of
 * that level. An `orderBookL2` update names a level only by its id, so every
 * later update and delete of the level goes through this registry.
 */
module BitmexOrderBooks {
  import opened Wrappers
  import opened Orders
  import opened OrderBookRows

  /** The side and price registered for a price-level id. */
  datatype PriceLevelEntry = PriceLevelEntry(side: OrderDirection, price: real)

  /**
   * The value of a book: the id registry and the row calls made on the base book.
   * The operations are the book's methods on values.
   */
  datatype BookValue = BookValue(priceLevels: map<int, PriceLevelEntry>, rows: seq<RowCall>)
  {
    /** `AddPriceLevel`: registers the id only when it is not registered yet. */
    function AddPriceLevel(priceId: int, side: OrderDirection, price: real): (r: BookValue)
      ensures r.rows == rows
      ensures r.priceLevels.Keys == priceLevels.Keys + {priceId}
      ensures forall id :: id in priceLevels ==> r.priceLevels[id] == priceLevels[id]
      ensures priceId !in priceLevels ==> r.priceLevels[priceId] == PriceLevelEntry(side, price)
    {
      if priceId in priceLevels then this
      else BookValue(priceLevels[priceId := PriceLevelEntry(side, price)], rows)
    }

    /** `GetPriceLevel`: the registered entry; an unknown id is a `KeyNotFoundException`. */
    function GetPriceLevel(priceId: int): (r: Result<PriceLevelEntry>)
      ensures r.Ok? <==> priceId in priceLevels
      ensures r.Ok? ==> r.value == priceLevels[priceId]
      ensures r.Err? ==> r.error == KeyNotFoundException
    {
      if priceId in priceLevels then Ok(priceLevels[priceId]) else Err(KeyNotFoundException)
    }

    /**
     * `RemovePriceLevel`: removes the ask row and then the bid row at the
     * registered price and forgets the id. An unknown id fails at the lookup,
     * before any row is touched.
     */
    function RemovePriceLevel(priceId: int): (r: Result<BookValue>)
      ensures r.Err? <==> priceId !in priceLevels
      ensures r.Err? ==> r.error == KeyNotFoundException
      ensures r.Ok? ==>
        && r.value.priceLevels == priceLevels - {priceId}
        && r.value.rows == rows + [RemoveAskRow(priceLevels[priceId].price), RemoveBidRow(priceLevels[priceId].price)]
    {
      if priceId !in priceLevels then Err(KeyNotFoundException)
      else
        var price := priceLevels[priceId].price;
        Ok(BookValue(priceLevels - {priceId}, rows + [RemoveAskRow(price), RemoveBidRow(price)]))
    }

    /** `Clear`: clears the base book, then the registry. */
    function Clear(): (r: BookValue)
      ensures r.priceLevels == map[]
      ensures r.rows == rows + [ClearRows]
    {
      BookValue(map[], rows + [ClearRows])
    }

    /** The base book's `UpdateBidRow`. */
    function UpdateBidRow(price: real, size: real): (r: BookValue)
      ensures r.priceLevels == priceLevels && r.rows == rows + [RowCall.UpdateBidRow(price, size)]
    {
      BookValue(priceLevels, rows + [RowCall.UpdateBidRow(price, size)])
    }

    /** The base book's `UpdateAskRow`. */
    function UpdateAskRow(price: real, size: real): (r: BookValue)
      ensures r.priceLevels == priceLevels && r.rows == rows + [RowCall.UpdateAskRow(price, size)]
    {
      BookValue(priceLevels, rows + [RowCall.UpdateAskRow(price, size)])
    }
  }

  /** A new book: no levels, no row calls. */
  const EmptyBook := BookValue(map[], [])

  /** Adding an id twice keeps the first registration, whatever the second one says. */
  lemma AddPriceLevelIdempotent(book: BookValue, priceId: int, side: OrderDirection, price: real,
                                side2: OrderDirection, price2: real)
    ensures book.AddPriceLevel(priceId, side, price).AddPriceLevel(priceId, side2, price2)
         == book.AddPriceLevel(priceId, side, price)
  {
  }

  /** After an add, the id is registered, under the new entry only when it was unknown. */
  lemma GetAfterAdd(book: BookValue, priceId: int, side: OrderDirection, price: real)
    ensures book.AddPriceLevel(priceId, side, price).GetPriceLevel(priceId)
         == Ok(if priceId in book.priceLevels then book.priceLevels[priceId] else PriceLevelEntry(side, price))
  {
  }

  /**
   * Removing a freshly added id restores the registry and leaves exactly the two
   * row removals at its price in the trace.
   */
  lemma RemoveAfterAdd(book: BookValue, priceId: int, side: OrderDirection, price: real)
    requires priceId !in book.priceLevels
    ensures book.AddPriceLevel(priceId, side, price).RemovePriceLevel(priceId)
         == Ok(BookValue(book.priceLevels, book.rows + [RemoveAskRow(price), RemoveBidRow(price)]))
  {
    assert book.AddPriceLevel(priceId, side, price).priceLevels - {priceId} == book.priceLevels;
  }

  /** A removed id is unknown afterwards, and every other id keeps its entry. */
  lemma GetAfterRemove(book: BookValue, priceId: int, other: int)
    requires priceId in book.priceLevels
    ensures book.RemovePriceLevel(priceId).value.GetPriceLevel(priceId) == Err(KeyNotFoundException)
    ensures other != priceId ==>
      book.RemovePriceLevel(priceId).value.GetPriceLevel(other) == book.GetPriceLevel(other)
  {
  }

  /**
   * Re-registering a known id under another side, as an update that changes the
   * side does, keeps the registered price and changes only that id's side.
   */
  lemma MoveToSide(book: BookValue, priceId: int, side: OrderDirection)
    requires priceId in book.priceLevels
    ensures var price := book.priceLevels[priceId].price;
      var moved := book.RemovePriceLevel(priceId).value.AddPriceLevel(priceId, side, price);
      && moved.priceLevels == book.priceLevels[priceId := PriceLevelEntry(side, price)]
      && moved.rows == book.rows + [RemoveAskRow(price), RemoveBidRow(price)]
  {
    var price := book.priceLevels[priceId].price;
    var moved := book.RemovePriceLevel(priceId).value.AddPriceLevel(priceId, side, price);
    assert moved.priceLevels == book.priceLevels[priceId := PriceLevelEntry(side, price)];
  }

  /** After `Clear` no id is known. */
  lemma GetAfterClear(book: BookValue, priceId: int)
    ensures book.Clear().GetPriceLevel(priceId) == Err(KeyNotFoundException)
  {
  }

  /** The order book object; its methods are the value operations applied in place. */
  class BitmexOrderBook {
    const symbol: Symbol
    var priceLevels: map<int, PriceLevelEntry>
    var rows: seq<RowCall>

    function Value(): BookValue
      reads this
    {
      BookValue(priceLevels, rows)
    }

    constructor (symbol: Symbol)
      ensures this.symbol == symbol && Value() == EmptyBook
    {
      this.symbol := symbol;
      priceLevels, rows := map[], [];
    }

    method AddPriceLevel(priceId: int, side: OrderDirection, price: real)
      modifies this
      ensures Value() == old(Value()).AddPriceLevel(priceId, side, price)
    {
      if priceId !in priceLevels {
        priceLevels := priceLevels[priceId := PriceLevelEntry(side, price)];
      }
    }

    method GetPriceLevel(priceId: int) returns (r: Result<PriceLevelEntry>)
      ensures r == Value().GetPriceLevel(priceId)
    {
      if priceId in priceLevels {
        return Ok(priceLevels[priceId]);
      }
      return Err(KeyNotFoundException);
    }

    method RemovePriceLevel(priceId: int) returns (r: Outcome)
      modifies this
      ensures old(Value()).RemovePriceLevel(priceId).Ok? ==>
        r == Pass && Value() == old(Value()).RemovePriceLevel(priceId).value
      ensures old(Value()).RemovePriceLevel(priceId).Err? ==>
        r == Fail(KeyNotFoundException) && Value() == old(Value())
    {
      if priceId !in priceLevels {
        return Fail(KeyNotFoundException);
      }
      var price := priceLevels[priceId];
      rows := rows + [RemoveAskRow(price.price)];
      rows := rows + [RemoveBidRow(price.price)];
      priceLevels := priceLevels - {priceId};
      return Pass;
    }

    method Clear()
      modifies this
      ensures Value() == old(Value()).Clear()
    {
      rows := rows + [ClearRows];
      priceLevels := map[];
    }

    method UpdateBidRow(price: real, size: real)
      modifies this
      ensures Value() == old(Value()).UpdateBidRow(price, size)
    {
      rows := rows + [RowCall.UpdateBidRow(price, size)];
    }

    method UpdateAskRow(price: real, size: real)
      modifies this
      ensures Value() == old(Value()).UpdateAskRow(price, size)
    {
      rows := rows + [RowCall.UpdateAskRow(price, size)];
    }
  }
}
