/**
 * The BitMEX price-level ladder: bid and ask levels keyed by the exchange's
 * price-level id, with the best bid and best ask cached in four fields. Zero in a
 * cached price means "no best known" for that side. Every change of a cached best
 * raises a `BestBidAskUpdated` event, recorded here in `events`.
 */
module OrderBookUpdater {
  import opened Wrappers
  import opened Orders

  /** A price level: its price and its size. */
  datatype PriceLevelEntry = PriceLevelEntry(price: real, size: real)

  /** The default `PriceLevelEntry`, returned for a missing id or an empty side. */
  const NoLevel := PriceLevelEntry(0.0, 0.0)

  /** The arguments of a `BestBidAskUpdated` event. */
  datatype BestBidAsk = BestBidAsk(symbol: Symbol, bidPrice: real, bidSize: real, askPrice: real, askSize: real)

  /**
   * `e` is a level of highest price in `levels` (any one of them when several
   * share that price), or `NoLevel` when there is none.
   */
  predicate IsHighest(levels: map<int, PriceLevelEntry>, e: PriceLevelEntry)
  {
    if levels == map[] then e == NoLevel
    else (exists id :: id in levels && levels[id] == e) && forall id :: id in levels ==> levels[id].price <= e.price
  }

  /** `e` is a level of lowest price in `levels`, or `NoLevel` when there is none. */
  predicate IsLowest(levels: map<int, PriceLevelEntry>, e: PriceLevelEntry)
  {
    if levels == map[] then e == NoLevel
    else (exists id :: id in levels && levels[id] == e) && forall id :: id in levels ==> e.price <= levels[id].price
  }

  /** The best price of a side is determined by its levels; only the size can depend on the scan order. */
  lemma HighestPriceUnique(levels: map<int, PriceLevelEntry>, a: PriceLevelEntry, b: PriceLevelEntry)
    requires IsHighest(levels, a) && IsHighest(levels, b)
    ensures a.price == b.price
  {
    if levels != map[] {
      var i :| i in levels && levels[i] == a;
      var j :| j in levels && levels[j] == b;
      assert levels[i].price <= b.price && levels[j].price <= a.price;
    }
  }

  lemma LowestPriceUnique(levels: map<int, PriceLevelEntry>, a: PriceLevelEntry, b: PriceLevelEntry)
    requires IsLowest(levels, a) && IsLowest(levels, b)
    ensures a.price == b.price
  {
    if levels != map[] {
      var i :| i in levels && levels[i] == a;
      var j :| j in levels && levels[j] == b;
      assert a.price <= levels[j].price && b.price <= levels[i].price;
    }
  }

  /** A non-empty set of ids has a member to pick. */
  lemma NonEmptyHasMember(ids: set<int>)
    requires ids != {}
    ensures exists id :: id in ids
  {
    assert (forall id :: id !in ids) ==> ids == {};
  }

  /**
   * The scan of `CalcBestBidParts`: the first level of highest price in the
   * enumeration order of the dictionary, or the default entry when it is empty.
   */
  method HighestLevel(levels: map<int, PriceLevelEntry>) returns (best: PriceLevelEntry)
    ensures IsHighest(levels, best)
  {
    best := NoLevel;
    var found := false;
    var remaining := levels.Keys;
    while remaining != {}
      invariant remaining <= levels.Keys
      invariant !found ==> best == NoLevel && remaining == levels.Keys
      invariant found ==> exists id :: id in levels && levels[id] == best
      invariant forall id :: id in levels && id !in remaining ==> levels[id].price <= best.price
      decreases remaining
    {
      NonEmptyHasMember(remaining);
      var id :| id in remaining;
      if !found || levels[id].price > best.price {
        best := levels[id];
        found := true;
      }
      remaining := remaining - {id};
    }
  }

  /** The scan of `CalcBestAskParts`: the first level of lowest price, or the default entry. */
  method LowestLevel(levels: map<int, PriceLevelEntry>) returns (best: PriceLevelEntry)
    ensures IsLowest(levels, best)
  {
    best := NoLevel;
    var found := false;
    var remaining := levels.Keys;
    while remaining != {}
      invariant remaining <= levels.Keys
      invariant !found ==> best == NoLevel && remaining == levels.Keys
      invariant found ==> exists id :: id in levels && levels[id] == best
      invariant forall id :: id in levels && id !in remaining ==> best.price <= levels[id].price
      decreases remaining
    {
      NonEmptyHasMember(remaining);
      var id :| id in remaining;
      if !found || levels[id].price < best.price {
        best := levels[id];
        found := true;
      }
      remaining := remaining - {id};
    }
  }

  /** Every level of `levels` has a positive price. */
  predicate PositivePrices(levels: map<int, PriceLevelEntry>)
  {
    forall id :: id in levels ==> levels[id].price > 0.0
  }

  /** A highest level of positively priced levels bounds them from above, and is not negative. */
  lemma HighestBounds(levels: map<int, PriceLevelEntry>, e: PriceLevelEntry)
    requires PositivePrices(levels) && IsHighest(levels, e)
    ensures e.price >= 0.0
    ensures forall id :: id in levels ==> levels[id].price <= e.price
  {
    if levels != map[] {
      var i :| i in levels && levels[i] == e;
    }
  }

  /** A lowest level of positively priced levels is positive and bounds them from below. */
  lemma LowestBounds(levels: map<int, PriceLevelEntry>, e: PriceLevelEntry)
    requires PositivePrices(levels) && IsLowest(levels, e)
    ensures e.price >= 0.0
    ensures forall id :: id in levels ==> 0.0 < e.price <= levels[id].price
  {
    if levels != map[] {
      var i :| i in levels && levels[i] == e;
    }
  }

  /** The entry `TryRemove` and `TryGetValue` leave in their out-parameter. */
  function Lookup(levels: map<int, PriceLevelEntry>, priceId: int): (e: PriceLevelEntry)
    ensures priceId !in levels ==> e == NoLevel
    ensures priceId in levels ==> e == levels[priceId]
  {
    if priceId in levels then levels[priceId] else NoLevel
  }

  class BitmexOrderBookUpdater {
    const symbol: Symbol
    var bestBidPrice: real
    var bestBidSize: real
    var bestAskPrice: real
    var bestAskSize: real
    var bids: map<int, PriceLevelEntry>
    var asks: map<int, PriceLevelEntry>
    /** The `BestBidAskUpdated` events raised so far, oldest first. */
    var events: seq<BestBidAsk>

    /**
     * With positive prices, the cached best bid is at least every bid and the
     * cached best ask at most every ask, and zero only when its side is empty.
     * The cached best need not be a level still present: overwriting or
     * resizing the best level leaves the cache as it was.
     */
    ghost predicate Valid()
      reads this
    {
      && bestBidPrice >= 0.0 && bestAskPrice >= 0.0
      && PositivePrices(bids) && PositivePrices(asks)
      && (forall id :: id in bids ==> bids[id].price <= bestBidPrice)
      && (forall id :: id in asks ==> 0.0 < bestAskPrice <= asks[id].price)
    }

    /** The arguments of the event raised in the current state. */
    function Current(): BestBidAsk
      reads this
    {
      BestBidAsk(symbol, bestBidPrice, bestBidSize, bestAskPrice, bestAskSize)
    }

    constructor (symbol: Symbol)
      ensures this.symbol == symbol
      ensures bids == map[] && asks == map[] && events == []
      ensures bestBidPrice == 0.0 && bestBidSize == 0.0 && bestAskPrice == 0.0 && bestAskSize == 0.0
      ensures Valid()
    {
      this.symbol := symbol;
      bestBidPrice, bestBidSize, bestAskPrice, bestAskSize := 0.0, 0.0, 0.0, 0.0;
      bids, asks, events := map[], map[], [];
    }

    /** `CalcBestBidParts`: caches a highest bid level. */
    method CalcBestBidParts()
      modifies this
      ensures IsHighest(bids, PriceLevelEntry(bestBidPrice, bestBidSize))
      ensures PositivePrices(bids) ==> bestBidPrice >= 0.0 && forall id :: id in bids ==> bids[id].price <= bestBidPrice
      ensures bids == old(bids) && asks == old(asks) && events == old(events)
      ensures bestAskPrice == old(bestAskPrice) && bestAskSize == old(bestAskSize)
    {
      var level := HighestLevel(bids);
      bestBidPrice, bestBidSize := level.price, level.size;
      if PositivePrices(bids) {
        HighestBounds(bids, level);
      }
    }

    /** `CalcBestAskParts`: caches a lowest ask level. */
    method CalcBestAskParts()
      modifies this
      ensures IsLowest(asks, PriceLevelEntry(bestAskPrice, bestAskSize))
      ensures PositivePrices(asks) ==> bestAskPrice >= 0.0 && forall id :: id in asks ==> 0.0 < bestAskPrice <= asks[id].price
      ensures bids == old(bids) && asks == old(asks) && events == old(events)
      ensures bestBidPrice == old(bestBidPrice) && bestBidSize == old(bestBidSize)
    {
      var level := LowestLevel(asks);
      bestAskPrice, bestAskSize := level.price, level.size;
      if PositivePrices(asks) {
        LowestBounds(asks, level);
      }
    }

    /**
     * `RemoveAskRow`: drops the id from the asks. When the removed entry (the
     * default entry for an absent id) has the cached best ask price, the best ask
     * is recomputed and one event is raised.
     */
    method RemoveAskRow(priceId: int)
      modifies this
      ensures asks == old(asks) - {priceId} && bids == old(bids)
      ensures bestBidPrice == old(bestBidPrice) && bestBidSize == old(bestBidSize)
      ensures Lookup(old(asks), priceId).price == old(bestAskPrice) ==>
        IsLowest(asks, PriceLevelEntry(bestAskPrice, bestAskSize)) && events == old(events) + [Current()]
      ensures Lookup(old(asks), priceId).price != old(bestAskPrice) ==>
        bestAskPrice == old(bestAskPrice) && bestAskSize == old(bestAskSize) && events == old(events)
      ensures old(Valid()) ==> Valid()
    {
      var outPrice := Lookup(asks, priceId);
      asks := asks - {priceId};
      if outPrice.price == bestAskPrice {
        CalcBestAskParts();
        events := events + [Current()];
      }
    }

    /** `RemoveBidRow`: the mirror image of `RemoveAskRow` on the bid side. */
    method RemoveBidRow(priceId: int)
      modifies this
      ensures bids == old(bids) - {priceId} && asks == old(asks)
      ensures bestAskPrice == old(bestAskPrice) && bestAskSize == old(bestAskSize)
      ensures Lookup(old(bids), priceId).price == old(bestBidPrice) ==>
        IsHighest(bids, PriceLevelEntry(bestBidPrice, bestBidSize)) && events == old(events) + [Current()]
      ensures Lookup(old(bids), priceId).price != old(bestBidPrice) ==>
        bestBidPrice == old(bestBidPrice) && bestBidSize == old(bestBidSize) && events == old(events)
      ensures old(Valid()) ==> Valid()
    {
      var outPrice := Lookup(bids, priceId);
      bids := bids - {priceId};
      if outPrice.price == bestBidPrice {
        CalcBestBidParts();
        events := events + [Current()];
      }
    }

    /**
     * `RemovePriceLevel`: removes the id from the asks when it is there,
     * otherwise from the bids; an id on neither side changes nothing.
     */
    method RemovePriceLevel(priceId: int)
      modifies this
      ensures priceId in old(asks) ==> asks == old(asks) - {priceId} && bids == old(bids)
      ensures priceId !in old(asks) ==> asks == old(asks) && bids == old(bids) - {priceId}
      ensures priceId !in old(asks) && priceId !in old(bids) ==>
        && bestBidPrice == old(bestBidPrice) && bestBidSize == old(bestBidSize)
        && bestAskPrice == old(bestAskPrice) && bestAskSize == old(bestAskSize)
        && events == old(events)
      ensures priceId in old(asks) ==>
        && bestBidPrice == old(bestBidPrice) && bestBidSize == old(bestBidSize)
        && (old(asks)[priceId].price == old(bestAskPrice) ==>
              IsLowest(asks, PriceLevelEntry(bestAskPrice, bestAskSize)) && events == old(events) + [Current()])
        && (old(asks)[priceId].price != old(bestAskPrice) ==>
              bestAskPrice == old(bestAskPrice) && bestAskSize == old(bestAskSize) && events == old(events))
      ensures priceId !in old(asks) && priceId in old(bids) ==>
        && bestAskPrice == old(bestAskPrice) && bestAskSize == old(bestAskSize)
        && (old(bids)[priceId].price == old(bestBidPrice) ==>
              IsHighest(bids, PriceLevelEntry(bestBidPrice, bestBidSize)) && events == old(events) + [Current()])
        && (old(bids)[priceId].price != old(bestBidPrice) ==>
              bestBidPrice == old(bestBidPrice) && bestBidSize == old(bestBidSize) && events == old(events))
      ensures |old(events)| <= |events| <= |old(events)| + 1 && events[..|old(events)|] == old(events)
      ensures old(Valid()) ==> Valid()
    {
      if priceId in asks {
        RemoveAskRow(priceId);
      } else if priceId in bids {
        RemoveBidRow(priceId);
      }
    }

    /**
     * `UpdateAskRow(priceId, size)`: a level already on the ask side takes the
     * new size and nothing else changes; a level on the bid side moves to the ask
     * side with its price and the new size, both bests are recomputed and one event
     * is raised; an unknown id is a `KeyNotFoundException` and changes nothing.
     */
    method UpdateAskRowSize(priceId: int, size: real) returns (r: Outcome)
      modifies this
      ensures r.Fail? <==> priceId !in old(asks) && priceId !in old(bids)
      ensures r.Fail? ==> r.error == KeyNotFoundException
      ensures priceId in old(asks) ==>
        && asks == old(asks)[priceId := PriceLevelEntry(old(asks)[priceId].price, size)] && bids == old(bids)
        && bestBidPrice == old(bestBidPrice) && bestBidSize == old(bestBidSize)
        && bestAskPrice == old(bestAskPrice) && bestAskSize == old(bestAskSize)
        && events == old(events)
      ensures priceId !in old(asks) && priceId in old(bids) ==>
        && asks == old(asks)[priceId := PriceLevelEntry(old(bids)[priceId].price, size)]
        && bids == old(bids) - {priceId}
        && IsLowest(asks, PriceLevelEntry(bestAskPrice, bestAskSize))
        && IsHighest(bids, PriceLevelEntry(bestBidPrice, bestBidSize))
        && events == old(events) + [Current()]
      ensures r.Fail? ==>
        && asks == old(asks) && bids == old(bids) && events == old(events)
        && bestBidPrice == old(bestBidPrice) && bestBidSize == old(bestBidSize)
        && bestAskPrice == old(bestAskPrice) && bestAskSize == old(bestAskSize)
      ensures old(Valid()) ==> Valid()
    {
      if priceId in asks {
        asks := asks[priceId := PriceLevelEntry(asks[priceId].price, size)];
      } else if priceId in bids {
        var priceLevel := bids[priceId];
        bids := bids - {priceId};
        asks := asks[priceId := PriceLevelEntry(priceLevel.price, size)];
        CalcBestAskParts();
        CalcBestBidParts();
        events := events + [Current()];
      } else {
        return Fail(KeyNotFoundException);
      }
      return Pass;
    }

    /** `UpdateBidRow(priceId, size)`: the mirror image of `UpdateAskRowSize`. */
    method UpdateBidRowSize(priceId: int, size: real) returns (r: Outcome)
      modifies this
      ensures r.Fail? <==> priceId !in old(bids) && priceId !in old(asks)
      ensures r.Fail? ==> r.error == KeyNotFoundException
      ensures priceId in old(bids) ==>
        && bids == old(bids)[priceId := PriceLevelEntry(old(bids)[priceId].price, size)] && asks == old(asks)
        && bestBidPrice == old(bestBidPrice) && bestBidSize == old(bestBidSize)
        && bestAskPrice == old(bestAskPrice) && bestAskSize == old(bestAskSize)
        && events == old(events)
      ensures priceId !in old(bids) && priceId in old(asks) ==>
        && bids == old(bids)[priceId := PriceLevelEntry(old(asks)[priceId].price, size)]
        && asks == old(asks) - {priceId}
        && IsLowest(asks, PriceLevelEntry(bestAskPrice, bestAskSize))
        && IsHighest(bids, PriceLevelEntry(bestBidPrice, bestBidSize))
        && events == old(events) + [Current()]
      ensures r.Fail? ==>
        && asks == old(asks) && bids == old(bids) && events == old(events)
        && bestBidPrice == old(bestBidPrice) && bestBidSize == old(bestBidSize)
        && bestAskPrice == old(bestAskPrice) && bestAskSize == old(bestAskSize)
      ensures old(Valid()) ==> Valid()
    {
      if priceId in bids {
        bids := bids[priceId := PriceLevelEntry(bids[priceId].price, size)];
      } else if priceId in asks {
        var priceLevel := asks[priceId];
        asks := asks - {priceId};
        bids := bids[priceId := PriceLevelEntry(priceLevel.price, size)];
        CalcBestAskParts();
        CalcBestBidParts();
        events := events + [Current()];
      } else {
        return Fail(KeyNotFoundException);
      }
      return Pass;
    }

    /**
     * `UpdateAskRow(priceId, priceLevel)`: stores the level under the id; when
     * no best ask is cached or the level's price is at most the cached one, it
     * becomes the best ask and one event is raised.
     */
    method UpdateAskRow(priceId: int, priceLevel: PriceLevelEntry)
      modifies this
      ensures asks == old(asks)[priceId := priceLevel] && bids == old(bids)
      ensures bestBidPrice == old(bestBidPrice) && bestBidSize == old(bestBidSize)
      ensures old(bestAskPrice) == 0.0 || priceLevel.price <= old(bestAskPrice) ==>
        bestAskPrice == priceLevel.price && bestAskSize == priceLevel.size && events == old(events) + [Current()]
      ensures !(old(bestAskPrice) == 0.0 || priceLevel.price <= old(bestAskPrice)) ==>
        bestAskPrice == old(bestAskPrice) && bestAskSize == old(bestAskSize) && events == old(events)
      ensures old(Valid()) && priceLevel.price > 0.0 ==> Valid()
    {
      asks := asks[priceId := priceLevel];
      if bestAskPrice == 0.0 || priceLevel.price <= bestAskPrice {
        bestAskPrice, bestAskSize := priceLevel.price, priceLevel.size;
        events := events + [Current()];
      }
    }

    /**
     * `UpdateBidRow(priceId, priceLevel)`: stores the level under the id; when
     * no best bid is cached or the level's price is at least the cached one, it
     * becomes the best bid and one event is raised.
     */
    method UpdateBidRow(priceId: int, priceLevel: PriceLevelEntry)
      modifies this
      ensures bids == old(bids)[priceId := priceLevel] && asks == old(asks)
      ensures bestAskPrice == old(bestAskPrice) && bestAskSize == old(bestAskSize)
      ensures old(bestBidPrice) == 0.0 || priceLevel.price >= old(bestBidPrice) ==>
        bestBidPrice == priceLevel.price && bestBidSize == priceLevel.size && events == old(events) + [Current()]
      ensures !(old(bestBidPrice) == 0.0 || priceLevel.price >= old(bestBidPrice)) ==>
        bestBidPrice == old(bestBidPrice) && bestBidSize == old(bestBidSize) && events == old(events)
      ensures old(Valid()) && priceLevel.price > 0.0 ==> Valid()
    {
      bids := bids[priceId := priceLevel];
      if bestBidPrice == 0.0 || priceLevel.price >= bestBidPrice {
        bestBidPrice, bestBidSize := priceLevel.price, priceLevel.size;
        events := events + [Current()];
      }
    }

    /** `Clear`: no levels and no cached best on either side; no event is raised. */
    method Clear()
      modifies this
      ensures bids == map[] && asks == map[] && events == old(events)
      ensures bestBidPrice == 0.0 && bestBidSize == 0.0 && bestAskPrice == 0.0 && bestAskSize == 0.0
      ensures Valid()
    {
      bestBidPrice, bestBidSize, bestAskPrice, bestAskSize := 0.0, 0.0, 0.0, 0.0;
      asks := map[];
      bids := map[];
    }
  }
}
