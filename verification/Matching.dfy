/**
 The matching engine: price maps, price heaps, FIFO levels, cached best prices and
 cached volumes. Each side carries the reference book it must agree with, as a ghost.
 The source writes the buy and the sell half of every operation separately; here a
 half is an object with the direction as a constant.
 */
module Matching {
  import opened Events
  import opened Heaps
  import opened BestPrices
  import opened BookLevels
  import Ref = ReferenceBook

  type Order = Ref.Order
  type Trade = Ref.Trade

  /** Unsigned 64-bit addition and subtraction of the cached volumes. */
  function WrapAdd(a: uint64, b: uint64): uint64 { (a + b) % U64 }
  function WrapSub(a: uint64, b: uint64): uint64 { (a - b) % U64 }

  /** What a bounded channel keeps of trades that are offered without blocking. */
  function Offered(queue: seq<Trade>, trades: seq<Trade>, capacity: nat): seq<Trade> {
    if |queue| + |trades| <= capacity then queue + trades
    else if |queue| >= capacity then queue
    else queue + trades[..capacity - |queue|]
  }

  lemma {:induction false} OfferedConcat(queue: seq<Trade>, a: seq<Trade>, b: seq<Trade>, capacity: nat)
    ensures Offered(Offered(queue, a, capacity), b, capacity) == Offered(queue, a + b, capacity)
  {
  }

  /** A channel only gains the first of the trades, all of them unless it fills up, and never overflows. */
  lemma {:induction false} OfferedKeeps(queue: seq<Trade>, trades: seq<Trade>, capacity: nat)
    ensures var after := Offered(queue, trades, capacity);
            && queue <= after && after[|queue|..] <= trades
            && (|after| < capacity ==> after == queue + trades)
            && (|queue| <= capacity ==> |after| <= capacity)
  {
  }

  lemma {:induction false} OfferedNothing(queue: seq<Trade>, capacity: nat)
    ensures Offered(queue, [], capacity) == queue
  {
  }

  /** TradeCh of the publisher. */
  class TradeChannel {
    const capacity: nat
    var queue: seq<Trade>

    constructor (capacity: nat)
      ensures this.capacity == capacity && queue == []
    {
      this.capacity := capacity;
      queue := [];
    }

    /** select with a default branch: send, or drop when full. */
    method Offer(t: Trade)
      modifies this
      ensures queue == Offered(old(queue), [t], capacity)
    {
      if |queue| < capacity { queue := queue + [t]; }
    }
  }

  datatype PriceLevel = PriceLevel(price: uint64, totalVolume: uint64, orders: seq<Order>)

  /** The guard of the attack loops: 0 stands for an empty side. */
  predicate Engages(left: uint64, best: uint64, limit: uint64, descending: bool) {
    left > 0 && best > 0 && Ref.Crosses(descending, limit, best)
  }

  /** The cached best price once somebody rests at this price. */
  function BestAfter(best: uint64, price: uint64, descending: bool): uint64 {
    if best == 0 || Better(descending, price, best) then price else best
  }

  // --- The top of a heap ---

  lemma {:induction false} TopIsBest(a: seq<uint64>, descending: bool)
    requires HeapOrdered(a, descending) && a != []
    ensures forall y :: y in a ==> !Better(descending, y, a[0])
  {
    forall y | y in a ensures !Better(descending, y, a[0]) {
      var i :| 0 <= i < |a| && a[i] == y;
      RootIsBest(a, descending, i);
    }
  }

  lemma {:induction false} TopAfterPush(a: seq<uint64>, b: seq<uint64>, descending: bool, x: uint64)
    requires HeapOrdered(a, descending) && HeapOrdered(b, descending)
    requires multiset(b) == multiset(a) + multiset{x}
    ensures b != [] && b[0] == if a == [] || Better(descending, x, a[0]) then x else a[0]
  {
    assert x in multiset(b) && x in b;
    assert b[0] in multiset(b);
    TopIsBest(b, descending);
    if a == [] {
      assert multiset(a) == multiset{};
    } else {
      TopIsBest(a, descending);
      assert a[0] in multiset(a) && a[0] in multiset(b) && a[0] in b;
      assert b[0] in a || b[0] == x;
    }
  }

  lemma {:induction false} KeysWith(keys: set<uint64>, p: uint64)
    ensures p !in keys ==> multiset(keys + {p}) == multiset(keys) + multiset{p}
    ensures p in keys ==> multiset(keys - {p}) + multiset{p} == multiset(keys)
  {
  }

  lemma {:induction false} VolumeSub(x: nat, q: nat)
    requires q <= x && q < U64
    ensures WrapSub(x % U64, q) == (x - q) % U64
  {
  }

  lemma {:induction false} VolumeAdd(x: nat, q: nat)
    requires q < U64
    ensures WrapAdd(x % U64, q) == (x + q) % U64
  {
  }

  /** The heap holds exactly the prices of the map, once each, and its top is the best. */
  ghost predicate PricesMatch(a: seq<uint64>, descending: bool, keys: set<uint64>, best: uint64) {
    && HeapOrdered(a, descending)
    && multiset(a) == multiset(keys)
    && best == (if a == [] then 0 else a[0])
  }

  lemma {:induction false} BestOfKeys(a: seq<uint64>, descending: bool, keys: set<uint64>, best: uint64)
    requires PricesMatch(a, descending, keys, best) && keys != {}
    ensures best in keys
    ensures forall p :: p in keys ==> !Better(descending, p, best)
  {
    var k :| k in keys;
    assert k in multiset(keys);
    assert k in multiset(a);
    TopIsBest(a, descending);
    assert a[0] in multiset(a);
    forall p | p in keys ensures !Better(descending, p, best) {
      assert p in multiset(keys);
      assert p in multiset(a);
    }
  }

  /** The level a price must have: its queue in the reference book, and the cached volume. */
  ghost function LevelFor(flat: seq<Ref.Resting>, p: uint64, side: uint8): PriceLevel {
    PriceLevel(p, Quantity(AtPrice(flat, p, side)) % U64, AtPrice(flat, p, side))
  }

  ghost predicate LevelsMatch(levels: map<uint64, PriceLevel>, flat: seq<Ref.Resting>, side: uint8) {
    forall p :: p in levels ==> levels[p] == LevelFor(flat, p, side)
  }

  /** One side in the middle of a sweep: the best level may have lost its last order. */
  ghost predicate MidSweep(levels: map<uint64, PriceLevel>, a: seq<uint64>, best: uint64, flat: seq<Ref.Resting>,
        sn: nat, side: uint8) {
    && PricesMatch(a, side == BUY, levels.Keys, best)
    && LevelsMatch(levels, flat, side)
    && Ref.WellFormed(flat, sn)
    && best in levels && levels.Keys == Ref.Prices(flat) + {best}
  }

  /** One side between two orders: every level has somebody in it. */
  ghost predicate SideOk(levels: map<uint64, PriceLevel>, a: seq<uint64>, best: uint64, flat: seq<Ref.Resting>, sn: nat,
        side: uint8) {
    && PricesMatch(a, side == BUY, levels.Keys, best)
    && LevelsMatch(levels, flat, side)
    && Ref.WellFormed(flat, sn)
    && levels.Keys == Ref.Prices(flat)
  }

  lemma {:induction false} SideOkMidSweep(levels: map<uint64, PriceLevel>, a: seq<uint64>, best: uint64,
        flat: seq<Ref.Resting>, sn: nat, side: uint8)
    requires SideOk(levels, a, best, flat, sn, side) && best > 0
    ensures MidSweep(levels, a, best, flat, sn, side) && best in levels && levels[best].orders != []
  {
    assert a[0] in multiset(a);
    BestOfKeys(a, side == BUY, levels.Keys, best);
    AtPriceEmpty(flat, best, side);
  }

  lemma {:induction false} LevelInPlace(levels: map<uint64, PriceLevel>, a: seq<uint64>, best: uint64,
        flat: seq<Ref.Resting>, sn: nat, side: uint8)
    requires MidSweep(levels, a, best, flat, sn, side)
    ensures best in levels && levels[best := levels[best]] == levels
  {
    hide PricesMatch, LevelsMatch;
  }

  /** The body of the inner loop: one trade with the head of the best level. */
  method TradeHead(level0: PriceLevel, limit: uint64, left0: uint64, feed: TradeChannel?, restoring: bool,
        ghost levels: map<uint64, PriceLevel>, ghost a: seq<uint64>, best: uint64, ghost flat0: seq<Ref.Resting>,
        ghost sn: nat, side: uint8)
    returns (level: PriceLevel, left: uint64, t: Trade, ghost flat: seq<Ref.Resting>)
    requires MidSweep(levels[best := level0], a, best, flat0, sn, side) && level0.orders != []
    requires left0 > 0 && Ref.Crosses(side == BUY, limit, best)
    modifies feed
    ensures MidSweep(levels[best := level], a, best, flat, sn, side) && left < left0
    ensures t.price == best && Continues(flat0, left0, flat, left, side == BUY, limit, [t])
    ensures feed != null ==> feed.queue == if restoring then old(feed.queue)
             else Offered(old(feed.queue), [t], feed.capacity)
  {
    hide MidSweep, Continues;
    var tradeQty := if left0 < level0.orders[0].quantity then left0 else level0.orders[0].quantity;
    t := Ref.Trade(best, tradeQty);
    if !restoring && feed != null { feed.Offer(t); }
    flat := HeadTrade(levels, level0, flat0, a, best, side, sn, limit, left0, tradeQty);
    left := left0 - tradeQty;
    level := DeductHead(level0, tradeQty);
  }

  /** The inner loop: trade down the queue of the best level. The level is the local
      bestLevel of the source; the ghosts say what the whole side looks like with it. */
  method FillLevel(level0: PriceLevel, limit: uint64, qty: uint64, feed: TradeChannel?, restoring: bool,
        ghost levels: map<uint64, PriceLevel>, ghost a: seq<uint64>, best: uint64, ghost flat0: seq<Ref.Resting>,
        ghost sn: nat, side: uint8)
    returns (level: PriceLevel, left: uint64, ghost flat: seq<Ref.Resting>, ghost trades: seq<Trade>)
    requires MidSweep(levels, a, best, flat0, sn, side) && level0 == levels[best] && level0.orders != []
    requires qty > 0 && Ref.Crosses(side == BUY, limit, best)
    modifies feed
    ensures MidSweep(levels[best := level], a, best, flat, sn, side)
    ensures left < qty && (left > 0 ==> level.orders == [])
    ensures Continues(flat0, qty, flat, left, side == BUY, limit, trades)
    ensures forall i :: 0 <= i < |trades| ==> trades[i].price == best
    ensures feed != null ==> feed.queue == if restoring then old(feed.queue)
             else Offered(old(feed.queue), trades, feed.capacity)
  {
    hide Continues, Offered, MidSweep, Ref.Crosses;
    LevelInPlace(levels, a, best, flat0, sn, side);
    level, left, flat, trades := level0, qty, flat0, [];
    assert levels[best := level] == levels;
    if feed != null { OfferedNothing(feed.queue, feed.capacity); }
    ContinuesStart(flat0, qty, side == BUY, limit);
    while level.orders != [] && left > 0
      invariant MidSweep(levels[best := level], a, best, flat, sn, side)
      invariant left <= qty && (left == qty ==> level.orders != [])
      invariant Continues(flat0, qty, flat, left, side == BUY, limit, trades)
      invariant forall i :: 0 <= i < |trades| ==> trades[i].price == best
      invariant feed != null ==> feed.queue == if restoring then old(feed.queue)
               else Offered(old(feed.queue), trades, feed.capacity)
      decreases left
    {
      ghost var flat1, left1 := flat, left;
      var t;
      level, left, t, flat := TradeHead(level, limit, left, feed, restoring, levels, a, best, flat, sn, side);
      ContinuesOn(flat0, qty, flat1, left1, flat, left, side == BUY, limit, trades, t);
      if feed != null { OfferedConcat(old(feed.queue), trades, [t], feed.capacity); }
      trades := trades + [t];
    }
  }

  /** The level after its head traded q. */
  function LevelTraded(level: PriceLevel, q: uint64): PriceLevel
    requires level.orders != [] && q <= level.orders[0].quantity
  {
    level.(totalVolume := WrapSub(level.totalVolume, q), orders := HeadFilled(level.orders, q))
  }

  /** Deduct from the resting order and from the volume; drop the order when it is used up. */
  method DeductHead(level0: PriceLevel, q: uint64) returns (level: PriceLevel)
    requires level0.orders != [] && q <= level0.orders[0].quantity
    ensures level == LevelTraded(level0, q)
  {
    var resting := level0.orders[0].(quantity := level0.orders[0].quantity - q);
    level := level0.(totalVolume := WrapSub(level0.totalVolume, q));
    if resting.quantity == 0 {
      level := level.(orders := level.orders[1..]);
    } else {
      level := level.(orders := level.orders[0 := resting]);
    }
  }

  lemma {:induction false} BestLevelTraded(level: PriceLevel, flat: seq<Ref.Resting>, flat': seq<Ref.Resting>,
        best: uint64, side: uint8, q: uint64)
    requires level == LevelFor(flat, best, side) && level.orders != [] && q <= level.orders[0].quantity
    requires AtPrice(flat', best, side) == HeadFilled(level.orders, q)
    ensures LevelTraded(level, q) == LevelFor(flat', best, side)
  {
    HeadFilledQuantity(level.orders, q);
    VolumeSub(Quantity(level.orders), q);
  }

  lemma {:induction false} LevelsTraded(levels: map<uint64, PriceLevel>, level: PriceLevel, flat: seq<Ref.Resting>,
        flat': seq<Ref.Resting>, best: uint64, side: uint8, q: uint64)
    requires LevelsMatch(levels[best := level], flat, side) && level.orders != [] && q <= level.orders[0].quantity
    requires forall p :: p in levels && p != best ==> AtPrice(flat', p, side) == AtPrice(flat, p, side)
    requires AtPrice(flat', best, side) == HeadFilled(level.orders, q)
    ensures LevelsMatch(levels[best := LevelTraded(level, q)], flat', side)
  {
    assert level == levels[best := level][best] == LevelFor(flat, best, side);
    BestLevelTraded(level, flat, flat', best, side, q);
    forall p | p in levels && p != best ensures levels[p] == LevelFor(flat', p, side) {
      assert levels[p] == levels[best := level][p] == LevelFor(flat, p, side);
    }
  }

  /** The flat book's side of one trade. */
  lemma {:induction false} HeadTrade(levels: map<uint64, PriceLevel>, level: PriceLevel, flat: seq<Ref.Resting>,
        a: seq<uint64>, best: uint64, side: uint8, sn: nat, limit: uint64, qty: uint64,
        q: uint64) returns (flat': seq<Ref.Resting>)
    requires MidSweep(levels[best := level], a, best, flat, sn, side) && level.orders != []
    requires qty > 0 && Ref.Crosses(side == BUY, limit, best) && q == Ref.MinQty(qty, level.orders[0].quantity)
    ensures 0 < q && MidSweep(levels[best := LevelTraded(level, q)], a, best, flat', sn, side)
    ensures Continues(flat, qty, flat', qty - q, side == BUY, limit, [Ref.Trade(best, q)])
  {
    var keys := levels[best := level].Keys;
    assert level == levels[best := level][best] == LevelFor(flat, best, side);
    BestOfKeys(a, side == BUY, keys, best);
    var i := HeadIsBest(flat, side == BUY, best, side, sn);
    flat' := Ref.Filled(flat, i, q);
    SweepRound(flat, side == BUY, limit, qty, i, q);
    Ref.FilledWellFormed(flat, i, q, sn);
    FilledLevels(flat, i, q, keys, side);
    LevelsTraded(levels, level, flat, flat', best, side, q);
    assert levels[best := LevelTraded(level, q)].Keys == keys;
  }

  lemma {:induction false} FilledLevels(flat: seq<Ref.Resting>, i: nat, q: uint64, keys: set<uint64>, side: uint8)
    requires i < |flat| && q <= flat[i].qty
    requires forall k :: 0 <= k < i ==> flat[k].price != flat[i].price
    requires keys == Ref.Prices(flat) + {flat[i].price}
    ensures forall p :: p in keys && p != flat[i].price ==>
              AtPrice(Ref.Filled(flat, i, q), p, side) == AtPrice(flat, p, side)
    ensures AtPrice(flat, flat[i].price, side) != [] && AtPrice(flat, flat[i].price, side)[0] == ToOrder(flat[i], side)
    ensures AtPrice(Ref.Filled(flat, i, q), flat[i].price, side) == HeadFilled(AtPrice(flat, flat[i].price, side), q)
    ensures keys == Ref.Prices(Ref.Filled(flat, i, q)) + {flat[i].price}
  {
    FilledAtPrice(flat, i, q, flat[i].price, side);
    var flat' := Ref.Filled(flat, i, q);
    forall p | p in keys && p != flat[i].price
      ensures AtPrice(flat', p, side) == AtPrice(flat, p, side) && p in Ref.Prices(flat')
    {
      FilledAtPrice(flat, i, q, p, side);
      AtPriceEmpty(flat, p, side);
      AtPriceEmpty(flat', p, side);
    }
    Ref.FilledPrices(flat, i, q);
  }

  lemma {:induction false} BestRemoved(levels: map<uint64, PriceLevel>, a: seq<uint64>, a': seq<uint64>, best: uint64,
        flat: seq<Ref.Resting>, sn: nat, side: uint8)
    requires MidSweep(levels, a, best, flat, sn, side) && levels[best].orders == []
    requires HeapOrdered(a', side == BUY) && multiset(a) == multiset(a') + multiset{best}
    ensures SideOk(levels - {best}, a', if a' == [] then 0 else a'[0], flat, sn, side)
  {
    AtPriceEmpty(flat, best, side);
    assert (levels - {best}).Keys == levels.Keys - {best};
    assert multiset(a') == multiset(a) - multiset{best} == multiset(levels.Keys) - multiset{best};
    assert multiset(levels.Keys - {best}) == multiset(levels.Keys) - multiset{best};
  }

  lemma {:induction false} LevelKept(levels: map<uint64, PriceLevel>, a: seq<uint64>, best: uint64,
        flat: seq<Ref.Resting>, sn: nat, side: uint8)
    requires MidSweep(levels, a, best, flat, sn, side) && levels[best].orders != []
    ensures SideOk(levels, a, best, flat, sn, side)
  {
    AtPriceEmpty(flat, best, side);
  }

  /** A side whose cached best price is 0: nobody rests on it, or price 0 is its best price. */
  ghost predicate Blind(flat: seq<Ref.Resting>, descending: bool) {
    if descending then forall p :: p in Ref.Prices(flat) ==> p == 0
    else flat == [] || 0 in Ref.Prices(flat)
  }

  lemma {:induction false} BlindIff(levels: map<uint64, PriceLevel>, a: seq<uint64>, best: uint64,
        flat: seq<Ref.Resting>, sn: nat, side: uint8)
    requires SideOk(levels, a, best, flat, sn, side)
    ensures best == 0 <==> Blind(flat, side == BUY)
    ensures best == 0 && flat != [] ==> 0 in Ref.Prices(flat)
  {
    if flat != [] {
      assert flat[0].price in levels.Keys;
      BestOfKeys(a, side == BUY, levels.Keys, best);
    } else {
      assert multiset(a) == multiset{};
      assert |a| == |multiset(a)|;
    }
  }

  /** Where the outer loop stops, the naive sweep stops or trades at price 0. */
  lemma {:induction false} SweepEnds(levels: map<uint64, PriceLevel>, a: seq<uint64>, best: uint64,
        flat: seq<Ref.Resting>, sn: nat, side: uint8, limit: uint64, left: uint64)
    requires SideOk(levels, a, best, flat, sn, side) && !Engages(left, best, limit, side == BUY)
    ensures var rest := Ref.Sweep(flat, side == BUY, limit, left);
            rest == Ref.Swept(flat, [], left)
              || (rest.trades != [] && rest.trades[0].price == 0 && rest.trades[0].qty > 0)
  {
    if left > 0 && flat != [] {
      BlindIff(levels, a, best, flat, sn, side);
      assert flat[0].price in levels.Keys;
      BestOfKeys(a, side == BUY, levels.Keys, best);
      AtPriceEmpty(flat, best, side);
      var i := HeadIsBest(flat, side == BUY, best, side, sn);
      assert flat[i].qty > 0;
    }
  }

  /** What the attack loop makes of a side, held against the naive sweep: the same trades, book and
      rest, except that the engine stops where the naive sweep would go on with a trade at price 0. */
  ghost predicate EngineSwept(book: seq<Ref.Resting>, descending: bool, limit: uint64, qty: uint64,
        book': seq<Ref.Resting>, trades: seq<Trade>, left: uint64) {
    var naive, rest := Ref.Sweep(book, descending, limit, qty), Ref.Sweep(book', descending, limit, left);
    && naive == Ref.Swept(rest.book, trades + rest.trades, rest.left)
    && (forall i :: 0 <= i < |trades| ==> trades[i].price > 0)
    && (rest == Ref.Swept(book', [], left)
      || (rest.trades != [] && rest.trades[0].price == 0 && rest.trades[0].qty > 0))
  }

  lemma {:induction false} ContinuesFar(book: seq<Ref.Resting>, qty: uint64, book': seq<Ref.Resting>, left': uint64,
        book'': seq<Ref.Resting>, left'': uint64, descending: bool, limit: uint64, a: seq<Trade>, b: seq<Trade>)
    requires Continues(book, qty, book', left', descending, limit, a)
    requires Continues(book', left', book'', left'', descending, limit, b)
    ensures Continues(book, qty, book'', left'', descending, limit, a + b)
  {
    var rest := Ref.Sweep(book'', descending, limit, left'').trades;
    assert a + (b + rest) == (a + b) + rest;
  }

  // --- A new order comes to rest ---

  /** The flat book with one more order at its end. */
  function Rested(flat: seq<Ref.Resting>, o: Order, sn: nat): seq<Ref.Resting> {
    flat + [Ref.Resting(o.id, o.quantity, o.price, sn)]
  }

  lemma {:induction false} RestedLevel(flat: seq<Ref.Resting>, o: Order, sn: nat, p: uint64)
    ensures p != o.price ==> LevelFor(Rested(flat, o, sn), p, o.side) == LevelFor(flat, p, o.side)
    ensures p == o.price ==>
              var level := LevelFor(flat, p, o.side);
              LevelFor(Rested(flat, o, sn), p, o.side)
              == level.(totalVolume := WrapAdd(level.totalVolume, o.quantity), orders := level.orders + [o])
  {
    var r := Ref.Resting(o.id, o.quantity, o.price, sn);
    AtPriceConcat(flat, [r], p, o.side);
    if p == o.price {
      assert AtPrice([r], p, o.side) == [o];
      QuantityConcat(AtPrice(flat, p, o.side), [o]);
      VolumeAdd(Quantity(AtPrice(flat, p, o.side)), o.quantity);
    } else {
      assert AtPrice(flat, p, o.side) + AtPrice([r], p, o.side) == AtPrice(flat, p, o.side);
    }
  }

  /** An ask above 0 comes to rest where one at 0 does: the cached best price becomes the wrong one. */
  predicate Shadows(prices: set<uint64>, p: uint64, descending: bool) {
    !descending && 0 in prices && p > 0
  }

  /** addOrder keeps the side what it must be, unless it shadows a price of 0. */
  lemma {:induction false} RestKeepsSide(levels: map<uint64, PriceLevel>, a: seq<uint64>, best: uint64,
        flat: seq<Ref.Resting>, sn: nat, o: Order, level: PriceLevel, a': seq<uint64>, best': uint64)
    requires SideOk(levels, a, best, flat, sn, o.side) && o.quantity > 0
    requires level == if o.price in levels then levels[o.price] else PriceLevel(o.price, 0, [])
    requires o.price in levels ==> a' == a
    requires o.price !in levels ==> HeapOrdered(a', o.side == BUY) && multiset(a') == multiset(a) + multiset{o.price}
    requires best' == BestAfter(best, o.price, o.side == BUY)
    ensures SideOk(levels[o.price := level.(totalVolume := WrapAdd(level.totalVolume, o.quantity),
             orders := level.orders + [o])],
                   a', best', Rested(flat, o, sn + 1), sn + 1, o.side)
            <==> !Shadows(levels.Keys, o.price, o.side == BUY)
  {
    hide PricesMatch, Ref.WellFormed, Ref.Prices, LevelsMatch, Shadows, BestAfter, WrapAdd, HeapOrdered;
    var p := o.price;
    var levels' := levels[p := level.(totalVolume := WrapAdd(level.totalVolume, o.quantity),
      orders := level.orders + [o])];
    LevelsRested(levels, flat, sn + 1, o, level);
    Ref.RestPrices(flat, Ref.Resting(o.id, o.quantity, p, sn + 1));
    Ref.RestWellFormed(flat, sn, Ref.Resting(o.id, o.quantity, p, sn + 1));
    RestKeepsPrices(levels.Keys, a, best, o.side == BUY, p, a', best');
    assert levels'.Keys == levels.Keys + {p};
  }

  lemma {:induction false} LevelsRested(levels: map<uint64, PriceLevel>, flat: seq<Ref.Resting>, sn: nat, o: Order,
        level: PriceLevel)
    requires LevelsMatch(levels, flat, o.side) && levels.Keys == Ref.Prices(flat)
    requires level == if o.price in levels then levels[o.price] else PriceLevel(o.price, 0, [])
    ensures LevelsMatch(levels[o.price := level.(totalVolume := WrapAdd(level.totalVolume, o.quantity),
              orders := level.orders + [o])], Rested(flat, o, sn), o.side)
  {
    var levels' := levels[o.price := level.(totalVolume := WrapAdd(level.totalVolume, o.quantity),
      orders := level.orders + [o])];
    AtPriceEmpty(flat, o.price, o.side);
    assert level == LevelFor(flat, o.price, o.side);
    hide LevelFor, Rested, WrapAdd, Ref.Prices;
    forall q | q in levels' ensures levels'[q] == LevelFor(Rested(flat, o, sn), q, o.side) {
      RestedLevel(flat, o, sn, q);
    }
  }

  lemma {:induction false} RestKeepsPrices(keys: set<uint64>, a: seq<uint64>, best: uint64, descending: bool, p: uint64,
        a': seq<uint64>, best': uint64)
    requires PricesMatch(a, descending, keys, best)
    requires p in keys ==> a' == a
    requires p !in keys ==> HeapOrdered(a', descending) && multiset(a') == multiset(a) + multiset{p}
    requires best' == BestAfter(best, p, descending)
    ensures PricesMatch(a', descending, keys + {p}, best') <==> !Shadows(keys, p, descending)
  {
    KeysWith(keys, p);
    if keys != {} { BestOfKeys(a, descending, keys, best); }
    if p in keys {
      assert keys + {p} == keys;
    } else {
      TopAfterPush(a, a', descending, p);
      if a != [] { assert a[0] in multiset(a) && a[0] in keys; }
    }
    if Shadows(keys, p, descending) { ZeroOnTop(keys, a', p, best', descending); }
  }

  /** With 0 among the asks, no positive best price matches. */
  lemma {:induction false} ZeroOnTop(keys: set<uint64>, a: seq<uint64>, p: uint64, best: uint64, descending: bool)
    requires !descending && 0 in keys && best > 0
    ensures !PricesMatch(a, descending, keys + {p}, best)
  {
    assert 0 in keys + {p};
    if PricesMatch(a, descending, keys + {p}, best) { BestOfKeys(a, descending, keys + {p}, best); }
  }

  lemma {:induction false} HeapNotEmpty(levels: map<uint64, PriceLevel>, a: seq<uint64>, best: uint64,
        flat: seq<Ref.Resting>, sn: nat, side: uint8)
    requires MidSweep(levels, a, best, flat, sn, side)
    ensures a != [] && a[0] == best && HeapOrdered(a, side == BUY)
  {
    BestOfKeys(a, side == BUY, levels.Keys, best);
  }

  lemma {:induction false} SideHeap(levels: map<uint64, PriceLevel>, a: seq<uint64>, best: uint64,
        flat: seq<Ref.Resting>, sn: nat, side: uint8)
    requires SideOk(levels, a, best, flat, sn, side)
    ensures HeapOrdered(a, side == BUY)
  {
  }

  lemma {:induction false} SideKeys(levels: map<uint64, PriceLevel>, a: seq<uint64>, best: uint64,
        flat: seq<Ref.Resting>, sn: nat, side: uint8)
    requires SideOk(levels, a, best, flat, sn, side)
    ensures levels.Keys == Ref.Prices(flat)
  {
  }

  /** The loop's progress and its end, put together. */
  lemma {:induction false} SweptBy(book: seq<Ref.Resting>, qty: uint64, book': seq<Ref.Resting>, left: uint64,
        descending: bool, limit: uint64, trades: seq<Trade>)
    requires Continues(book, qty, book', left, descending, limit, trades)
    requires forall i :: 0 <= i < |trades| ==> trades[i].price > 0
    requires var rest := Ref.Sweep(book', descending, limit, left);
             rest == Ref.Swept(book', [], left)
               || (rest.trades != [] && rest.trades[0].price == 0 && rest.trades[0].qty > 0)
    ensures EngineSwept(book, descending, limit, qty, book', trades, left)
  {
  }

  /** The flat book determines everything a side holds, except how its heap is laid out. */
  lemma {:induction false} SidesAgree(levels: map<uint64, PriceLevel>, a: seq<uint64>, best: uint64,
        levels': map<uint64, PriceLevel>, a': seq<uint64>, best': uint64, flat: seq<Ref.Resting>, sn: nat, side: uint8)
    requires SideOk(levels, a, best, flat, sn, side) && SideOk(levels', a', best', flat, sn, side)
    ensures levels == levels' && multiset(a) == multiset(a') && best == best'
  {
    assert levels.Keys == levels'.Keys;
    forall p | p in levels ensures levels[p] == levels'[p] {
      assert levels[p] == LevelFor(flat, p, side) == levels'[p];
    }
    BestsAgree(levels.Keys, a, best, a', best', side == BUY);
  }

  lemma {:induction false} BestsAgree(keys: set<uint64>, a: seq<uint64>, best: uint64, a': seq<uint64>, best': uint64,
        descending: bool)
    requires PricesMatch(a, descending, keys, best) && PricesMatch(a', descending, keys, best')
    ensures best == best'
  {
    if keys == {} {
      assert |a| == |multiset(a)| == 0 == |multiset(a')| == |a'|;
    } else {
      BestOfKeys(a, descending, keys, best);
      BestOfKeys(a', descending, keys, best');
      if a == [] || a' == [] { assert multiset(keys) == multiset{}; }
    }
  }

  /** What a side holds for a given flat book. */
  lemma {:induction false} SideShows(levels: map<uint64, PriceLevel>, a: seq<uint64>, best: uint64,
        flat: seq<Ref.Resting>, sn: nat, side: uint8)
    requires SideOk(levels, a, best, flat, sn, side)
    ensures levels.Keys == Ref.Prices(flat) && forall p :: p in levels ==> levels[p] == LevelFor(flat, p, side)
  {
  }

  class BookSide {
    const side: uint8                              // BUY: bids, highest price first
    var levels: map<uint64, PriceLevel>            // bidsMap or asksMap
    const prices: PriceHeap                        // bidPrices or askPrices
    var best: uint64                               // bestBid or bestAsk; 0 when the side is empty
    ghost var flat: seq<Ref.Resting>               // this side of the reference book
    ghost var sn: nat                              // arrivals so far

    ghost predicate Valid()
      reads this, prices
    {
      prices.descending == (side == BUY) && SideOk(levels, prices.a, best, flat, sn, side)
    }

    constructor (side: uint8)
      ensures Valid() && fresh(prices) && this.side == side && flat == [] && sn == 0
    {
      this.side := side;
      levels := map[];
      prices := new PriceHeap(side == BUY);
      best := 0;
      flat := [];
      sn := 0;
    }

    /** The best level has run empty: out of the map and out of the heap. */
    method RemoveBest()
      requires prices.descending == (side == BUY) && MidSweep(levels, prices.a, best, flat, sn, side)
               && levels[best].orders == []
      modifies this`levels, this`best, prices
      ensures Valid()
    {
      hide SideOk, MidSweep, PricesMatch, LevelsMatch;
      ghost var a := prices.a;
      HeapNotEmpty(levels, a, best, flat, sn, side);
      var rest := levels - {best};
      var x := prices.Pop();
      BestRemoved(levels, a, prices.a, best, flat, sn, side);
      var n := prices.Len();
      var next: uint64 := 0;
      if n > 0 { next := prices.a[0]; }
      assert SideOk(rest, prices.a, next, flat, sn, side);
      levels, best := rest, next;
    }

    /** The attack loop of matchBuy and matchSell, over this side. */
    method Sweep(limit: uint64, qty: uint64, feed: TradeChannel?, restoring: bool)
      returns (left: uint64, ghost trades: seq<Trade>)
      requires Valid()
      modifies this`levels, this`best, this`flat, prices, feed
      ensures Valid()
      ensures EngineSwept(old(flat), side == BUY, limit, qty, flat, trades, left)
      ensures feed != null ==> feed.queue == if restoring then old(feed.queue)
               else Offered(old(feed.queue), trades, feed.capacity)
    {
      hide SideOk, MidSweep, Continues, Offered;
      left, trades := qty, [];
      if feed != null { OfferedNothing(feed.queue, feed.capacity); }
      ContinuesStart(flat, qty, side == BUY, limit);
      while Engages(left, best, limit, side == BUY)
        invariant Valid()
        invariant Continues(old(flat), qty, flat, left, side == BUY, limit, trades)
        invariant forall i :: 0 <= i < |trades| ==> trades[i].price > 0
        invariant feed != null ==>
                 feed.queue == if restoring then old(feed.queue) else Offered(old(feed.queue), trades, feed.capacity)
        decreases left
      {
        ghost var flat1, left1, trades1 := flat, left, trades;
        SideOkMidSweep(levels, prices.a, best, flat, sn, side);
        var bestLevel;
        bestLevel, left, flat, trades := FillLevel(levels[best], limit, left, feed, restoring, levels, prices.a, best,
          flat, sn, side);
        levels := levels[best := bestLevel];
        ContinuesFar(old(flat), qty, flat1, left1, flat, left, side == BUY, limit, trades1, trades);
        if feed != null { OfferedConcat(old(feed.queue), trades1, trades, feed.capacity); }
        trades := trades1 + trades;
        if bestLevel.orders == [] {
          RemoveBest();
        } else {
          LevelKept(levels, prices.a, best, flat, sn, side);
        }
      }
      SweepEnds(levels, prices.a, best, flat, sn, side, limit, left);
      SweptBy(old(flat), qty, flat, left, side == BUY, limit, trades);
    }

    /** addOrder with updateBestPrices, on this side. */
    method AddOrder(o: Order)
      requires Valid() && (o.side == BUY) == (side == BUY) && o.quantity > 0
      modifies this, prices
      ensures Valid() <==> !Shadows(Ref.Prices(old(flat)), o.price, side == BUY)
      ensures sn == old(sn) + 1 && flat == Rested(old(flat), o, sn)
    {
      hide SideOk;
      SideKeys(levels, prices.a, best, flat, sn, side);
      var rested := o.(side := side);              // any Side but Buy means the sell side
      ghost var a, oldLevels, oldBest := prices.a, levels, best;
      SideHeap(levels, a, best, flat, sn, side);
      var level := PriceLevel(o.price, 0, []);
      if o.price in levels {
        level := levels[o.price];
      } else {
        prices.Push(o.price);
      }
      ghost var found := level;
      level := level.(orders := level.orders + [rested], totalVolume := WrapAdd(level.totalVolume, o.quantity));
      levels := levels[o.price := level];
      UpdateBestPrice(o.price);
      sn := sn + 1;
      RestKeepsSide(oldLevels, a, oldBest, flat, sn - 1, rested, found, prices.a, best);
      flat := Rested(flat, o, sn);
    }

    /** updateBestPrices, on this side. */
    method UpdateBestPrice(price: uint64)
      modifies this`best
      ensures best == BestAfter(old(best), price, side == BUY)
    {
      if side == BUY {
        if price > best { best := price; }
      } else {
        if price < best || best == 0 { best := price; }
      }
    }

    /** Another order has arrived and left nothing on this side. */
    ghost method Tick()
      requires Valid()
      modifies this`sn
      ensures Valid() && sn == old(sn) + 1
    {
      hide PricesMatch, LevelsMatch;
      Ref.OlderWellFormed(flat, sn);
      sn := sn + 1;
    }
  }
}
