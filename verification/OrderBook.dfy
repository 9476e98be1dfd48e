/**
 OrderBook: both sides put together, the handler in front of it, recovery, and the
 snapshot. The ghost history is the list of orders processed so far, and the book is
 at every moment the book that the naive rule makes of that list.
 */
module OrderBook {
  import opened Events
  import opened Heaps
  import opened BestPrices
  import opened BookLevels
  import opened Matching
  import Ref = ReferenceBook
  import PT = PriceTime

  const SNAPSHOT_DEPTH: nat := 10
  const MAX_QUANTITY: nat := 1_000_000_000

  datatype OrderSnapshot = OrderSnapshot(price: uint64, quantity: uint64)
  datatype BookSnapshot = BookSnapshot(asks: seq<OrderSnapshot>, bids: seq<OrderSnapshot>)

  /** What OnEvent and the recovery loop make of an event. */
  function OrderOf(e: OrderEvent): Order { Ref.Order(e.orderId, e.quantity, e.price, e.side) }

  function OrdersOf(es: seq<OrderEvent>): (os: seq<Order>)
    ensures |os| == |es|
  {
    if es == [] then [] else OrdersOf(es[..|es| - 1]) + [OrderOf(es[|es| - 1])]
  }

  lemma {:induction false} OrdersOfNone()
    ensures OrdersOf([]) == []
  {
  }

  lemma {:induction false} OrdersOfOneMore(es: seq<OrderEvent>, n: nat)
    requires n < |es|
    ensures OrdersOf(es[..n + 1]) == OrdersOf(es[..n]) + [OrderOf(es[n])]
  {
    assert es[..n + 1][..n] == es[..n];
  }

  function RefAfter(history: seq<Order>): Ref.RefBook { Ref.Replay(Ref.EMPTY_BOOK, history) }

  /** The side that an order attacks, in the naive book, and what the naive sweep makes of it. */
  function Attacked(history: seq<Order>, o: Order): seq<Ref.Resting> {
    if o.side == BUY then RefAfter(history).asks else RefAfter(history).bids
  }

  function Attack(history: seq<Order>, o: Order): Ref.Swept {
    Ref.Sweep(Attacked(history, o), o.side != BUY, o.price, o.quantity)
  }

  /** The trades that one more order causes in the naive book. */
  function TradesOf(history: seq<Order>, o: Order): seq<Trade> { Attack(history, o).trades }

  /** The trades before the first one at price 0. */
  function Visible(trades: seq<Trade>): seq<Trade> {
    if trades == [] || trades[0].price == 0 then [] else [trades[0]] + Visible(trades[1..])
  }

  predicate AtZero(trades: seq<Trade>) {
    exists i :: 0 <= i < |trades| && trades[i].price == 0
  }

  /** Where the engine parts from the naive rule, 0 being its mark of an empty side: the naive
      book trades at price 0, or an ask comes to rest beside one at price 0. */
  ghost predicate Derails(history: seq<Order>, o: Order) {
    || AtZero(TradesOf(history, o))
    || (Attack(history, o).left > 0 && Shadows(Ref.Prices(Own(history, o)), o.price, o.side == BUY))
  }

  function Own(history: seq<Order>, o: Order): seq<Ref.Resting> {
    if o.side == BUY then RefAfter(history).bids else RefAfter(history).asks
  }

  lemma {:induction false} VisibleStart(a: seq<Trade>, b: seq<Trade>)
    requires forall i :: 0 <= i < |a| ==> a[i].price > 0
    requires b == [] || b[0].price == 0
    ensures Visible(a + b) == a && (AtZero(a + b) <==> b != [])
  {
    if a == [] {
      assert a + b == b;
    } else {
      assert (a + b)[1..] == a[1..] + b;
      VisibleStart(a[1..], b);
      assert AtZero(a[1..] + b) <==> AtZero(a + b) by { FirstPositive(a[0], a[1..] + b, a + b); }
    }
  }

  lemma {:induction false} FirstPositive(t: Trade, trades: seq<Trade>, all: seq<Trade>)
    requires t.price > 0 && all == [t] + trades
    ensures AtZero(trades) <==> AtZero(all)
  {
    if i :| 0 <= i < |trades| && trades[i].price == 0 { assert all[i + 1].price == 0; }
  }

  /** The side that does not trade, after the order came to rest on it. */
  function RestedOn(flat: seq<Ref.Resting>, o: Order, left: uint64, sn: nat): seq<Ref.Resting> {
    if left > 0 then Rested(flat, o.(quantity := left), sn) else flat
  }

  lemma {:induction false} ReplayOne(history: seq<Order>, o: Order)
    ensures RefAfter(history + [o]) == Ref.Process(RefAfter(history), o)
  {
    assert (history + [o])[..|history|] == history;
  }

  /** One order of the naive book, as the two sides of the engine see it. */
  lemma {:induction false} ProcessSides(history: seq<Order>, o: Order)
    ensures var r, r', s := RefAfter(history), RefAfter(history + [o]), Attack(history, o);
            && r'.sn == r.sn + 1 && r'.trades == r.trades + s.trades
            && (if o.side == BUY then r'.bids else r'.asks) == RestedOn(Own(history, o), o, s.left, r.sn + 1)
            && (if o.side == BUY then r'.asks else r'.bids) == s.book
  {
    ReplayOne(history, o);
    hide Ref.Sweep, Ref.Replay;
  }

  /** The engine's attack agrees with the naive one exactly when nothing trades at price 0. */
  lemma {:induction false} AttackAgrees(history: seq<Order>, o: Order, book': seq<Ref.Resting>, trades: seq<Trade>,
        left: uint64)
    requires EngineSwept(Attacked(history, o), o.side != BUY, o.price, o.quantity, book', trades, left)
    ensures trades == Visible(TradesOf(history, o))
    ensures !AtZero(TradesOf(history, o)) ==> Attack(history, o) == Ref.Swept(book', trades, left)
    ensures AtZero(TradesOf(history, o)) ==> Attack(history, o).book != book'
  {
    var rest := Ref.Sweep(book', o.side != BUY, o.price, left);
    VisibleStart(trades, rest.trades);
    if rest.trades == [] {
      assert trades + [] == trades;
    } else {
      Ref.SweepConserves(book', o.side != BUY, o.price, left);
      assert Ref.Traded(rest.trades) >= rest.trades[0].qty;
    }
  }

  /** No trade of an order is beyond its limit, and it leaves a rest only where it can trade no more. */
  lemma {:induction false} OrderWithinLimit(history: seq<Order>, o: Order)
    ensures forall i :: 0 <= i < |TradesOf(history, o)| ==>
              var paid := TradesOf(history, o)[i].price;
              if o.side == BUY then paid <= o.price else paid >= o.price
    ensures Attack(history, o).left > 0 ==>
              forall p :: p in Ref.Prices(Attack(history, o).book) ==>
                if o.side == BUY then p > o.price else p < o.price
  {
    Ref.ReplayUncrossed(history);
    Ref.WithinLimit(Attacked(history, o), o.side != BUY, o.price, o.quantity, RefAfter(history).sn);
  }

  /** The trades of an order are those of taking the other side's queue, best price first and then by
      arrival, from its front. */
  lemma {:induction false} TradesByPriority(history: seq<Order>, o: Order, queue: seq<Ref.Resting>)
    requires multiset(queue) == multiset(Attacked(history, o)) && PT.InPriority(queue, o.side == BUY)
    ensures TradesOf(history, o) == PT.Fill(queue, o.side == BUY, o.price, o.quantity).trades
    ensures Attack(history, o).left == PT.Fill(queue, o.side == BUY, o.price, o.quantity).left
  {
    Ref.ReplayUncrossed(history);
    PT.PriceTimePriority(Attacked(history, o), queue, o.side == BUY, o.price, o.quantity, RefAfter(history).sn);
  }

  /** What one event does to a book, in the event's own words; side 0 buys. Its quantity goes to trades
      and to its own side, the other side loses what was traded, and what rests, rests last, under the
      event's id and at its price. */
  ghost predicate Effect(history: seq<Order>, history': seq<Order>, e: OrderEvent) {
    var r, r' := RefAfter(history), RefAfter(history');
    var traded := Ref.Traded(r'.trades) - Ref.Traded(r.trades);
    var rest := if traded < e.quantity then [(e.orderId, e.quantity - traded, e.price)] else [];
    && r.trades <= r'.trades
    && (e.side == 0 ==>
          && Ref.Volume(r'.bids) + traded == Ref.Volume(r.bids) + e.quantity
          && Ref.Volume(r'.asks) + traded == Ref.Volume(r.asks)
          && r.bids <= r'.bids && Plain(r'.bids[|r.bids|..]) == rest)
    && (e.side != 0 ==>
          && Ref.Volume(r'.asks) + traded == Ref.Volume(r.asks) + e.quantity
          && Ref.Volume(r'.bids) + traded == Ref.Volume(r.bids)
          && r.asks <= r'.asks && Plain(r'.asks[|r.asks|..]) == rest)
  }

  /** Resting orders as id, quantity and price. */
  function Plain(book: seq<Ref.Resting>): seq<(nat, nat, nat)> {
    seq(|book|, i requires 0 <= i < |book| => (book[i].id, book[i].qty, book[i].price))
  }

  lemma {:induction false} EventEffect(history: seq<Order>, e: OrderEvent)
    ensures Effect(history, history + [OrderOf(e)], e)
  {
    var o, r := OrderOf(e), RefAfter(history);
    var r' := RefAfter(history + [o]);
    var s := Attack(history, o);
    ReplayOne(history, o);
    ProcessSides(history, o);
    Ref.ProcessConserves(r, o);
    Ref.SweepConserves(Attacked(history, o), o.side != BUY, o.price, o.quantity);
    Ref.TradedConcat(r.trades, s.trades);
    hide Ref.Sweep, Ref.Replay, Ref.Process, Ref.Traded, Ref.Volume, RefAfter;
    assert Own(history, o)[|Own(history, o)|..] == [];
  }

  /** The order at the end of its level on a side. */
  ghost predicate RestsLast(b: BookSide, id: nat, quantity: nat, price: nat)
    reads b
  {
    && price in b.levels && b.levels[price].orders != []
    && var last := b.levels[price].orders[|b.levels[price].orders| - 1];
    last.id == id && last.quantity == quantity && last.price == price
  }

  lemma {:induction false} LastAtPrice(flat: seq<Ref.Resting>, r: Ref.Resting, side: uint8)
    ensures r.price in Ref.Prices(flat + [r])
    ensures AtPrice(flat + [r], r.price, side) == AtPrice(flat, r.price, side) + [ToOrder(r, side)]
  {
    Ref.RestPrices(flat, r);
    AtPriceConcat(flat, [r], r.price, side);
    assert [r][1..] == [];
  }

  // --- What a snapshot must be ---

  /** The first levels of one side of a book, from a list of its prices in order. */
  ghost function Depth(full: seq<uint64>, flat: seq<Ref.Resting>, side: uint8): seq<OrderSnapshot> {
    var top := Take(full, SNAPSHOT_DEPTH);
    seq(|top|, i requires 0 <= i < |top| => OrderSnapshot(top[i], Quantity(AtPrice(flat, top[i], side)) % U64))
  }

  /** snap is the snapshot that sorts every price of the side. */
  ghost predicate IsDepth(snap: seq<OrderSnapshot>, flat: seq<Ref.Resting>, side: uint8) {
    forall full: seq<uint64> :: Sorted(full, side == BUY) && multiset(full) == multiset(Ref.Prices(flat)) ==>
      snap == Depth(full, flat, side)
  }

  /** There is such a list, so IsDepth never holds for want of one. */
  lemma {:induction false} SortedPricesExist(levels: map<uint64, PriceLevel>, a: seq<uint64>, best: uint64,
        flat: seq<Ref.Resting>, sn: nat, side: uint8)
    returns (full: seq<uint64>)
    requires SideOk(levels, a, best, flat, sn, side)
    ensures Sorted(full, side == BUY) && multiset(full) == multiset(Ref.Prices(flat)) && multiset(full) == multiset(a)
  {
    full := Sort(a, side == BUY);
    SortSorts(a, side == BUY);
  }

  lemma {:induction false} SnapshotIsDepth(levels: map<uint64, PriceLevel>, a: seq<uint64>, best: uint64,
        flat: seq<Ref.Resting>, sn: nat, side: uint8, top: seq<uint64>, snap: seq<OrderSnapshot>)
    requires SideOk(levels, a, best, flat, sn, side)
    requires forall full :: IsSortOf(full, a, side == BUY) ==> top == Take(full, SNAPSHOT_DEPTH)
    requires |snap| == |top|
    requires forall i :: 0 <= i < |top| ==>
             top[i] in levels && snap[i] == OrderSnapshot(top[i], levels[top[i]].totalVolume)
    ensures IsDepth(snap, flat, side)
  {
    forall full: seq<uint64> | Sorted(full, side == BUY)
      && multiset(full) == multiset(Ref.Prices(flat)) ensures snap == Depth(full, flat, side) {
      assert IsSortOf(full, a, side == BUY);
      forall i | 0 <= i < |top| ensures snap[i] == OrderSnapshot(top[i], Quantity(AtPrice(flat, top[i], side)) % U64) {
        assert levels[top[i]] == LevelFor(flat, top[i], side);
      }
    }
  }

  ghost predicate Listed(snap: seq<OrderSnapshot>, p: uint64) {
    exists i :: 0 <= i < |snap| && snap[i].price == p
  }

  /** A snapshot in plain words; side 0 are the bids. Up to ten of the prices that somebody rests at,
      strictly from the best on, nobody better left out, each with the sum of its queue. */
  ghost predicate BestTen(snap: seq<OrderSnapshot>, flat: seq<Ref.Resting>, side: uint8) {
    && |snap| <= 10
    && (forall i, k :: 0 <= i < k < |snap| ==>
          if side == 0 then snap[i].price > snap[k].price else snap[i].price < snap[k].price)
    && (forall i :: 0 <= i < |snap| ==>
          snap[i].price in Ref.Prices(flat)
          && snap[i].quantity == Quantity(AtPrice(flat, snap[i].price, side)) % 0x1_0000_0000_0000_0000)
    && (forall p :: p in Ref.Prices(flat) && !Listed(snap, p) ==>
          && |snap| == 10
          && forall i :: 0 <= i < |snap| ==> if side == 0 then p < snap[i].price else p > snap[i].price)
  }

  lemma {:induction false} DepthIsBestTen(levels: map<uint64, PriceLevel>, a: seq<uint64>, best: uint64,
        flat: seq<Ref.Resting>, sn: nat, side: uint8, snap: seq<OrderSnapshot>)
    requires SideOk(levels, a, best, flat, sn, side) && IsDepth(snap, flat, side)
    ensures BestTen(snap, flat, side)
  {
    var full := SortedPricesExist(levels, a, best, flat, sn, side);
    hide SideOk, Depth;
    assert snap == Depth(full, flat, side);
    FullDistinct(full, Ref.Prices(flat), side == BUY);
    InKeys(full, Ref.Prices(flat));
    hide IsDepth, Sorted;
    DepthOfFull(full, flat, side);
  }

  lemma {:induction false} DepthOfFull(full: seq<uint64>, flat: seq<Ref.Resting>, side: uint8)
    requires forall i, k :: 0 <= i < k < |full| ==> if side == 0 then full[i] > full[k] else full[i] < full[k]
    requires forall i :: 0 <= i < |full| ==> full[i] in Ref.Prices(flat)
    requires forall p :: p in Ref.Prices(flat) ==> p in full
    ensures BestTen(Depth(full, flat, side), flat, side)
  {
    hide AtPrice, Quantity, Ref.Prices;
    var snap := Depth(full, flat, side);
    assert forall i :: 0 <= i < |snap| ==> snap[i].price == full[i] && Listed(snap, full[i]);
    forall p | p in Ref.Prices(flat) && !Listed(snap, p)
      ensures |snap| == 10
      ensures forall i :: 0 <= i < |snap| ==> if side == 0 then p < snap[i].price else p > snap[i].price
    {
      var k :| 0 <= k < |full| && full[k] == p;
      assert !(k < |snap|);
    }
  }

  lemma {:induction false} TwiceIn<T>(s: seq<T>, i: nat, k: nat)
    requires i < k < |s| && s[i] == s[k]
    ensures multiset(s)[s[k]] >= 2
  {
    var t := s[..k];
    assert t[i] == s[k];
    assert s == t + [s[k]] + s[k + 1..];
  }

  /** The sorted list of a set of prices is strictly sorted, and has all of them. */
  lemma {:induction false} FullDistinct(full: seq<uint64>, keys: set<uint64>, descending: bool)
    requires Sorted(full, descending) && multiset(full) == multiset(keys)
    ensures forall i, k :: 0 <= i < k < |full| ==> if descending then full[i] > full[k] else full[i] < full[k]
    ensures forall p :: p in keys ==> p in full
  {
    forall p | p in keys ensures p in full { assert p in multiset(keys); }
    forall i, k | 0 <= i < k < |full| ensures full[i] != full[k] {
      assert multiset(keys)[full[k]] <= 1;
      if full[i] == full[k] { TwiceIn(full, i, k); }
    }
  }

  lemma {:induction false} TopAreKeys(levels: map<uint64, PriceLevel>, a: seq<uint64>, best: uint64,
        flat: seq<Ref.Resting>, sn: nat, side: uint8, top: seq<uint64>)
    requires SideOk(levels, a, best, flat, sn, side)
    requires forall full :: IsSortOf(full, a, side == BUY) ==> top == Take(full, SNAPSHOT_DEPTH)
    ensures forall i :: 0 <= i < |top| ==> top[i] in levels
  {
    hide PricesMatch, LevelsMatch, Sorted;
    var full := SortedPricesExist(levels, a, best, flat, sn, side);
    assert IsSortOf(full, a, side == BUY);
    assert top == Take(full, SNAPSHOT_DEPTH);
    InKeys(full, Ref.Prices(flat));
  }

  lemma {:induction false} InKeys(full: seq<uint64>, keys: set<uint64>)
    requires multiset(full) == multiset(keys)
    ensures forall i :: 0 <= i < |full| ==> full[i] in keys
  {
    forall i | 0 <= i < |full| ensures full[i] in keys {
      assert full[i] in multiset(full);
    }
  }

  lemma {:induction false} LevelVolume(levels: map<uint64, PriceLevel>, a: seq<uint64>, best: uint64,
        flat: seq<Ref.Resting>, sn: nat, side: uint8, p: uint64)
    requires SideOk(levels, a, best, flat, sn, side) && p in levels && Quantity(AtPrice(flat, p, side)) < U64
    ensures levels[p].totalVolume == Quantity(levels[p].orders)
  {
    hide PricesMatch, Quantity, AtPrice;
    assert levels[p] == LevelFor(flat, p, side);
  }

  // --- Every reachable book ---

  /** The best buyer pays less than the best seller asks. */
  lemma {:induction false} NeverCrossed(history: seq<Order>, b: uint64, a: uint64)
    requires b in Ref.Prices(RefAfter(history).bids) && a in Ref.Prices(RefAfter(history).asks)
    ensures b < a
  {
    Ref.ReplayUncrossed(history);
  }

  /** With validated quantities a level's volume fits a uint64 for about 1.8e10 orders. */
  lemma {:induction false} VolumeNeverWraps(history: seq<Order>, p: uint64, side: uint8)
    requires |history| <= (U64 - 1) / MAX_QUANTITY
    requires forall i :: 0 <= i < |history| ==> history[i].quantity <= MAX_QUANTITY
    ensures Quantity(AtPrice(RefAfter(history).bids, p, side)) < U64
    ensures Quantity(AtPrice(RefAfter(history).asks, p, side)) < U64
  {
    Ref.RunConserves(history);
    Ref.SubmittedBound(history, true, MAX_QUANTITY);
    Ref.SubmittedBound(history, false, MAX_QUANTITY);
    LevelWithinVolume(RefAfter(history).bids, p, side);
    LevelWithinVolume(RefAfter(history).asks, p, side);
    assert |history| * MAX_QUANTITY <= ((U64 - 1) / MAX_QUANTITY) * MAX_QUANTITY < U64;
  }

  /** Recovering a prefix and then processing the rest live makes the same book as one run. */
  lemma {:induction false} RecoveryComposes(recovered: seq<Order>, live: seq<Order>)
    ensures RefAfter(recovered + live) == Ref.Replay(RefAfter(recovered), live)
  {
    Ref.ReplayConcat(Ref.EMPTY_BOOK, recovered, live);
  }

  /** None of the first n events derails a book with this history. */
  ghost predicate Sound(history: seq<Order>, events: seq<OrderEvent>, n: int) {
    forall i :: 0 <= i < n && i < |events| ==> !Derails(history + OrdersOf(events[..i]), OrderOf(events[i]))
  }

  ghost predicate Positive(history: seq<Order>) {
    forall i :: 0 <= i < |history| ==> history[i].price > 0
  }

  /** Prices that rest, and prices of trades, are prices that were offered. */
  lemma {:induction false} PositiveBook(history: seq<Order>)
    requires Positive(history)
    ensures 0 !in Ref.Prices(RefAfter(history).bids) && 0 !in Ref.Prices(RefAfter(history).asks)
  {
    if history != [] {
      var h, o := history[..|history| - 1], history[|history| - 1];
      assert history == h + [o];
      PositiveBook(h);
      Ref.ReplayUncrossed(h);
      Ref.SweepStops(Attacked(h, o), o.side != BUY, o.price, o.quantity, RefAfter(h).sn);
      ProcessSides(h, o);
      hide Ref.Sweep, Ref.Replay, RefAfter;
      Ref.RestPrices(Own(h, o), Ref.Resting(o.id, Attack(h, o).left, o.price, RefAfter(h).sn + 1));
    }
  }

  /** With positive prices, which validation sees to, the engine never derails. */
  lemma {:induction false} PositiveNeverDerails(history: seq<Order>, o: Order)
    requires Positive(history)
    ensures !Derails(history, o)
  {
    PositiveBook(history);
    var book := Attacked(history, o);
    Ref.SweepPrices(book, o.side != BUY, o.price, o.quantity);
    hide Ref.Sweep, RefAfter, Ref.Prices;
    var trades := TradesOf(history, o);
    forall i | 0 <= i < |trades| ensures trades[i].price != 0 {
      assert trades[i].price in Ref.Prices(book);
    }
  }

  lemma {:induction false} PositiveIsSound(history: seq<Order>, events: seq<OrderEvent>, n: nat)
    requires Positive(history) && n <= |events| && forall i :: 0 <= i < n ==> events[i].price > 0
    ensures Sound(history, events, n) && Positive(history + OrdersOf(events[..n]))
  {
    hide Derails, OrdersOf;
    if n > 0 {
      PositiveIsSound(history, events, n - 1);
      OrdersOfOneMore(events, n - 1);
      PositiveNeverDerails(history + OrdersOf(events[..n - 1]), OrderOf(events[n - 1]));
      assert history + OrdersOf(events[..n]) == history + OrdersOf(events[..n - 1]) + [OrderOf(events[n - 1])];
    } else {
      OrdersOfNone();
    }
  }

  /** And without them it does: a sell of 1 at price 0 rests, a buy of 1 at 5 should trade with it and does not. */
  lemma {:induction false} ZeroPriceDerails()
    ensures var sell, buy := Ref.Order(1, 1, 0, SELL), Ref.Order(2, 1, 5, BUY);
            && !Derails([], sell) && Derails([sell], buy)
            && TradesOf([sell], buy) == [Ref.Trade(0, 1)] && Visible(TradesOf([sell], buy)) == []
  {
    var sell, buy := Ref.Order(1, 1, 0, SELL), Ref.Order(2, 1, 5, BUY);
    var resting := Ref.Resting(1, 1, 0, 1);
    assert Ref.Sweep([], true, 0, 1) == Ref.Swept([], [], 1);
    assert RefAfter([]) == Ref.EMPTY_BOOK;
    assert [] + [sell] == [sell];
    ReplayOne([], sell);
    assert RefAfter([sell]) == Ref.RefBook([], [resting], 1, []);
    assert Ref.BestIndexTo([resting], false, 0) == -1;
    assert Ref.BestIndex([resting], false) == 0;
    assert Ref.Filled([resting], 0, 1) == [];
    assert Ref.Sweep([], false, 5, 0) == Ref.Swept([], [], 0);
    assert Ref.Sweep([resting], false, 5, 1) == Ref.Swept([], [Ref.Trade(0, 1)], 0);
    assert TradesOf([sell], buy)[0].price == 0;
  }

  class OrderBook {
    const assetId: uint32
    const bids: BookSide                       // bidsMap, bidPrices, bestBid
    const asks: BookSide                       // asksMap, askPrices, bestAsk
    const cloudPublisher: TradeChannel?
    var isRestoring: bool
    ghost var history: seq<Order>

    ghost predicate Valid()
      reads this, bids, asks, bids.prices, asks.prices
    {
      && bids != asks && bids.prices != asks.prices
      && bids.side == BUY && asks.side == SELL && bids.Valid() && asks.Valid()
      && var r := RefAfter(history);
      && bids.flat == r.bids && asks.flat == r.asks && bids.sn == asks.sn == r.sn
    }

    constructor (assetId: uint32, publisher: TradeChannel?)
      ensures Valid() && fresh(bids) && fresh(asks) && fresh(bids.prices) && fresh(asks.prices)
      ensures this.assetId == assetId && cloudPublisher == publisher && !isRestoring && history == []
    {
      this.assetId := assetId;
      var b := new BookSide(BUY);
      var a := new BookSide(SELL);
      bids, asks := b, a;
      cloudPublisher := publisher;
      isRestoring := false;
      history := [];
    }

    /** matchBuy when other is the ask side, matchSell when it is the bid side. */
    method Match(own: BookSide, other: BookSide, order: Order)
      requires Valid()
      requires if order.side == BUY then own == bids && other == asks else own == asks && other == bids
      modifies this`history, bids, asks, bids.prices, asks.prices, cloudPublisher
      ensures history == old(history) + [order] && (Valid() <==> !Derails(old(history), order))
      ensures forall i :: 0 <= i < |TradesOf(old(history), order)| ==>
                var paid := TradesOf(old(history), order)[i].price;
                if order.side == BUY then paid <= order.price else paid >= order.price
      ensures cloudPublisher != null ==>
                cloudPublisher.queue == if isRestoring then old(cloudPublisher.queue)
                                        else Offered(old(cloudPublisher.queue), Visible(TradesOf(old(history), order)),
                                                     cloudPublisher.capacity)
    {
      hide Ref.Sweep, Ref.Process, Ref.Replay, SideOk, Offered, EngineSwept, RefAfter, Shadows, AtZero, Visible;
      var left; ghost var trades;
      OrderWithinLimit(history, order);
      left, trades := other.Sweep(order.price, order.quantity, cloudPublisher, isRestoring);
      AttackAgrees(history, order, other.flat, trades, left);
      ProcessSides(history, order);
      other.Tick();
      if left > 0 {
        own.AddOrder(order.(quantity := left));
      } else {
        own.Tick();
      }
      history := history + [order];
    }

    /** Process: after each order the book is the naive book of the whole history, unless the order
        derails it; then, and only then, it is not. */
    method Process(order: Order)
      requires Valid()
      modifies this`history, bids, asks, bids.prices, asks.prices, cloudPublisher
      ensures history == old(history) + [order] && (Valid() <==> !Derails(old(history), order))
      ensures forall i :: 0 <= i < |TradesOf(old(history), order)| ==>
                var paid := TradesOf(old(history), order)[i].price;
                if order.side == BUY then paid <= order.price else paid >= order.price
      ensures cloudPublisher != null ==>
                cloudPublisher.queue == if isRestoring then old(cloudPublisher.queue)
                                        else Offered(old(cloudPublisher.queue), Visible(TradesOf(old(history), order)),
                                                     cloudPublisher.capacity)
    {
      if order.side == BUY {
        Match(bids, asks, order);
      } else {
        Match(asks, bids, order);
      }
    }

    method SetRestoreMode(restoring: bool)
      modifies this`isRestoring
      ensures isRestoring == restoring
    {
      isRestoring := restoring;
    }

    /** In a book that has this event as its last, what the event left rests last at its price. */
    lemma {:induction false} EventRests(before: seq<Order>, e: OrderEvent)
      requires Valid() && history == before + [OrderOf(e)] && Effect(before, history, e)
      ensures var traded := Ref.Traded(RefAfter(history).trades) - Ref.Traded(RefAfter(before).trades);
              traded < e.quantity ==>
                RestsLast(if e.side == 0 then bids else asks, e.orderId, e.quantity - traded, e.price)
    {
      hide SideOk, Ref.Traded, Ref.Volume, RefAfter, AtPrice;
      var traded := Ref.Traded(RefAfter(history).trades) - Ref.Traded(RefAfter(before).trades);
      if traded < e.quantity {
        SideShows(bids.levels, bids.prices.a, bids.best, bids.flat, bids.sn, BUY);
        SideShows(asks.levels, asks.prices.a, asks.best, asks.flat, asks.sn, SELL);
        var was := if e.side == 0 then RefAfter(before).bids else RefAfter(before).asks;
        var flat := if e.side == 0 then bids.flat else asks.flat;
        assert Plain(flat[|was|..])[0] == (e.orderId, e.quantity - traded, e.price);
        assert flat == was + [flat[|was|]];
        LastAtPrice(was, flat[|was|], if e.side == 0 then BUY else SELL);
      }
    }

    /** OnEvent of EngineHandler. */
    method OnEvent(event: OrderEvent)
      requires Valid()
      modifies this`history, bids, asks, bids.prices, asks.prices, cloudPublisher
      ensures history == old(history) + [OrderOf(event)] && (Valid() <==> !Derails(old(history), OrderOf(event)))
      ensures forall i :: 0 <= i < |TradesOf(old(history), OrderOf(event))| ==>
                var paid := TradesOf(old(history), OrderOf(event))[i].price;
                if event.side == BUY then paid <= event.price else paid >= event.price
      ensures Effect(old(history), history, event)
      ensures var traded := Ref.Traded(RefAfter(history).trades) - Ref.Traded(RefAfter(old(history)).trades);
              Valid() && traded < event.quantity ==>
                RestsLast(if event.side == 0 then bids else asks, event.orderId, event.quantity - traded, event.price)
      ensures cloudPublisher != null ==>
                cloudPublisher.queue == if isRestoring then old(cloudPublisher.queue)
                                        else Offered(old(cloudPublisher.queue),
                                          Visible(TradesOf(old(history), OrderOf(event))),
                                                     cloudPublisher.capacity)
    {
      hide Effect, RefAfter, Derails, Visible, TradesOf, Offered, SideOk, RestsLast, Ref.Traded;
      EventEffect(history, event);
      Process(Ref.Order(event.orderId, event.quantity, event.price, event.side));
      if Valid() { EventRests(old(history), event); }
    }

    /** Recovery at start-up: replay the file silently. On a book that an order has derailed
        nothing is claimed, so no order but the last may. */
    method Recover(pastEvents: seq<OrderEvent>)
      requires Valid() && Sound(history, pastEvents, |pastEvents| - 1)
      modifies this, bids, asks, bids.prices, asks.prices, cloudPublisher
      ensures !isRestoring && history == old(history) + OrdersOf(pastEvents)
      ensures Valid() <==> Sound(old(history), pastEvents, |pastEvents|)
      ensures forall n :: 0 <= n < |pastEvents| ==>
                Effect(old(history) + OrdersOf(pastEvents[..n]), old(history) + OrdersOf(pastEvents[..n + 1]),
                  pastEvents[n])
      ensures cloudPublisher != null ==> cloudPublisher.queue == old(cloudPublisher.queue)
    {
      hide RefAfter, SideOk, OrdersOf, Derails, Offered, Effect, TradesOf, Visible, RestsLast;
      OrdersOfNone();
      SetRestoreMode(true);
      for n := 0 to |pastEvents|
        invariant isRestoring && history == old(history) + OrdersOf(pastEvents[..n])
        invariant Valid() <==> Sound(old(history), pastEvents, n)
        invariant forall k :: 0 <= k < n ==>
                    Effect(old(history) + OrdersOf(pastEvents[..k]), old(history) + OrdersOf(pastEvents[..k + 1]),
                      pastEvents[k])
        invariant cloudPublisher != null ==> cloudPublisher.queue == old(cloudPublisher.queue)
      {
        OrdersOfOneMore(pastEvents, n);
        OnEvent(pastEvents[n]);
        assert old(history) + OrdersOf(pastEvents[..n + 1])
          == old(history) + OrdersOf(pastEvents[..n]) + [OrderOf(pastEvents[n])];
      }
      assert pastEvents[..|pastEvents|] == pastEvents;
      SetRestoreMode(false);
    }

    /** One half of GetSnapshot. */
    method SideSnapshot(s: BookSide) returns (snap: seq<OrderSnapshot>)
      requires s.Valid()
      ensures IsDepth(snap, s.flat, s.side) && BestTen(snap, s.flat, s.side)
    {
      hide SideOk, IsSortOf;
      SideHeap(s.levels, s.prices.a, s.best, s.flat, s.sn, s.side);
      var top := BestPrices.BestPrices(s.prices.a, SNAPSHOT_DEPTH, s.side == BUY);
      TopAreKeys(s.levels, s.prices.a, s.best, s.flat, s.sn, s.side, top);
      snap := [];
      for i := 0 to |top|
        invariant |snap| == i
        invariant forall k :: 0 <= k < i ==> snap[k] == OrderSnapshot(top[k], s.levels[top[k]].totalVolume)
      {
        snap := snap + [OrderSnapshot(top[i], s.levels[top[i]].totalVolume)];
      }
      SnapshotIsDepth(s.levels, s.prices.a, s.best, s.flat, s.sn, s.side, top, snap);
      DepthIsBestTen(s.levels, s.prices.a, s.best, s.flat, s.sn, s.side, snap);
    }

    /** The ten best levels of each side, volumes included, as if every price had been sorted. */
    method GetSnapshot() returns (snap: BookSnapshot)
      requires Valid()
      ensures IsDepth(snap.asks, RefAfter(history).asks, SELL) && IsDepth(snap.bids, RefAfter(history).bids, BUY)
      ensures BestTen(snap.asks, RefAfter(history).asks, 1) && BestTen(snap.bids, RefAfter(history).bids, 0)
    {
      var a := SideSnapshot(asks);
      var b := SideSnapshot(bids);
      snap := BookSnapshot(a, b);
    }

    /** bestBid < bestAsk whenever both sides have somebody. */
    lemma {:induction false} BestBidBelowBestAsk()
      requires Valid() && bids.best > 0 && asks.best > 0
      ensures bids.best < asks.best
    {
      SideOkMidSweep(bids.levels, bids.prices.a, bids.best, bids.flat, bids.sn, BUY);
      SideOkMidSweep(asks.levels, asks.prices.a, asks.best, asks.flat, asks.sn, SELL);
      NeverCrossed(history, bids.best, asks.best);
    }

    /** A cached best price is 0 exactly when nobody rests on its side, or nobody at a better price than 0. */
    lemma {:induction false} SentinelMeansEmpty()
      requires Valid()
      ensures bids.best == 0 <==> Blind(RefAfter(history).bids, true)
      ensures asks.best == 0 <==> Blind(RefAfter(history).asks, false)
      ensures Positive(history) ==> (bids.best == 0 <==> RefAfter(history).bids == [])
      ensures Positive(history) ==> (asks.best == 0 <==> RefAfter(history).asks == [])
    {
      hide SideOk;
      BlindIff(bids.levels, bids.prices.a, bids.best, bids.flat, bids.sn, BUY);
      BlindIff(asks.levels, asks.prices.a, asks.best, asks.flat, asks.sn, SELL);
      if Positive(history) { PositiveBook(history); }
    }

    /** With validated orders the cached volume of a level is the sum of its queue. */
    lemma {:induction false} CachedVolumeIsSum(p: uint64)
      requires Valid() && |history| <= (U64 - 1) / MAX_QUANTITY
      requires forall i :: 0 <= i < |history| ==> history[i].quantity <= MAX_QUANTITY
      ensures p in bids.levels ==> bids.levels[p].totalVolume == Quantity(bids.levels[p].orders)
      ensures p in asks.levels ==> asks.levels[p].totalVolume == Quantity(asks.levels[p].orders)
    {
      hide SideOk, Quantity, AtPrice, Ref.Replay;
      VolumeNeverWraps(history, p, BUY);
      VolumeNeverWraps(history, p, SELL);
      if p in bids.levels { LevelVolume(bids.levels, bids.prices.a, bids.best, bids.flat, bids.sn, BUY, p); }
      if p in asks.levels { LevelVolume(asks.levels, asks.prices.a, asks.best, asks.flat, asks.sn, SELL, p); }
    }
  }

  /** What two books hold is the same: levels with their queues and volumes, heaps up to layout, best prices. */
  ghost predicate SameBook(b: OrderBook, c: OrderBook)
    reads b, b.bids, b.asks, b.bids.prices, b.asks.prices, c, c.bids, c.asks, c.bids.prices, c.asks.prices
  {
    && b.bids.levels == c.bids.levels && b.asks.levels == c.asks.levels
    && multiset(b.bids.prices.a) == multiset(c.bids.prices.a) && multiset(b.asks.prices.a) == multiset(c.asks.prices.a)
    && b.bids.best == c.bids.best && b.asks.best == c.asks.best
  }

  /** Books with the same history are the same, however and in whatever parts they came by it. */
  lemma {:induction false} SameHistorySameBook(b: OrderBook, c: OrderBook)
    requires b.Valid() && c.Valid() && b.history == c.history
    ensures SameBook(b, c)
  {
    hide SideOk, RefAfter;
    SidesAgree(b.bids.levels, b.bids.prices.a, b.bids.best, c.bids.levels, c.bids.prices.a, c.bids.best, b.bids.flat,
      b.bids.sn, BUY);
    SidesAgree(b.asks.levels, b.asks.prices.a, b.asks.best, c.asks.levels, c.asks.prices.a, c.asks.best, b.asks.flat,
      b.asks.sn, SELL);
  }

  /** The engine's book holds a naive book: for every price somebody rests at, its queue and its volume. */
  ghost predicate Shows(b: OrderBook, r: Ref.RefBook)
    reads b, b.bids, b.asks
  {
    && b.bids.levels.Keys == Ref.Prices(r.bids)
      && (forall p :: p in b.bids.levels ==> b.bids.levels[p] == LevelFor(r.bids, p, BUY))
    && b.asks.levels.Keys == Ref.Prices(r.asks)
      && (forall p :: p in b.asks.levels ==> b.asks.levels[p] == LevelFor(r.asks, p, SELL))
  }

  lemma {:induction false} ValidShows(b: OrderBook)
    requires b.Valid()
    ensures Shows(b, RefAfter(b.history))
  {
    hide SideOk, RefAfter, LevelFor;
    SideShows(b.bids.levels, b.bids.prices.a, b.bids.best, b.bids.flat, b.bids.sn, BUY);
    SideShows(b.asks.levels, b.asks.prices.a, b.asks.best, b.asks.flat, b.asks.sn, SELL);
  }
}
