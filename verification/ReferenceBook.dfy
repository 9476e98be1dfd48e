/**
 The naive price-time book: one flat list of resting orders a side, linear search
 for the best price, ties broken by arrival. It is the reading of "correct" that the
 order book is held against.
 */
module ReferenceBook {
  import opened Events
  import opened Heaps

  datatype Order = Order(id: uint64, quantity: uint64, price: uint64, side: uint8)

  datatype Resting = Resting(id: uint64, qty: uint64, price: uint64, sn: nat)

  datatype Trade = Trade(price: uint64, qty: uint64)

  datatype RefBook = RefBook(bids: seq<Resting>, asks: seq<Resting>, sn: nat, trades: seq<Trade>)

  const EMPTY_BOOK: RefBook := RefBook([], [], 0, [])

  /** Among the first n: best price, then earliest arrival; -1 when there is none. */
  function BestIndexTo(book: seq<Resting>, descending: bool, n: nat): (best: int)
    requires n <= |book|
    ensures -1 <= best < n && (best == -1 <==> n == 0)
  {
    if n == 0 then -1
    else
      var b := BestIndexTo(book, descending, n - 1);
      var o := book[n - 1];
      if b < 0 || Better(descending, o.price, book[b].price)
         || (!Better(descending, book[b].price, o.price) && o.sn < book[b].sn)
      then n - 1 else b
  }

  function BestIndex(book: seq<Resting>, descending: bool): (best: int)
    ensures -1 <= best < |book| && (best == -1 <==> book == [])
  {
    BestIndexTo(book, descending, |book|)
  }

  /** An incoming order with this limit trades with a resting order at this price. */
  predicate Crosses(descending: bool, limit: uint64, price: uint64) {
    if descending then limit <= price else limit >= price
  }

  function MinQty(a: uint64, b: uint64): uint64 { if a < b then a else b }

  /** What book[i] leaves behind after trading q of its quantity. */
  function Filled(book: seq<Resting>, i: nat, q: uint64): seq<Resting>
    requires i < |book| && q <= book[i].qty
  {
    if book[i].qty == q then book[..i] + book[i + 1..]
    else book[i := book[i].(qty := book[i].qty - q)]
  }

  datatype Swept = Swept(book: seq<Resting>, trades: seq<Trade>, left: uint64)

  /** Trade with the best resting order until nothing is left or nothing crosses. */
  function Sweep(book: seq<Resting>, descending: bool, limit: uint64, qty: uint64): Swept
    decreases |book|, qty
  {
    if qty == 0 then Swept(book, [], 0)
    else
      var i := BestIndex(book, descending);
      if i < 0 || !Crosses(descending, limit, book[i].price) then Swept(book, [], qty)
      else
        var q := MinQty(qty, book[i].qty);
        var rest := Sweep(Filled(book, i, q), descending, limit, qty - q);
        Swept(rest.book, [Trade(book[i].price, q)] + rest.trades, rest.left)
  }

  function Process(r: RefBook, o: Order): RefBook {
    var sn := r.sn + 1;
    if o.side == BUY then
      var s := Sweep(r.asks, false, o.price, o.quantity);
      RefBook(if s.left > 0 then r.bids + [Resting(o.id, s.left, o.price, sn)] else r.bids,
              s.book, sn, r.trades + s.trades)
    else
      var s := Sweep(r.bids, true, o.price, o.quantity);
      RefBook(s.book,
              if s.left > 0 then r.asks + [Resting(o.id, s.left, o.price, sn)] else r.asks,
              sn, r.trades + s.trades)
  }

  function Replay(r: RefBook, orders: seq<Order>): RefBook {
    if orders == [] then r else Process(Replay(r, orders[..|orders| - 1]), orders[|orders| - 1])
  }

  /** A book that only Process has touched. */
  ghost predicate WellFormed(book: seq<Resting>, sn: nat) {
    && (forall i :: 0 <= i < |book| ==> book[i].qty > 0 && book[i].sn <= sn)
    && (forall i, k :: 0 <= i < k < |book| ==> book[i].sn < book[k].sn)
  }

  ghost predicate Valid(r: RefBook) {
    WellFormed(r.bids, r.sn) && WellFormed(r.asks, r.sn)
  }

  /** Nobody in book[..n] has a better price, and nobody before i has the same. */
  ghost predicate IsBest(book: seq<Resting>, descending: bool, i: nat, n: nat)
    requires n <= |book|
  {
    && i < n
    && (forall k :: 0 <= k < n ==> !Better(descending, book[k].price, book[i].price))
    && (forall k :: 0 <= k < i ==> book[k].price != book[i].price)
  }

  lemma {:induction false} BestIndexIsBest(book: seq<Resting>, descending: bool, n: nat, sn: nat)
    requires 0 < n <= |book| && WellFormed(book, sn)
    ensures IsBest(book, descending, BestIndexTo(book, descending, n), n)
  {
    if n > 1 { BestIndexIsBest(book, descending, n - 1, sn); }
  }

  lemma {:induction false} BestIsUnique(book: seq<Resting>, descending: bool, i: nat, sn: nat)
    requires WellFormed(book, sn) && IsBest(book, descending, i, |book|)
    ensures BestIndex(book, descending) == i
  {
    BestIndexIsBest(book, descending, |book|, sn);
  }

  lemma {:induction false} FilledWellFormed(book: seq<Resting>, i: nat, q: uint64, sn: nat)
    requires WellFormed(book, sn) && i < |book| && q <= book[i].qty
    ensures WellFormed(Filled(book, i, q), sn)
  {
  }

  ghost function Prices(book: seq<Resting>): set<uint64> {
    set i | 0 <= i < |book| :: book[i].price
  }

  lemma {:induction false} FilledPrices(book: seq<Resting>, i: nat, q: uint64)
    requires i < |book| && q <= book[i].qty
    ensures Prices(Filled(book, i, q)) <= Prices(book)
  {
    var b := Filled(book, i, q);
    forall p | p in Prices(b) ensures p in Prices(book) {
      var k :| 0 <= k < |b| && b[k].price == p;
      var m := if book[i].qty == q && k >= i then k + 1 else k;
      assert book[m].price == p;
    }
  }

  lemma {:induction false} NothingCrosses(book: seq<Resting>, descending: bool, limit: uint64, i: nat)
    requires IsBest(book, descending, i, |book|) && !Crosses(descending, limit, book[i].price)
    ensures forall p :: p in Prices(book) ==> !Crosses(descending, limit, p)
  {
  }

  /** What a sweep leaves: a well-formed book in which, if the order has a rest, nothing crosses. */
  lemma {:induction false} SweepStops(book: seq<Resting>, descending: bool, limit: uint64, qty: uint64, sn: nat)
    requires WellFormed(book, sn)
    ensures var s := Sweep(book, descending, limit, qty);
            && WellFormed(s.book, sn) && Prices(s.book) <= Prices(book)
            && (s.left > 0 ==> forall p :: p in Prices(s.book) ==> !Crosses(descending, limit, p))
    decreases |book|, qty
  {
    hide Sweep, Filled, WellFormed, Prices, Crosses;
    if GoesOn(book, descending, limit, qty) {
      hide GoesOn;
      var i, q := SweepUnfolded(book, descending, limit, qty);
      FilledWellFormed(book, i, q, sn);
      FilledPrices(book, i, q);
      SweepStops(Filled(book, i, q), descending, limit, qty - q, sn);
    } else {
      SweepStopped(book, descending, limit, qty);
      if qty > 0 { NothingLeft(book, descending, limit, qty, sn); }
    }
  }

  lemma {:induction false} NothingLeft(book: seq<Resting>, descending: bool, limit: uint64, qty: uint64, sn: nat)
    requires WellFormed(book, sn) && !GoesOn(book, descending, limit, qty) && qty > 0
    ensures forall p :: p in Prices(book) ==> !Crosses(descending, limit, p)
  {
    hide WellFormed, Crosses;
    if book != [] {
      BestIndexIsBest(book, descending, |book|, sn);
      NothingCrosses(book, descending, limit, BestIndex(book, descending));
    }
  }

  /** Trades happen at the prices of resting orders. */
  lemma {:induction false} SweepPrices(book: seq<Resting>, descending: bool, limit: uint64, qty: uint64)
    ensures forall i :: 0 <= i < |Sweep(book, descending, limit, qty).trades| ==>
              Sweep(book, descending, limit, qty).trades[i].price in Prices(book)
    decreases |book|, qty
  {
    var i := BestIndex(book, descending);
    if qty > 0 && i >= 0 && Crosses(descending, limit, book[i].price) {
      var q := MinQty(qty, book[i].qty);
      SweepPrices(Filled(book, i, q), descending, limit, qty - q);
      FilledPrices(book, i, q);
    }
  }

  lemma {:induction false} OlderWellFormed(book: seq<Resting>, sn: nat)
    requires WellFormed(book, sn)
    ensures WellFormed(book, sn + 1)
  {
  }

  lemma {:induction false} RestWellFormed(book: seq<Resting>, sn: nat, r: Resting)
    requires WellFormed(book, sn) && r.sn == sn + 1 && r.qty > 0
    ensures WellFormed(book + [r], sn + 1)
  {
  }

  lemma {:induction false} RestedWellFormed(book: seq<Resting>, sn: nat, id: uint64, left: uint64, price: uint64)
    requires WellFormed(book, sn)
    ensures WellFormed(book, sn + 1)
    ensures WellFormed(if left > 0 then book + [Resting(id, left, price, sn + 1)] else book, sn + 1)
  {
    OlderWellFormed(book, sn);
    if left > 0 { RestWellFormed(book, sn, Resting(id, left, price, sn + 1)); }
  }

  lemma {:induction false} ProcessValid(r: RefBook, o: Order)
    requires Valid(r)
    ensures Valid(Process(r, o))
  {
    hide Sweep, WellFormed;
    var descending := o.side != BUY;
    var s := Sweep(if descending then r.bids else r.asks, descending, o.price, o.quantity);
    SweepStops(if descending then r.bids else r.asks, descending, o.price, o.quantity, r.sn);
    RestedWellFormed(s.book, r.sn, 0, 0, 0);
    RestedWellFormed(if descending then r.asks else r.bids, r.sn, o.id, s.left, o.price);
  }

  /** No resting buyer pays what a resting seller asks. */
  ghost predicate Uncrossed(r: RefBook) {
    forall b, a :: b in Prices(r.bids) && a in Prices(r.asks) ==> b < a
  }

  lemma {:induction false} RestPrices(book: seq<Resting>, r: Resting)
    ensures Prices(book + [r]) == Prices(book) + {r.price}
  {
    var b := book + [r];
    forall p | p in Prices(book) + {r.price} ensures p in Prices(b) {
      if p in Prices(book) {
        var k :| 0 <= k < |book| && book[k].price == p;
        assert b[k].price == p;
      } else {
        assert b[|book|].price == p;
      }
    }
  }

  lemma {:induction false} ProcessUncrossed(r: RefBook, o: Order)
    requires Valid(r) && Uncrossed(r)
    ensures Uncrossed(Process(r, o))
  {
    hide Sweep, WellFormed;
    if o.side == BUY {
      var s := Sweep(r.asks, false, o.price, o.quantity);
      SweepStops(r.asks, false, o.price, o.quantity, r.sn);
      RestPrices(r.bids, Resting(o.id, s.left, o.price, r.sn + 1));
    } else {
      var s := Sweep(r.bids, true, o.price, o.quantity);
      SweepStops(r.bids, true, o.price, o.quantity, r.sn);
      RestPrices(r.asks, Resting(o.id, s.left, o.price, r.sn + 1));
    }
  }

  lemma {:induction false} ReplayUncrossed(orders: seq<Order>)
    ensures Valid(Replay(EMPTY_BOOK, orders)) && Uncrossed(Replay(EMPTY_BOOK, orders))
  {
    if orders != [] {
      var n := |orders| - 1;
      ReplayUncrossed(orders[..n]);
      ProcessValid(Replay(EMPTY_BOOK, orders[..n]), orders[n]);
      ProcessUncrossed(Replay(EMPTY_BOOK, orders[..n]), orders[n]);
    }
  }

  /** Replaying in two parts, as a restart does, is replaying the whole. */
  lemma {:induction false} ReplayConcat(r: RefBook, a: seq<Order>, b: seq<Order>)
    ensures Replay(Replay(r, a), b) == Replay(r, a + b)
  {
    if b == [] {
      assert a + b == a;
    } else {
      var n := |b| - 1;
      assert (a + b)[..|a + b| - 1] == a + b[..n];
      ReplayConcat(r, a, b[..n]);
    }
  }

  // --- Conservation ---

  function Volume(book: seq<Resting>): nat {
    if book == [] then 0 else book[0].qty + Volume(book[1..])
  }

  function Traded(trades: seq<Trade>): nat {
    if trades == [] then 0 else trades[0].qty + Traded(trades[1..])
  }

  /** Quantity submitted on one side. */
  function Submitted(orders: seq<Order>, buy: bool): nat {
    if orders == [] then 0
    else Submitted(orders[..|orders| - 1], buy)
         + (if (orders[|orders| - 1].side == BUY) == buy then orders[|orders| - 1].quantity else 0)
  }

  lemma {:induction false} VolumeConcat(a: seq<Resting>, b: seq<Resting>)
    ensures Volume(a + b) == Volume(a) + Volume(b)
  {
    if a == [] {
      assert a + b == b;
    } else {
      assert (a + b)[1..] == a[1..] + b;
      VolumeConcat(a[1..], b);
    }
  }

  lemma {:induction false} TradedConcat(a: seq<Trade>, b: seq<Trade>)
    ensures Traded(a + b) == Traded(a) + Traded(b)
  {
    if a == [] {
      assert a + b == b;
    } else {
      assert (a + b)[1..] == a[1..] + b;
      TradedConcat(a[1..], b);
    }
  }

  lemma {:induction false} VolumeAround(a: seq<Resting>, o: Resting, b: seq<Resting>)
    ensures Volume(a + [o] + b) == Volume(a) + o.qty + Volume(b)
  {
    assert [o][1..] == [];
    VolumeConcat(a, [o]);
    VolumeConcat(a + [o], b);
  }

  lemma {:induction false} FilledVolume(book: seq<Resting>, i: nat, q: uint64)
    requires i < |book| && q <= book[i].qty
    ensures Volume(Filled(book, i, q)) + q == Volume(book)
  {
    hide Volume;
    var o' := book[i].(qty := book[i].qty - q);
    assert book == book[..i] + [book[i]] + book[i + 1..];
    assert book[i := o'] == book[..i] + [o'] + book[i + 1..];
    VolumeAround(book[..i], book[i], book[i + 1..]);
    VolumeAround(book[..i], o', book[i + 1..]);
    VolumeConcat(book[..i], book[i + 1..]);
  }

  lemma {:induction false} TradedFirst(t: Trade, trades: seq<Trade>)
    ensures Traded([t] + trades) == t.qty + Traded(trades)
  {
    assert ([t] + trades)[1..] == trades;
  }

  /** One round of a sweep, as far as quantities go. */
  lemma {:induction false} RoundConserves(book: seq<Resting>, price: uint64, i: nat, q: uint64, rest: Swept)
    requires i < |book| && q <= book[i].qty
    requires Traded(rest.trades) + Volume(rest.book) == Volume(Filled(book, i, q))
    ensures Traded([Trade(price, q)] + rest.trades) == q + Traded(rest.trades)
    ensures Traded([Trade(price, q)] + rest.trades) + Volume(rest.book) == Volume(book)
  {
    FilledVolume(book, i, q);
    hide Traded, Volume, Filled;
    TradedFirst(Trade(price, q), rest.trades);
  }

  /** The sweep trades once more. */
  predicate GoesOn(book: seq<Resting>, descending: bool, limit: uint64, qty: uint64) {
    var i := BestIndex(book, descending);
    qty > 0 && i >= 0 && Crosses(descending, limit, book[i].price)
  }

  lemma {:induction false} SweepStopped(book: seq<Resting>, descending: bool, limit: uint64, qty: uint64)
    requires !GoesOn(book, descending, limit, qty)
    ensures Sweep(book, descending, limit, qty) == Swept(book, [], qty)
  {
  }

  lemma {:induction false} SweepUnfolded(book: seq<Resting>, descending: bool, limit: uint64,
        qty: uint64) returns (i: nat, q: uint64)
    requires GoesOn(book, descending, limit, qty)
    ensures i == BestIndex(book, descending) < |book| && q <= book[i].qty && q <= qty
    ensures q == if qty < book[i].qty then qty else book[i].qty
    ensures |Filled(book, i, q)| < |book| || (|Filled(book, i, q)| == |book| && qty - q < qty)
    ensures var rest := Sweep(Filled(book, i, q), descending, limit, qty - q);
            Sweep(book, descending, limit, qty) == Swept(rest.book, [Trade(book[i].price, q)] + rest.trades, rest.left)
  {
    i := BestIndex(book, descending);
    q := MinQty(qty, book[i].qty);
  }

  /** What the incoming order loses, the book loses, and the trades say so. */
  lemma {:induction false} SweepConserves(book: seq<Resting>, descending: bool, limit: uint64, qty: uint64)
    ensures var s := Sweep(book, descending, limit, qty);
            Traded(s.trades) + s.left == qty && Traded(s.trades) + Volume(s.book) == Volume(book)
    decreases |book|, qty
  {
    hide Sweep, Filled, Volume, GoesOn;
    if GoesOn(book, descending, limit, qty) {
      hide Traded;
      var i, q := SweepUnfolded(book, descending, limit, qty);
      SweepConserves(Filled(book, i, q), descending, limit, qty - q);
      RoundConserves(book, book[i].price, i, q, Sweep(Filled(book, i, q), descending, limit, qty - q));
    } else {
      SweepStopped(book, descending, limit, qty);
    }
  }

  /** Nobody trades beyond the limit: a buyer pays at most what it bids, a seller gets at least what
      it asks; and where a rest is left, nobody rests that it could still trade with. */
  lemma {:induction false} WithinLimit(book: seq<Resting>, descending: bool, limit: uint64, qty: uint64, sn: nat)
    requires WellFormed(book, sn)
    ensures var s := Sweep(book, descending, limit, qty);
            && (forall i :: 0 <= i < |s.trades| ==>
              if descending then s.trades[i].price >= limit else s.trades[i].price <= limit)
            && (s.left > 0 ==> forall p :: p in Prices(s.book) ==> if descending then p < limit else p > limit)
  {
    LimitKept(book, descending, limit, qty);
    SweepStops(book, descending, limit, qty, sn);
  }

  lemma {:induction false} LimitKept(book: seq<Resting>, descending: bool, limit: uint64, qty: uint64)
    ensures forall i :: 0 <= i < |Sweep(book, descending, limit, qty).trades| ==>
              var price := Sweep(book, descending, limit, qty).trades[i].price;
              if descending then price >= limit else price <= limit
    decreases |book|, qty
  {
    hide Sweep;
    if GoesOn(book, descending, limit, qty) {
      var i, q := SweepUnfolded(book, descending, limit, qty);
      LimitKept(Filled(book, i, q), descending, limit, qty - q);
    } else {
      SweepStopped(book, descending, limit, qty);
    }
  }

  lemma {:induction false} VolumeOneMore(book: seq<Resting>, r: Resting)
    ensures Volume(book + [r]) == Volume(book) + r.qty
  {
    VolumeConcat(book, [r]);
    assert [r][1..] == [];
  }

  lemma {:induction false} ProcessConserves(r: RefBook, o: Order)
    ensures var r' := Process(r, o);
            var traded := Traded(r'.trades) - Traded(r.trades);
            && Volume(r'.bids) + traded == Volume(r.bids) + (if o.side == BUY then o.quantity else 0)
            && Volume(r'.asks) + traded == Volume(r.asks) + (if o.side == BUY then 0 else o.quantity)
  {
    hide Sweep, Volume, Traded;
    var descending := o.side != BUY;
    var book := if descending then r.bids else r.asks;
    var s := Sweep(book, descending, o.price, o.quantity);
    SweepConserves(book, descending, o.price, o.quantity);
    TradedConcat(r.trades, s.trades);
    var rest := Resting(o.id, s.left, o.price, r.sn + 1);
    VolumeOneMore(r.bids, rest);
    VolumeOneMore(r.asks, rest);
  }

  /** Over any run: bought = traded + resting bids, sold = traded + resting asks. */
  lemma {:induction false} RunConserves(orders: seq<Order>)
    ensures var r := Replay(EMPTY_BOOK, orders);
            && Submitted(orders, true) == Traded(r.trades) + Volume(r.bids)
            && Submitted(orders, false) == Traded(r.trades) + Volume(r.asks)
  {
    if orders != [] {
      var n := |orders| - 1;
      RunConserves(orders[..n]);
      ProcessConserves(Replay(EMPTY_BOOK, orders[..n]), orders[n]);
    }
  }

  lemma {:induction false} SubmittedBound(orders: seq<Order>, buy: bool, max: nat)
    requires forall i :: 0 <= i < |orders| ==> orders[i].quantity <= max
    ensures Submitted(orders, buy) <= |orders| * max
  {
    if orders != [] {
      var n := |orders| - 1;
      SubmittedBound(orders[..n], buy, max);
      assert |orders| * max == n * max + max;
    }
  }
}
