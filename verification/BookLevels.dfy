/** Reading a flat reference book level by level, the way the order book stores it. */
module BookLevels {
  import opened Events
  import opened Heaps
  import opened ReferenceBook

  function ToOrder(r: Resting, side: uint8): Order { Order(r.id, r.qty, r.price, side) }

  /** The queue of one price: the flat book's orders at that price, in arrival order. */
  function AtPrice(book: seq<Resting>, p: uint64, side: uint8): seq<Order> {
    if book == [] then []
    else (if book[0].price == p then [ToOrder(book[0], side)] else []) + AtPrice(book[1..], p, side)
  }

  function Quantity(orders: seq<Order>): nat {
    if orders == [] then 0 else orders[0].quantity + Quantity(orders[1..])
  }

  lemma {:induction false} AtPriceCons(r: Resting, book: seq<Resting>, p: uint64, side: uint8)
    ensures AtPrice([r] + book, p, side) == (if r.price == p then [ToOrder(r, side)] else []) + AtPrice(book, p, side)
  {
    assert ([r] + book)[1..] == book;
  }

  lemma {:induction false} AtPriceConcat(a: seq<Resting>, b: seq<Resting>, p: uint64, side: uint8)
    ensures AtPrice(a + b, p, side) == AtPrice(a, p, side) + AtPrice(b, p, side)
  {
    if a == [] {
      assert a + b == b;
    } else {
      hide AtPrice, ToOrder;
      AtPriceConcat(a[1..], b, p, side);
      assert a == [a[0]] + a[1..] && a + b == [a[0]] + (a[1..] + b);
      AtPriceCons(a[0], a[1..], p, side);
      AtPriceCons(a[0], a[1..] + b, p, side);
      var head := if a[0].price == p then [ToOrder(a[0], side)] else [];
      Regroup(head, AtPrice(a[1..], p, side), AtPrice(b, p, side));
    }
  }

  lemma {:induction false} Regroup<T>(a: seq<T>, b: seq<T>, c: seq<T>)
    ensures (a + b) + c == a + (b + c)
  {
  }

  /** A price has a queue exactly when somebody rests at it. */
  lemma {:induction false} AtPriceEmpty(book: seq<Resting>, p: uint64, side: uint8)
    ensures AtPrice(book, p, side) == [] <==> p !in Prices(book)
  {
    if book != [] {
      AtPriceEmpty(book[1..], p, side);
      if p in Prices(book) && book[0].price != p {
        var i :| 0 <= i < |book| && book[i].price == p;
        assert book[1..][i - 1].price == p;
      }
      if p in Prices(book[1..]) {
        var i :| 0 <= i < |book[1..]| && book[1..][i].price == p;
        assert book[i + 1].price == p;
      }
    }
  }

  lemma {:induction false} AtPriceMembers(book: seq<Resting>, p: uint64, side: uint8, sn: nat)
    requires WellFormed(book, sn)
    ensures forall o :: o in AtPrice(book, p, side) ==> o.price == p && o.side == side && o.quantity > 0
  {
    if book != [] { AtPriceMembers(book[1..], p, side, sn); }
  }

  /** The head of the best level is the order the naive search finds. */
  lemma {:induction false} HeadIsBest(book: seq<Resting>, descending: bool, best: uint64, side: uint8,
        sn: nat) returns (i: nat)
    requires WellFormed(book, sn) && AtPrice(book, best, side) != []
    requires forall p :: p in Prices(book) ==> !Better(descending, p, best)
    ensures BestIndex(book, descending) == i < |book|
    ensures book[i].price == best && ToOrder(book[i], side) == AtPrice(book, best, side)[0]
    ensures forall k :: 0 <= k < i ==> book[k].price != best
  {
    i := FirstAt(book, best, side);
    BestIsUnique(book, descending, i, sn);
  }

  lemma {:induction false} FirstAt(book: seq<Resting>, p: uint64, side: uint8) returns (i: nat)
    requires AtPrice(book, p, side) != []
    ensures i < |book| && book[i].price == p && ToOrder(book[i], side) == AtPrice(book, p, side)[0]
    ensures forall k :: 0 <= k < i ==> book[k].price != p
  {
    if book[0].price == p {
      i := 0;
    } else {
      i := FirstAt(book[1..], p, side);
      i := i + 1;
    }
  }

  lemma {:induction false} NoneAt(book: seq<Resting>, p: uint64, side: uint8)
    requires forall k :: 0 <= k < |book| ==> book[k].price != p
    ensures AtPrice(book, p, side) == []
  {
    if book != [] { NoneAt(book[1..], p, side); }
  }

  /** The queue after its head traded q. */
  function HeadFilled(queue: seq<Order>, q: uint64): seq<Order>
    requires queue != [] && q <= queue[0].quantity
  {
    if queue[0].quantity == q then queue[1..]
    else queue[0 := queue[0].(quantity := queue[0].quantity - q)]
  }

  /** Filling the flat order fills the head of its level and touches no other level. */
  lemma {:induction false} FilledAtPrice(book: seq<Resting>, i: nat, q: uint64, p: uint64, side: uint8)
    requires i < |book| && q <= book[i].qty
    requires forall k :: 0 <= k < i ==> book[k].price != book[i].price
    ensures p != book[i].price ==> AtPrice(Filled(book, i, q), p, side) == AtPrice(book, p, side)
    ensures p == book[i].price ==>
              AtPrice(book, p, side) != [] && AtPrice(book, p, side)[0] == ToOrder(book[i], side)
              && AtPrice(Filled(book, i, q), p, side) == HeadFilled(AtPrice(book, p, side), q)
  {
    hide AtPrice, ToOrder;
    var o' := book[i].(qty := book[i].qty - q);
    Around(book, i, o');
    AtPriceAround(book[..i], book[i], book[i + 1..], p, side);
    AtPriceAround(book[..i], o', book[i + 1..], p, side);
    AtPriceConcat(book[..i], book[i + 1..], p, side);
    if p == book[i].price {
      NoneAt(book[..i], p, side);
      FillHead(book[i], q, AtPrice(book[i + 1..], p, side), side);
    }
  }

  lemma {:induction false} Around<T>(s: seq<T>, i: nat, x: T)
    requires i < |s|
    ensures s == s[..i] + [s[i]] + s[i + 1..] && s[i := x] == s[..i] + [x] + s[i + 1..]
  {
  }

  lemma {:induction false} AtPriceAround(a: seq<Resting>, r: Resting, b: seq<Resting>, p: uint64, side: uint8)
    ensures AtPrice(a + [r] + b, p, side)
            == AtPrice(a, p, side) + (if r.price == p then [ToOrder(r, side)] else []) + AtPrice(b, p, side)
  {
    hide ToOrder;
    AtPriceCons(r, [], p, side);
    assert [r] + [] == [r];
    hide AtPrice;
    AtPriceConcat(a, [r], p, side);
    AtPriceConcat(a + [r], b, p, side);
  }

  /** A queue whose head has traded, seen from the resting order at its head. */
  lemma {:induction false} FillHead(r: Resting, q: uint64, rest: seq<Order>, side: uint8)
    requires q <= r.qty
    ensures HeadFilled([ToOrder(r, side)] + rest, q)
            == if r.qty == q then rest else [ToOrder(r.(qty := r.qty - q), side)] + rest
  {
  }

  lemma {:induction false} QuantityConcat(a: seq<Order>, b: seq<Order>)
    ensures Quantity(a + b) == Quantity(a) + Quantity(b)
  {
    if a == [] {
      assert a + b == b;
    } else {
      assert (a + b)[1..] == a[1..] + b;
      QuantityConcat(a[1..], b);
    }
  }

  lemma {:induction false} HeadFilledQuantity(queue: seq<Order>, q: uint64)
    requires queue != [] && q <= queue[0].quantity
    ensures Quantity(HeadFilled(queue, q)) + q == Quantity(queue)
  {
    if queue[0].quantity != q {
      assert HeadFilled(queue, q)[1..] == queue[1..];
    }
  }

  /** A level never holds more than the whole side. */
  lemma {:induction false} LevelWithinVolume(book: seq<Resting>, p: uint64, side: uint8)
    ensures Quantity(AtPrice(book, p, side)) <= Volume(book)
  {
    if book != [] {
      LevelWithinVolume(book[1..], p, side);
      var head := if book[0].price == p then [ToOrder(book[0], side)] else [];
      QuantityConcat(head, AtPrice(book[1..], p, side));
    }
  }

  /** Sweeping book with qty comes to emitting trades and sweeping book' with left. */
  ghost predicate Continues(book: seq<Resting>, qty: uint64, book': seq<Resting>, left: uint64, descending: bool,
        limit: uint64, trades: seq<Trade>) {
    var rest := Sweep(book', descending, limit, left);
    Sweep(book, descending, limit, qty) == Swept(rest.book, trades + rest.trades, rest.left)
  }

  lemma {:induction false} ContinuesStart(book: seq<Resting>, qty: uint64, descending: bool, limit: uint64)
    ensures Continues(book, qty, book, qty, descending, limit, [])
  {
    var rest := Sweep(book, descending, limit, qty);
    assert [] + rest.trades == rest.trades;
  }

  lemma {:induction false} ContinuesOn(book: seq<Resting>, qty: uint64, book': seq<Resting>, left': uint64,
        book'': seq<Resting>, left'': uint64, descending: bool, limit: uint64, trades: seq<Trade>, t: Trade)
    requires Continues(book, qty, book', left', descending, limit, trades)
    requires Continues(book', left', book'', left'', descending, limit, [t])
    ensures Continues(book, qty, book'', left'', descending, limit, trades + [t])
  {
    var rest := Sweep(book'', descending, limit, left'').trades;
    assert trades + ([t] + rest) == (trades + [t]) + rest;
  }

  /** One round of the naive sweep. */
  lemma {:induction false} SweepRound(book: seq<Resting>, descending: bool, limit: uint64, qty: uint64, i: nat,
        q: uint64)
    requires qty > 0 && BestIndex(book, descending) == i < |book| && Crosses(descending, limit, book[i].price)
    requires q == MinQty(qty, book[i].qty)
    ensures Continues(book, qty, Filled(book, i, q), qty - q, descending, limit, [Trade(book[i].price, q)])
  {
  }
}
