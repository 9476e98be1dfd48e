/**
 Price-time priority, written down once more and without a search: the resting orders stand
 in one queue, best price first and then by arrival, and an incoming order takes them from
 the front for as long as its limit allows. The naive sweep is held against this.
 */
module PriceTime {
  import opened Events
  import opened Heaps
  import opened ReferenceBook

  /** a is served before b by an incoming order that buys, or that sells. */
  predicate Before(a: Resting, b: Resting, buying: bool) {
    || (buying && a.price < b.price)
    || (!buying && a.price > b.price)
    || (a.price == b.price && a.sn < b.sn)
  }

  ghost predicate InPriority(queue: seq<Resting>, buying: bool) {
    forall i, k :: 0 <= i < k < |queue| ==> Before(queue[i], queue[k], buying)
  }

  /** Take from the front: whole orders, and of the last one what is still wanted. */
  function Fill(queue: seq<Resting>, buying: bool, limit: uint64, qty: uint64): Swept {
    if qty == 0 || queue == [] || (buying && queue[0].price > limit) || (!buying && queue[0].price < limit) then
      Swept(queue, [], qty)
    else if queue[0].qty <= qty then
      var rest := Fill(queue[1..], buying, limit, qty - queue[0].qty);
      Swept(rest.book, [Trade(queue[0].price, queue[0].qty)] + rest.trades, rest.left)
    else
      Swept([queue[0].(qty := queue[0].qty - qty)] + queue[1..], [Trade(queue[0].price, qty)], 0)
  }

  // --- The naive search finds the front of the queue ---

  lemma {:induction false} BestFirst(book: seq<Resting>, buying: bool, i: nat, k: nat, sn: nat)
    requires WellFormed(book, sn) && i < |book| && k < |book| && k != i && BestIndex(book, !buying) == i
    ensures Before(book[i], book[k], buying)
  {
    BestIndexIsBest(book, !buying, |book|, sn);
    assert k < i ==> book[k].price != book[i].price;
  }

  lemma {:induction false} FrontIsBest(book: seq<Resting>, queue: seq<Resting>, buying: bool, sn: nat) returns (i: nat)
    requires WellFormed(book, sn) && multiset(queue) == multiset(book) && InPriority(queue, buying) && queue != []
    ensures BestIndex(book, !buying) == i < |book| && book[i] == queue[0]
  {
    assert queue[0] in multiset(book);
    assert book != [];
    i := BestIndex(book, !buying);
    assert book[i] in multiset(queue);
    var k :| 0 <= k < |queue| && queue[k] == book[i];
    var m :| 0 <= m < |book| && book[m] == queue[0];
    if m != i { BestFirst(book, buying, i, m, sn); }
  }

  lemma {:induction false} SameSize(book: seq<Resting>, queue: seq<Resting>)
    requires multiset(queue) == multiset(book)
    ensures |queue| == |book|
  {
    assert |multiset(queue)| == |multiset(book)|;
  }

  lemma {:induction false} TakeOut<T>(a: seq<T>, x: T, b: seq<T>)
    ensures multiset(a + [x] + b) == multiset(a + b) + multiset{x}
  {
  }

  lemma {:induction false} Around<T>(s: seq<T>, i: nat, x: T)
    requires i < |s|
    ensures s == s[..i] + [s[i]] + s[i + 1..] && s[i := x] == s[..i] + [x] + s[i + 1..]
  {
  }

  /** The others, in the book and in the queue. */
  lemma {:induction false} TheOthers(book: seq<Resting>, queue: seq<Resting>, i: nat)
    requires i < |book| && queue != [] && book[i] == queue[0] && multiset(queue) == multiset(book)
    ensures multiset(book[..i] + book[i + 1..]) == multiset(queue[1..])
  {
    Around(book, i, book[i]);
    TakeOut(book[..i], book[i], book[i + 1..]);
    assert queue == [queue[0]] + queue[1..];
    assert multiset(queue[1..]) == multiset(queue) - multiset{queue[0]};
    assert multiset(book[..i] + book[i + 1..]) == multiset(book) - multiset{book[i]};
  }

  /** What a fill does to the book as a bag of orders. */
  lemma {:induction false} FilledBag(book: seq<Resting>, queue: seq<Resting>, i: nat, q: uint64)
    requires i < |book| && q <= book[i].qty && queue != [] && book[i] == queue[0] && multiset(queue) == multiset(book)
    ensures multiset(Filled(book, i, q))
            == multiset(if queue[0].qty == q then queue[1..] else [queue[0].(qty := queue[0].qty - q)] + queue[1..])
  {
    var o' := book[i].(qty := book[i].qty - q);
    TheOthers(book, queue, i);
    Around(book, i, o');
    TakeOut(book[..i], o', book[i + 1..]);
  }

  /** The limit lets the order take the front of the queue. */
  predicate Takes(queue: seq<Resting>, buying: bool, limit: uint64, qty: uint64) {
    qty > 0 && queue != [] && if buying then queue[0].price <= limit else queue[0].price >= limit
  }

  lemma {:induction false} SameDecision(book: seq<Resting>, queue: seq<Resting>, buying: bool, limit: uint64,
        qty: uint64, sn: nat)
    requires WellFormed(book, sn) && multiset(queue) == multiset(book) && InPriority(queue, buying)
    ensures GoesOn(book, !buying, limit, qty) <==> Takes(queue, buying, limit, qty)
    ensures queue != [] ==> var i := BestIndex(book, !buying); 0 <= i < |book| && book[i] == queue[0]
  {
    SameSize(book, queue);
    if queue != [] { var i := FrontIsBest(book, queue, buying, sn); }
  }

  lemma {:induction false} FillStops(queue: seq<Resting>, buying: bool, limit: uint64, qty: uint64)
    requires !Takes(queue, buying, limit, qty)
    ensures Fill(queue, buying, limit, qty) == Swept(queue, [], qty)
  {
  }

  lemma {:induction false} TailInPriority(queue: seq<Resting>, buying: bool)
    requires InPriority(queue, buying) && queue != []
    ensures InPriority(queue[1..], buying)
  {
  }

  /** Every sweep is a filling of the queue: the same trades in the same order, the same rest of the
      order, and the same resting orders. */
  lemma {:induction false} PriceTimePriority(book: seq<Resting>, queue: seq<Resting>, buying: bool, limit: uint64,
        qty: uint64, sn: nat)
    requires WellFormed(book, sn) && multiset(queue) == multiset(book) && InPriority(queue, buying)
    ensures var s, f := Sweep(book, !buying, limit, qty), Fill(queue, buying, limit, qty);
            s.trades == f.trades && s.left == f.left && multiset(s.book) == multiset(f.book)
    decreases |book|, qty
  {
    hide Sweep, Filled, GoesOn, InPriority, WellFormed, Fill, Takes;
    SameDecision(book, queue, buying, limit, qty, sn);
    if GoesOn(book, !buying, limit, qty) {
      FillGoesOn(queue, buying, limit, qty);
      var i, q := SweepUnfolded(book, !buying, limit, qty);
      FilledBag(book, queue, i, q);
      if queue[0].qty <= qty {
        FilledWellFormed(book, i, q, sn);
        TailInPriority(queue, buying);
        PriceTimePriority(Filled(book, i, q), queue[1..], buying, limit, qty - q, sn);
      } else {
        NothingWanted(Filled(book, i, q), !buying, limit);
      }
    } else {
      SweepStopped(book, !buying, limit, qty);
      FillStops(queue, buying, limit, qty);
    }
  }

  lemma {:induction false} NothingWanted(book: seq<Resting>, descending: bool, limit: uint64)
    ensures Sweep(book, descending, limit, 0) == Swept(book, [], 0)
  {
  }

  lemma {:induction false} FillGoesOn(queue: seq<Resting>, buying: bool, limit: uint64, qty: uint64)
    requires Takes(queue, buying, limit, qty)
    ensures queue != [] && qty > 0
    ensures var first, f := queue[0], Fill(queue, buying, limit, qty);
            if first.qty <= qty then
              var rest := Fill(queue[1..], buying, limit, qty - first.qty);
              f == Swept(rest.book, [Trade(first.price, first.qty)] + rest.trades, rest.left)
            else f == Swept([first.(qty := first.qty - qty)] + queue[1..], [Trade(first.price, qty)], 0)
  {
  }

  // --- There is such a queue ---

  function Enqueue(queue: seq<Resting>, r: Resting, buying: bool): seq<Resting> {
    if queue == [] || Before(r, queue[0], buying) then [r] + queue
    else [queue[0]] + Enqueue(queue[1..], r, buying)
  }

  function Queue(book: seq<Resting>, buying: bool): seq<Resting> {
    if book == [] then [] else Enqueue(Queue(book[1..], buying), book[0], buying)
  }

  lemma {:induction false} EnqueueKeeps(queue: seq<Resting>, r: Resting, buying: bool)
    requires InPriority(queue, buying) && forall k :: 0 <= k < |queue| ==> queue[k].sn != r.sn
    ensures InPriority(Enqueue(queue, r, buying), buying)
    ensures multiset(Enqueue(queue, r, buying)) == multiset(queue) + multiset{r}
  {
    if queue != [] && !Before(r, queue[0], buying) {
      BeforeOrAfter(r, queue[0], buying);
      EnqueueKeeps(queue[1..], r, buying);
      assert queue == [queue[0]] + queue[1..];
      FirstStays(queue, r, buying, Enqueue(queue[1..], r, buying));
    } else {
      FirstNow(queue, r, buying);
    }
  }

  lemma {:induction false} BeforeOrAfter(a: Resting, b: Resting, buying: bool)
    requires a.sn != b.sn
    ensures Before(a, b, buying) || Before(b, a, buying)
  {
  }

  lemma {:induction false} BeforeBoth(a: Resting, b: Resting, c: Resting, buying: bool)
    requires Before(a, b, buying) && Before(b, c, buying)
    ensures Before(a, c, buying)
  {
  }

  lemma {:induction false} FirstNow(queue: seq<Resting>, r: Resting, buying: bool)
    requires InPriority(queue, buying) && (queue == [] || Before(r, queue[0], buying))
    ensures InPriority([r] + queue, buying)
  {
    hide Before;
    forall k | 0 <= k < |queue| ensures Before(r, queue[k], buying) {
      if k > 0 { BeforeBoth(r, queue[0], queue[k], buying); }
    }
  }

  lemma {:induction false} FirstStays(queue: seq<Resting>, r: Resting, buying: bool, rest: seq<Resting>)
    requires InPriority(queue, buying) && queue != [] && Before(queue[0], r, buying) && InPriority(rest, buying)
    requires multiset(rest) == multiset(queue[1..]) + multiset{r}
    ensures InPriority([queue[0]] + rest, buying)
  {
    hide Before;
    forall k | 0 <= k < |rest| ensures Before(queue[0], rest[k], buying) {
      assert rest[k] in multiset(rest);
      assert rest[k] in queue[1..] || rest[k] == r;
    }
  }

  /** The resting orders of a book can be lined up by priority. */
  lemma {:induction false} QueueExists(book: seq<Resting>, buying: bool, sn: nat)
    requires WellFormed(book, sn)
    ensures InPriority(Queue(book, buying), buying) && multiset(Queue(book, buying)) == multiset(book)
  {
    if book != [] {
      QueueExists(book[1..], buying, sn);
      var queue := Queue(book[1..], buying);
      assert book == [book[0]] + book[1..];
      forall k | 0 <= k < |queue| ensures queue[k].sn != book[0].sn {
        assert queue[k] in multiset(book[1..]);
      }
      EnqueueKeeps(queue, book[0], buying);
    }
  }
}
