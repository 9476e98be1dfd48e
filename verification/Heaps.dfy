/**
 MinPriceHeap and MaxPriceHeap with the operations of Go's container/heap on them.
 The two types differ only in Less, so they are one class with the direction as a
 constant.
 */
module Heaps {
  import opened Events

  /** Less of the heap: descending is MaxPriceHeap, otherwise MinPriceHeap. */
  predicate Better(descending: bool, x: uint64, y: uint64) {
    if descending then x > y else x < y
  }

  function Parent(i: nat): nat
    requires i > 0
  {
    (i - 1) / 2
  }

  /** Slot i does not beat slot p. */
  ghost predicate Yields(a: seq<uint64>, descending: bool, i: nat, p: nat) {
    i < |a| && p < |a| ==> !Better(descending, a[i], a[p])
  }

  ghost predicate HeapOrdered(a: seq<uint64>, descending: bool) {
    forall i :: 0 < i < |a| ==> Yields(a, descending, i, Parent(i))
  }

  function Swapped(a: seq<uint64>, i: nat, j: nat): seq<uint64>
    requires i < |a| && j < |a|
  {
    a[i := a[j]][j := a[i]]
  }

  lemma {:induction false} SwapKeepsContents(a: seq<uint64>, i: nat, j: nat)
    requires i < |a| && j < |a|
    ensures multiset(Swapped(a, i, j)) == multiset(a)
  {
  }

  /** Heap order may fail only between slot j and its parent. */
  ghost predicate HeapButUp(a: seq<uint64>, descending: bool, j: nat) {
    && (forall i :: 0 < i < |a| && i != j ==> Yields(a, descending, i, Parent(i)))
    && (forall i :: 0 < i < |a| && Parent(i) == j && j > 0 ==> Yields(a, descending, i, Parent(j)))
  }

  /** Among the first n slots heap order may fail only between slot j and its children. */
  ghost predicate HeapButDown(a: seq<uint64>, descending: bool, j: nat, n: nat) {
    && (forall i :: 0 < i < n && Parent(i) != j ==> Yields(a, descending, i, Parent(i)))
    && (forall i :: 0 < i < n && Parent(i) == j && j > 0 ==> Yields(a, descending, i, Parent(j)))
  }

  lemma {:induction false} UpSwap(a: seq<uint64>, descending: bool, j: nat)
    requires 0 < j < |a| && HeapButUp(a, descending, j) && Better(descending, a[j], a[Parent(j)])
    ensures HeapButUp(Swapped(a, Parent(j), j), descending, Parent(j))
  {
    var p := Parent(j);
    var b := Swapped(a, p, j);
    forall i | 0 < i < |b| && i != p ensures Yields(b, descending, i, Parent(i)) {
      assert Yields(a, descending, i, Parent(i)) || i == j;
      if Parent(i) == j { assert Yields(a, descending, i, p); }
    }
    forall i | 0 < i < |b| && Parent(i) == p && p > 0 ensures Yields(b, descending, i, Parent(p)) {
      assert Yields(a, descending, p, Parent(p));
      assert i == j || Yields(a, descending, i, p);
    }
  }

  /** The child that container/heap compares with: the right one only if strictly better. */
  function BestChild(a: seq<uint64>, descending: bool, i: nat, n: nat): nat
    requires 2 * i + 1 < n <= |a|
  {
    if 2 * i + 2 < n && Better(descending, a[2 * i + 2], a[2 * i + 1]) then 2 * i + 2 else 2 * i + 1
  }

  lemma {:induction false} DownSwap(a: seq<uint64>, descending: bool, i: nat, n: nat)
    requires 2 * i + 1 < n <= |a| && HeapButDown(a, descending, i, n)
    requires Better(descending, a[BestChild(a, descending, i, n)], a[i])
    ensures HeapButDown(Swapped(a, i, BestChild(a, descending, i, n)), descending, BestChild(a, descending, i, n), n)
  {
    var c := BestChild(a, descending, i, n);
    var b := Swapped(a, i, c);
    assert Parent(c) == i;
    forall k | 0 < k < n && Parent(k) != c ensures Yields(b, descending, k, Parent(k)) {
      if Parent(k) == i {
        assert k == 2 * i + 1 || k == 2 * i + 2;
      } else if k == i {
        assert Yields(a, descending, c, Parent(i));
      } else {
        assert Yields(a, descending, k, Parent(k));
      }
    }
    forall k | 0 < k < n && Parent(k) == c ensures Yields(b, descending, k, Parent(c)) {
      assert Yields(a, descending, k, c);
    }
  }

  lemma {:induction false} DownRound(a: seq<uint64>, descending: bool, i: nat, n: nat)
    requires 2 * i + 1 < n <= |a| && HeapButDown(a, descending, i, n)
    requires Better(descending, a[BestChild(a, descending, i, n)], a[i])
    ensures var c := BestChild(a, descending, i, n);
            var b := Swapped(a, i, c);
            HeapButDown(b, descending, c, n) && |b| == |a| && multiset(b) == multiset(a) && b[n..] == a[n..]
  {
    DownSwap(a, descending, i, n);
    SwapKeepsContents(a, i, BestChild(a, descending, i, n));
  }

  lemma {:induction false} DownStops(a: seq<uint64>, descending: bool, i: nat, n: nat)
    requires n <= |a| && HeapButDown(a, descending, i, n)
    requires 2 * i + 1 < n ==> !Better(descending, a[BestChild(a, descending, i, n)], a[i])
    ensures HeapOrdered(a[..n], descending)
  {
    forall k | 0 < k < n ensures Yields(a[..n], descending, k, Parent(k)) {
      if Parent(k) == i {
        assert k == 2 * i + 1 || k == 2 * i + 2;
      } else {
        assert Yields(a, descending, k, Parent(k));
      }
    }
  }

  /** The root of a heap is not beaten by anyone. */
  lemma {:induction false} RootIsBest(a: seq<uint64>, descending: bool, i: nat)
    requires HeapOrdered(a, descending) && i < |a|
    ensures !Better(descending, a[i], a[0])
  {
    if i > 0 {
      assert Yields(a, descending, i, Parent(i));
      RootIsBest(a, descending, Parent(i));
    }
  }

  class PriceHeap {
    const descending: bool
    var a: seq<uint64>

    constructor (descending: bool)
      ensures this.descending == descending && a == []
    {
      this.descending := descending;
      a := [];
    }

    method Len() returns (n: nat)
      ensures n == |a|
    {
      n := |a|;
    }

    predicate Less(i: nat, j: nat)
      requires i < |a| && j < |a|
      reads this
    {
      Better(descending, a[i], a[j])
    }

    method Swap(i: nat, j: nat)
      requires i < |a| && j < |a|
      modifies this
      ensures a == Swapped(old(a), i, j)
    {
      a := a[i := a[j]][j := a[i]];
    }

    /** Push of heap.Interface: append. */
    method Append(x: uint64)
      modifies this
      ensures a == old(a) + [x]
    {
      a := a + [x];
    }

    /** Pop of heap.Interface: cut off the last element. */
    method CutLast() returns (x: uint64)
      requires |a| > 0
      modifies this
      ensures old(a) == a + [x]
    {
      x := a[|a| - 1];
      a := a[..|a| - 1];
    }

    method Up(start: nat)
      requires start < |a| && HeapButUp(a, descending, start)
      modifies this
      ensures HeapOrdered(a, descending) && multiset(a) == multiset(old(a))
    {
      var j: nat := start;
      while j > 0
        invariant j < |a| && HeapButUp(a, descending, j)
        invariant multiset(a) == multiset(old(a))
      {
        var i := (j - 1) / 2;
        if !Less(j, i) { break; }
        UpSwap(a, descending, j);
        SwapKeepsContents(a, i, j);
        Swap(i, j);
        j := i;
      }
      assert forall i :: 0 < i < |a| && i != j ==> Yields(a, descending, i, Parent(i));
      assert j > 0 ==> Yields(a, descending, j, Parent(j));
    }

    method Down(start: nat, n: nat)
      requires n <= |a| && HeapButDown(a, descending, start, n)
      modifies this
      ensures |a| == |old(a)| && HeapOrdered(a[..n], descending)
      ensures a[n..] == old(a)[n..] && multiset(a) == multiset(old(a))
    {
      hide HeapButDown, HeapOrdered, Swapped;
      var i: nat := start;
      while 2 * i + 1 < n
        invariant |a| == |old(a)| && HeapButDown(a, descending, i, n)
        invariant a[n..] == old(a)[n..] && multiset(a) == multiset(old(a))
        decreases n - i
      {
        var j := 2 * i + 1;
        if j + 1 < n && Less(j + 1, j) { j := j + 1; }
        assert j == BestChild(a, descending, i, n);
        if !Less(j, i) { break; }
        DownRound(a, descending, i, n);
        Swap(i, j);
        i := j;
      }
      DownStops(a, descending, i, n);
    }

    /** heap.Push: a heap that also holds x. */
    method Push(x: uint64)
      requires HeapOrdered(a, descending)
      modifies this
      ensures HeapOrdered(a, descending) && multiset(a) == multiset(old(a)) + multiset{x}
    {
      Append(x);
      assert forall i :: 0 < i < |a| && i != |a| - 1 ==> Yields(old(a), descending, i, Parent(i));
      Up(|a| - 1);
    }

    /** heap.Pop: takes out the root, which nobody beats. */
    method Pop() returns (x: uint64)
      requires HeapOrdered(a, descending) && |a| > 0
      modifies this
      ensures x == old(a)[0] && forall y :: y in old(a) ==> !Better(descending, y, x)
      ensures HeapOrdered(a, descending) && multiset(old(a)) == multiset(a) + multiset{x}
    {
      forall y | y in a ensures !Better(descending, y, a[0]) {
        var i :| 0 <= i < |a| && a[i] == y;
        RootIsBest(a, descending, i);
      }
      var n := |a| - 1;
      SwapKeepsContents(a, 0, n);
      Swap(0, n);
      RootMoved(old(a), descending);
      Down(0, n);
      ghost var whole := a;
      assert whole[n..] == Swapped(old(a), 0, n)[n..];
      assert whole[n] == whole[n..][0] == Swapped(old(a), 0, n)[n..][0];
      x := CutLast();
      assert a == whole[..n];
    }
  }

  /** With the root and the last slot exchanged, only the root is out of order. */
  lemma {:induction false} RootMoved(a: seq<uint64>, descending: bool)
    requires HeapOrdered(a, descending) && |a| > 0
    ensures HeapButDown(Swapped(a, 0, |a| - 1), descending, 0, |a| - 1)
  {
    var b := Swapped(a, 0, |a| - 1);
    forall i | 0 < i < |a| - 1 && Parent(i) != 0 ensures Yields(b, descending, i, Parent(i)) {
      assert Yields(a, descending, i, Parent(i));
    }
  }
}
