/** bestPrices: the k best prices of a heap from its first 2^k - 1 slots only. */
module BestPrices {
  import opened Events
  import opened Heaps

  function Pow2(k: nat): (p: nat)
    ensures p > k
  {
    if k == 0 then 1 else 2 * Pow2(k - 1)
  }

  ghost predicate Sorted(s: seq<uint64>, descending: bool) {
    forall i, j :: 0 <= i < j < |s| ==> !Better(descending, s[j], s[i])
  }

  ghost predicate IsSortOf(s: seq<uint64>, h: seq<uint64>, descending: bool) {
    Sorted(s, descending) && multiset(s) == multiset(h)
  }

  function Take(s: seq<uint64>, k: nat): seq<uint64> {
    if |s| <= k then s else s[..k]
  }

  function Insert(s: seq<uint64>, descending: bool, x: uint64): (r: seq<uint64>)
    ensures |r| == |s| + 1
  {
    if s == [] then [x]
    else
      var n := |s| - 1;
      if Better(descending, x, s[n]) then Insert(s[..n], descending, x) + [s[n]] else s + [x]
  }

  function Sort(h: seq<uint64>, descending: bool): (r: seq<uint64>)
    ensures |r| == |h|
  {
    if h == [] then [] else Insert(Sort(h[..|h| - 1], descending), descending, h[|h| - 1])
  }

  lemma {:induction false} InsertSorts(s: seq<uint64>, descending: bool, x: uint64)
    requires Sorted(s, descending)
    ensures Sorted(Insert(s, descending, x), descending)
    ensures multiset(Insert(s, descending, x)) == multiset(s) + multiset{x}
  {
    hide Better;
    if s != [] {
      var head, last := s[..|s| - 1], s[|s| - 1];
      assert s == head + [last];
      if Better(descending, x, last) {
        InsertSorts(head, descending, x);
        var r := Insert(head, descending, x);
        NoneBeats(r, head, descending, x, last);
        assert Insert(s, descending, x) == r + [last];
        hide Insert;
        AppendSorts(r, descending, last);
      } else {
        hide Sorted;
        SortedAppend(s, descending, x);
      }
    }
  }

  lemma {:induction false} AppendSorts(s: seq<uint64>, descending: bool, x: uint64)
    requires Sorted(s, descending) && forall i :: 0 <= i < |s| ==> !Better(descending, x, s[i])
    ensures Sorted(s + [x], descending)
  {
  }

  lemma {:induction false} SortedAppend(s: seq<uint64>, descending: bool, x: uint64)
    requires Sorted(s, descending) && s != [] && !Better(descending, x, s[|s| - 1])
    ensures Sorted(s + [x], descending)
  {
  }

  /** Who is beaten by all of s and by x is beaten by nobody less in s with x added. */
  lemma {:induction false} NoneBeats(r: seq<uint64>, s: seq<uint64>, descending: bool, x: uint64, last: uint64)
    requires multiset(r) == multiset(s) + multiset{x}
    requires Better(descending, x, last) && forall i :: 0 <= i < |s| ==> !Better(descending, last, s[i])
    ensures forall i :: 0 <= i < |r| ==> !Better(descending, last, r[i])
  {
    forall i | 0 <= i < |r| ensures !Better(descending, last, r[i]) {
      assert r[i] in multiset(r);
      assert r[i] in multiset(s) || r[i] == x;
    }
  }

  lemma {:induction false} SortSorts(h: seq<uint64>, descending: bool)
    ensures IsSortOf(Sort(h, descending), h, descending)
  {
    if h != [] {
      var n := |h| - 1;
      assert h == h[..n] + [h[n]];
      SortSorts(h[..n], descending);
      InsertSorts(Sort(h[..n], descending), descending, h[n]);
    }
  }

  lemma {:induction false} SortNothing(descending: bool)
    ensures Sort([], descending) == []
  {
  }

  lemma {:induction false} SortOneMore(h: seq<uint64>, descending: bool, n: nat)
    requires n < |h|
    ensures Sort(h[..n + 1], descending) == Insert(Sort(h[..n], descending), descending, h[n])
  {
    assert h[..n + 1][..n] == h[..n];
  }

  lemma {:induction false} SameFirst(s: seq<uint64>, t: seq<uint64>, descending: bool)
    requires Sorted(s, descending) && Sorted(t, descending) && multiset(s) == multiset(t) && s != [] && t != []
    ensures s[0] == t[0]
  {
    assert s[0] in multiset(s) && t[0] in multiset(t);
    var i :| 0 <= i < |t| && t[i] == s[0];
    var j :| 0 <= j < |s| && s[j] == t[0];
  }

  /** A sorted arrangement is unique, so "the full sort" is well defined. */
  lemma {:induction false} SortUnique(s: seq<uint64>, t: seq<uint64>, descending: bool)
    requires Sorted(s, descending) && Sorted(t, descending) && multiset(s) == multiset(t)
    ensures s == t
  {
    assert |s| == |multiset(s)| == |multiset(t)| == |t|;
    if s != [] {
      SameFirst(s, t, descending);
      assert s == [s[0]] + s[1..] && t == [t[0]] + t[1..];
      assert multiset(s[1..]) == multiset(s) - multiset{s[0]};
      assert multiset(t[1..]) == multiset(t) - multiset{t[0]};
      SortUnique(s[1..], t[1..], descending);
    }
  }

  // --- Bounded insertion ---

  lemma {:induction false} TakeIgnores(s: seq<uint64>, k: nat, descending: bool, x: uint64)
    requires 0 < k <= |s| && !Better(descending, x, s[k - 1])
    ensures Take(Insert(s, descending, x), k) == Take(s, k)
  {
    var n := |s| - 1;
    if |s| > k && Better(descending, x, s[n]) {
      TakeIgnores(s[..n], k, descending, x);
      var r := Insert(s[..n], descending, x);
      assert Take(r, k) == r[..k] == (r + [s[n]])[..k];
    }
  }

  lemma {:induction false} TakeReplaces(s: seq<uint64>, k: nat, descending: bool, x: uint64)
    requires 0 < k <= |s| && Sorted(s, descending) && Better(descending, x, s[k - 1])
    ensures Take(Insert(s, descending, x), k) == Insert(s[..k - 1], descending, x)
  {
    var n := |s| - 1;
    var r := Insert(s[..n], descending, x);
    if |s| == k {
      assert (r + [s[n]])[..k] == r;
    } else {
      assert Better(descending, x, s[n]);
      TakeReplaces(s[..n], k, descending, x);
      assert s[..n][..k - 1] == s[..k - 1];
      assert Take(r, k) == r[..k] == (r + [s[n]])[..k];
    }
  }

  // --- How deep the k best can be ---

  /** How many elements of s the price x does not beat. */
  function NotBeaten(s: seq<uint64>, descending: bool, x: uint64): (n: nat)
    ensures n <= |s|
  {
    if s == [] then 0
    else NotBeaten(s[..|s| - 1], descending, x) + (if Better(descending, x, s[|s| - 1]) then 0 else 1)
  }

  lemma {:induction false} NotBeatenGrows(s: seq<uint64>, i: nat, j: nat, descending: bool, x: uint64)
    requires i <= j <= |s|
    ensures NotBeaten(s[..i], descending, x) <= NotBeaten(s[..j], descending, x)
  {
    if i < j {
      NotBeatenGrows(s, i, j - 1, descending, x);
      assert s[..j][..j - 1] == s[..j - 1];
    }
  }

  lemma {:induction false} NotBeatenWorse(s: seq<uint64>, descending: bool, x: uint64, y: uint64)
    requires !Better(descending, y, x)
    ensures NotBeaten(s, descending, x) <= NotBeaten(s, descending, y)
  {
    if s != [] { NotBeatenWorse(s[..|s| - 1], descending, x, y); }
  }

  lemma {:induction false} NotBeatenInsert(s: seq<uint64>, descending: bool, p: uint64, x: uint64)
    ensures NotBeaten(Insert(s, descending, p), descending, x)
            == NotBeaten(s, descending, x) + (if Better(descending, x, p) then 0 else 1)
  {
    if s == [] {
      assert Insert(s, descending, p)[..0] == [];
    } else {
      var n := |s| - 1;
      var r := Insert(s, descending, p);
      if Better(descending, p, s[n]) {
        NotBeatenInsert(s[..n], descending, p, x);
        assert r[..|r| - 1] == Insert(s[..n], descending, p);
      } else {
        assert r[..|r| - 1] == s;
      }
    }
  }

  lemma {:induction false} NotBeatenSort(h: seq<uint64>, descending: bool, x: uint64)
    ensures NotBeaten(Sort(h, descending), descending, x) == NotBeaten(h, descending, x)
  {
    if h != [] {
      var n := |h| - 1;
      NotBeatenSort(h[..n], descending, x);
      NotBeatenInsert(Sort(h[..n], descending), descending, h[n], x);
    }
  }

  /** In a sorted sequence whoever beats element m beats everything after it. */
  lemma {:induction false} BeatenTail(s: seq<uint64>, descending: bool, m: nat, x: uint64)
    requires Sorted(s, descending) && m < |s| && Better(descending, x, s[m])
    ensures NotBeaten(s, descending, x) <= m
  {
    var n := |s| - 1;
    if m < n { BeatenTail(s[..n], descending, m, x); }
  }

  /** An element at depth d of a heap has d ancestors that it does not beat. */
  lemma {:induction false} Ancestors(h: seq<uint64>, descending: bool, i: nat, d: nat)
    requires HeapOrdered(h, descending) && i < |h| && i >= Pow2(d) - 1
    ensures NotBeaten(h[..i], descending, h[i]) >= d
  {
    if d > 0 {
      var p := Parent(i);
      assert Yields(h, descending, i, p);
      Ancestors(h, descending, p, d - 1);
      NotBeatenWorse(h[..p], descending, h[p], h[i]);
      assert h[..p + 1][..p] == h[..p];
      NotBeatenGrows(h, p + 1, i, descending, h[i]);
    }
  }

  /** An element beyond the window changes nothing among the k best. */
  lemma {:induction false} BeyondWindow(h: seq<uint64>, descending: bool, k: nat, i: nat)
    requires HeapOrdered(h, descending) && Pow2(k) - 1 <= i < |h|
    ensures Take(Insert(Sort(h[..i], descending), descending, h[i]), k) == Take(Sort(h[..i], descending), k)
  {
    var s := Sort(h[..i], descending);
    if k > 0 {
      Ancestors(h, descending, i, k);
      NotBeatenSort(h[..i], descending, h[i]);
      SortSorts(h[..i], descending);
      if Better(descending, h[i], s[k - 1]) { BeatenTail(s, descending, k - 1, h[i]); }
      TakeIgnores(s, k, descending, h[i]);
    }
  }

  lemma {:induction false} BeyondWindowStep(h: seq<uint64>, descending: bool, k: nat, i: nat)
    requires HeapOrdered(h, descending) && Pow2(k) - 1 <= i < |h|
    ensures Take(Sort(h[..i + 1], descending), k) == Take(Sort(h[..i], descending), k)
  {
    hide HeapOrdered, Take, Insert, Sort, Pow2;
    SortOneMore(h, descending, i);
    BeyondWindow(h, descending, k, i);
  }

  /** The k best of a heap are the k best of its first 2^k - 1 slots. */
  lemma {:induction false} WindowSuffices(h: seq<uint64>, descending: bool, k: nat, n: nat)
    requires HeapOrdered(h, descending) && Pow2(k) - 1 <= n <= |h|
    ensures Take(Sort(h[..n], descending), k) == Take(Sort(h[..Pow2(k) - 1], descending), k)
  {
    hide HeapOrdered, Take, Sort, Pow2;
    if n > Pow2(k) - 1 {
      WindowSuffices(h, descending, k, n - 1);
      BeyondWindowStep(h, descending, k, n - 1);
    }
  }

  // --- The method ---

  lemma {:induction false} SinkOne(l: seq<uint64>, i: nat, p: uint64)
    requires 0 < i <= |l|
    ensures var out := l[..i] + [p] + l[i..];
            out[i] == p && out[i - 1] == l[i - 1]
            && out[i := out[i - 1]][i - 1 := out[i]] == l[..i - 1] + [p] + l[i - 1..]
  {
  }

  lemma {:induction false} SinkOneInserts(l: seq<uint64>, i: nat, descending: bool, p: uint64)
    requires 0 < i <= |l| && Better(descending, p, l[i - 1])
    ensures Insert(l[..i], descending, p) + l[i..] == Insert(l[..i - 1], descending, p) + l[i - 1..]
  {
    assert l[..i][..i - 1] == l[..i - 1];
    assert l[i - 1..] == [l[i - 1]] + l[i..];
  }

  /** The insertion sort of bestPrices: one new price at the end of a sorted slice. */
  method SinkIntoPlace(out0: seq<uint64>, descending: bool) returns (out: seq<uint64>)
    requires |out0| > 0
    ensures out == Insert(out0[..|out0| - 1], descending, out0[|out0| - 1])
  {
    ghost var l, p := out0[..|out0| - 1], out0[|out0| - 1];
    out := out0;
    var i := |out| - 1;
    assert l[..i] == l && l[i..] == [];
    while i > 0 && Better(descending, out[i], out[i - 1])
      invariant 0 <= i <= |l|
      invariant out == l[..i] + [p] + l[i..]
      invariant Insert(l, descending, p) == Insert(l[..i], descending, p) + l[i..]
    {
      SinkOne(l, i, p);
      SinkOneInserts(l, i, descending, p);
      out := out[i := out[i - 1]][i - 1 := out[i]];
      i := i - 1;
    }
  }

  /** One round of the loop of bestPrices: the slice keeps the k best of what was scanned. */
  method Offer(out0: seq<uint64>, k: nat, descending: bool, p: uint64, ghost s: seq<uint64>) returns (out: seq<uint64>)
    requires k > 0 && Sorted(s, descending) && out0 == Take(s, k)
    ensures out == Take(Insert(s, descending, p), k)
  {
    out := out0;
    if |out| == k && !Better(descending, p, out[k - 1]) {
      TakeIgnores(s, k, descending, p);
      return;
    }
    if |out| < k {
      out := out + [p];
      assert out[..|out| - 1] == s;
    } else {
      TakeReplaces(s, k, descending, p);
      out := out[k - 1 := p];
      assert out[..|out| - 1] == s[..k - 1];
    }
    out := SinkIntoPlace(out, descending);
  }

  method BestPrices(h: seq<uint64>, k: nat, descending: bool) returns (out: seq<uint64>)
    requires HeapOrdered(h, descending)
    ensures forall full :: IsSortOf(full, h, descending) ==> out == Take(full, k)
  {
    hide Sort, Insert, HeapOrdered, Sorted;
    assert Sort([], descending) == [] by { SortNothing(descending); }
    var window := |h|;
    if k < 62 && window > Pow2(k) - 1 { window := Pow2(k) - 1; }
    out := [];
    for n := 0 to window
      invariant out == Take(Sort(h[..n], descending), k)
    {
      SortSorts(h[..n], descending);
      SortOneMore(h, descending, n);
      out := Offer(out, k, descending, h[n], Sort(h[..n], descending));
    }
    if window < |h| { WindowSuffices(h, descending, k, |h|); }
    assert h[..|h|] == h;
    SortSorts(h, descending);
    forall full | IsSortOf(full, h, descending) ensures out == Take(full, k) {
      SortUnique(full, Sort(h, descending), descending);
    }
  }
}
