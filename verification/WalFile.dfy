/**
 The write-ahead log file: appending, syncing, crashing and reopening with tail
 repair. The outcome of every write and fsync, and the byte at which a crash cuts
 the file, are chosen by the environment; a crash keeps everything synced.
 */
module WalFile {
  import opened Events
  import opened WalCodec

  function Line(e: OrderEvent): Bytes { Encode(e) + [NEWLINE] }

  function EncodeAll(es: seq<OrderEvent>): Bytes {
    if es == [] then [] else EncodeAll(es[..|es| - 1]) + Line(es[|es| - 1])
  }

  /** One record a line. */
  lemma {:induction false} LineText(e: OrderEvent)
    ensures Text(Line(e)) == Text(Encode(e)) + "\n"
  {
    hide Encode;
    TextConcat(Encode(e), [NEWLINE]);
  }

  /** The offset just after the closing brace of the last record. */
  function Whole(es: seq<OrderEvent>): (n: nat)
    ensures n <= |EncodeAll(es)|
  {
    if es == [] then 0 else |EncodeAll(es)| - 1
  }

  /** How many of the events have their whole record, newline aside, in the first len bytes. */
  function Recoverable(es: seq<OrderEvent>, len: nat): (n: nat)
    ensures n <= |es|
  {
    if es == [] then 0
    else if Whole(es) <= len then |es|
    else Recoverable(es[..|es| - 1], len)
  }

  function Recovered(es: seq<OrderEvent>, len: nat): seq<OrderEvent> { es[..Recoverable(es, len)] }

  lemma {:induction false} EncodeLast(es: seq<OrderEvent>, e: OrderEvent)
    ensures EncodeAll(es + [e]) == EncodeAll(es) + Line(e)
  {
    hide Line;
    assert (es + [e])[..|es|] == es;
  }

  lemma {:induction false} Regroup<T>(a: seq<T>, b: seq<T>, c: seq<T>)
    ensures (a + b) + c == a + (b + c)
  {
  }

  lemma {:induction false} EncodeAllConcat(a: seq<OrderEvent>, b: seq<OrderEvent>)
    ensures EncodeAll(a + b) == EncodeAll(a) + EncodeAll(b)
  {
    if b == [] {
      assert a + b == a;
    } else {
      hide EncodeAll, Line;
      var c, e := b[..|b| - 1], b[|b| - 1];
      assert b == c + [e];
      EncodeAllConcat(a, c);
      Regroup(a, c, [e]);
      EncodeLast(a + c, e);
      EncodeLast(c, e);
      Regroup(EncodeAll(a), EncodeAll(c), Line(e));
    }
  }

  lemma {:induction false} TakeDrop<T>(s: seq<T>, n: nat)
    requires n < |s|
    ensures s[..n + 1] == s[..n] + [s[n]] && s == s[..n + 1] + s[n + 1..]
  {
  }

  /** EncodeAll(es) around its n-th record. */
  lemma {:induction false} SplitAt(es: seq<OrderEvent>, n: nat)
    requires n < |es|
    ensures EncodeAll(es) == EncodeAll(es[..n]) + (Line(es[n]) + EncodeAll(es[n + 1..]))
    ensures EncodeAll(es[..n + 1]) == EncodeAll(es[..n]) + Line(es[n])
  {
    hide EncodeAll, Line;
    var head, tail := es[..n], es[n + 1..];
    TakeDrop(es, n);
    EncodeLast(head, es[n]);
    EncodeAllConcat(es[..n + 1], tail);
    Regroup(EncodeAll(head), Line(es[n]), EncodeAll(tail));
  }

  lemma {:induction false} WholeGrows(es: seq<OrderEvent>, i: nat, j: nat)
    requires i < j <= |es|
    ensures |EncodeAll(es[..i])| < |EncodeAll(es[..j])| && Whole(es[..i]) <= |EncodeAll(es[..i])| <= Whole(es[..j])
  {
    hide Encode;
    SplitAt(es, j - 1);
    RecordShape(es[j - 1]);
    if i < j - 1 { WholeGrows(es, i, j - 1); }
  }

  lemma {:induction false} RecoverableIs(es: seq<OrderEvent>, len: nat, n: nat)
    requires n <= |es| && Whole(es[..n]) <= len && (n < |es| ==> len < Whole(es[..n + 1]))
    ensures Recoverable(es, len) == n
  {
    hide Whole, EncodeAll;
    if n == |es| {
      assert es[..n] == es;
    } else {
      var m := |es| - 1;
      assert es[..m + 1] == es;
      if n < m { WholeGrows(es, n + 1, m + 1); }
      assert es[..m][..n] == es[..n];
      if n < m { assert es[..m][..n + 1] == es[..n + 1]; }
      RecoverableIs(es[..m], len, n);
    }
  }

  lemma {:induction false} WholeEmpty()
    ensures Whole([]) == 0
  {
  }

  lemma {:induction false} RecoverableFits(es: seq<OrderEvent>, len: nat)
    ensures Whole(Recovered(es, len)) <= len
    ensures var n := Recoverable(es, len); n < |es| ==> len < Whole(es[..n + 1])
  {
    hide Whole, EncodeAll;
    assert es[..|es|] == es;
    if es == [] {
      WholeEmpty();
    } else if Whole(es) > len {
      var m := |es| - 1;
      RecoverableFits(es[..m], len);
      var n := Recoverable(es, len);
      assert es[..m][..n] == es[..n];
      if n < m { assert es[..m][..n + 1] == es[..n + 1]; } else { assert es[..n + 1] == es; }
    }
  }

  /** An event is recovered if and only if its record is there up to the closing brace; the newline
      behind it may be missing. */
  lemma {:induction false} RecoverableExact(es: seq<OrderEvent>, len: nat, n: nat)
    requires 0 < n <= |es|
    ensures n <= Recoverable(es, len) <==> |EncodeAll(es[..n])| <= len + 1
  {
    hide EncodeAll, Recoverable;
    RecoverableFits(es, len);
    var m := Recoverable(es, len);
    if n <= m { WholeOrder(es, n, m); } else { WholeOrder(es, m + 1, n); }
    WholeIs(es[..n]);
  }

  lemma {:induction false} WholeIs(es: seq<OrderEvent>)
    requires es != []
    ensures Whole(es) == |EncodeAll(es)| - 1
  {
  }

  /** More bytes, or more events, recover more. */
  lemma {:induction false} RecoverableGrows(es: seq<OrderEvent>, len: nat, more: seq<OrderEvent>, len': nat)
    requires len <= len'
    ensures Recovered(es, len) <= Recovered(es + more, len')
  {
    hide Whole, EncodeAll;
    var all := es + more;
    var n, m := Recoverable(es, len), Recoverable(all, len');
    RecoverableFits(es, len);
    RecoverableFits(all, len');
    assert all[..n] == es[..n];
    if m < n { WholeOrder(all, m + 1, n); }
    assert all[..m][..n] == es[..n];
  }

  lemma {:induction false} WholeOrder(es: seq<OrderEvent>, i: nat, j: nat)
    requires i <= j <= |es|
    ensures Whole(es[..i]) <= Whole(es[..j])
  {
    if i < j { WholeGrows(es, i, j); }
  }

  // --- Reading ---

  /** ReadSlice: up to and including the next newline, or to the end. */
  method FindNewline(b: Bytes, pos: nat) returns (nl: nat)
    requires pos <= |b|
    ensures pos <= nl <= |b| && (nl < |b| ==> b[nl] == NEWLINE)
    ensures forall i :: pos <= i < nl ==> b[i] != NEWLINE
  {
    nl := pos;
    while nl < |b| && b[nl] != NEWLINE
      invariant pos <= nl <= |b|
      invariant forall i :: pos <= i < nl ==> b[i] != NEWLINE
    {
      nl := nl + 1;
    }
  }

  /** Where the n-th record starts in a file cut anywhere, and what is found there. */
  ghost predicate At(content: Bytes, es: seq<OrderEvent>, n: nat, pos: nat) {
    && content <= EncodeAll(es) && n <= |es|
    && pos == |EncodeAll(es[..n])| <= |content|
  }

  /** What lies behind that point: the n-th record, its newline, and more. */
  lemma {:induction false} Behind(content: Bytes, es: seq<OrderEvent>, n: nat, pos: nat)
    requires At(content, es, n, pos)
    ensures n == |es| ==> pos == |content|
    ensures n < |es| ==>
             Whole(es[..n + 1]) == pos + |Encode(es[n])| && |EncodeAll(es[..n + 1])| == pos + |Encode(es[n])| + 1
    ensures n < |es| ==> forall i :: pos <= i < |content| && i < pos + |Encode(es[n])| ==>
             content[i] == Encode(es[n])[i - pos]
    ensures n < |es| && pos + |Encode(es[n])| < |content| ==> content[pos + |Encode(es[n])|] == NEWLINE
  {
    hide Encode, EncodeAll;
    if n == |es| {
      assert es[..n] == es;
    } else {
      SplitAt(es, n);
      var all, line := EncodeAll(es), Line(es[n]);
      var rest := line + EncodeAll(es[n + 1..]);
      assert forall i :: pos <= i < |all| ==> all[i] == rest[i - pos];
    }
  }

  /** A whole line there is the n-th record. */
  lemma {:induction false} WholeLine(content: Bytes, es: seq<OrderEvent>, n: nat, pos: nat, nl: nat)
    requires At(content, es, n, pos) && pos <= nl < |content| && content[nl] == NEWLINE
    requires forall i :: pos <= i < nl ==> content[i] != NEWLINE
    ensures n < |es| && content[pos..nl] == Encode(es[n]) && At(content, es, n + 1, nl + 1)
    ensures nl == Whole(es[..n + 1])
  {
    hide Encode, EncodeAll;
    Behind(content, es, n, pos);
    var record := Encode(es[n]);
    RecordShape(es[n]);
    assert forall i :: pos <= i < |content| && i < pos + |record| ==> content[i] in record;
    assert nl == pos + |record|;
    assert content[pos..nl] == record;
  }

  /** A last line without newline is the n-th record, or the beginning of it, or nothing. */
  lemma {:induction false} LastLine(content: Bytes, es: seq<OrderEvent>, n: nat, pos: nat)
    requires At(content, es, n, pos)
    requires forall i :: pos <= i < |content| ==> content[i] != NEWLINE
    ensures n == |es| ==> pos == |content|
    ensures n < |es| ==> content[pos..] <= Encode(es[n])
    ensures n < |es| ==> Whole(es[..n + 1]) == pos + |Encode(es[n])|
  {
    hide Encode, EncodeAll;
    Behind(content, es, n, pos);
  }

  /** The generic decoder on what is left: one whole record, or an error. */
  method ScanSlow(rest: Bytes, events0: seq<OrderEvent>, base: nat, good0: nat)
    returns (events: seq<OrderEvent>, good: nat, ok: bool)
    ensures rest == [] ==> ok && events == events0 && good == good0
    ensures forall e :: rest == Encode(e) ==> ok && events == events0 + [e] && good == base + |rest|
    ensures rest != [] && (forall e :: rest != Encode(e)) ==> !ok && events == events0 && good == good0
  {
    events, good, ok := events0, good0, true;
    if rest == [] {
      forall e ensures rest != Encode(e) { RecordShape(e); }
      return;
    }
    var ev;
    ev, ok := ParseCanonical(rest);
    if ok {
      forall e | rest == Encode(e) ensures e == ev { EncodeInjective(e, ev); }
      events, good := events + [ev], base + |rest|;
    }
  }

  /** scan: the events, the offset after the last whole one, and whether nothing stopped it. */
  method Scan(content: Bytes, ghost es: seq<OrderEvent>) returns (events: seq<OrderEvent>, good: nat, ok: bool)
    requires content <= EncodeAll(es)
    ensures events == Recovered(es, |content|) && good == Whole(events)
    ensures ok <==> |content| == good || |content| == |EncodeAll(events)|
  {
    hide Encode;
    events, good := [], 0;
    var pos := 0;
    ghost var n := 0;
    while true
      invariant At(content, es, n, pos) && events == es[..n] && good == Whole(events)
      decreases |content| - pos
    {
      var nl := FindNewline(content, pos);
      if nl < |content| {
        WholeLine(content, es, n, pos, nl);
        var ev, canonical := ParseCanonical(content[pos..nl]);
        if canonical {
          EncodeInjective(ev, es[n]);
          assert es[..n + 1] == es[..n] + [ev];
          events, good, pos, n := events + [ev], nl, nl + 1, n + 1;
          continue;
        }
      } else {
        LastLine(content, es, n, pos);
        if pos == |content| {
          AllRead(content, es, n, pos);
          ok := true;
          return;
        }
      }
      LastLineRead(content, es, n, pos);
      events, good, ok := ScanSlow(content[pos..], events, pos, good);
      return;
    }
  }

  lemma {:induction false} AllRead(content: Bytes, es: seq<OrderEvent>, n: nat, pos: nat)
    requires At(content, es, n, pos) && pos == |content|
    ensures es[..n] == Recovered(es, |content|) && |content| == |EncodeAll(es[..n])|
  {
    hide Encode, EncodeAll;
    if n < |es| {
      SplitAt(es, n);
      RecordShape(es[n]);
    }
    RecoverableIs(es, |content|, n);
  }

  /** What the generic decoder can find after the last whole line. */
  lemma {:induction false} LastLineRead(content: Bytes, es: seq<OrderEvent>, n: nat, pos: nat)
    requires At(content, es, n, pos) && pos < |content|
    requires forall i :: pos <= i < |content| ==> content[i] != NEWLINE
    ensures n < |es|
    ensures content[pos..] == Encode(es[n]) ==>
              es[..n] + [es[n]] == Recovered(es, |content|) && Whole(es[..n] + [es[n]]) == |content|
    ensures content[pos..] != Encode(es[n]) ==>
              && es[..n] == Recovered(es, |content|) && |content| != Whole(es[..n]) && |content| != |EncodeAll(es[..n])|
              && forall e :: content[pos..] != Encode(e)
  {
    hide Encode, EncodeAll, Whole;
    LastLine(content, es, n, pos);
    if content[pos..] == Encode(es[n]) {
      LastLineWhole(content, es, n, pos);
    } else {
      LastLineCut(content, es, n, pos);
    }
  }

  lemma {:induction false} LastLineWhole(content: Bytes, es: seq<OrderEvent>, n: nat, pos: nat)
    requires At(content, es, n, pos) && n < |es| && content[pos..] == Encode(es[n])
    ensures es[..n] + [es[n]] == Recovered(es, |content|) && Whole(es[..n] + [es[n]]) == |content|
  {
    hide Encode, EncodeAll, Whole;
    Behind(content, es, n, pos);
    assert es[..n] + [es[n]] == es[..n + 1];
    if n + 1 < |es| { WholeGrows(es, n + 1, n + 2); }
    RecoverableIs(es, |content|, n + 1);
  }

  lemma {:induction false} LastLineCut(content: Bytes, es: seq<OrderEvent>, n: nat, pos: nat)
    requires At(content, es, n, pos) && n < |es| && pos < |content|
    requires content[pos..] <= Encode(es[n]) && content[pos..] != Encode(es[n])
    ensures es[..n] == Recovered(es, |content|) && |content| != Whole(es[..n]) && |content| != |EncodeAll(es[..n])|
    ensures forall e :: content[pos..] != Encode(e)
  {
    hide Encode, EncodeAll;
    Behind(content, es, n, pos);
    var k := |content| - pos;
    assert content[pos..] == Encode(es[n])[..k];
    RecoverableIs(es, |content|, n);
    forall e ensures content[pos..] != Encode(e) { CutRecord(es[n], k, e); }
  }
}
