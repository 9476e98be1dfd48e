/** What the exchange promises, from the invariant. */
module ExchangeTheorems {
  import opened Events
  import opened Exchange
  import opened ExchangeSafety
  import Ingest
  import R = Ring
  import RS = RingSafety
  import RT = RingTheorems
  import B = Batcher
  import Ref = ReferenceBook
  import Book = OrderBook
  import W = Wal
  import WF = WalFile

  // --- At most once ---

  lemma {:induction false} UniquePair(a: seq<OrderEvent>, b: seq<OrderEvent>, b': seq<OrderEvent>)
    requires Unique(a, b) && b' <= b
    ensures UniqueIds(a + b') && AllValid(a + b')
  {
    var all := a + b';
    forall i, k | 0 <= i < k < |all| ensures all[i].orderId != all[k].orderId {
      if i < |a| <= k {
        assert all[i].orderId in Ids(a);
        assert b[k - |a|].orderId in Ids(b);
      }
    }
  }

  lemma {:induction false} RingPieces(s: State)
    requires Inv(s)
    ensures RS.Inv(s.ring) && B.Inv(s.batcher) && Unique(s.base, s.ring.gate.log)
    ensures Confirmed(s.handlers, s.acked, s.ring.j.cursor) && Promises(s.promised, s.base, s.hard, s.ring.syncEvery)
    ensures HardOk(s.hard, s.base, s.ring.j.wal, s.down)
  {
  }

  /** Over any history of submissions, failures, crashes and restarts, no order_id is
      published twice, written twice, or given to the engine twice. */
  lemma {:induction false} OncePerOrder(run: seq<State>)
    requires IsHistory(run)
    ensures var s := run[|run| - 1];
            && UniqueIds(s.base + s.ring.gate.log) && UniqueIds(File(s)) && UniqueIds(s.base + s.ring.e.history)
            && s.ring.e.history <= s.ring.j.wal <= s.ring.gate.log && AllValid(File(s))
  {
    hide Inv, RS.Inv, B.Inv, Unique, UniqueIds, AllValid;
    HistorySafe(run);
    var s := run[|run| - 1];
    RingPieces(s);
    StagesInOrder(s.ring);
    UniquePair(s.base, s.ring.gate.log, s.ring.gate.log);
    UniquePair(s.base, s.ring.gate.log, s.ring.j.wal);
    UniquePair(s.base, s.ring.gate.log, s.ring.e.history);
  }

  lemma {:induction false} StagesInOrder(r: R.State)
    requires RS.Inv(r)
    ensures r.e.history <= r.j.wal <= r.gate.log
  {
  }

  // --- What is durable is never lost ---

  /** What one step does to the file and to its durable part. */
  ghost predicate FileMove(s: State, t: State) {
    && Durable(s) <= |File(s)| && Durable(t) <= |File(t)| && Durable(s) <= Durable(t)
    && File(t)[..Durable(s)] == File(s)[..Durable(s)]
  }

  lemma {:induction false} FileGrows(s: State, t: State)
    requires Durable(s) <= |File(s)| && Durable(t) <= |File(t)|
    requires t.base == s.base && s.ring.j.wal <= t.ring.j.wal && s.hard <= t.hard && s.ring.j.synced <= t.ring.j.synced
    ensures FileMove(s, t)
  {
    assert File(s) <= File(t);
  }

  lemma {:induction false} DurableWithin(s: State)
    requires Inv(s)
    ensures Durable(s) <= |File(s)|
  {
    hide Inv, RS.Inv, B.Inv, Unique;
    RingPieces(s);
    RingFacts(s.ring);
  }

  lemma {:induction false} FileStep(s: State, step: Step)
    requires Inv(s) && Enabled(s, step) && R.Claims(Apply(s, step).ring.gate) < U63
    ensures FileMove(s, Apply(s, step))
  {
    hide Inv, Durable, R.Apply, B.Apply, FileMove, Apply, Enabled;
    InvSized(s);
    var t := Apply(s, step);
    StepKeeps(s, step);
    DurableWithin(s);
    DurableWithin(t);
    if step.Crash? {
      CrashIs(s, step.at);
      CrashKeepsFile(s, step.at);
    } else {
      JournalFrame(s, step);
      FileGrows(s, t);
    }
  }

  lemma {:induction false} CrashIs(s: State, at: nat)
    requires Sized(s) && Enabled(s, Crash(at))
    ensures Durable(s) <= at <= |File(s)| && Apply(s, Crash(at)) == CrashStep(s, at)
  {
    hide Durable;
  }

  lemma {:induction false} CrashKeepsFile(s: State, at: nat)
    requires Durable(s) <= at <= |File(s)|
    ensures FileMove(s, CrashStep(s, at))
  {
    var t := CrashStep(s, at);
    assert File(t) == t.base == File(s)[..at];
    assert Durable(t) == Durable(s);
  }

  /** Only the ring's own steps touch the journal, and they only add to it. */
  lemma {:induction false} JournalFrame(s: State, step: Step)
    requires Inv(s) && Sized(s) && Enabled(s, step) && !step.Crash? && R.Claims(Apply(s, step).ring.gate) < U63
    ensures var t := Apply(s, step);
            t.base == s.base && s.ring.j.wal <= t.ring.j.wal && s.hard <= t.hard && s.ring.j.synced <= t.ring.j.synced
  {
    hide Inv, R.Apply, B.Apply, R.Enabled, B.Enabled;
    if step.RingStep? {
      RingJournal(s, step.r);
    } else if step.Shutdown? {
      ShutdownJournal(s, step.expired, step.synced);
    } else {
      HandlerJournal(s, step);
    }
  }

  lemma {:induction false} RingJournal(s: State, r: R.Step)
    requires Inv(s) && RingInside(s, r) && R.Enabled(s.ring, r) && R.Claims(R.Apply(s.ring, r).gate) < U63
    ensures s.ring.j.wal <= R.Apply(s.ring, r).j.wal && s.ring.j.synced <= R.Apply(s.ring, r).j.synced
  {
    hide R.Apply, Inv;
    if r.Publish? { PublishStays(s, r.p); } else { StageStays(s, r); }
  }

  lemma {:induction false} ShutdownJournal(s: State, expired: bool, synced: bool)
    requires Inv(s) && Sized(s) && ShutdownEnabled(s, expired)
    ensures var t := ShutdownStep(s, expired, synced);
            t.base == s.base && s.ring.j.wal <= t.ring.j.wal && s.hard <= t.hard && s.ring.j.synced <= t.ring.j.synced
  {
    hide Inv, R.Apply, B.Apply;
    HardWithin(s);
    if s.down.pc.CloseRing? && !s.ring.gate.pc.KClosed? {
      StageStays(s, R.Close);
    } else {
      QuietShutdown(s, expired, synced);
    }
  }

  lemma {:induction false} QuietShutdown(s: State, expired: bool, synced: bool)
    requires Sized(s) && ShutdownEnabled(s, expired) && (s.down.pc.CloseRing? ==> s.ring.gate.pc.KClosed?)
    requires s.hard <= |File(s)|
    ensures var t := ShutdownStep(s, expired, synced); t.base == s.base && t.ring == s.ring && s.hard <= t.hard
  {
    hide R.Apply, B.Apply;
  }

  lemma {:induction false} HardWithin(s: State)
    requires Inv(s)
    ensures s.hard <= |File(s)|
  {
    hide Inv, RS.Inv, B.Inv, Unique;
    RingPieces(s);
  }

  lemma {:induction false} HandlerJournal(s: State, step: Step)
    requires Sized(s) && Enabled(s, step) && !step.RingStep? && !step.Shutdown? && !step.Crash?
    ensures var t := Apply(s, step);
             t.base == s.base && t.hard == s.hard && t.ring.j == s.ring.j && t.ring.e == s.ring.e && t.book == s.book
  {
    hide R.Apply, B.Apply, B.Enabled;
    if step.Register? { CallChanges(s.ring, R.Call(step.h, s.handlers[step.h].pc.ev)); }
    if step.Published? { CallChanges(s.ring, R.Return(step.h)); }
    if step.Confirm? { CallChanges(s.ring, R.WaitCall(step.h, s.handlers[step.h].pending[0].sn)); }
    if step.Waited? { CallChanges(s.ring, R.WaitReturn(step.h)); }
  }

  lemma {:induction false} FileNext(s: State, s': State)
    requires Inv(s) && Next(s, s') && R.Claims(s'.ring.gate) < U63
    ensures FileMove(s, s')
  {
    hide Inv, Apply, Enabled, FileMove;
    var step :| Enabled(s, step) && s' == Apply(s, step);
    FileStep(s, step);
  }

  /** Over any history, crashes and restarts included, the durable part of the file only grows. */
  lemma {:induction false} DurableGrows(run: seq<State>, i: nat)
    requires IsHistory(run) && i < |run|
    ensures var s, t := run[i], run[|run| - 1];
            && Durable(s) <= |File(s)| && Durable(t) <= |File(t)|
            && File(s)[..Durable(s)] <= File(t)[..Durable(t)]
  {
    hide Inv, Next, Init, Durable, File;
    HistorySafe(run);
    var n := |run| - 1;
    DurableWithin(run[n]);
    if i < n {
      HistorySafe(run[..n]);
      DurableGrows(run[..n], i);
      FileNext(run[n - 1], run[n]);
      PrefixLonger(File(run[i])[..Durable(run[i])], File(run[n - 1]), Durable(run[n - 1]), File(run[n]),
        Durable(run[n]));
    }
  }

  lemma {:induction false} PrefixLonger<T>(a: seq<T>, b: seq<T>, m: nat, c: seq<T>, n: nat)
    requires m <= |b| && m <= n <= |c| && a <= b[..m] && c[..m] == b[..m]
    ensures a <= c[..n]
  {
    assert c[..n][..m] == c[..m];
  }

  // --- The crash of the exchange is the crash of its file ---

  /** This file, byte for byte, is what the exchange has written. */
  ghost predicate Mirrors(s: State, l: W.Log) {
    W.Inv(l) && WF.Recovered(l.appended, |l.content|) == File(s) && |W.Durable(l)| == Durable(s)
  }

  /** What the crash of the machine leaves, some crash of the file at some byte leaves. */
  lemma {:induction false} CrashHasByte(s: State, l: W.Log, at: nat) returns (byte: nat)
    requires Mirrors(s, l) && Durable(s) <= at <= |File(s)|
    ensures l.synced <= byte <= |l.content|
    ensures Mirrors(CrashStep(s, at), W.OpenTo(W.CrashTo(l, byte)))
  {
    hide W.Inv, WF.Recoverable, W.Durable, WF.EncodeAll, WF.Whole;
    byte := W.CrashCanKeep(l, at);
    W.CrashKeepsDurable(l, byte);
    CrashMirrored(s, l, at, byte);
  }

  /** And what a crash of the file at any byte leaves, the machine can be left with. */
  lemma {:induction false} CrashOfByte(s: State, l: W.Log, byte: nat)
    requires Mirrors(s, l) && l.synced <= byte <= |l.content|
    ensures var at := |W.OpenTo(W.CrashTo(l, byte)).appended|;
            Durable(s) <= at <= |File(s)| && Mirrors(CrashStep(s, at), W.OpenTo(W.CrashTo(l, byte)))
  {
    hide W.Inv, WF.Recoverable, W.Durable, WF.EncodeAll, WF.Whole;
    W.CrashKeepsDurable(l, byte);
    CrashMirrored(s, l, |W.OpenTo(W.CrashTo(l, byte)).appended|, byte);
  }

  lemma {:induction false} CrashMirrored(s: State, l: W.Log, at: nat, byte: nat)
    requires Mirrors(s, l) && Durable(s) <= at <= |File(s)| && l.synced <= byte <= |l.content|
    requires W.OpenTo(W.CrashTo(l, byte)).appended == l.appended[..at]
    requires W.Durable(W.OpenTo(W.CrashTo(l, byte))) == W.Durable(l)
    ensures Mirrors(CrashStep(s, at), W.OpenTo(W.CrashTo(l, byte)))
  {
    hide WF.Recoverable, W.Durable, WF.EncodeAll, WF.Whole;
    var t := W.OpenTo(W.CrashTo(l, byte));
    W.StepKeeps(l, W.Crash(byte));
    W.StepKeeps(W.CrashTo(l, byte), W.Open);
    W.WholeFits(t.appended);
    assert t.appended[..|t.appended|] == t.appended;
    W.Recovers(t.appended, t.appended, |t.content|);
    assert File(s)[..at] == l.appended[..at];
    assert Durable(CrashStep(s, at)) == Durable(s);
  }

  // --- An answered order is never lost ---

  /** Every order that was ever answered AckOK. */
  ghost function Answered(s: State): set<OrderEvent> {
    s.promised + AnsweredHere(s.acked, s.ring.gate.log)
  }

  ghost function AnsweredHere(acked: set<nat>, log: seq<OrderEvent>): set<OrderEvent> {
    set n | n in acked && n < |log| :: log[n]
  }

  lemma {:induction false} AnsweredHereGrows(acked: set<nat>, log: seq<OrderEvent>, acked': set<nat>,
        log': seq<OrderEvent>)
    requires acked <= acked' && log <= log'
    ensures AnsweredHere(acked, log) <= AnsweredHere(acked', log')
  {
    forall n | n in acked && n < |log| ensures log[n] in AnsweredHere(acked', log') {
      assert n in acked' && n < |log'| && log'[n] == log[n];
    }
  }

  lemma {:induction false} LogOnlyGrows(s: State, step: Step)
    requires Inv(s) && Enabled(s, step) && !step.Crash? && R.Claims(Apply(s, step).ring.gate) < U63
    ensures var s' := Apply(s, step);
            s.ring.gate.log <= s'.ring.gate.log && s.acked <= s'.acked && s'.promised == s.promised
  {
    hide Inv, R.Apply, B.Apply, R.Enabled, B.Enabled;
    InvSized(s);
    if step.RingStep? {
      RingLogGrows(s, step.r);
    } else if step.Shutdown? {
      ShutdownLog(s, step.expired, step.synced);
    } else {
      HandlerLog(s, step);
    }
  }

  lemma {:induction false} ShutdownLog(s: State, expired: bool, synced: bool)
    requires Inv(s) && Sized(s) && ShutdownEnabled(s, expired)
    ensures var s' := ShutdownStep(s, expired, synced);
            s'.ring.gate.log == s.ring.gate.log && s'.acked == s.acked && s'.promised == s.promised
  {
    hide Inv, R.Apply, B.Apply;
    if s.down.pc.CloseRing? && !s.ring.gate.pc.KClosed? { StageStays(s, R.Close); }
  }

  lemma {:induction false} HandlerLog(s: State, step: Step)
    requires Sized(s) && Enabled(s, step) && !step.RingStep? && !step.Shutdown? && !step.Crash?
    ensures var s' := Apply(s, step);
            s'.ring.gate == s.ring.gate && s.acked <= s'.acked && s'.promised == s.promised
  {
    hide R.Apply, B.Apply, B.Enabled;
    if step.Register? { CallChanges(s.ring, R.Call(step.h, s.handlers[step.h].pc.ev)); }
    if step.Published? { CallChanges(s.ring, R.Return(step.h)); }
    if step.Confirm? { CallChanges(s.ring, R.WaitCall(step.h, s.handlers[step.h].pending[0].sn)); }
    if step.Waited? { CallChanges(s.ring, R.WaitReturn(step.h)); }
  }

  lemma {:induction false} RingLogGrows(s: State, r: R.Step)
    requires Inv(s) && RingInside(s, r) && R.Enabled(s.ring, r) && R.Claims(R.Apply(s.ring, r).gate) < U63
    ensures s.ring.gate.log <= R.Apply(s.ring, r).gate.log
  {
    hide R.Apply, Inv;
    if r.Publish? { PublishStays(s, r.p); } else { StageStays(s, r); }
  }

  lemma {:induction false} AnswersKeptNext(s: State, s': State)
    requires Inv(s) && Next(s, s') && R.Claims(s'.ring.gate) < U63
    ensures Answered(s) <= Answered(s')
  {
    hide Inv, Enabled;
    var step :| Enabled(s, step) && s' == Apply(s, step);
    if step.Crash? {
      assert s'.promised == Answered(s);
    } else {
      hide Apply;
      LogOnlyGrows(s, step);
      AnsweredHereGrows(s.acked, s.ring.gate.log, s'.acked, s'.ring.gate.log);
    }
  }

  /** What was answered once stays answered, across crashes. */
  lemma {:induction false} AnswersKept(run: seq<State>, i: nat)
    requires IsHistory(run) && i < |run|
    ensures Answered(run[i]) <= Answered(run[|run| - 1])
  {
    hide Inv, Next, Answered, Init;
    var n := |run| - 1;
    if i < n {
      AnswersKept(run[..n], i);
      HistorySafe(run[..n]);
      AnswersKeptNext(run[n - 1], run[n]);
    }
  }

  lemma {:induction false} PromisedWithin(s: State, e: OrderEvent)
    requires Promises(s.promised, s.base, s.hard, true) && e in s.promised && Durable(s) <= |File(s)|
    ensures e in File(s)[..Durable(s)]
  {
    var k :| 0 <= k < Lesser(s.hard, |s.base|) && s.base[k] == e;
    assert File(s)[..Durable(s)][k] == e;
  }

  lemma {:induction false} AckedWithin(s: State, e: OrderEvent)
    requires Confirmed(s.handlers, s.acked, s.ring.j.cursor) && e in AnsweredHere(s.acked, s.ring.gate.log)
    requires s.ring.j.cursor <= s.ring.j.synced <= |s.ring.j.wal| && s.ring.j.wal <= s.ring.gate.log
             && Durable(s) <= |File(s)|
    ensures e in File(s)[..Durable(s)]
  {
    var n :| n in s.acked && n < |s.ring.gate.log| && s.ring.gate.log[n] == e;
    assert n < s.ring.j.cursor <= s.ring.j.synced;
    assert File(s)[..Durable(s)][|s.base| + n] == e;
  }

  /** With a sync for every batch: every order ever answered AckOK, by this process or an
      earlier one, is in the part of the file that no crash takes away. */
  lemma {:induction false} AnsweredIsDurable(run: seq<State>, i: nat, e: OrderEvent)
    requires IsHistory(run) && i < |run| && e in Answered(run[i]) && run[|run| - 1].ring.syncEvery
    ensures var s := run[|run| - 1];
            Durable(s) <= |File(s)| && e in File(s)[..Durable(s)]
  {
    hide Inv, RS.Inv, B.Inv, Unique, IsHistory, Confirmed, Promises, AnsweredHere, Durable, File, HardOk;
    AnswersKept(run, i);
    HistorySafe(run);
    var s := run[|run| - 1];
    RingPieces(s);
    RingFacts(s.ring);
    DurableWithin(s);
    if e in s.promised { PromisedWithin(s, e); } else { AckedWithin(s, e); }
  }

  // --- A clean shutdown ---

  /** Shutdown came to its end with nothing to report, and the stages had been started. */
  predicate CleanlyDown(s: State) {
    s.down.pc.Finished? && !s.down.errs && Started(s) && !s.ring.failErr
  }

  lemma {:induction false} AllAnswered(hs: seq<Handler>, ps: seq<R.Producer>, ws: seq<R.Waiter>, qs: seq<B.Pusher>,
        claimant: seq<nat>, acked: set<nat>)
    requires Linked(hs, ps, ws, qs) && Accounts(hs, ps, claimant, acked, false) && AllGone(hs)
    ensures forall n :: 0 <= n < |claimant| ==> n in acked
  {
    forall n | 0 <= n < |claimant| ensures n in acked {
      var c := claimant[n];
      assert n in acked || CarriedBy(hs, ps, c, n);
      if c < |hs| { NothingCarried(hs[c], ps[c], ws[c], qs[c], n); }
    }
  }

  lemma {:induction false} NothingCarried(hd: Handler, p: R.Producer, w: R.Waiter, q: B.Pusher, n: nat)
    requires LinkOk(hd, p, w, q) && hd.pc.Gone?
    ensures !Carries(hd, p, n)
  {
  }

  /** order lists every number below |log| once, and xs is log in that order. */
  ghost predicate Arranges<T>(order: seq<nat>, xs: seq<T>, log: seq<T>) {
    && |order| == |xs|
    && (forall i :: 0 <= i < |order| ==> order[i] < |log| && xs[i] == log[order[i]])
    && (forall i, k :: 0 <= i < k < |order| ==> order[i] != order[k])
    && (forall n :: 0 <= n < |log| ==> n in order)
  }

  function Without<T>(s: seq<T>, k: nat): seq<T>
    requires k < |s|
  {
    s[..k] + s[k + 1..]
  }

  lemma {:induction false} WithoutContents<T>(s: seq<T>, k: nat)
    requires k < |s|
    ensures multiset(s) == multiset(Without(s, k)) + multiset{s[k]}
  {
    assert s == s[..k] + [s[k]] + s[k + 1..];
  }

  lemma {:induction false} ArrangesWithout<T>(order: seq<nat>, xs: seq<T>, log: seq<T>, k: nat)
    requires Arranges(order, xs, log) && k < |order| && order[k] == |log| - 1
    ensures Arranges(Without(order, k), Without(xs, k), log[..|log| - 1])
  {
    var order' := Without(order, k);
    forall m | 0 <= m < |log| - 1 ensures m in order' {
      assert m in order;
      var i :| 0 <= i < |order| && order[i] == m;
      assert order'[if i < k then i else i - 1] == m;
    }
  }

  lemma {:induction false} Arrangement<T>(order: seq<nat>, xs: seq<T>, log: seq<T>)
    requires Arranges(order, xs, log)
    ensures multiset(xs) == multiset(log)
  {
    if log == [] {
      assert order == [];
    } else {
      var n := |log| - 1;
      assert n in order;
      var k :| 0 <= k < |order| && order[k] == n;
      assert xs[k] == log[n];
      ArrangesWithout(order, xs, log, k);
      hide Arranges, Without;
      Arrangement(Without(order, k), Without(xs, k), log[..n]);
      WithoutContents(xs, k);
      assert log == log[..n] + [log[n]];
    }
  }

  lemma {:induction false} CleanPieces(s: State)
    requires Inv(s) && CleanlyDown(s)
    ensures s.ring.j.pc.JExited? && s.ring.e.pc.CExited? && s.batcher.worker.Exited?
    ensures s.hard == |File(s)|
    ensures AllGone(s.handlers) && s.unarchived == {} && |s.ring.gate.claimant| == |s.ring.gate.log|
    ensures Linked(s.handlers, s.ring.producers, s.ring.waiters, s.batcher.pushers)
    ensures Accounts(s.handlers, s.ring.producers, s.ring.gate.claimant, s.acked, false)
    ensures ArchiveLog(s.archived, s.batcher.accepted, s.ring.gate.log, s.ring.gate.claimant)
    ensures ArchiveAcks(s.handlers, s.batcher.pushers, s.archived, s.ring.gate.claimant, s.acked, s.unarchived)
  {
    hide RS.Inv, B.Inv, Ticketed, Confirmed, IdsHeld, Unique, Ids, ArchiveOpen, Promises, Linked, Accounts, ArchiveAcks;
  }

  lemma {:induction false} DrainedStages(r: R.State)
    requires RS.Inv(r) && !r.failErr && r.j.pc.JExited? && r.e.pc.CExited?
    ensures r.j.wal == r.gate.log == r.e.history && r.j.synced == |r.j.wal|
  {
  }

  lemma {:induction false} SinkGotAll(b: B.State)
    requires B.Inv(b) && b.worker.Exited?
    ensures B.Flatten(b.sunk) == b.accepted
  {
    hide B.Flatten, B.InvPushers, B.InvClosers, B.InvReturned;
  }

  /** After a clean shutdown the orders answered AckOK by this process, its part of the
      journal, the engine's history and the archive are the same orders, each exactly once. */
  lemma {:induction false} CleanShutdown(run: seq<State>)
    requires IsHistory(run) && CleanlyDown(run[|run| - 1])
    ensures var s := run[|run| - 1];
            && s.ring.j.wal == s.ring.gate.log == s.ring.e.history && Durable(s) == |File(s)|
            && (forall n :: n in s.acked <==> 0 <= n < |s.ring.j.wal|)
            && multiset(B.Flatten(s.batcher.sunk)) == multiset(s.ring.j.wal)
            && UniqueIds(File(s))
  {
    hide Inv, RS.Inv, B.Inv, Unique, UniqueIds, AllValid, Linked, Accounts, B.Flatten;
    HistorySafe(run);
    OncePerOrder(run);
    var s := run[|run| - 1];
    CleanPieces(s);
    RingPieces(s);
    RingFacts(s.ring);
    DrainedStages(s.ring);
    SinkGotAll(s.batcher);
    AllAnswered(s.handlers, s.ring.producers, s.ring.waiters, s.batcher.pushers, s.ring.gate.claimant, s.acked);
    Arrangement(s.archived, s.batcher.accepted, s.ring.gate.log);
  }

  /** The trade channel is closed only under a stopped engine. */
  lemma {:induction false} TradesClosedAfterEngine(run: seq<State>)
    requires IsHistory(run) && run[|run| - 1].down.tradesClosed
    ensures run[|run| - 1].ring.e.pc.COff? || run[|run| - 1].ring.e.pc.CExited?
  {
    hide Inv;
    HistorySafe(run);
    TradesAfter(run[|run| - 1]);
  }

  lemma {:induction false} TradesAfter(s: State)
    requires Inv(s) && s.down.tradesClosed
    ensures s.ring.e.pc.COff? || s.ring.e.pc.CExited?
  {
    hide Linked, Ticketed, RS.Inv, B.Inv, Accounts, Confirmed, IdsHeld, Unique, Ids, ArchiveLog, ArchiveAcks,
      ArchiveOpen, DownBatcher, Promises;
  }

  // --- The engine's book ---

  lemma {:induction false} OrdersOfConcat(a: seq<OrderEvent>, b: seq<OrderEvent>)
    ensures Book.OrdersOf(a + b) == Book.OrdersOf(a) + Book.OrdersOf(b)
  {
    if b == [] {
      assert a + b == a;
    } else {
      var n := |b| - 1;
      OrdersOfConcat(a, b[..n]);
      assert (a + b)[..|a + b| - 1] == a + b[..n];
    }
  }

  /** What the engine has processed: the recovered events, then its live ones. */
  function Processed(s: State): seq<OrderEvent> { s.base + s.ring.e.history }

  /** The book that the naive rule makes of these events. */
  function Replayed(es: seq<OrderEvent>): Ref.RefBook { Book.RefAfter(Book.OrdersOf(es)) }

  lemma {:induction false} ReplayedOneMore(es: seq<OrderEvent>, e: OrderEvent)
    ensures Replayed(es + [e]) == Ref.Process(Replayed(es), Book.OrderOf(e))
  {
    assert (es + [e])[..|es|] == es;
    Book.ReplayOne(Book.OrdersOf(es), Book.OrderOf(e));
  }

  /** The history grows where OnEvent is called, and nowhere else. */
  lemma {:induction false} HandledHistory(r: R.State, step: R.Step)
    requires R.Shape(r) && R.Enabled(r, step)
    ensures R.Apply(r, step).e.history
            == if step.RunConsumer? && r.e.pc.CHandle? then r.e.history + [r.e.pc.ev] else r.e.history
  {
    hide R.JournalNext, R.WaiterNext, R.CloseNext;
  }

  lemma {:induction false} BookStep(s: State, step: Step)
    requires Sized(s) && Enabled(s, step) && s.book == Replayed(Processed(s))
    ensures Apply(s, step).book == Replayed(Processed(Apply(s, step)))
  {
    hide R.Apply, B.Apply, Replayed, Ref.Process;
    var t := Apply(s, step);
    if step.RingStep? {
      HandledHistory(s.ring, step.r);
      if step.r.RunConsumer? && s.ring.e.pc.CHandle? {
        ReplayedOneMore(Processed(s), s.ring.e.pc.ev);
        assert Processed(t) == Processed(s) + [s.ring.e.pc.ev];
      }
    } else if step.Shutdown? {
      if s.down.pc.CloseRing? && !s.ring.gate.pc.KClosed? { HandledHistory(s.ring, R.Close); }
    } else if step.Crash? {
      assert Processed(t) == t.base;
      assert t.book == Replayed(t.base) by { RecoveredBook(s, step.at); }
    } else {
      HandlerJournal(s, step);
    }
  }

  lemma {:induction false} RecoveredBook(s: State, at: nat)
    requires at <= |File(s)|
    ensures CrashStep(s, at).book == Replayed(CrashStep(s, at).base)
  {
  }

  /** The book that recovery and OnEvent have built, step by step, is that of the processed events. */
  lemma {:induction false} BookKept(run: seq<State>)
    requires IsHistory(run)
    ensures run[|run| - 1].book == Replayed(Processed(run[|run| - 1]))
  {
    hide Inv, Enabled, Apply, Replayed;
    var n := |run| - 1;
    if n == 0 {
      assert Processed(run[0]) == [];
      NothingReplayed();
    } else {
      BookKept(run[..n]);
      var s, t := run[n - 1], run[n];
      assert Next(s, t);
      var step :| Enabled(s, step) && t == Apply(s, step);
      BookStep(s, step);
    }
  }

  lemma {:induction false} NothingReplayed()
    ensures Replayed([]) == Ref.EMPTY_BOOK
  {
  }

  /** At any point of any history: the engine has processed the first events of the file, those up
      to consumerCursor (one more while OnEvent has just returned); its book is their replay; and
      any OrderBook object that was given them holds that book, queue by queue. */
  lemma {:induction false} BookIsReplay(run: seq<State>, b: Book.OrderBook)
    requires run != [] && IsHistory(run) && b.Valid() && b.history == Book.OrdersOf(Processed(run[|run| - 1]))
    ensures var s := run[|run| - 1];
            var k := |s.base| + s.ring.e.cursor + (if s.ring.e.pc.CStore? then 1 else 0);
            && k <= |File(s)| && s.book == Replayed(File(s)[..k]) && Book.Shows(b, s.book)
  {
    hide Inv, RS.Inv, B.Inv, Unique, UniqueIds, AllValid, Replayed, Book.Shows, Book.OrdersOf, Book.RefAfter, IsHistory,
      HardOk, Confirmed, Promises;
    HistorySafe(run);
    OncePerOrder(run);
    BookKept(run);
    var s := run[|run| - 1];
    RingPieces(s);
    EngineCount(s.ring);
    Within(s.base, s.ring.e.history, s.ring.j.wal);
    ReplayedIs(Processed(s));
    Book.ValidShows(b);
  }

  lemma {:induction false} Within<T>(a: seq<T>, b: seq<T>, c: seq<T>)
    requires b <= c
    ensures |a| + |b| <= |a + c| && a + b == (a + c)[..|a| + |b|]
  {
  }

  lemma {:induction false} ReplayedIs(es: seq<OrderEvent>)
    ensures Replayed(es) == Book.RefAfter(Book.OrdersOf(es))
  {
  }

  lemma {:induction false} EngineCount(r: R.State)
    requires RS.Inv(r)
    ensures |r.e.history| == r.e.cursor + (if r.e.pc.CStore? then 1 else 0)
  {
  }

  /** What the engine is fed never derails it: every file holds validated orders only. */
  lemma {:induction false} NeverDerails(run: seq<State>)
    requires IsHistory(run)
    ensures Book.Sound([], File(run[|run| - 1]), |File(run[|run| - 1])|)
  {
    hide Inv, RS.Inv, B.Inv, Unique, UniqueIds, Book.Sound;
    OncePerOrder(run);
    Book.PositiveIsSound([], File(run[|run| - 1]), |File(run[|run| - 1])|);
  }

  /** The engine itself, as the server runs it: a new book, Recover, then OnEvent for each live event. */
  method LiveBook(ghost run: seq<State>, base: seq<OrderEvent>, history: seq<OrderEvent>) returns (b: Book.OrderBook)
    requires run != [] && IsHistory(run) && base == run[|run| - 1].base && history == run[|run| - 1].ring.e.history
    ensures fresh(b) && b.Valid() && b.history == Book.OrdersOf(base + history) && Book.Shows(b, run[|run| - 1].book)
  {
    hide Inv, RS.Inv, B.Inv, Unique, UniqueIds, AllValid, Book.Sound, Book.Shows, Book.Derails, Book.OrdersOf,
      IsHistory;
    ghost var file := File(run[|run| - 1]);
    OncePerOrder(run);
    NeverDerails(run);
    b := new Book.OrderBook(1, null);
    SoundParts(file, base, history);
    b.Recover(base);
    assert base + history[..0] == base;
    for n := 0 to |history|
      invariant fresh(b) && fresh(b.bids) && fresh(b.asks) && fresh(b.bids.prices) && fresh(b.asks.prices)
      invariant b.cloudPublisher == null && b.Valid() && b.history == Book.OrdersOf(base + history[..n])
    {
      SoundHere(file, base, history, n);
      b.OnEvent(history[n]);
      OrdersOfNext(base, history, n);
    }
    assert history[..|history|] == history;
    BookIsReplay(run, b);
  }

  lemma {:induction false} SoundParts(file: seq<OrderEvent>, base: seq<OrderEvent>, history: seq<OrderEvent>)
    requires Book.Sound([], file, |file|) && base + history <= file
    ensures Book.Sound([], base, |base| - 1) && Book.Sound([], base, |base|)
    ensures [] + Book.OrdersOf(base) == Book.OrdersOf(base)
  {
    assert forall i :: 0 <= i < |base| ==> base[i] == file[i] && base[..i] == file[..i];
  }

  lemma {:induction false} SoundHere(file: seq<OrderEvent>, base: seq<OrderEvent>, history: seq<OrderEvent>, n: nat)
    requires Book.Sound([], file, |file|) && base + history <= file && n < |history|
    ensures !Book.Derails(Book.OrdersOf(base + history[..n]), Book.OrderOf(history[n]))
  {
    hide Book.Derails, Book.OrdersOf, Book.OrderOf;
    var i := |base| + n;
    assert file[..i] == base + history[..n] && file[i] == history[n];
    assert [] + Book.OrdersOf(file[..i]) == Book.OrdersOf(file[..i]);
  }

  lemma {:induction false} OrdersOfNext(base: seq<OrderEvent>, history: seq<OrderEvent>, n: nat)
    requires n < |history|
    ensures Book.OrdersOf(base + history[..n + 1]) == Book.OrdersOf(base + history[..n]) + [Book.OrderOf(history[n])]
  {
    var all := base + history;
    assert all[..|base| + n] == base + history[..n] && all[..|base| + n + 1] == base + history[..n + 1];
    Book.OrdersOfOneMore(all, |base| + n);
  }

  /** After a clean shutdown the next process, whenever the old one ends, recovers the book that was
      live: the same naive book, and the same content in any two OrderBook objects given the events. */
  lemma {:induction false} RestartRebuildsBook(run: seq<State>, at: nat, b: Book.OrderBook, c: Book.OrderBook)
    requires run != [] && IsHistory(run) && CleanlyDown(run[|run| - 1])
    requires Durable(run[|run| - 1]) <= at <= |File(run[|run| - 1])|
    requires b.Valid() && b.history == Book.OrdersOf(Processed(run[|run| - 1]))
    requires c.Valid() && c.history == Book.OrdersOf(CrashStep(run[|run| - 1], at).base)
    ensures CrashStep(run[|run| - 1], at).book == run[|run| - 1].book && Book.SameBook(b, c)
  {
    hide Book.OrdersOf, B.Flatten, Replayed, IsHistory, UniqueIds;
    CleanShutdown(run);
    BookKept(run);
    var s := run[|run| - 1];
    assert File(s)[..at] == File(s) == Processed(s);
    RecoveredBook(s, at);
    Book.SameHistorySameBook(b, c);
  }

  /** With a sync for every batch a crash at any moment forgets nothing that the engine has processed
      in its life: the recovered book is the live one, carried on by orders that were still on their way. */
  lemma {:induction false} CrashForgetsNothing(run: seq<State>, at: nat)
    requires run != [] && IsHistory(run) && Durable(run[|run| - 1]) <= at <= |File(run[|run| - 1])|
    requires run[|run| - 1].ring.syncEvery && run[|run| - 1].ring.e.history != []
    ensures var s, t := run[|run| - 1], CrashStep(run[|run| - 1], at);
            && Processed(s) <= t.base
            && t.book == Ref.Replay(s.book, Book.OrdersOf(t.base[|Processed(s)|..]))
  {
    hide Inv, RS.Inv, B.Inv, Unique, UniqueIds, AllValid, IsHistory, Book.OrdersOf, Ref.Replay;
    HistorySafe(run);
    OncePerOrder(run);
    BookKept(run);
    var s, t := run[|run| - 1], CrashStep(run[|run| - 1], at);
    RingPieces(s);
    RingFacts(s.ring);
    HistoryReleased(s.ring);
    var more := t.base[|Processed(s)|..];
    assert t.base == Processed(s) + more;
    OrdersOfConcat(Processed(s), more);
    Book.RecoveryComposes(Book.OrdersOf(Processed(s)), Book.OrdersOf(more));
  }

  lemma {:induction false} HistoryReleased(r: R.State)
    requires RS.Inv(r) && r.e.history != []
    ensures 0 < |r.e.history| <= r.j.cursor
  {
  }
}
