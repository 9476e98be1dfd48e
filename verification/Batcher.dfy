/**
 The archive batcher as a state machine: any number of goroutines in Push and in Close,
 one worker. One step is one lock operation, one access to closed, one channel
 operation or one call of the sink. A tick may come at any moment; a tick with an empty
 batch does nothing and is no step.
 */
module Batcher {
  import opened Events

  datatype Pusher =
    | PushIdle
    | PushLock(ev: OrderEvent)                        // closeMu.RLock
    | PushCheck(ev: OrderEvent)                       // holding it: read closed
    | PushSend(ev: OrderEvent)                        // holding it: send, when there is room
    | PushUnlock(ev: OrderEvent, ok: bool, at: nat)   // holding it: RUnlock; at is the place in accepted
    | PushDone(ev: OrderEvent, ok: bool, at: nat)

  datatype Closer =
    | CloseIdle
    | CloseLock          // closeMu.Lock
    | CloseMark          // holding it: read closed, set it
    | CloseChannel       // holding it: close(orderCh)
    | CloseUnlock
    | CloseWait          // wait for done, or for ctx
    | CloseDone(drained: bool)

  datatype Worker = Select | Sink(final: bool) | Exited

  datatype State = State(
    batchSize: nat, capacity: nat,
    ch: seq<OrderEvent>, chClosed: bool, closed: bool,
    locked: bool,                                     // closeMu is held for writing
    pushers: seq<Pusher>, closers: seq<Closer>,
    worker: Worker, batch: seq<OrderEvent>,
    sunk: seq<seq<OrderEvent>>,                       // every batch handed to the sink
    accepted: seq<OrderEvent>,                        // every event sent on the channel
    returned: set<nat>)                               // the places in accepted whose Push returned nil

  datatype Step =
    | CallPush(p: nat, ev: OrderEvent) | Push(p: nat) | ReturnPush(p: nat)
    | CallClose(c: nat) | Close(c: nat, expired: bool) | ReturnClose(c: nat)
    | Receive | Tick | RunSink

  predicate Reads(p: Pusher) { p.PushCheck? || p.PushSend? || p.PushUnlock? }
  predicate Writes(c: Closer) { c.CloseMark? || c.CloseChannel? || c.CloseUnlock? }

  ghost predicate NoReader(ps: seq<Pusher>) {
    forall i :: 0 <= i < |ps| ==> !Reads(ps[i])
  }

  ghost predicate Enabled(s: State, step: Step) {
    match step
    case CallPush(p, _) => p < |s.pushers| && s.pushers[p].PushIdle?
    case Push(p) =>
      && p < |s.pushers| && !s.pushers[p].PushIdle? && !s.pushers[p].PushDone?
      && (s.pushers[p].PushLock? ==> !s.locked)
      && (s.pushers[p].PushSend? ==> |s.ch| < s.capacity)
    case ReturnPush(p) => p < |s.pushers| && s.pushers[p].PushDone?
    case CallClose(c) => c < |s.closers| && s.closers[c].CloseIdle?
    case Close(c, expired) =>
      && c < |s.closers| && !s.closers[c].CloseIdle? && !s.closers[c].CloseDone?
      && (s.closers[c].CloseLock? ==> !s.locked && NoReader(s.pushers))
      && (s.closers[c].CloseWait? ==> s.worker.Exited? || expired)
    case ReturnClose(c) => c < |s.closers| && s.closers[c].CloseDone?
    case Receive => s.worker.Select? && (s.ch != [] || s.chClosed)
    case Tick => s.worker.Select? && s.batch != []
    case RunSink => s.worker.Sink?
  }

  function PusherNext(p: Pusher, closed: bool, at: nat): Pusher {
    match p
    case PushLock(ev) => PushCheck(ev)
    case PushCheck(ev) => if closed then PushUnlock(ev, false, 0) else PushSend(ev)
    case PushSend(ev) => PushUnlock(ev, true, at)
    case PushUnlock(ev, ok, n) => PushDone(ev, ok, n)
    case _ => p
  }

  function PushStep(s: State, p: nat): State
    requires p < |s.pushers|
  {
    var pc := s.pushers[p];
    var s' := s.(pushers := s.pushers[p := PusherNext(pc, s.closed, |s.accepted|)]);
    if pc.PushSend? then s'.(ch := s.ch + [pc.ev], accepted := s.accepted + [pc.ev])
    else if pc.PushUnlock? && pc.ok then s'.(returned := s.returned + {pc.at})
    else s'
  }

  /** When done and ctx are both ready, select may take either. */
  function CloserNext(c: Closer, closed: bool, expired: bool): Closer {
    match c
    case CloseLock => CloseMark
    case CloseMark => if closed then CloseUnlock else CloseChannel
    case CloseChannel => CloseUnlock
    case CloseUnlock => CloseWait
    case CloseWait => CloseDone(!expired)
    case _ => c
  }

  function CloseStep(s: State, c: nat, expired: bool): State
    requires c < |s.closers|
  {
    var pc := s.closers[c];
    s.(closers := s.closers[c := CloserNext(pc, s.closed, expired)],
       locked := if pc.CloseLock? then true else if pc.CloseUnlock? then false else s.locked,
       closed := s.closed || pc.CloseMark?,
       chClosed := s.chClosed || pc.CloseChannel?)
  }

  /** Receive from the channel; a closed and empty one means the final flush. */
  function ReceiveStep(s: State): State {
    if s.ch == [] then s.(worker := if s.batch == [] then Exited else Sink(true))
    else
      var batch := s.batch + [s.ch[0]];
      s.(ch := s.ch[1..], batch := batch, worker := if |batch| >= s.batchSize then Sink(false) else Select)
  }

  function SinkStep(s: State): State
    requires s.worker.Sink?
  {
    s.(sunk := s.sunk + [s.batch], batch := [], worker := if s.worker.final then Exited else Select)
  }

  function Apply(s: State, step: Step): State
    requires Enabled(s, step)
  {
    match step
    case CallPush(p, ev) => s.(pushers := s.pushers[p := PushLock(ev)])
    case Push(p) => PushStep(s, p)
    case ReturnPush(p) => s.(pushers := s.pushers[p := PushIdle])
    case CallClose(c) => s.(closers := s.closers[c := CloseLock])
    case Close(c, expired) => CloseStep(s, c, expired)
    case ReturnClose(c) => s.(closers := s.closers[c := CloseIdle])
    case Receive => ReceiveStep(s)
    case Tick => s.(worker := Sink(false))
    case RunSink => SinkStep(s)
  }

  ghost predicate Next(s: State, s': State) {
    exists step :: Enabled(s, step) && s' == Apply(s, step)
  }

  ghost predicate Init(s: State) {
    && s.batchSize > 0 && s.capacity > 0
    && s.ch == [] && !s.chClosed && !s.closed && !s.locked
    && (forall i :: 0 <= i < |s.pushers| ==> s.pushers[i].PushIdle?)
    && (forall i :: 0 <= i < |s.closers| ==> s.closers[i].CloseIdle?)
    && s.worker.Select? && s.batch == [] && s.sunk == [] && s.accepted == [] && s.returned == {}
  }

  function Flatten(batches: seq<seq<OrderEvent>>): seq<OrderEvent> {
    if batches == [] then [] else Flatten(batches[..|batches| - 1]) + batches[|batches| - 1]
  }

  // --- What every step keeps ---

  /** Everything accepted is sunk, in the batch or in the channel, in that order. */
  ghost predicate InvFlow(batchSize: nat, ch: seq<OrderEvent>, chClosed: bool, worker: Worker, batch: seq<OrderEvent>,
        sunk: seq<seq<OrderEvent>>, accepted: seq<OrderEvent>) {
    && batchSize > 0
    && accepted == Flatten(sunk) + batch + ch
    && (forall i :: 0 <= i < |sunk| ==> 0 < |sunk[i]| <= batchSize)
    && |batch| <= batchSize && (worker.Select? ==> |batch| < batchSize)
    && (worker.Sink? ==> batch != []) && (worker.Exited? ==> batch == [])
    && (worker.Exited? || worker == Sink(true) ==> chClosed && ch == [])
  }

  /** A pusher that is past the check holds the lock, so nobody has closed the channel under it. */
  ghost predicate InvPushers(ps: seq<Pusher>, closed: bool, locked: bool, accepted: seq<OrderEvent>) {
    forall i :: 0 <= i < |ps| ==> InvPusher(ps[i], closed, locked, accepted)
  }

  ghost predicate InvPusher(p: Pusher, closed: bool, locked: bool, accepted: seq<OrderEvent>) {
    && (Reads(p) ==> !locked) && (p.PushSend? || (p.PushUnlock? && p.ok) ==> !closed)
    && ((p.PushUnlock? || p.PushDone?) && p.ok ==> p.at < |accepted| && accepted[p.at] == p.ev)
  }

  /** Close holds the lock alone, and closes the channel exactly once. */
  ghost predicate InvClosers(cs: seq<Closer>, closed: bool, chClosed: bool, locked: bool) {
    && (chClosed ==> closed) && (closed && !chClosed ==> locked)
    && (forall i :: 0 <= i < |cs| ==> InvCloser(cs[i], closed, chClosed, locked))
    && (forall i, k :: 0 <= i < k < |cs| ==> !(Writes(cs[i]) && Writes(cs[k])))
    && (locked ==> exists i :: 0 <= i < |cs| && Writes(cs[i]))
  }

  ghost predicate InvCloser(c: Closer, closed: bool, chClosed: bool, locked: bool) {
    && (Writes(c) ==> locked)
    && (c.CloseMark? ==> closed == chClosed)
    && (c.CloseChannel? ==> closed && !chClosed)
    && (c.CloseUnlock? || c.CloseWait? || c.CloseDone? ==> chClosed)
  }

  /** Every accepted event belongs to one Push, which has returned nil or is about to. */
  ghost predicate InvReturned(ps: seq<Pusher>, accepted: seq<OrderEvent>, returned: set<nat>) {
    && (forall n :: n in returned ==> n < |accepted|)
    && (forall n :: 0 <= n < |accepted| ==> n in returned || Leaves(ps, n))
  }

  ghost predicate Leaves(ps: seq<Pusher>, n: nat) {
    exists i :: 0 <= i < |ps| && ps[i].PushUnlock? && ps[i].ok && ps[i].at == n
  }

  ghost predicate Inv(s: State) {
    && s.capacity > 0
    && InvFlow(s.batchSize, s.ch, s.chClosed, s.worker, s.batch, s.sunk, s.accepted)
    && InvPushers(s.pushers, s.closed, s.locked, s.accepted)
    && InvClosers(s.closers, s.closed, s.chClosed, s.locked)
    && InvReturned(s.pushers, s.accepted, s.returned)
  }

  lemma {:induction false} InitEstablishes(s: State)
    requires Init(s)
    ensures Inv(s)
  {
  }

  lemma {:induction false} LeavesKept(ps: seq<Pusher>, p: nat, pc: Pusher, n: nat)
    requires p < |ps| && Leaves(ps, n)
    requires !(ps[p].PushUnlock? && ps[p].ok && ps[p].at == n) || pc == ps[p]
    ensures Leaves(ps[p := pc], n)
  {
    var i :| 0 <= i < |ps| && ps[i].PushUnlock? && ps[i].ok && ps[i].at == n;
    assert ps[p := pc][i] == ps[i];
  }

  lemma {:induction false} PushKeeps(s: State, p: nat)
    requires Inv(s) && Enabled(s, Push(p))
    ensures Inv(PushStep(s, p))
  {
    var s' := PushStep(s, p);
    var pc := s.pushers[p];
    hide InvFlow, InvClosers, Flatten;
    if pc.PushSend? {
      SendKeeps(s.batchSize, s.ch, s.chClosed, s.worker, s.batch, s.sunk, s.accepted, pc.ev, s.closed, s.closers,
        s.locked);
    }
    PushReturned(s.pushers, p, s.pushers[p], s'.pushers[p], s.accepted, s'.accepted, s.returned, s'.returned);
  }

  lemma {:induction false} SendKeeps(batchSize: nat, ch: seq<OrderEvent>, chClosed: bool, worker: Worker,
        batch: seq<OrderEvent>, sunk: seq<seq<OrderEvent>>, accepted: seq<OrderEvent>, ev: OrderEvent, closed: bool,
        closers: seq<Closer>, locked: bool)
    requires InvFlow(batchSize, ch, chClosed, worker, batch, sunk, accepted)
    requires InvClosers(closers, closed, chClosed, locked) && !closed
    ensures InvFlow(batchSize, ch + [ev], chClosed, worker, batch, sunk, accepted + [ev])
  {
    hide Flatten;
    assert accepted + [ev] == Flatten(sunk) + batch + (ch + [ev]);
  }

  lemma {:induction false} PushReturned(ps: seq<Pusher>, p: nat, pc: Pusher, pc': Pusher, accepted: seq<OrderEvent>,
        accepted': seq<OrderEvent>, returned: set<nat>, returned': set<nat>)
    requires p < |ps| && pc == ps[p] && InvReturned(ps, accepted, returned)
    requires accepted <= accepted' && |accepted'| <= |accepted| + 1
    requires |accepted'| > |accepted| ==> pc.PushSend? && pc' == PushUnlock(pc.ev, true, |accepted|)
    requires pc.PushUnlock? && pc.ok ==> returned' == returned + {pc.at} && pc.at < |accepted|
    requires !(pc.PushUnlock? && pc.ok) ==> returned' == returned
    ensures InvReturned(ps[p := pc'], accepted', returned')
  {
    var ps' := ps[p := pc'];
    forall n | 0 <= n < |accepted'| ensures n in returned' || Leaves(ps', n) {
      if n == |accepted| {
        assert ps'[p].at == n;
      } else if n !in returned' {
        LeavesKept(ps, p, pc', n);
      }
    }
  }

  lemma {:induction false} CloseKeeps(s: State, c: nat, expired: bool)
    requires Inv(s) && Enabled(s, Close(c, expired))
    ensures Inv(CloseStep(s, c, expired))
  {
    hide Flatten;
    var s' := CloseStep(s, c, expired);
    CloseKeepsClosers(s.closers, c, s.closed, s.chClosed, s.locked, expired, s'.closed, s'.chClosed, s'.locked);
    ClosedSeen(s.closers, c, s.closed, s.chClosed, s.locked);
  }

  lemma {:induction false} ClosedSeen(cs: seq<Closer>, c: nat, closed: bool, chClosed: bool, locked: bool)
    requires c < |cs| && InvClosers(cs, closed, chClosed, locked)
    ensures InvCloser(cs[c], closed, chClosed, locked)
  {
  }

  lemma {:induction false} CloseKeepsClosers(cs: seq<Closer>, c: nat, closed: bool, chClosed: bool, locked: bool,
        expired: bool, closed': bool, chClosed': bool, locked': bool)
    requires c < |cs| && InvClosers(cs, closed, chClosed, locked)
    requires cs[c].CloseLock? ==> !locked
    requires locked' == if cs[c].CloseLock? then true else if cs[c].CloseUnlock? then false else locked
    requires closed' == (closed || cs[c].CloseMark?) && chClosed' == (chClosed || cs[c].CloseChannel?)
    ensures InvClosers(cs[c := CloserNext(cs[c], closed, expired)], closed', chClosed', locked')
  {
    var pc' := CloserNext(cs[c], closed, expired);
    var cs' := cs[c := pc'];
    assert InvCloser(cs[c], closed, chClosed, locked);
    forall i | 0 <= i < |cs'| ensures InvCloser(cs'[i], closed', chClosed', locked') {
      assert InvCloser(cs[i], closed, chClosed, locked);
      if i != c { assert !(Writes(cs[i]) && Writes(cs[c])); }
    }
    if locked' {
      if Writes(pc') {
        assert Writes(cs'[c]);
      } else {
        var i :| 0 <= i < |cs| && Writes(cs[i]);
        assert Writes(cs'[i]);
      }
    }
  }

  lemma {:induction false} ReceiveKeeps(s: State)
    requires Inv(s) && Enabled(s, Receive)
    ensures Inv(ReceiveStep(s))
  {
    hide Flatten, InvPushers, InvClosers, InvReturned;
    if s.ch != [] {
      assert s.ch == [s.ch[0]] + s.ch[1..];
      assert Flatten(s.sunk) + (s.batch + [s.ch[0]]) + s.ch[1..] == Flatten(s.sunk) + s.batch + s.ch;
    }
  }

  lemma {:induction false} FlattenMore(batches: seq<seq<OrderEvent>>, batch: seq<OrderEvent>)
    ensures Flatten(batches + [batch]) == Flatten(batches) + batch
  {
    assert (batches + [batch])[..|batches|] == batches;
  }

  lemma {:induction false} SinkKeeps(s: State)
    requires Inv(s) && s.worker.Sink?
    ensures Inv(SinkStep(s))
  {
    hide Flatten, InvPushers, InvClosers, InvReturned;
    FlattenMore(s.sunk, s.batch);
    assert Flatten(s.sunk + [s.batch]) + [] == Flatten(s.sunk) + s.batch;
  }

  lemma {:induction false} CallKeeps(s: State, p: nat, pc: Pusher)
    requires Inv(s) && p < |s.pushers| && (s.pushers[p].PushIdle? || s.pushers[p].PushDone?)
             && (pc.PushIdle? || pc.PushLock?)
    ensures Inv(s.(pushers := s.pushers[p := pc]))
  {
    hide InvFlow, InvClosers;
    PushReturned(s.pushers, p, s.pushers[p], pc, s.accepted, s.accepted, s.returned, s.returned);
  }

  lemma {:induction false} CallCloseKeeps(s: State, c: nat, pc: Closer)
    requires Inv(s) && c < |s.closers| && (s.closers[c].CloseIdle? || s.closers[c].CloseDone?)
             && (pc.CloseIdle? || pc.CloseLock?)
    ensures Inv(s.(closers := s.closers[c := pc]))
  {
    hide InvFlow, InvPushers, InvReturned;
    var cs' := s.closers[c := pc];
    if s.locked {
      var i :| 0 <= i < |s.closers| && Writes(s.closers[i]);
      assert Writes(cs'[i]);
    }
  }

  lemma {:induction false} StepKeeps(s: State, step: Step)
    requires Inv(s) && Enabled(s, step)
    ensures Inv(Apply(s, step))
  {
    hide Inv;
    match step
    case CallPush(p, ev) => CallKeeps(s, p, PushLock(ev));
    case Push(p) => PushKeeps(s, p);
    case ReturnPush(p) => CallKeeps(s, p, PushIdle);
    case CallClose(c) => CallCloseKeeps(s, c, CloseLock);
    case Close(c, expired) => CloseKeeps(s, c, expired);
    case ReturnClose(c) => CallCloseKeeps(s, c, CloseIdle);
    case Receive => ReceiveKeeps(s);
    case Tick => TickKeeps(s);
    case RunSink => SinkKeeps(s);
  }

  lemma {:induction false} TickKeeps(s: State)
    requires Inv(s) && Enabled(s, Tick)
    ensures Inv(s.(worker := Sink(false)))
  {
    hide Flatten, InvPushers, InvClosers, InvReturned;
  }

  ghost predicate IsPath(run: seq<State>) {
    if |run| <= 1 then |run| == 1 && Init(run[0])
    else
      var n := |run| - 1;
      IsPath(run[..n]) && Next(run[n - 1], run[n])
  }

  lemma {:induction false} PathSafe(run: seq<State>)
    requires IsPath(run)
    ensures Inv(run[|run| - 1])
  {
    hide Inv, Init, Enabled, Apply;
    var n := |run| - 1;
    if n == 0 {
      InitEstablishes(run[0]);
    } else {
      PathSafe(run[..n]);
      var s := run[n - 1];
      var step :| Enabled(s, step) && run[n] == Apply(s, step);
      StepKeeps(s, step);
    }
  }

  // --- The theorems ---

  /** The sink sees the accepted events in channel order, in batches of a legal size. */
  lemma {:induction false} SinkInOrder(run: seq<State>)
    requires IsPath(run)
    ensures var s := run[|run| - 1];
            && Flatten(s.sunk) <= s.accepted
            && (forall i :: 0 <= i < |s.sunk| ==> 0 < |s.sunk[i]| <= s.batchSize)
            && (s.worker.Exited? ==> Flatten(s.sunk) == s.accepted)
  {
    hide Flatten, InvPushers, InvClosers, InvReturned;
    PathSafe(run);
  }

  /** An event received goes to the end of the batch, which is handed over exactly when that fills it. */
  lemma {:induction false} FlushWhenFull(s: State)
    requires Inv(s) && Enabled(s, Receive) && s.ch != []
    ensures var t := Apply(s, Receive);
            && t.batch == s.batch + [s.ch[0]] && t.ch == s.ch[1..]
            && (t.worker.Sink? <==> |s.batch| + 1 == s.batchSize)
  {
    hide Flatten, InvPushers, InvClosers, InvReturned;
  }

  /** When the worker has finished, the batches are exactly the events whose Push returned nil,
      in channel order. Pushes that are being refused at that moment make no difference. */
  lemma {:induction false} ArchivedExactly(run: seq<State>)
    requires IsPath(run) && |run| > 0 && run[|run| - 1].worker.Exited?
    ensures var s := run[|run| - 1];
            Flatten(s.sunk) == s.accepted && forall n :: n in s.returned <==> 0 <= n < |s.accepted|
  {
    hide Inv, InvFlow, IsPath, Flatten;
    PathSafe(run);
    SinkInOrder(run);
    NobodyLeaves(run[|run| - 1]);
  }

  lemma {:induction false} NobodyLeaves(s: State)
    requires Inv(s) && s.worker.Exited?
    ensures forall n :: n in s.returned <==> 0 <= n < |s.accepted|
  {
    hide Flatten;
    assert forall i :: 0 <= i < |s.pushers| ==> InvPusher(s.pushers[i], s.closed, s.locked, s.accepted);
    assert forall n :: 0 <= n < |s.accepted| ==> n in s.returned || Leaves(s.pushers, n);
  }

  /** Nobody sends on a closed channel, and nobody closes it twice. */
  lemma {:induction false} NoChannelPanic(run: seq<State>, i: nat)
    requires IsPath(run)
    ensures var s := run[|run| - 1];
            && (i < |s.pushers| && s.pushers[i].PushSend? ==> !s.chClosed)
            && (i < |s.closers| && s.closers[i].CloseChannel? ==> !s.chClosed)
  {
    hide InvFlow, InvReturned;
    PathSafe(run);
    var s := run[|run| - 1];
    assert i < |s.pushers| ==> InvPusher(s.pushers[i], s.closed, s.locked, s.accepted);
    assert i < |s.closers| ==> InvCloser(s.closers[i], s.closed, s.chClosed, s.locked);
  }

  // --- Close always finishes ---

  function PusherLeft(p: Pusher): nat {
    match p
    case PushLock(_) => 8
    case PushCheck(_) => 7
    case PushSend(_) => 6
    case PushUnlock(_, _, _) => 1
    case _ => 0
  }

  function CloserLeft(c: Closer): nat {
    match c
    case CloseLock => 5
    case CloseMark => 4
    case CloseChannel => 3
    case CloseUnlock => 2
    case CloseWait => 1
    case _ => 0
  }

  function Total<T>(xs: seq<T>, f: T -> nat): nat {
    if xs == [] then 0 else f(xs[0]) + Total(xs[1..], f)
  }

  lemma {:induction false} TotalAt<T>(xs: seq<T>, i: nat, x: T, f: T -> nat)
    requires i < |xs|
    ensures Total(xs[i := x], f) + f(xs[i]) == Total(xs, f) + f(x)
  {
    if i == 0 {
      assert xs[0 := x][1..] == xs[1..];
    } else {
      assert xs[i := x][1..] == xs[1..][i - 1 := x];
      TotalAt(xs[1..], i - 1, x, f);
    }
  }

  /** What is left to do for the goroutines inside the batcher. */
  function Left(s: State): nat {
    Total(s.pushers, PusherLeft) + Total(s.closers, CloserLeft)
    + 4 * |s.ch| + 2 * |s.batch| + (if s.worker.Select? then 1 else 0)
  }

  predicate Inside(step: Step) { !step.CallPush? && !step.ReturnPush? && !step.CallClose? && !step.ReturnClose? }

  /** Every step that is not the beginning or the end of a call lowers what is left. */
  lemma {:induction false} InsideLowers(s: State, step: Step)
    requires Inv(s) && Enabled(s, step) && Inside(step)
    ensures Left(Apply(s, step)) < Left(s)
  {
    hide Inv, Total, NoReader;
    match step
    case Push(p) => PushLowers(s, p);
    case Close(c, expired) => CloseLowers(s, c, expired);
    case Receive =>
    case Tick =>
    case RunSink => BatchNotEmpty(s);
  }

  lemma {:induction false} PushLowers(s: State, p: nat)
    requires Enabled(s, Push(p))
    ensures Left(PushStep(s, p)) < Left(s)
  {
    hide Total;
    TotalAt(s.pushers, p, PushStep(s, p).pushers[p], PusherLeft);
  }

  lemma {:induction false} CloseLowers(s: State, c: nat, expired: bool)
    requires Enabled(s, Close(c, expired))
    ensures Left(CloseStep(s, c, expired)) < Left(s)
  {
    hide Total, NoReader;
    TotalAt(s.closers, c, CloseStep(s, c, expired).closers[c], CloserLeft);
  }

  lemma {:induction false} BatchNotEmpty(s: State)
    requires Inv(s) && s.worker.Sink?
    ensures |s.batch| > 0
  {
  }

  predicate PushSettled(p: Pusher) { p.PushIdle? || p.PushDone? }
  predicate CloseSettled(c: Closer) { c.CloseIdle? || c.CloseDone? }

  ghost predicate AllSettled(s: State) {
    && (forall i :: 0 <= i < |s.pushers| ==> PushSettled(s.pushers[i]))
    && (forall i :: 0 <= i < |s.closers| ==> CloseSettled(s.closers[i]))
  }

  /** Until everybody is out and, once closed, the worker too, somebody can move: with the
      lemma above, a Close that waits for as long as it takes always finds a drained batcher. */
  lemma {:induction false} NeverStuck(s: State) returns (step: Step)
    requires Inv(s) && (!AllSettled(s) || (s.chClosed && !s.worker.Exited?))
    ensures Enabled(s, step) && Inside(step)
    ensures step.Close? ==> !step.expired
  {
    hide Flatten, InvReturned;
    if i :| 0 <= i < |s.pushers| && Reads(s.pushers[i]) {
      assert InvPusher(s.pushers[i], s.closed, s.locked, s.accepted);
      var full := s.pushers[i].PushSend? && |s.ch| >= s.capacity;
      step := if !full then Push(i) else if s.worker.Select? then Receive else RunSink;
    } else if c :| 0 <= c < |s.closers| && Writes(s.closers[c]) {
      step := Close(c, false);
    } else {
      step := UnlockedStep(s);
    }
  }

  lemma {:induction false} UnlockedStep(s: State) returns (step: Step)
    requires Inv(s) && (!AllSettled(s) || (s.chClosed && !s.worker.Exited?))
    requires NoReader(s.pushers) && forall c :: 0 <= c < |s.closers| ==> !Writes(s.closers[c])
    ensures Enabled(s, step) && Inside(step)
    ensures step.Close? ==> !step.expired
  {
    hide Flatten, InvReturned, InvPushers;
    assert !s.locked;
    if i :| 0 <= i < |s.pushers| && s.pushers[i].PushLock? {
      step := Push(i);
    } else if c :| 0 <= c < |s.closers| && s.closers[c].CloseLock? {
      step := Close(c, false);
    } else if c :| 0 <= c < |s.closers| && s.closers[c].CloseWait? {
      assert InvCloser(s.closers[c], s.closed, s.chClosed, s.locked);
      step := if s.worker.Exited? then Close(c, false) else if s.worker.Select? then Receive else RunSink;
    } else {
      assert forall i :: 0 <= i < |s.pushers| ==> !Reads(s.pushers[i]) ==> PushSettled(s.pushers[i]);
      step := if s.worker.Select? then Receive else RunSink;
    }
  }
}
