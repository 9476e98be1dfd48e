/** After a journal failure everyone leaves; what fail-stop does and does not guarantee. */
module RingFailure {
  import opened Events
  import opened Ring
  import opened RingSafety
  import opened RingLiveness
  import opened RingTheorems

  function ProducerLeft(pc: Producer): nat {
    match pc
    case PCheckFailed(_) => 8
    case PClaim(_) => 7
    case PCheckSpace(_, _) => 6
    case PRecheckFailed(_, _) => 5
    case PWrite(_, _) => 2
    case PStamp(_, _) => 1
    case PJournalFailure(_) => 1
    case _ => 0
  }

  function WaiterLeft(pc: Waiter): nat {
    match pc
    case WFast(_) => 7
    case WParked(_) => 6
    case WLock(_) => 5
    case WCheck(_) => 4
    case WInspect(_) => 3
    case WPark(_) => 2
    case WRelease(_, _) => 1
    case _ => 0
  }

  function JournalLeft(pc: JournalerPc): nat {
    if pc.JFailBroadcast? then 2 else if pc.JFailUnlock? then 1 else 0
  }

  function EngineLeft(e: Engine, journalCursor: nat): nat {
    (if e.pc.CExited? then 0 else 10 * Monus(journalCursor, e.next)) +
    match e.pc
    case CCheckClosed => 11
    case CCheckFinal => 10
    case CCheckCursor => 9
    case CCheckFailed => 8
    case CRead => 5
    case CHandle(_) => 4
    case CStore => 3
    case _ => 0
  }

  /** How many actions are left before the failed ring is empty of goroutines. */
  function Left(s: State): nat {
    Total(s.producers, ProducerLeft) + Total(s.waiters, WaiterLeft) + JournalLeft(s.j.pc) + EngineLeft(s.e, s.j.cursor)
  }

  /** An action of a goroutine that is already inside the ring. */
  predicate Inside(step: Step) { step.Publish? || step.Wait? || step.RunJournaler? || step.RunConsumer? }

  lemma {:induction false} PublishLeaves(s: State, p: nat)
    requires Inv(s) && s.failedFlag && Enabled(s, Publish(p))
    ensures Left(PublishStep(s, p)) < Left(s)
  {
    TotalAt(s.producers, p, PublishStep(s, p).producers[p], ProducerLeft);
    PublishTouches(s, p);
  }

  lemma {:induction false} PublishTouches(s: State, p: nat)
    requires Inv(s) && s.failedFlag && Enabled(s, Publish(p))
    ensures var s' := PublishStep(s, p);
            && s'.producers == s.producers[p := s'.producers[p]]
            && s'.waiters == s.waiters && s'.j == s.j && s'.e == s.e
            && ProducerLeft(s'.producers[p]) < ProducerLeft(s.producers[p])
  {
  }

  lemma {:induction false} WaitLeaves(s: State, w: nat)
    requires Inv(s) && s.failedFlag && Enabled(s, Wait(w))
    ensures Left(WaitStep(s, w)) < Left(s)
  {
    assert InvWaiter(s.waiters[w], s.j.cursor, s.j.pc, s.failErr);
    TotalAt(s.waiters, w, WaitStep(s, w).waiters[w], WaiterLeft);
  }

  lemma {:induction false} JournalPieces(s: State)
    requires Inv(s)
    ensures Shape(s) && InvJournal(s.j, s.gate.log, s.maxBatch, s.syncEvery)
    ensures InvStop(s.j, s.gate, s.failErr, s.failedFlag) && InvEngine(s.e, s.gate.log, s.j.cursor)
  {
  }

  lemma {:induction false} JournalLeaves(s: State, elapsed: bool, ok: bool, written: nat)
    requires Inv(s) && s.failedFlag && Enabled(s, RunJournaler(elapsed, ok, written))
    ensures Left(JournalStep(s, elapsed, ok, written)) < Left(s)
  {
    hide Inv, WakeAll, Total, WaiterLeft, SlotOf;
    JournalPieces(s);
    WakeLeaves(s.waiters);
  }

  lemma {:induction false} WakeLeaves(ws: seq<Waiter>)
    ensures Total(WakeAll(ws), WaiterLeft) <= Total(ws, WaiterLeft)
  {
    TotalMonotone(ws, WakeAll(ws), WaiterLeft);
  }

  lemma {:induction false} EngineNextLeaves(e: Engine, g: Gate, slot: Slot, journalCursor: nat)
    requires !e.pc.COff? && !e.pc.CExited? && (e.pc.CStore? ==> e.next < journalCursor)
    ensures EngineLeft(EngineNext(e, g, slot, journalCursor, true), journalCursor) < EngineLeft(e, journalCursor)
  {
  }

  lemma {:induction false} EngineLeaves(s: State)
    requires Inv(s) && s.failedFlag && Enabled(s, RunConsumer)
    ensures Left(EngineStep(s)) < Left(s)
  {
    EngineNextLeaves(s.e, s.gate, SlotOf(s.slots, s.e.next), s.j.cursor);
  }

  // --- Inside fail(), before failedFlag is stored ---

  function FailLeft(pc: JournalerPc): nat {
    if pc.JFailLock? then 3 else if pc.JFailErr? then 2 else if pc.JFailFlag? then 1 else 0
  }

  /** The journaler is nearer to storing failedFlag, or as near and the waiters nearer to leaving durMu alone. */
  ghost predicate Nearer(t: State, s: State) {
    || FailLeft(t.j.pc) < FailLeft(s.j.pc)
    || (FailLeft(t.j.pc) == FailLeft(s.j.pc) && WaitersRank(t.waiters) < WaitersRank(s.waiters))
  }

  ghost predicate AsNear(t: State, s: State) {
    FailLeft(t.j.pc) == FailLeft(s.j.pc) && t.waiters == s.waiters
  }

  lemma {:induction false} FailingWaitNearer(s: State, w: nat)
    requires Inv(s) && Enabled(s, Wait(w))
    ensures Nearer(WaitStep(s, w), s)
  {
    WaitMoves(s, w);
    assert WaitStep(s, w).j == s.j;
    TotalAt(s.waiters, w, WaitStep(s, w).waiters[w], WaiterRank);
  }

  lemma {:induction false} StopPieces(s: State)
    requires Inv(s)
    ensures Shape(s) && (Failing(s.j.pc) && !s.failedFlag ==> FailLeft(s.j.pc) > 0)
  {
  }

  lemma {:induction false} FailingJournal(s: State, elapsed: bool, ok: bool, written: nat)
    requires Inv(s) && Failing(s.j.pc) && !s.failedFlag && Enabled(s, RunJournaler(elapsed, ok, written))
    ensures var t := JournalStep(s, elapsed, ok, written);
            FailLeft(t.j.pc) < FailLeft(s.j.pc) && (Failing(t.j.pc) || t.failedFlag)
  {
    hide Inv, InvStop, WakeAll;
    StopPieces(s);
  }

  lemma {:induction false} PublishNearer(s: State, p: nat)
    requires Inv(s) && Enabled(s, Publish(p))
    ensures AsNear(PublishStep(s, p), s)
  {
  }

  /** Any action inside the failing ring brings failedFlag nearer or leaves it as near. */
  lemma {:induction false} FailingNeverFarther(s: State, step: Step)
    requires Inv(s) && Failing(s.j.pc) && !s.failedFlag && Enabled(s, step) && Inside(step)
    ensures Nearer(Apply(s, step), s) || AsNear(Apply(s, step), s)
  {
    hide Inv;
    match step
    case Publish(p) => PublishNearer(s, p);
    case Wait(w) => FailingWaitNearer(s, w);
    case RunJournaler(e, o, n) => FailingJournal(s, e, o, n);
    case RunConsumer =>
  }

  /** And one that brings it nearer is possible: the journaler's, or that of the goroutine holding durMu. */
  lemma {:induction false} FailingNotStuck(s: State) returns (step: Step)
    requires Inv(s) && Failing(s.j.pc) && !s.failedFlag
    ensures Enabled(s, step) && (step.Wait? || step.RunJournaler?) && Nearer(Apply(s, step), s)
  {
    if JLocks(s.j.pc) && s.mutex.HeldByWaiter? {
      step := Wait(s.mutex.w);
      assert HoldsMutex(s.waiters[s.mutex.w]);
      FailingWaitNearer(s, s.mutex.w);
    } else {
      step := RunJournaler(true, true, 0);
      FailingJournal(s, true, true, 0);
    }
  }

  lemma {:induction false} FailingStays(s: State, step: Step)
    requires Inv(s) && Failing(s.j.pc) && !s.failedFlag && Enabled(s, step) && (step.Wait? || step.RunJournaler?)
    ensures var t := Apply(s, step);
             Inv(t) && t.gate == s.gate && Claims(t.gate) < U63 && (Failing(t.j.pc) || t.failedFlag)
  {
    assert InvGate(s.gate) && Shape(s);
    SameGate(s, step);
    StepKeeps(s, step);
    if step.RunJournaler? { FailingJournal(s, step.elapsed, step.ok, step.written); }
  }

  lemma {:induction false} SameGate(s: State, step: Step)
    requires Shape(s) && Enabled(s, step) && (step.Wait? || step.RunJournaler?)
    ensures Apply(s, step).gate == s.gate && (step.Wait? ==> Apply(s, step).j == s.j)
  {
    hide JournalNext, WaiterNext;
  }

  /** So from any point inside fail() the ring can go on to the point where failedFlag is set. */
  lemma {:induction false} FailFinishes(s: State) returns (run: seq<State>)
    requires Inv(s) && (Failing(s.j.pc) || s.failedFlag)
    ensures |run| > 0 && IsPath(run) && run[0] == s && Inv(run[|run| - 1]) && run[|run| - 1].failedFlag
    decreases FailLeft(s.j.pc), WaitersRank(s.waiters)
  {
    hide Inv, Enabled, Apply, IsPath, Failing, WaitersRank;
    FewClaims(s);
    if s.failedFlag {
      SinglePath(s);
      run := [s];
    } else {
      var step := FailingNotStuck(s);
      FailingStays(s, step);
      run := FailFinishes(Apply(s, step));
      Onward(s, step, run);
      run := [s] + run;
    }
  }

  /** Once failed, no goroutine inside the ring can go on for ever, whatever the schedule. */
  lemma {:induction false} FailedRingEmpties(s: State, step: Step)
    requires Inv(s) && s.failedFlag && Enabled(s, step) && Inside(step)
    ensures Left(Apply(s, step)) < Left(s)
  {
    match step
    case Publish(p) => PublishLeaves(s, p);
    case Wait(w) => WaitLeaves(s, w);
    case RunJournaler(e, o, n) => JournalLeaves(s, e, o, n);
    case RunConsumer => EngineLeaves(s);
    case _ =>
  }

  lemma {:induction false} TotalPositive<T>(xs: seq<T>, f: T -> nat) returns (i: nat)
    requires Total(xs, f) > 0
    ensures i < |xs| && f(xs[i]) > 0
  {
    if f(xs[0]) > 0 {
      i := 0;
    } else {
      i := TotalPositive(xs[1..], f);
      i := i + 1;
    }
  }

  /** Nor can it get stuck: as long as somebody is inside, somebody can act. */
  lemma {:induction false} FailedRingNotStuck(s: State) returns (step: Step)
    requires Inv(s) && (s.failedFlag || Failing(s.j.pc)) && Left(s) > 0 && !s.e.pc.COff?
    ensures Enabled(s, step) && Inside(step) && (!s.failedFlag ==> Nearer(Apply(s, step), s))
  {
    if !s.failedFlag {
      step := FailingNotStuck(s);
    } else if !s.e.pc.CExited? {
      step := RunConsumer;
    } else if !s.j.pc.JExited? {
      step := RunJournaler(true, true, 0);
    } else if s.mutex.HeldByWaiter? {
      step := Wait(s.mutex.w);
      assert HoldsMutex(s.waiters[s.mutex.w]);
    } else if Total(s.producers, ProducerLeft) > 0 {
      var p := TotalPositive(s.producers, ProducerLeft);
      step := Publish(p);
    } else {
      var w := TotalPositive(s.waiters, WaiterLeft);
      assert InvWaiter(s.waiters[w], s.j.cursor, s.j.pc, s.failErr);
      step := Wait(w);
    }
  }

  // --- What the consumer leaves behind ---

  lemma {:induction false} PathExtend(run: seq<State>, t: State)
    requires IsPath(run) && Next(run[|run| - 1], t) && Claims(t.gate) < U63
    ensures IsPath(run + [t])
  {
    hide Next, Claims;
    assert (run + [t])[..|run|] == run;
  }

  lemma {:induction false} Go(s: State, step: Step, t: State)
    requires Reachable(s) && Shape(s) && Enabled(s, step) && t == Apply(s, step) && Claims(t.gate) < U63
    ensures Reachable(t)
  {
    hide Apply, Enabled, Init;
    assert Next(s, t);
    var run :| IsRun(run) && run[|run| - 1] == s;
    PathExtend(run, t);
    var run' := run + [t];
    assert IsRun(run') && run'[|run'| - 1] == t;
  }

  const ORDER: OrderEvent := OrderEvent(1, 0, 1, 1, 0, 0)

  /** A ring of one slot, one producer, nobody waiting, fsync by interval. */
  ghost function Scene(gate: Gate, slot: Slot, stamped: set<nat>, producer: Producer, j: Journal, cpc: ConsumerPc,
        mutex: Mutex, failErr: bool, failedFlag: bool): State {
    State(1, false, gate, [slot], stamped, [producer], j, Engine(cpc, 0, 0, []), [], mutex, failErr, failedFlag)
  }

  ghost function PublishScene(n: nat, slot: Slot, stamped: set<nat>, producer: Producer, cpc: ConsumerPc): State {
    Scene(if n == 0 then Gate(0, 0, false, KOpen, [], [], 0) else Gate(1, 0, false, KOpen, [ORDER], [0], 0),
          slot, stamped, producer, Journal(JOff, 0, [], false, 0, [], 0), cpc, Free, false, false)
  }

  ghost function JournalScene(j: Journal, cpc: ConsumerPc, mutex: Mutex, failErr: bool, failedFlag: bool): State {
    Scene(Gate(1, 0, false, KOpen, [ORDER], [0], 0), Slot(ORDER, 1), {0}, POk(ORDER, 0), j, cpc, mutex, failErr,
      failedFlag)
  }

  lemma {:induction false} EmptyRing() returns (s: State)
    ensures s == PublishScene(0, Slot(ORDER, 0), {}, PIdle, COff) && Reachable(s)
  {
    s := PublishScene(0, Slot(ORDER, 0), {}, PIdle, COff);
    assert Init(s);
    assert IsRun([s]) && [s][|[s]| - 1] == s;
  }

  /** The consumer loads journalCursor and finds nothing. */
  lemma {:induction false} ConsumerLooks() returns (s: State)
    ensures s == PublishScene(0, Slot(ORDER, 0), {}, PIdle, CCheckFailed) && Reachable(s)
  {
    hide Reachable;
    var s0 := EmptyRing();
    var s1 := PublishScene(0, Slot(ORDER, 0), {}, PIdle, CCheckCursor);
    Go(s0, StartConsumer, s1);
    s := PublishScene(0, Slot(ORDER, 0), {}, PIdle, CCheckFailed);
    Go(s1, RunConsumer, s);
  }

  lemma {:induction false} OrderOffered() returns (s: State)
    ensures s == PublishScene(0, Slot(ORDER, 0), {}, PClaim(ORDER), CCheckFailed) && Reachable(s)
  {
    hide Reachable;
    var s0 := ConsumerLooks();
    var s1 := PublishScene(0, Slot(ORDER, 0), {}, PCheckFailed(ORDER), CCheckFailed);
    Go(s0, Call(0, ORDER), s1);
    s := PublishScene(0, Slot(ORDER, 0), {}, PClaim(ORDER), CCheckFailed);
    Go(s1, Publish(0), s);
  }

  lemma {:induction false} OrderClaimed() returns (s: State)
    ensures s == PublishScene(1, Slot(ORDER, 0), {}, PCheckSpace(ORDER, 0), CCheckFailed) && Reachable(s)
  {
    hide Reachable;
    var s0 := OrderOffered();
    s := PublishScene(1, Slot(ORDER, 0), {}, PCheckSpace(ORDER, 0), CCheckFailed);
    Go(s0, Publish(0), s);
  }

  lemma {:induction false} OrderPublished() returns (s: State)
    ensures s == JournalScene(Journal(JOff, 0, [], false, 0, [], 0), CCheckFailed, Free, false, false) && Reachable(s)
  {
    hide Reachable;
    var s0 := OrderClaimed();
    var s1 := PublishScene(1, Slot(ORDER, 0), {}, PWrite(ORDER, 0), CCheckFailed);
    Go(s0, Publish(0), s1);
    var s2 := PublishScene(1, Slot(ORDER, 0), {}, PStamp(ORDER, 0), CCheckFailed);
    Go(s1, Publish(0), s2);
    s := JournalScene(Journal(JOff, 0, [], false, 0, [], 0), CCheckFailed, Free, false, false);
    Go(s2, Publish(0), s);
  }

  lemma {:induction false} JournalGo(j: Journal, mutex: Mutex, failErr: bool, elapsed: bool, ok: bool, j': Journal,
        mutex': Mutex)
    requires Reachable(JournalScene(j, CCheckFailed, mutex, failErr, false))
    requires !j.pc.JOff? && !j.pc.JExited? && !j.pc.JFailFlag? && (JLocks(j.pc) ==> mutex.Free?)
    requires j' == JournalNext(j, Gate(1, 0, false, KOpen, [ORDER], [0], 0), Slot(ORDER, 1), 1, false, elapsed, ok, 0)
    requires mutex' == (if JLocks(j.pc) then HeldByJournaler else if JUnlocks(j.pc) then Free else mutex)
    ensures Reachable(JournalScene(j', CCheckFailed, mutex', failErr || j.pc.JFailErr?, false))
  {
    hide Reachable;
    var s := JournalScene(j, CCheckFailed, mutex, failErr, false);
    var t := JournalScene(j', CCheckFailed, mutex', failErr || j.pc.JFailErr?, false);
    assert SlotOf(s.slots, End(j)) == Slot(ORDER, 1);
    assert WakeAll([]) == [];
    Go(s, RunJournaler(elapsed, ok, 0), t);
  }

  lemma {:induction false} OrderGathered()
    ensures Reachable(JournalScene(Journal(JAppend, 0, [ORDER], false, 0, [], 0), CCheckFailed, Free, false, false))
  {
    hide Reachable;
    var s0 := OrderPublished();
    var j0 := Journal(JGather, 0, [], false, 0, [], 0);
    Go(s0, StartJournaler, JournalScene(j0, CCheckFailed, Free, false, false));
    JournalGo(j0, Free, false, false, true, j0.(pc := JGrab), Free);
    var j1 := Journal(JGather, 0, [ORDER], false, 0, [], 0);
    JournalGo(j0.(pc := JGrab), Free, false, false, true, j1, Free);
    JournalGo(j1, Free, false, false, true, j1.(pc := JAppend), Free);
  }

  /** The journaler has written the order and moved journalCursor past it. */
  lemma {:induction false} OrderReleased()
    ensures Reachable(JournalScene(Journal(JLock, 1, [], true, 1, [ORDER], 0), CCheckFailed, Free, false, false))
  {
    hide Reachable;
    OrderGathered();
    var j2 := Journal(JStore, 0, [ORDER], true, 0, [ORDER], 0);
    JournalGo(Journal(JAppend, 0, [ORDER], false, 0, [], 0), Free, false, false, true, j2, Free);
    JournalGo(j2, Free, false, false, true, Journal(JLock, 1, [], true, 1, [ORDER], 0), Free);
  }

  lemma {:induction false} OrderBroadcast()
    ensures Reachable(JournalScene(Journal(JUnlock, 1, [], true, 1, [ORDER], 0), CCheckFailed, HeldByJournaler, false,
             false))
  {
    hide Reachable;
    OrderReleased();
    var j := Journal(JLock, 1, [], true, 1, [ORDER], 0);
    JournalGo(j, Free, false, false, true, j.(pc := JBroadcast), HeldByJournaler);
    JournalGo(j.(pc := JBroadcast), HeldByJournaler, false, false, true, j.(pc := JUnlock), HeldByJournaler);
  }

  lemma {:induction false} NothingMoreToGather(j: Journal)
    requires j == Journal(JGather, 1, [], true, 1, [ORDER], 0)
    ensures Gather(j, Slot(ORDER, 1), 1, true) == j.(pc := JIdleSync)
  {
    assert End(j) == 1;
    NoWrap(1, 1);
  }

  lemma {:induction false} IdleSyncDue()
    ensures Reachable(JournalScene(Journal(JIdleSync, 1, [], true, 1, [ORDER], 0), CCheckFailed, Free, false, false))
  {
    hide Reachable;
    OrderBroadcast();
    var j := Journal(JGather, 1, [], true, 1, [ORDER], 0);
    JournalGo(j.(pc := JUnlock), HeldByJournaler, false, false, true, j, Free);
    NothingMoreToGather(j);
    JournalGo(j, Free, false, true, true, j.(pc := JIdleSync), Free);
  }

  /** The fsync of the idle journaler fails. */
  lemma {:induction false} SyncFailed()
    ensures Reachable(JournalScene(Journal(JFailErr, 1, [], true, 1, [ORDER], 0), CCheckFailed, HeldByJournaler, false,
             false))
  {
    hide Reachable;
    IdleSyncDue();
    var j := Journal(JIdleSync, 1, [], true, 1, [ORDER], 0);
    JournalGo(j, Free, false, true, false, j.(pc := JFailLock), Free);
    JournalGo(j.(pc := JFailLock), Free, false, true, true, j.(pc := JFailErr), HeldByJournaler);
  }

  /** The comment on StartConsumer promises that after a journal failure everything on disk
      has been processed. It does not hold: a batch released between the consumer's load of
      journalCursor and its load of failedFlag is left behind. */
  lemma {:induction false} FailStopCanStrand() returns (s: State)
    ensures Reachable(s) && s.failedFlag && s.e.pc.CExited?
    ensures |s.e.history| < s.j.cursor
  {
    hide Reachable;
    SyncFailed();
    s := ConsumerGivesUp(Journal(JFailErr, 1, [], true, 1, [ORDER], 0));
  }

  /** Nor when journalCursor never moved: in interval mode an Append that succeeded may be followed
      by a Sync that fails, and the engine never hears of what was appended. */
  lemma {:induction false} FailedSyncCanStrand() returns (s: State)
    ensures Reachable(s) && s.failedFlag && s.e.pc.CExited?
    ensures s.j.cursor == |s.e.history| < |s.j.wal|
  {
    hide Reachable;
    OrderGathered();
    var j := Journal(JSync, 0, [ORDER], true, 0, [ORDER], 0);
    JournalGo(Journal(JAppend, 0, [ORDER], false, 0, [], 0), Free, false, true, true, j, Free);
    JournalGo(j, Free, false, true, false, j.(pc := JFailLock), Free);
    JournalGo(j.(pc := JFailLock), Free, false, true, true, j.(pc := JFailErr), HeldByJournaler);
    s := ConsumerGivesUp(j.(pc := JFailErr));
  }

  /** The journaler, inside fail(), sets failedFlag; the consumer loads it and returns. */
  lemma {:induction false} ConsumerGivesUp(j: Journal) returns (s: State)
    requires j.pc.JFailErr? && Reachable(JournalScene(j, CCheckFailed, HeldByJournaler, false, false))
    ensures Reachable(s) && s.failedFlag && s.e == Engine(CExited, 0, 0, []) && s.j == j.(pc := JFailBroadcast)
  {
    hide Reachable;
    var j1, j2 := j.(pc := JFailFlag), j.(pc := JFailBroadcast);
    JournalGo(j, HeldByJournaler, false, true, true, j1, HeldByJournaler);
    var s1 := JournalScene(j1, CCheckFailed, HeldByJournaler, true, false);
    var s2 := JournalScene(j2, CCheckFailed, HeldByJournaler, true, true);
    Go(s1, RunJournaler(true, true, 0), s2);
    s := s2.(e := Engine(CExited, 0, 0, []));
    Go(s2, RunConsumer, s);
  }

  // --- Exactly when nothing is left behind ---

  lemma {:induction false} RunAt(run: seq<State>, i: nat)
    requires IsRun(run) && i < |run|
    ensures IsRun(run[..i + 1]) && Inv(run[i])
    ensures i > 0 ==> Next(run[i - 1], run[i])
    decreases |run|
  {
    hide Next, Inv, Init, Claims;
    if i == |run| - 1 {
      assert run[..i + 1] == run;
      InitEstablishes(run[0]);
      PathSafe(run);
    } else {
      var n := |run| - 1;
      RunAt(run[..n], i);
      assert run[..n][..i + 1] == run[..i + 1];
    }
  }

  /** What one step of anybody can do to the consumer. */
  lemma {:induction false} EngineFrame(s: State, s': State)
    requires Next(s, s')
    ensures Shape(s)
    ensures s'.e == s.e || s'.e == EngineStep(s).e || (s.e.pc.COff? && s'.e.pc.CCheckCursor?)
    ensures s.e.pc.CExited? ==> s'.e == s.e
    ensures s'.e != s.e && s.e.pc.CCheckFailed? ==> s'.e == EngineStep(s).e
  {
    hide JournalNext, WaiterNext, CloseNext;
    var step :| Enabled(s, step) && s' == Apply(s, step);
  }

  /** Where the consumer last loaded journalCursor before it stands at the load of failedFlag. */
  lemma {:induction false} LastLoad(run: seq<State>, m: nat) returns (k: nat)
    requires IsRun(run) && m < |run| && run[m].e.pc.CCheckFailed?
    ensures k < m && run[k].e.pc.CCheckCursor? && run[k].e.next == run[k].j.cursor
    ensures forall i :: k < i <= m ==> run[i].e == run[k].e.(pc := CCheckFailed)
  {
    hide Next, Inv, EngineStep;
    RunAt(run, m);
    assert m > 0 by { NotAtStart(run); }
    EngineFrame(run[m - 1], run[m]);
    if run[m - 1].e == run[m].e {
      k := LastLoad(run, m - 1);
    } else {
      k := m - 1;
      RunAt(run, k);
      LoadedNothing(run[k], run[m]);
    }
  }

  lemma {:induction false} NotAtStart(run: seq<State>)
    requires IsRun(run)
    ensures run[0].e.pc.COff?
  {
  }

  lemma {:induction false} LoadedNothing(s: State, s': State)
    requires Inv(s) && s'.e.pc.CCheckFailed? && s'.e != s.e
    requires s'.e == EngineStep(s).e || (s.e.pc.COff? && s'.e.pc.CCheckCursor?)
    ensures s.e.pc.CCheckCursor? && s'.e == s.e.(pc := CCheckFailed) && s.e.next == s.j.cursor
  {
    hide InvProducers, InvSlots, InvTaken, InvMutex, InvWaiters, InvAccounted;
  }

  /** Once the consumer has left through failedFlag, nothing it or the journal did changes. */
  lemma {:induction false} StaysGone(run: seq<State>, m: nat, n: nat)
    requires IsRun(run) && m < n < |run| && run[m].e.pc.CCheckFailed? && run[m + 1].e.pc.CExited?
    ensures run[m].failedFlag && Stopped(run[n], run[m].j) && run[n].e == run[m].e.(pc := CExited)
  {
    hide Next, Inv, Stopped, EngineStep, IsPath;
    RunAt(run, n - 1);
    RunAt(run, n);
    EngineFrame(run[n - 1], run[n]);
    if n == m + 1 {
      LeftForFailure(run[m], run[n]);
    } else {
      StaysGone(run, m, n - 1);
    }
    FailStopNext(run[n - 1], run[n], run[m].j);
  }

  lemma {:induction false} LeftForFailure(s: State, s': State)
    requires Shape(s) && s.e.pc.CCheckFailed? && s'.e == EngineStep(s).e && s'.e.pc.CExited?
    ensures s.failedFlag && Stopped(s, s.j) && s'.e == s.e.(pc := CExited)
  {
  }

  /** For every run in which the consumer left because it found failedFlag set, at step m: it had
      processed the journal up to the journalCursor of its last load, at step k. That is all of the
      journal if and only if the cursor did not move between the two loads, and the call that
      failed left nothing in the journal beyond the cursor. */
  lemma {:induction false} StrandedIff(run: seq<State>, m: nat) returns (k: nat)
    requires IsRun(run) && m + 1 < |run| && run[m].e.pc.CCheckFailed? && run[m + 1].e.pc.CExited?
    ensures k < m && run[k].e.pc.CCheckCursor?
    ensures forall i :: k < i <= m ==> run[i].e == run[k].e.(pc := CCheckFailed)
    ensures var t := run[|run| - 1];
            && t.failedFlag && t.e.pc.CExited? && t.j.cursor == run[m].j.cursor
            && run[k].j.cursor <= |t.j.wal| && t.e.history == t.j.wal[..run[k].j.cursor]
            && (t.e.history == t.j.wal <==> run[k].j.cursor == run[m].j.cursor && |t.j.wal| == t.j.cursor)
  {
    hide Next, Inv, IsPath, EngineStep;
    k := LastLoad(run, m);
    var n := |run| - 1;
    StaysGone(run, m, n);
    RunAt(run, n);
    HistoryIsPrefix(run[n]);
    FailedForGood(run, m, n);
  }

  lemma {:induction false} HistoryIsPrefix(s: State)
    requires Inv(s) && s.e.pc.CExited?
    ensures s.e.history <= s.j.wal && |s.e.history| == s.e.next <= s.j.cursor <= |s.j.wal|
  {
    hide InvProducers, InvSlots, InvTaken, InvMutex, InvWaiters, InvAccounted;
  }

  lemma {:induction false} FailedForGood(run: seq<State>, m: nat, n: nat)
    requires IsRun(run) && m < n < |run| && run[m].failedFlag
    ensures run[n].failedFlag
  {
    hide Inv, IsPath;
    RunAt(run, n);
    if m < n - 1 { FailedForGood(run, m, n - 1); }
    FlagStays(run[n - 1], run[n]);
  }

  lemma {:induction false} FlagStays(s: State, s': State)
    requires Next(s, s') && s.failedFlag
    ensures s'.failedFlag
  {
    hide JournalNext, WaiterNext, CloseNext, EngineNext;
    var step :| Enabled(s, step) && s' == Apply(s, step);
  }
}
