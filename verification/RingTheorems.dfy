/** What the ring promises, for every interleaving. */
module RingTheorems {
  import opened Events
  import opened Ring
  import opened RingSafety

  // --- Refinement to an unbounded log ---

  /** The ring without slots, laps, locks or goroutines: one log and three marks on it. */
  datatype Log = Log(events: seq<OrderEvent>, closed: bool, written: nat, durable: nat, released: nat, processed: nat)

  ghost predicate Accepts(a: Log, b: Log) {
    !a.closed && |b.events| == |a.events| + 1 && a.events <= b.events && b == a.(events := b.events)
  }

  ghost predicate Closes(a: Log, b: Log) {
    b == a.(closed := true)
  }

  ghost predicate Writes(a: Log, b: Log) {
    a.written <= b.written <= |a.events| && b == a.(written := b.written)
  }

  ghost predicate Hardens(a: Log, b: Log) {
    b == a.(durable := a.written)
  }

  ghost predicate Releases(a: Log, b: Log, syncEvery: bool) {
    a.released <= b.released <= (if syncEvery then a.durable else a.written) && b == a.(released := b.released)
  }

  ghost predicate Processes(a: Log, b: Log) {
    a.processed < a.released && b == a.(processed := a.processed + 1)
  }

  ghost predicate LogNext(a: Log, b: Log, syncEvery: bool) {
    || b == a || Accepts(a, b) || Closes(a, b) || Writes(a, b) || Hardens(a, b)
    || Releases(a, b, syncEvery) || Processes(a, b)
  }

  /** The abstraction; it exists because the journal and the engine hold prefixes of the log. */
  ghost function Abs(s: State): Log {
    Log(s.gate.log, !s.gate.pc.KOpen?, |s.j.wal|, s.j.synced, s.j.cursor, |s.e.history|)
  }

  /** A concrete state agrees with an abstract one: the marks name the actual contents. */
  ghost predicate Represents(s: State, a: Log) {
    && a == Abs(s)
    && a.written <= |a.events| && s.j.wal == a.events[..a.written]
    && a.processed <= |a.events| && s.e.history == a.events[..a.processed]
  }

  lemma {:induction false} InvRepresents(s: State)
    requires Inv(s)
    ensures Represents(s, Abs(s))
  {
  }

  lemma {:induction false} ClaimRefines(s: State, p: nat)
    requires Inv(s) && p < |s.producers| && s.producers[p].PClaim?
    requires Claims(PublishStep(s, p).gate) < U63
    ensures LogNext(Abs(s), Abs(PublishStep(s, p)), s.syncEvery)
  {
    ClaimKeepsGate(s.gate, p, s.producers[p].ev);
  }

  /** Each action of the journaler moves at most one of its three marks. */
  lemma {:induction false} JournalMarks(j: Journal, g: Gate, slot: Slot, maxBatch: nat, syncEvery: bool, elapsed: bool,
        ok: bool, written: nat)
    ensures var j' := JournalNext(j, g, slot, maxBatch, syncEvery, elapsed, ok, written);
            || (j'.wal == j.wal && j'.cursor == j.cursor && (j'.synced == j.synced || j'.synced == |j.wal|))
            || (j.pc.JAppend? && |j.wal| <= |j'.wal| && j'.cursor == j.cursor && j'.synced == j.synced)
            || (j.pc.JStore? && j'.wal == j.wal && j'.synced == j.synced && j'.cursor == End(j))
  {
  }

  lemma {:induction false} JournalRefines(s: State, elapsed: bool, ok: bool, written: nat)
    requires Inv(s) && Enabled(s, RunJournaler(elapsed, ok, written))
    requires Inv(JournalStep(s, elapsed, ok, written))
    ensures LogNext(Abs(s), Abs(JournalStep(s, elapsed, ok, written)), s.syncEvery)
  {
    JournalMarks(s.j, s.gate, SlotOf(s.slots, End(s.j)), s.maxBatch, s.syncEvery, elapsed, ok, written);
  }

  lemma {:induction false} EngineRefines(s: State)
    requires Inv(s) && Enabled(s, RunConsumer)
    ensures LogNext(Abs(s), Abs(EngineStep(s)), s.syncEvery)
  {
    EngineAhead(s);
    hide Inv, EngineNext;
    EngineMarks(s.e, s.gate, SlotOf(s.slots, s.e.next), s.j.cursor, s.failedFlag);
    if s.e.pc.CHandle? {
      assert Processes(Abs(s), Abs(EngineStep(s)));
    } else {
      assert Abs(EngineStep(s)) == Abs(s);
    }
  }

  lemma {:induction false} EngineMarks(e: Engine, g: Gate, slot: Slot, journalCursor: nat, failedFlag: bool)
    ensures |EngineNext(e, g, slot, journalCursor, failedFlag).history|
            == |e.history| + (if e.pc.CHandle? then 1 else 0)
  {
  }

  /** Before it handles an event the consumer is behind journalCursor. */
  lemma {:induction false} EngineAhead(s: State)
    requires Inv(s)
    ensures Shape(s) && (s.e.pc.CHandle? ==> |s.e.history| < s.j.cursor)
  {
    hide InvProducers, InvSlots, InvTaken, InvMutex, InvWaiters, InvAccounted;
  }

  lemma {:induction false} CloseRefines(s: State)
    requires Inv(s)
    ensures LogNext(Abs(s), Abs(s.(gate := CloseNext(s.gate))), s.syncEvery)
  {
    CloseKeepsGate(s.gate);
    assert Closes(Abs(s), Abs(s.(gate := CloseNext(s.gate)))) || Abs(s.(gate := CloseNext(s.gate))) == Abs(s);
  }

  /** Steps that move neither the log nor a mark. */
  lemma {:induction false} InvisibleStep(s: State, step: Step)
    requires Inv(s) && Enabled(s, step)
    requires !step.RunJournaler? && !step.RunConsumer? && !step.Close?
             && (step.Publish? ==> !s.producers[step.p].PClaim?)
    ensures Abs(Apply(s, step)) == Abs(s)
  {
  }

  /** Every step of every goroutine is a step of the log, or invisible in it. */
  lemma {:induction false} StepRefines(s: State, step: Step)
    requires Inv(s) && Enabled(s, step) && Claims(Apply(s, step).gate) < U63
    ensures LogNext(Abs(s), Abs(Apply(s, step)), s.syncEvery)
  {
    if step.RunJournaler? {
      StepKeeps(s, step);
      JournalRefines(s, step.elapsed, step.ok, step.written);
    } else if step.RunConsumer? {
      EngineRefines(s);
    } else if step.Close? {
      CloseRefines(s);
    } else if step.Publish? && s.producers[step.p].PClaim? {
      ClaimRefines(s, step.p);
    } else {
      InvisibleStep(s, step);
    }
  }

  /** The marks never cross, whatever the log does. */
  ghost predicate InOrder(a: Log, syncEvery: bool) {
    && a.processed <= a.released <= a.written <= |a.events| && a.durable <= a.written
    && (syncEvery ==> a.released <= a.durable)
  }

  lemma {:induction false} LogStaysInOrder(a: Log, b: Log, syncEvery: bool)
    requires InOrder(a, syncEvery) && LogNext(a, b, syncEvery)
    ensures InOrder(b, syncEvery) && a.events <= b.events && (a.closed ==> b.closed && b.events == a.events)
  {
  }

  ghost predicate IsLogRun(run: seq<Log>, syncEvery: bool) {
    if |run| <= 1 then run == [Log([], false, 0, 0, 0, 0)]
    else
      var n := |run| - 1;
      IsLogRun(run[..n], syncEvery) && LogNext(run[n - 1], run[n], syncEvery)
  }

  ghost function AbsRun(run: seq<State>): (logs: seq<Log>)
    ensures |logs| == |run|
  {
    if run == [] then [] else AbsRun(run[..|run| - 1]) + [Abs(run[|run| - 1])]
  }

  lemma {:induction false} NextRefines(s: State, s': State)
    requires Inv(s) && Next(s, s') && Claims(s'.gate) < U63
    ensures LogNext(Abs(s), Abs(s'), s.syncEvery) && s'.syncEvery == s.syncEvery
  {
    hide Inv, LogNext, Abs, CloseNext;
    var step :| Enabled(s, step) && s' == Apply(s, step);
    StepRefines(s, step);
  }

  lemma {:induction false} FirstLog(run: seq<State>)
    requires |run| == 1 && Init(run[0])
    ensures AbsRun(run) == [Log([], false, 0, 0, 0, 0)]
  {
    assert AbsRun(run[..0]) == [];
  }

  /** Every run of the ring, seen through Abs, is a run of the unbounded log from the empty log. */
  lemma {:induction false} RunRefines(run: seq<State>)
    requires IsRun(run)
    ensures IsLogRun(AbsRun(run), run[0].syncEvery)
    ensures Represents(run[|run| - 1], AbsRun(run)[|run| - 1])
    ensures run[|run| - 1].syncEvery == run[0].syncEvery
  {
    hide Inv, Next, Init, LogNext, Represents;
    var n := |run| - 1;
    InitEstablishes(run[0]);
    PathSafe(run);
    InvRepresents(run[n]);
    if n == 0 {
      FirstLog(run);
    } else {
      RunRefines(run[..n]);
      PathSafe(run[..n]);
      NextRefines(run[n - 1], run[n]);
      assert AbsRun(run)[..n] == AbsRun(run[..n]);
    }
  }

  // --- Order, slots and cursors ---

  /** consumerCursor <= journalCursor <= stamped prefix <= claims; WAL and history are prefixes. */
  lemma {:induction false} OneOrder(s: State)
    requires Reachable(s)
    ensures s.e.history <= s.j.wal <= s.gate.log
    ensures s.e.cursor <= s.j.cursor <= |s.j.wal|
    ensures forall n :: 0 <= n < |s.j.wal| ==> n in s.stamped
    ensures forall n :: n in s.stamped ==> n < |s.gate.log|
    ensures |s.e.history| <= s.j.cursor
  {
    ReachableSafe(s);
  }

  /** A goroutine about to overwrite a slot: every older ticket of that slot was processed. */
  lemma {:induction false} NoOverwrite(s: State, p: nat, m: nat)
    requires Reachable(s) && p < |s.producers| && (s.producers[p].PWrite? || s.producers[p].PStamp?)
    requires m < s.producers[p].sn && m % |s.slots| == s.producers[p].sn % |s.slots|
    ensures m < s.e.cursor && m < s.j.cursor && m < |s.e.history| <= |s.gate.log|
    ensures s.e.history[m] == s.gate.log[m]
  {
    ReachableSafe(s);
    var sn := s.producers[p].sn;
    assert InvProducer(s.producers[p], p, s.gate, s.slots, s.stamped, s.e.cursor, s.failedFlag);
    if m >= s.e.cursor { SlotsDiffer(m, sn, |s.slots|); }
  }

  /** What is stamped and not yet processed can still be read from its slot, whole. */
  lemma {:induction false} StampedReadable(s: State, n: nat)
    requires Reachable(s) && n in s.stamped && s.e.cursor <= n
    ensures n < |s.gate.log| && SlotOf(s.slots, n) == Slot(s.gate.log[n], n + 1)
  {
    ReachableSafe(s);
  }

  /** The uint64 difference of the backpressure test is the true distance. */
  lemma {:induction false} BackpressureExact(s: State, p: nat)
    requires Reachable(s) && p < |s.producers| && Holding(s.producers[p])
    ensures s.e.cursor <= s.producers[p].sn
    ensures Sub64(s.producers[p].sn, s.e.cursor) == s.producers[p].sn - s.e.cursor
  {
    hide Inv, Reachable, Sub64;
    ReachableSafe(s);
    HeldWithin(s, p);
    NoWrap(s.producers[p].sn - s.e.cursor, s.e.cursor);
  }

  lemma {:induction false} HeldWithin(s: State, p: nat)
    requires Inv(s) && p < |s.producers| && Holding(s.producers[p])
    ensures s.e.cursor <= s.producers[p].sn < U63
  {
    var sn := s.producers[p].sn;
    assert InvProducer(s.producers[p], p, s.gate, s.slots, s.stamped, s.e.cursor, s.failedFlag);
    hide InvSlots, InvProducers, InvWaiters, InvMutex;
    HeldAboveConsumer(sn, s.j, s.e, s.gate.log, s.stamped);
  }

  // --- Durability ---

  /** nil from WaitDurable: the event is in the journal, and synced when every batch is. */
  lemma {:induction false} AckMeansDurable(s: State, w: nat)
    requires Reachable(s) && w < |s.waiters| && s.waiters[w].WDone?
    ensures s.waiters[w].ok <==> s.waiters[w].sn < s.j.cursor
    ensures s.waiters[w].ok ==>
              var n := s.waiters[w].sn;
              n < |s.j.wal| <= |s.gate.log| && s.j.wal[n] == s.gate.log[n] && (s.syncEvery ==> n < s.j.synced)
    ensures !s.waiters[w].ok ==> s.failErr
  {
    ReachableSafe(s);
    assert InvWaiter(s.waiters[w], s.j.cursor, s.j.pc, s.failErr);
  }

  /** The ring has failed, and the journal stands where j0 left it. */
  ghost predicate Stopped(s: State, j0: Journal) {
    && (Failing(s.j.pc) || s.failedFlag)
    && s.j.wal == j0.wal && s.j.cursor == j0.cursor && s.j.synced == j0.synced
  }

  lemma {:induction false} OutsideJournal(s: State, step: Step)
    requires Shape(s) && Enabled(s, step) && !step.RunJournaler? && !step.StartJournaler?
    ensures Apply(s, step).j == s.j && Apply(s, step).failedFlag == s.failedFlag && Apply(s, step).failErr == s.failErr
  {
  }

  lemma {:induction false} FailingNext(j: Journal, g: Gate, slot: Slot, maxBatch: nat, syncEvery: bool, elapsed: bool,
        ok: bool, written: nat)
    requires Failing(j.pc)
    ensures var j' := JournalNext(j, g, slot, maxBatch, syncEvery, elapsed, ok, written);
            j' == j.(pc := j'.pc) && (Failing(j'.pc) || j.pc.JFailUnlock?)
  {
  }

  lemma {:induction false} FailStopStep(s: State, step: Step, j0: Journal)
    requires Inv(s) && Enabled(s, step) && Stopped(s, j0)
    ensures Stopped(Apply(s, step), j0)
  {
    if step.RunJournaler? {
      FailingNext(s.j, s.gate, SlotOf(s.slots, End(s.j)), s.maxBatch, s.syncEvery, step.elapsed, step.ok, step.written);
    } else if !step.StartJournaler? {
      OutsideJournal(s, step);
    }
  }

  lemma {:induction false} FailStopNext(s: State, s': State, j0: Journal)
    requires Inv(s) && Next(s, s') && Stopped(s, j0)
    ensures Stopped(s', j0)
  {
    var step :| Enabled(s, step) && s' == Apply(s, step);
    FailStopStep(s, step, j0);
  }

  /** After a failed Append or Sync nothing more is written, synced or released, ever. */
  lemma {:induction false} FailStop(run: seq<State>)
    requires IsPath(run) && Inv(run[0]) && Stopped(run[0], run[0].j)
    ensures Stopped(run[|run| - 1], run[0].j)
  {
    var n := |run| - 1;
    if n > 0 {
      FailStop(run[..n]);
      PathSafe(run[..n]);
      FailStopNext(run[n - 1], run[n], run[0].j);
    }
  }

  /** Outside a batch, "not dirty" means nothing written is still unsynced. */
  lemma {:induction false} CleanMeansSynced(s: State)
    requires Reachable(s) && !s.j.dirty && !s.j.pc.JSync? && !Failing(s.j.pc) && !s.failErr
    ensures s.j.synced == |s.j.wal|
  {
    ReachableSafe(s);
  }

  /** Group commit: the journaler closes a batch only when it is full or the next stamp is missing. */
  lemma {:induction false} GroupCommit(j: Journal, slot: Slot, maxBatch: nat, elapsed: bool)
    requires j.pc.JGather? && |j.batch| <= maxBatch && End(j) + 1 < U64
    ensures Gather(j, slot, maxBatch, elapsed).pc.JAppend? ==> |j.batch| == maxBatch || slot.published != End(j) + 1
    ensures |j.batch| < maxBatch && slot.published == End(j) + 1 ==> Gather(j, slot, maxBatch, elapsed).pc.JGrab?
  {
    NoWrap(End(j), 1);
  }

  // --- Wakeups ---

  /** A goroutine parked in Wait that could return has a broadcast coming. */
  lemma {:induction false} NoLostWakeup(s: State, w: nat)
    requires Reachable(s) && w < |s.waiters| && s.waiters[w].WParked?
    requires s.j.cursor > s.waiters[w].sn || s.failErr
    ensures s.j.pc.JLock? || s.j.pc.JBroadcast? || s.j.pc.JFailFlag? || s.j.pc.JFailBroadcast?
  {
    ReachableSafe(s);
    assert InvWaiter(s.waiters[w], s.j.cursor, s.j.pc, s.failErr);
  }

  // --- Close ---

  lemma {:induction false} ClosedStep(s: State, s': State)
    requires Inv(s) && Next(s, s') && !s.gate.pc.KOpen? && Claims(s'.gate) < U63
    ensures s'.gate.log == s.gate.log && !s'.gate.pc.KOpen?
  {
    assert InvGate(s.gate) && Shape(s);
    hide Inv, Enabled, Apply;
    var step :| Enabled(s, step) && s' == Apply(s, step);
    ClosedApply(s, step);
  }

  lemma {:induction false} ClosedApply(s: State, step: Step)
    requires Shape(s) && InvGate(s.gate) && !s.gate.pc.KOpen? && Enabled(s, step) && Claims(Apply(s, step).gate) < U63
    ensures Apply(s, step).gate.log == s.gate.log && !Apply(s, step).gate.pc.KOpen?
  {
    hide WaitStep, JournalStep, EngineStep;
    if step.Publish? && s.producers[step.p].PClaim? {
      ClaimKeepsGate(s.gate, step.p, s.producers[step.p].ev);
    } else if step.Wait? || step.RunJournaler? || step.RunConsumer? {
      StageKeepsGate(s, step);
    }
  }

  lemma {:induction false} StageKeepsGate(s: State, step: Step)
    requires Shape(s) && Enabled(s, step) && (step.Wait? || step.RunJournaler? || step.RunConsumer?)
    ensures Apply(s, step).gate == s.gate
  {
    hide JournalNext, EngineNext, WaiterNext;
  }

  /** Once Close has added its bit the log is fixed: whoever claims later gets no ticket. */
  lemma {:induction false} CloseFixesLog(run: seq<State>)
    requires IsPath(run) && Inv(run[0]) && !run[0].gate.pc.KOpen?
    ensures run[|run| - 1].gate.log == run[0].gate.log && !run[|run| - 1].gate.pc.KOpen?
  {
    var n := |run| - 1;
    if n > 0 {
      CloseFixesLog(run[..n]);
      PathSafe(run[..n]);
      ClosedStep(run[n - 1], run[n]);
    }
  }

  /** A claim is accepted exactly when Close has not added its bit yet. */
  lemma {:induction false} ClaimOutcome(s: State, p: nat)
    requires Inv(s) && p < |s.producers| && s.producers[p].PClaim?
    requires Claims(PublishStep(s, p).gate) < U63
    ensures PublishStep(s, p).producers[p].PErr? <==> !s.gate.pc.KOpen?
    ensures s.gate.pc.KOpen? ==> PublishStep(s, p).producers[p] == PCheckSpace(s.producers[p].ev, |s.gate.log|)
  {
    ClaimKeepsGate(s.gate, p, s.producers[p].ev);
  }

  /** finalSeq is the number of tickets handed out before Close. */
  lemma {:induction false} FinalSeqExact(s: State)
    requires Reachable(s) && s.gate.closedFlag
    ensures s.gate.finalSeq == |s.gate.log|
  {
    ReachableSafe(s);
  }

  /** Without failure both stages leave exactly when everything accepted went through them. */
  lemma {:induction false} DrainedExit(s: State)
    requires Reachable(s) && !s.failErr
    ensures s.j.pc.JExited? ==> s.gate.closedFlag && s.j.wal == s.gate.log && s.j.synced == |s.gate.log| == s.j.cursor
    ensures s.e.pc.CExited? ==> s.gate.closedFlag && s.e.history == s.gate.log && s.j.cursor == |s.gate.log|
  {
    ReachableSafe(s);
  }
}
