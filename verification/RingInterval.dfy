/**
 The journaler with a SyncInterval: when the interval has elapsed, what was appended is
 synced before the cursor moves on, and an idle journaler syncs before it does anything else.
 So at most what was appended within one interval can be missing after a power cut.
 */
module RingInterval {
  import opened Events
  import opened Ring
  import opened RingSafety
  import opened RingTheorems
  import opened RingFailure

  predicate Syncing(pc: JournalerPc) { pc.JSync? || pc.JIdleSync? }

  /** What a successful Sync leaves: everything written is synced, and the journaler goes on. */
  function Hardened(j: Journal): Journal {
    j.(synced := |j.wal|, dirty := false, pc := if j.pc.JSync? then JStore else JCheckClosed)
  }

  /** A journaler that is about to call Sync does nothing else. */
  lemma {:induction false} SyncComesNext(s: State, s': State)
    requires Next(s, s') && Syncing(s.j.pc)
    ensures s'.j == s.j || s'.j == Hardened(s.j) || s'.j == s.j.(pc := JFailLock)
  {
    hide Apply, Enabled;
    var step :| Enabled(s, step) && s' == Apply(s, step);
    JournalIs(s, step);
  }

  /** Only the journaler moves its own state, once it has started. */
  lemma {:induction false} JournalIs(s: State, step: Step)
    requires Shape(s) && Enabled(s, step) && !s.j.pc.JOff?
    ensures Apply(s, step).j == if !step.RunJournaler? then s.j else
              JournalNext(s.j, s.gate, SlotOf(s.slots, End(s.j)), s.maxBatch, s.syncEvery, step.elapsed, step.ok,
                step.written)
  {
    hide JournalNext, EngineNext, WaiterNext, CloseNext, SlotOf;
  }

  /** And one that is about to store the cursor. */
  lemma {:induction false} StoreComesNext(s: State, s': State)
    requires Next(s, s') && s.j.pc.JStore?
    ensures s'.j == s.j || s'.j == s.j.(cursor := End(s.j), next := End(s.j), batch := [], pc := JLock)
  {
    hide Apply, Enabled;
    var step :| Enabled(s, step) && s' == Apply(s, step);
    JournalIs(s, step);
  }

  /** After a failed call nothing changes but where fail() stands. */
  lemma {:induction false} FailingStays(s: State, s': State)
    requires Next(s, s') && (Failing(s.j.pc) || s.failErr) && Inv(s)
    ensures (Failing(s'.j.pc) || s'.failErr) && s'.j == s.j.(pc := s'.j.pc)
  {
    StopFacts(s);
    hide Inv, Apply, Enabled;
    var step :| Enabled(s, step) && s' == Apply(s, step);
    FailingApply(s, step);
  }

  lemma {:induction false} StopFacts(s: State)
    requires Inv(s)
    ensures Shape(s) && InvStop(s.j, s.gate, s.failErr, s.failedFlag)
  {
  }

  lemma {:induction false} FailingApply(s: State, step: Step)
    requires Shape(s) && InvStop(s.j, s.gate, s.failErr, s.failedFlag) && Enabled(s, step)
    requires Failing(s.j.pc) || s.failErr
    ensures var s' := Apply(s, step); (Failing(s'.j.pc) || s'.failErr) && s'.j == s.j.(pc := s'.j.pc)
  {
    if step.RunJournaler? {
      hide JournalNext;
      FailingNext(s.j, s.gate, SlotOf(s.slots, End(s.j)), s.maxBatch, s.syncEvery, step.elapsed, step.ok, step.written);
    } else {
      OutsideJournal(s, step);
    }
  }

  /** A Sync is under way at step i, and the cursor is where it was up to step m: then the journaler is
      still at that Sync, or the Sync has succeeded and it is about to store the cursor, or the ring has failed. */
  lemma {:induction false} SyncThenStore(run: seq<State>, i: nat, m: nat)
    requires IsRun(run) && i <= m < |run| && run[i].j.pc.JSync?
    requires forall k :: i <= k <= m ==> run[k].j.cursor == run[i].j.cursor
    ensures run[m].j == run[i].j || run[m].j == Hardened(run[i].j) || Failing(run[m].j.pc) || run[m].failErr
    decreases m
  {
    hide Next, Inv, IsPath, Init;
    if m > i {
      SyncThenStore(run, i, m - 1);
      RunAt(run, m - 1);
      RunAt(run, m);
      OneOn(run[i].j, run[m - 1], run[m]);
    }
  }

  lemma {:induction false} OneOn(j: Journal, s: State, s': State)
    requires Next(s, s') && Inv(s) && j.pc.JSync? && s'.j.cursor == j.cursor == s.j.cursor
    requires s.j == j || s.j == Hardened(j) || Failing(s.j.pc) || s.failErr
    ensures s'.j == j || s'.j == Hardened(j) || Failing(s'.j.pc) || s'.failErr
  {
    hide Next, Inv;
    if s.j == j {
      SyncComesNext(s, s');
    } else if s.j == Hardened(j) {
      StoreComesNext(s, s');
      StoreMoves(s);
    } else {
      FailingStays(s, s');
    }
  }

  /** The store of the cursor moves it, to the end of what is written. */
  lemma {:induction false} StoreMoves(s: State)
    requires Inv(s) && s.j.pc.JStore?
    ensures s.j.cursor < End(s.j) == |s.j.wal|
  {
    hide InvProducers, InvAccounted, InvSlots, InvTaken, InvEngine, InvMutex, InvWaiters;
  }

  /** A successful Append, the interval over (or none set): Sync is next. */
  lemma {:induction false} ElapsedAppend(s: State, written: nat)
    requires Shape(s) && s.j.pc.JAppend? && Enabled(s, RunJournaler(true, true, written))
    ensures var s' := Apply(s, RunJournaler(true, true, written));
            s'.j.pc.JSync? && s'.j.wal == s.j.wal + s.j.batch && s'.j.cursor == s.j.cursor
  {
  }

  /** In every run: when an Append succeeds with the interval elapsed, then as long as the cursor has not
      moved the Sync is under way, or has succeeded, or the ring has failed. */
  lemma {:induction false} ElapsedAppendSyncs(run: seq<State>, i: nat, m: nat, written: nat)
    requires IsRun(run) && i < m < |run| && run[i].j.pc.JAppend? && Shape(run[i])
    requires Enabled(run[i], RunJournaler(true, true, written))
    requires run[i + 1] == Apply(run[i], RunJournaler(true, true, written))
    requires forall k :: i < k <= m ==> run[k].j.cursor == run[i].j.cursor
    ensures || run[m].j.pc.JSync?
            || (run[m].j.pc.JStore? && run[m].j.synced == |run[m].j.wal| && !run[m].j.dirty)
            || Failing(run[m].j.pc) || run[m].failErr
  {
    hide IsRun, Enabled, Apply;
    ElapsedAppend(run[i], written);
    SyncThenStore(run, i + 1, m);
  }

  /** And when the cursor has moved, at the first store of it after that Append, everything written,
      this batch with it, is synced. */
  lemma {:induction false} ElapsedStoreIsSynced(run: seq<State>, i: nat, m: nat, written: nat)
    requires IsRun(run) && i + 1 < m < |run| && run[i].j.pc.JAppend? && Shape(run[i])
    requires Enabled(run[i], RunJournaler(true, true, written))
    requires run[i + 1] == Apply(run[i], RunJournaler(true, true, written))
    requires forall k :: i < k < m ==> run[k].j.cursor == run[i].j.cursor
    requires run[m].j.cursor != run[i].j.cursor
    ensures run[m].j.synced == |run[m].j.wal| == run[m].j.cursor
    ensures run[m].j.wal == run[i].j.wal + run[i].j.batch
  {
    hide IsRun, Enabled, Apply, Next, Inv;
    ElapsedAppend(run[i], written);
    SyncThenStore(run, i + 1, m - 1);
    RunAt(run, m - 1);
    RunAt(run, m);
    var s, s' := run[m - 1], run[m];
    if s.j == run[i + 1].j {
      SyncComesNext(s, s');
    } else if s.j == Hardened(run[i + 1].j) {
      StoreComesNext(s, s');
      StoreMoves(s);
    } else {
      FailingStays(s, s');
    }
  }

  /** Idle, dirty, the interval over: Sync is next, whatever the slot holds besides the stamp it waits for. */
  lemma {:induction false} ElapsedIdle(s: State, ok: bool, written: nat)
    requires Inv(s) && s.j.pc.JGather? && s.j.batch == [] && s.j.dirty && Enabled(s, RunJournaler(true, ok, written))
    requires SlotOf(s.slots, s.j.next).published != s.j.next + 1
    ensures Apply(s, RunJournaler(true, ok, written)).j == s.j.(pc := JIdleSync)
  {
    FewEvents(s);
    assert End(s.j) == s.j.next;
    hide Inv, JournalNext, Apply, Enabled, SlotOf;
    JournalApply(s, true, ok, written);
    IdleGather(s.j, s.gate, SlotOf(s.slots, End(s.j)), s.maxBatch, s.syncEvery, ok, written);
  }

  lemma {:induction false} JournalApply(s: State, elapsed: bool, ok: bool, written: nat)
    requires Shape(s) && Enabled(s, RunJournaler(elapsed, ok, written))
    ensures Apply(s, RunJournaler(elapsed, ok, written)).j
            == JournalNext(s.j, s.gate, SlotOf(s.slots, End(s.j)), s.maxBatch, s.syncEvery, elapsed, ok, written)
  {
    hide JournalNext;
  }

  lemma {:induction false} IdleGather(j: Journal, g: Gate, slot: Slot, maxBatch: nat, syncEvery: bool, ok: bool,
        written: nat)
    requires j.pc.JGather? && j.batch == [] && j.dirty && maxBatch > 0 && j.next + 1 < U64
    requires slot.published != j.next + 1
    ensures JournalNext(j, g, slot, maxBatch, syncEvery, true, ok, written) == j.(pc := JIdleSync)
  {
    NoWrap(j.next, 1);
  }

  lemma {:induction false} FewEvents(s: State)
    requires Inv(s)
    ensures Shape(s) && s.j.next + 1 < U64
  {
    hide InvProducers, InvAccounted, InvSlots, InvTaken, InvEngine, InvMutex, InvWaiters;
  }

  /** In every run: an idle pass that is dirty with the interval elapsed goes on only when a Sync has
      succeeded, with everything written synced; or the ring fails. */
  lemma {:induction false} ElapsedIdleSyncs(run: seq<State>, i: nat, m: nat, ok: bool, written: nat)
    requires IsRun(run) && i + 1 < m < |run| && Inv(run[i]) && run[i].j.pc.JGather? && run[i].j.batch == []
             && run[i].j.dirty
    requires SlotOf(run[i].slots, run[i].j.next).published != run[i].j.next + 1
    requires Enabled(run[i], RunJournaler(true, ok, written))
    requires run[i + 1] == Apply(run[i], RunJournaler(true, ok, written))
    requires (forall k :: i < k < m ==> run[k].j == run[i + 1].j) && run[m].j != run[i + 1].j
    ensures || (run[m].j.synced == |run[m].j.wal| && !run[m].j.dirty && run[m].j.wal == run[i].j.wal)
            || run[m].j.pc.JFailLock?
  {
    hide IsRun, Enabled, Apply, Next, Inv;
    ElapsedIdle(run[i], ok, written);
    RunAt(run, m);
    SyncComesNext(run[m - 1], run[m]);
  }
}
