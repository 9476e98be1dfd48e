/** The invariant of the ring: what every step of every goroutine keeps. */
module RingSafety {
  import opened Events
  import opened Ring

  /** Close adds bit 63 to a counter that Publish keeps adding one to. */
  ghost predicate InvGate(g: Gate) {
    && |g.claimant| == |g.log|
    && Claims(g) < U63
    && (g.pc.KOpen? ==> g.claimCursor == |g.log| && g.refused == 0)
    && (!g.pc.KOpen? ==> g.claimCursor == U63 + Claims(g))
    && (g.pc.KFinal? ==> g.pc.accepted == U63 + |g.log|)
    && (g.pc.KFlag? || g.pc.KClosed? ==> g.finalSeq == |g.log|)
    && (g.closedFlag <==> g.pc.KClosed?)
  }

  /** The goroutine has taken a ticket and has not stamped or abandoned it. */
  predicate Holding(pc: Producer) {
    pc.PCheckSpace? || pc.PRecheckFailed? || pc.PWrite? || pc.PStamp?
  }

  /** Ticket pc.sn belongs to goroutine p, which claimed it for pc.ev. */
  ghost predicate Owns(pc: Producer, p: nat, g: Gate)
    requires Holding(pc) || pc.POk?
  {
    pc.sn < |g.log| && pc.sn < |g.claimant| && g.claimant[pc.sn] == p && g.log[pc.sn] == pc.ev
  }

  ghost predicate InvProducer(pc: Producer, p: nat, g: Gate, slots: seq<Slot>, stamped: set<nat>, consumerCursor: nat,
        failedFlag: bool)
    requires |slots| > 0
  {
    && (Holding(pc) ==> Owns(pc, p, g) && pc.sn !in stamped)
    && (pc.PWrite? || pc.PStamp? ==> pc.sn < consumerCursor + |slots|)
    && (pc.PStamp? ==> SlotOf(slots, pc.sn).event == pc.ev)
    && (pc.POk? ==> Owns(pc, p, g) && pc.sn in stamped)
    && (pc.PJournalFailure? || (pc.PErr? && pc.error.ErrJournalFailed?) ==> failedFlag)
    && (pc.PErr? && pc.error.ErrClosed? ==> !g.pc.KOpen?)
  }

  ghost predicate InvProducers(ps: seq<Producer>, g: Gate, slots: seq<Slot>, stamped: set<nat>, consumerCursor: nat,
        failedFlag: bool)
    requires |slots| > 0
  {
    forall p :: 0 <= p < |ps| ==> InvProducer(ps[p], p, g, slots, stamped, consumerCursor, failedFlag)
  }

  /** Every ticket is stamped or still held, unless the ring has failed. */
  ghost predicate Accounted(n: nat, ps: seq<Producer>, claimant: seq<nat>, stamped: set<nat>)
    requires n < |claimant|
  {
    n in stamped || (claimant[n] < |ps| && Holding(ps[claimant[n]]) && ps[claimant[n]].sn == n)
  }

  ghost predicate InvAccounted(ps: seq<Producer>, claimant: seq<nat>, stamped: set<nat>, failedFlag: bool) {
    !failedFlag ==> forall n :: 0 <= n < |claimant| ==> Accounted(n, ps, claimant, stamped)
  }

  /** Stamps never lie, and no slot is reused before the consumer has passed it. */
  ghost predicate InvSlots(slots: seq<Slot>, stamped: set<nat>, log: seq<OrderEvent>, consumerCursor: nat)
    requires |slots| > 0
  {
    && (forall n :: n in stamped ==> n < |log| && n < consumerCursor + |slots|)
    && (forall n :: n in stamped && consumerCursor <= n ==> SlotOf(slots, n) == Slot(log[n], n + 1))
    && (forall i :: 0 <= i < |slots| && slots[i].published != 0 ==> slots[i].published - 1 in stamped)
  }

  predicate Failing(pc: JournalerPc) {
    pc.JFailLock? || pc.JFailErr? || pc.JFailFlag? || pc.JFailBroadcast? || pc.JFailUnlock?
  }

  predicate Written(pc: JournalerPc) { pc.JSync? || pc.JStore? }

  predicate Collecting(pc: JournalerPc) { pc.JGather? || pc.JGrab? || pc.JAppend? }

  /** The journal is a prefix of the log, and the cursor never runs ahead of it. */
  ghost predicate InvJournal(j: Journal, log: seq<OrderEvent>, maxBatch: nat, syncEvery: bool) {
    && j.wal <= log
    && j.cursor == j.next <= |j.wal|
    && j.synced <= |j.wal|
    && |j.batch| <= maxBatch
    && (syncEvery ==> !j.dirty && j.next <= j.synced)
    && (Collecting(j.pc) ==> |j.wal| == j.next && j.wal + j.batch <= log)
    && (Written(j.pc) ==> |j.wal| == End(j))
    && (j.pc.JAppend? || Written(j.pc) ==> j.batch != [])
    && (!Collecting(j.pc) && !Written(j.pc) && !Failing(j.pc) ==>
        j.pc.JExited? || (j.batch == [] && |j.wal| == j.next))
    && (!j.dirty && !j.pc.JSync? && !Failing(j.pc) && !j.pc.JExited? ==> j.synced == |j.wal|)
    && (j.pc.JGrab? ==> |j.batch| < maxBatch)
  }

  /** Everything the journaler has taken was stamped, and so is what it is about to take. */
  ghost predicate InvTaken(j: Journal, stamped: set<nat>) {
    && (forall n :: 0 <= n < End(j) ==> n in stamped)
    && (j.pc.JGrab? ==> End(j) in stamped)
    && |j.wal| <= End(j)
  }

  /** The journaler leaves only after a failure, or closed, drained and synced. */
  ghost predicate InvStop(j: Journal, g: Gate, failErr: bool, failedFlag: bool) {
    && (j.pc.JCheckFinal? || j.pc.JExitSync? ==> g.closedFlag)
    && (j.pc.JExitSync? ==> j.next == |g.log|)
    && (failErr ==> j.pc.JFailFlag? || j.pc.JFailBroadcast? || j.pc.JFailUnlock? || j.pc.JExited?)
    && (j.pc.JFailFlag? || j.pc.JFailBroadcast? || j.pc.JFailUnlock? ==> failErr)
    && (failedFlag <==> failErr && !j.pc.JFailFlag?)
    && (j.pc.JExited? && !failErr ==>
      && g.closedFlag && j.batch == [] && !j.dirty
      && j.next == |j.wal| == j.synced == |g.log|)
  }

  /** The engine's history is a prefix of the log that stays behind the journal. */
  ghost predicate InvEngine(e: Engine, log: seq<OrderEvent>, journalCursor: nat) {
    && e.cursor == e.next <= journalCursor
    && |e.history| == (if e.pc.CStore? then e.next + 1 else e.next)
    && (e.pc.CRead? || e.pc.CHandle? || e.pc.CStore? ==> e.next < journalCursor)
    && e.history <= log
    && (e.pc.CHandle? ==> e.next < |log| && e.pc.ev == log[e.next])
  }

  ghost predicate InvEngineStop(e: Engine, g: Gate, failedFlag: bool) {
    && (e.pc.CCheckFinal? ==> g.closedFlag)
    && (e.pc.CExited? ==> failedFlag || (g.closedFlag && e.next == |g.log|))
  }

  predicate HoldsMutex(pc: Waiter) {
    pc.WCheck? || pc.WInspect? || pc.WPark? || pc.WRelease?
  }

  predicate JournalerHoldsMutex(pc: JournalerPc) {
    || pc.JBroadcast? || pc.JUnlock?
    || pc.JFailErr? || pc.JFailFlag? || pc.JFailBroadcast? || pc.JFailUnlock?
  }

  ghost predicate InvMutex(ws: seq<Waiter>, mutex: Mutex, jpc: JournalerPc) {
    && (forall w :: 0 <= w < |ws| ==> (HoldsMutex(ws[w]) <==> mutex == HeldByWaiter(w)))
    && (mutex.HeldByWaiter? ==> mutex.w < |ws|)
    && (JournalerHoldsMutex(jpc) <==> mutex.HeldByJournaler?)
  }

  /** A wakeup that a parked (or about to park) goroutine needs is still to come. */
  ghost predicate InvWaiter(pc: Waiter, journalCursor: nat, jpc: JournalerPc, failErr: bool) {
    && (pc.WParked? && journalCursor > pc.sn ==> jpc.JLock? || jpc.JBroadcast?)
    && (pc.WParked? && failErr ==> jpc.JFailFlag? || jpc.JFailBroadcast?)
    && ((pc.WInspect? || pc.WPark?) && journalCursor > pc.sn ==> jpc.JLock?)
    && (pc.WPark? ==> !failErr)
    && ((pc.WRelease? || pc.WDone?) && pc.ok ==> journalCursor > pc.sn)
    && ((pc.WRelease? || pc.WDone?) && !pc.ok ==> failErr && journalCursor <= pc.sn)
  }

  ghost predicate InvWaiters(ws: seq<Waiter>, journalCursor: nat, jpc: JournalerPc, failErr: bool) {
    forall w :: 0 <= w < |ws| ==> InvWaiter(ws[w], journalCursor, jpc, failErr)
  }

  ghost predicate Inv(s: State) {
    && Shape(s)
    && InvGate(s.gate)
    && InvProducers(s.producers, s.gate, s.slots, s.stamped, s.e.cursor, s.failedFlag)
    && InvAccounted(s.producers, s.gate.claimant, s.stamped, s.failedFlag)
    && InvSlots(s.slots, s.stamped, s.gate.log, s.e.cursor)
    && InvJournal(s.j, s.gate.log, s.maxBatch, s.syncEvery)
    && InvTaken(s.j, s.stamped)
    && InvStop(s.j, s.gate, s.failErr, s.failedFlag)
    && InvEngine(s.e, s.gate.log, s.j.cursor)
    && InvEngineStop(s.e, s.gate, s.failedFlag)
    && InvMutex(s.waiters, s.mutex, s.j.pc)
    && InvWaiters(s.waiters, s.j.cursor, s.j.pc, s.failErr)
  }

  lemma {:induction false} InitEstablishes(s: State)
    requires Init(s)
    ensures Inv(s)
  {
  }

  /** Two tickets less than one lap apart use different slots. */
  lemma {:induction false} SlotsDiffer(a: nat, b: nat, cap: nat)
    requires cap > 0 && a % cap == b % cap && a < b + cap && b < a + cap
    ensures a == b
  {
    DivMod(a, cap);
    DivMod(b, cap);
    LapsDiffer(a / cap, b / cap, cap);
  }

  lemma {:induction false} DivMod(a: nat, cap: nat)
    requires cap > 0
    ensures a == (a / cap) * cap + a % cap
  {
  }

  lemma {:induction false} LapsDiffer(qa: nat, qb: nat, cap: nat)
    requires cap > 0
    ensures qa > qb ==> qa * cap >= qb * cap + cap
    ensures qa < qb ==> qb * cap >= qa * cap + cap
  {
    if qa > qb { AtLeastOneLap(qa - qb, cap); assert qa * cap == (qb + (qa - qb)) * cap == qb * cap + (qa - qb) * cap; }
    if qa < qb { AtLeastOneLap(qb - qa, cap); assert qb * cap == (qa + (qb - qa)) * cap == qa * cap + (qb - qa) * cap; }
  }

  lemma {:induction false} AtLeastOneLap(q: nat, cap: nat)
    requires q > 0
    ensures q * cap >= cap
  {
    assert q * cap == (q - 1) * cap + cap;
  }

  /** All tickets below the consumer are stamped, so a held ticket is at or above it. */
  lemma {:induction false} HeldAboveConsumer(sn: nat, j: Journal, e: Engine, log: seq<OrderEvent>, stamped: set<nat>)
    requires InvTaken(j, stamped) && InvEngine(e, log, j.cursor) && j.cursor == j.next && sn !in stamped
    ensures e.cursor <= sn
  {
  }

  lemma {:induction false} NoWrap(a: nat, b: nat)
    requires a + b < U64
    ensures Add64(a, b) == a + b && Sub64(a + b, b) == a
  {
  }

  // --- Publish ---

  lemma {:induction false} ClaimKeepsGate(g: Gate, p: nat, ev: OrderEvent)
    requires InvGate(g) && Claims(Claim(g, p, ev).0) < U63
    ensures InvGate(Claim(g, p, ev).0)
    ensures g.pc.KOpen? ==>
             Claim(g, p, ev) == (g.(claimCursor := |g.log| + 1, log := g.log + [ev], claimant := g.claimant + [p]),
             PCheckSpace(ev, |g.log|))
    ensures !g.pc.KOpen? ==>
             Claim(g, p, ev) == (g.(claimCursor := g.claimCursor + 1, refused := g.refused + 1), PErr(ev, ErrClosed))
  {
    NoWrap(g.claimCursor, 1);
  }

  /** A step of p leaves what is known about another goroutine q as it was. */
  lemma {:induction false} OtherProducerKept(pc: Producer, q: nat, p: nat, sn: nat, g: Gate, slots: seq<Slot>, v: Slot,
        stamped: set<nat>, consumerCursor: nat, failedFlag: bool)
    requires |slots| > 0 && InvProducer(pc, q, g, slots, stamped, consumerCursor, failedFlag)
    requires p != q && sn < |g.claimant| && g.claimant[sn] == p
    requires consumerCursor <= sn < consumerCursor + |slots|
    requires pc.PStamp? ==> consumerCursor <= pc.sn
    ensures InvProducer(pc, q, g, PutSlot(slots, sn, v), stamped, consumerCursor, failedFlag)
    ensures InvProducer(pc, q, g, PutSlot(slots, sn, v), stamped + {sn}, consumerCursor, failedFlag)
  {
    if pc.PStamp? && pc.sn % |slots| == sn % |slots| {
      SlotsDiffer(pc.sn, sn, |slots|);
    }
  }

  lemma {:induction false} OtherSlot(slots: seq<Slot>, n: nat, sn: nat, v: Slot)
    requires |slots| > 0 && n != sn && n < sn + |slots| && sn < n + |slots|
    ensures SlotOf(PutSlot(slots, sn, v), n) == SlotOf(slots, n)
  {
    if n % |slots| == sn % |slots| { SlotsDiffer(n, sn, |slots|); }
  }

  lemma {:induction false} WriteKeepsSlots(slots: seq<Slot>, stamped: set<nat>, log: seq<OrderEvent>,
        consumerCursor: nat, sn: nat, ev: OrderEvent)
    requires |slots| > 0 && InvSlots(slots, stamped, log, consumerCursor)
    requires sn !in stamped && consumerCursor <= sn < consumerCursor + |slots|
    ensures InvSlots(PutSlot(slots, sn, SlotOf(slots, sn).(event := ev)), stamped, log, consumerCursor)
  {
    var slots' := PutSlot(slots, sn, SlotOf(slots, sn).(event := ev));
    assert forall i :: 0 <= i < |slots| ==> slots'[i].published == slots[i].published;
    forall n | n in stamped && consumerCursor <= n ensures SlotOf(slots', n) == Slot(log[n], n + 1) {
      OtherSlot(slots, n, sn, SlotOf(slots, sn).(event := ev));
    }
  }

  lemma {:induction false} StampKeepsSlots(slots: seq<Slot>, stamped: set<nat>, log: seq<OrderEvent>,
        consumerCursor: nat, sn: nat)
    requires |slots| > 0 && InvSlots(slots, stamped, log, consumerCursor)
    requires sn !in stamped && consumerCursor <= sn < consumerCursor + |slots|
    requires sn < |log| < U63 && SlotOf(slots, sn).event == log[sn]
    ensures InvSlots(PutSlot(slots, sn, SlotOf(slots, sn).(published := Add64(sn, 1))), stamped + {sn}, log,
             consumerCursor)
  {
    NoWrap(sn, 1);
    var slots' := PutSlot(slots, sn, SlotOf(slots, sn).(published := sn + 1));
    forall n | n in stamped && consumerCursor <= n ensures SlotOf(slots', n) == Slot(log[n], n + 1) {
      OtherSlot(slots, n, sn, SlotOf(slots, sn).(published := sn + 1));
    }
  }

  lemma {:induction false} ClaimKeepsProducers(ps: seq<Producer>, p: nat, ev: OrderEvent, pc': Producer, g: Gate,
        g': Gate, slots: seq<Slot>, stamped: set<nat>, consumerCursor: nat, failedFlag: bool)
    requires |slots| > 0 && InvProducers(ps, g, slots, stamped, consumerCursor, failedFlag)
    requires p < |ps| && |g.claimant| == |g.log| && g'.pc == g.pc
    requires g.log <= g'.log && g.claimant <= g'.claimant
    requires InvProducer(pc', p, g', slots, stamped, consumerCursor, failedFlag)
    ensures InvProducers(ps[p := pc'], g', slots, stamped, consumerCursor, failedFlag)
  {
    var ps' := ps[p := pc'];
    forall q | 0 <= q < |ps'| ensures InvProducer(ps'[q], q, g', slots, stamped, consumerCursor, failedFlag) {
      assert InvProducer(ps[q], q, g, slots, stamped, consumerCursor, failedFlag);
    }
  }

  lemma {:induction false} ClaimKeeps(s: State, p: nat)
    requires Inv(s) && p < |s.producers| && s.producers[p].PClaim?
    requires Claims(PublishStep(s, p).gate) < U63
    ensures Inv(PublishStep(s, p))
  {
    var g, ev := s.gate, s.producers[p].ev;
    var (g', pc') := Claim(g, p, ev);
    ClaimKeepsGate(g, p, ev);
    ClaimKeepsProducers(s.producers, p, ev, pc', g, g', s.slots, s.stamped, s.e.cursor, s.failedFlag);
    var ps' := s.producers[p := pc'];
    forall n | 0 <= n < |g'.claimant| && !s.failedFlag ensures Accounted(n, ps', g'.claimant, s.stamped) {
      if n < |g.claimant| { assert Accounted(n, s.producers, g.claimant, s.stamped); }
    }
    LogGrows(s.slots, s.stamped, s.j, s.e, g.log, g'.log, s.maxBatch, s.syncEvery);
    assert InvStop(s.j, g', s.failErr, s.failedFlag) && InvEngineStop(s.e, g', s.failedFlag);
  }

  lemma {:induction false} LogGrows(slots: seq<Slot>, stamped: set<nat>, j: Journal, e: Engine, log: seq<OrderEvent>,
        log': seq<OrderEvent>, maxBatch: nat, syncEvery: bool)
    requires |slots| > 0 && log <= log'
    requires InvSlots(slots, stamped, log, e.cursor) && InvJournal(j, log, maxBatch, syncEvery)
             && InvEngine(e, log, j.cursor)
    ensures InvSlots(slots, stamped, log', e.cursor) && InvJournal(j, log', maxBatch, syncEvery)
             && InvEngine(e, log', j.cursor)
  {
  }

  /** Steps of Publish that touch nothing but the goroutine's own position. */
  lemma {:induction false} CheckKeeps(s: State, p: nat)
    requires Inv(s) && Enabled(s, Publish(p))
    requires s.producers[p].PCheckFailed? || s.producers[p].PCheckSpace? || s.producers[p].PRecheckFailed?
             || s.producers[p].PJournalFailure?
    ensures Inv(PublishStep(s, p))
  {
    ProducerAt(s, p);
    if s.producers[p].PCheckSpace? { SpaceSeen(s, p); }
    assert Shape(s);
    hide Inv, InvProducers;
    PositionKept(s, PublishStep(s, p), p);
  }

  lemma {:induction false} ProducerAt(s: State, p: nat)
    requires Inv(s) && p < |s.producers|
    ensures Shape(s) && InvProducer(s.producers[p], p, s.gate, s.slots, s.stamped, s.e.cursor, s.failedFlag)
  {
  }

  /** The test for space sees the true distance to the consumer. */
  lemma {:induction false} SpaceSeen(s: State, p: nat)
    requires Inv(s) && p < |s.producers| && s.producers[p].PCheckSpace?
    ensures Sub64(s.producers[p].sn, s.e.cursor) == s.producers[p].sn - s.e.cursor >= 0
  {
    ProducerAt(s, p);
    hide InvProducers, InvWaiters, InvMutex, InvSlots;
    HeldAboveConsumer(s.producers[p].sn, s.j, s.e, s.gate.log, s.stamped);
    NoWrap(s.producers[p].sn - s.e.cursor, s.e.cursor);
  }

  lemma {:induction false} PositionKept(s: State, s': State, p: nat)
    requires Inv(s) && p < |s.producers| && |s'.producers| == |s.producers|
    requires s' == s.(producers := s.producers[p := s'.producers[p]])
    requires InvProducer(s'.producers[p], p, s.gate, s.slots, s.stamped, s.e.cursor, s.failedFlag)
    requires Holding(s.producers[p]) && !s.failedFlag ==>
             Holding(s'.producers[p]) && s'.producers[p].sn == s.producers[p].sn
    ensures Inv(s')
  {
    AccountedKept(s.producers, p, s'.producers[p], s.gate.claimant, s.stamped, s.stamped, s.failedFlag);
  }

  lemma {:induction false} OtherProducersKept(ps: seq<Producer>, p: nat, sn: nat, g: Gate, slots: seq<Slot>, v: Slot,
        stamped: set<nat>, consumerCursor: nat, failedFlag: bool)
    requires |slots| > 0 && InvProducers(ps, g, slots, stamped, consumerCursor, failedFlag)
    requires sn < |g.claimant| && g.claimant[sn] == p
    requires consumerCursor <= sn < consumerCursor + |slots|
    requires forall n :: 0 <= n < consumerCursor ==> n in stamped
    ensures forall q :: 0 <= q < |ps| && q != p ==>
             InvProducer(ps[q], q, g, PutSlot(slots, sn, v), stamped, consumerCursor, failedFlag)
    ensures forall q :: 0 <= q < |ps| && q != p ==>
             InvProducer(ps[q], q, g, PutSlot(slots, sn, v), stamped + {sn}, consumerCursor, failedFlag)
  {
    forall q | 0 <= q < |ps| && q != p
      ensures InvProducer(ps[q], q, g, PutSlot(slots, sn, v), stamped, consumerCursor, failedFlag)
      ensures InvProducer(ps[q], q, g, PutSlot(slots, sn, v), stamped + {sn}, consumerCursor, failedFlag)
    {
      assert InvProducer(ps[q], q, g, slots, stamped, consumerCursor, failedFlag);
      OtherProducerKept(ps[q], q, p, sn, g, slots, v, stamped, consumerCursor, failedFlag);
    }
  }

  lemma {:induction false} BelowConsumerStamped(s: State)
    requires Inv(s)
    ensures forall n :: 0 <= n < s.e.cursor ==> n in s.stamped
  {
  }

  /** Writing or stamping a slot concerns four parts of the invariant. */
  lemma {:induction false} SlotChanged(s: State, s': State)
    requires Inv(s) && |s'.slots| == |s.slots|
    requires s' == s.(slots := s'.slots, stamped := s'.stamped, producers := s'.producers)
    requires InvProducers(s'.producers, s.gate, s'.slots, s'.stamped, s.e.cursor, s.failedFlag)
    requires InvAccounted(s'.producers, s.gate.claimant, s'.stamped, s.failedFlag)
    requires InvSlots(s'.slots, s'.stamped, s.gate.log, s.e.cursor)
    requires InvTaken(s.j, s'.stamped)
    ensures Inv(s')
  {
  }

  lemma {:induction false} WriteKeeps(s: State, p: nat)
    requires Inv(s) && p < |s.producers| && s.producers[p].PWrite?
    ensures Inv(PublishStep(s, p))
  {
    var sn, ev := s.producers[p].sn, s.producers[p].ev;
    var v := SlotOf(s.slots, sn).(event := ev);
    assert InvProducer(s.producers[p], p, s.gate, s.slots, s.stamped, s.e.cursor, s.failedFlag);
    BelowConsumerStamped(s);
    WriteKeepsSlots(s.slots, s.stamped, s.gate.log, s.e.cursor, sn, ev);
    OtherProducersKept(s.producers, p, sn, s.gate, s.slots, v, s.stamped, s.e.cursor, s.failedFlag);
    AccountedKept(s.producers, p, PStamp(ev, sn), s.gate.claimant, s.stamped, s.stamped, s.failedFlag);
    SlotChanged(s, PublishStep(s, p));
  }

  lemma {:induction false} StampKeepsProducers(ps: seq<Producer>, p: nat, g: Gate, slots: seq<Slot>, v: Slot,
        stamped: set<nat>, consumerCursor: nat, failedFlag: bool)
    requires |slots| > 0 && InvProducers(ps, g, slots, stamped, consumerCursor, failedFlag)
    requires p < |ps| && ps[p].PStamp? && consumerCursor <= ps[p].sn
    requires forall n :: 0 <= n < consumerCursor ==> n in stamped
    ensures InvProducers(ps[p := POk(ps[p].ev, ps[p].sn)], g, PutSlot(slots, ps[p].sn, v), stamped + {ps[p].sn},
             consumerCursor, failedFlag)
  {
    assert InvProducer(ps[p], p, g, slots, stamped, consumerCursor, failedFlag);
    OtherProducersKept(ps, p, ps[p].sn, g, slots, v, stamped, consumerCursor, failedFlag);
  }

  lemma {:induction false} StampHeld(s: State, p: nat)
    requires Inv(s) && p < |s.producers| && s.producers[p].PStamp?
    ensures Shape(s) && InvProducers(s.producers, s.gate, s.slots, s.stamped, s.e.cursor, s.failedFlag)
    ensures InvAccounted(s.producers, s.gate.claimant, s.stamped, s.failedFlag)
    ensures InvSlots(s.slots, s.stamped, s.gate.log, s.e.cursor) && InvTaken(s.j, s.stamped)
    ensures forall n :: 0 <= n < s.e.cursor ==> n in s.stamped
    ensures var sn := s.producers[p].sn;
            && sn !in s.stamped && s.e.cursor <= sn < s.e.cursor + |s.slots| && sn < |s.gate.log| < U63
            && SlotOf(s.slots, sn).event == s.gate.log[sn]
  {
    assert InvProducer(s.producers[p], p, s.gate, s.slots, s.stamped, s.e.cursor, s.failedFlag);
    BelowConsumerStamped(s);
  }

  lemma {:induction false} StampKeeps(s: State, p: nat)
    requires Inv(s) && p < |s.producers| && s.producers[p].PStamp?
    ensures Inv(PublishStep(s, p))
  {
    hide Inv, InvProducers, InvProducer, InvAccounted, InvSlots, InvTaken;
    StampHeld(s, p);
    var sn, ev := s.producers[p].sn, s.producers[p].ev;
    var v := SlotOf(s.slots, sn).(published := Add64(sn, 1));
    var stamped' := s.stamped + {sn};
    StampKeepsProducers(s.producers, p, s.gate, s.slots, v, s.stamped, s.e.cursor, s.failedFlag);
    StampKeepsSlots(s.slots, s.stamped, s.gate.log, s.e.cursor, sn);
    AccountedKept(s.producers, p, POk(ev, sn), s.gate.claimant, s.stamped, stamped', s.failedFlag);
    TakenKept(s.j, s.stamped, stamped');
    SlotChanged(s, PublishStep(s, p));
  }

  lemma {:induction false} AccountedKept(ps: seq<Producer>, p: nat, pc': Producer, claimant: seq<nat>,
        stamped: set<nat>, stamped': set<nat>, failed: bool)
    requires p < |ps| && InvAccounted(ps, claimant, stamped, failed) && stamped <= stamped'
    requires Holding(ps[p]) && !failed ==> ps[p].sn in stamped' || (Holding(pc') && pc'.sn == ps[p].sn)
    ensures InvAccounted(ps[p := pc'], claimant, stamped', failed)
  {
    var ps' := ps[p := pc'];
    forall n | 0 <= n < |claimant| && !failed ensures Accounted(n, ps', claimant, stamped') {
      assert Accounted(n, ps, claimant, stamped);
    }
  }

  lemma {:induction false} TakenKept(j: Journal, stamped: set<nat>, stamped': set<nat>)
    requires InvTaken(j, stamped) && stamped <= stamped'
    ensures InvTaken(j, stamped')
  {
  }

  lemma {:induction false} PublishKeeps(s: State, p: nat)
    requires Inv(s) && Enabled(s, Publish(p)) && Claims(PublishStep(s, p).gate) < U63
    ensures Inv(PublishStep(s, p))
  {
    if s.producers[p].PClaim? {
      ClaimKeeps(s, p);
    } else if s.producers[p].PWrite? {
      WriteKeeps(s, p);
    } else if s.producers[p].PStamp? {
      StampKeeps(s, p);
    } else {
      CheckKeeps(s, p);
    }
  }

  // --- WaitDurable ---

  lemma {:induction false} WaiterNextKept(pc: Waiter, j: Journal, failErr: bool)
    requires InvWaiter(pc, j.cursor, j.pc, failErr)
    requires HoldsMutex(pc) ==> !JournalerHoldsMutex(j.pc)
    requires failErr ==> JournalerHoldsMutex(j.pc) || j.pc.JExited?
    ensures InvWaiter(WaiterNext(pc, j.cursor, failErr), j.cursor, j.pc, failErr)
  {
  }

  lemma {:induction false} WaitKeeps(s: State, w: nat)
    requires Inv(s) && Enabled(s, Wait(w))
    ensures Inv(WaitStep(s, w))
  {
    var s' := WaitStep(s, w);
    assert InvWaiter(s.waiters[w], s.j.cursor, s.j.pc, s.failErr);
    WaiterNextKept(s.waiters[w], s.j, s.failErr);
    WaitKeepsMutex(s.waiters, s.mutex, s.j.pc, w, s'.waiters[w], s'.mutex);
  }

  lemma {:induction false} WaitKeepsMutex(ws: seq<Waiter>, mutex: Mutex, jpc: JournalerPc, w: nat, pc': Waiter,
        mutex': Mutex)
    requires InvMutex(ws, mutex, jpc) && w < |ws| && (Locks(ws[w]) ==> mutex.Free?)
    requires Locks(ws[w]) ==> HoldsMutex(pc') && mutex' == HeldByWaiter(w)
    requires Unlocks(ws[w]) ==> !HoldsMutex(pc') && mutex' == Free
    requires !Locks(ws[w]) && !Unlocks(ws[w]) ==> HoldsMutex(pc') == HoldsMutex(ws[w]) && mutex' == mutex
    ensures InvMutex(ws[w := pc'], mutex', jpc)
  {
  }

  // --- The journaler ---

  lemma {:induction false} GatherKept(j: Journal, slot: Slot, log: seq<OrderEvent>, stamped: set<nat>, maxBatch: nat,
        syncEvery: bool, elapsed: bool)
    requires j.pc.JGather? && maxBatch > 0 && |log| < U63
    requires InvJournal(j, log, maxBatch, syncEvery) && InvTaken(j, stamped)
    requires slot.published != 0 ==> slot.published - 1 in stamped
    ensures InvJournal(Gather(j, slot, maxBatch, elapsed), log, maxBatch, syncEvery)
    ensures InvTaken(Gather(j, slot, maxBatch, elapsed), stamped)
  {
    NoWrap(End(j), 1);
  }

  lemma {:induction false} GrabKept(j: Journal, slot: Slot, log: seq<OrderEvent>, stamped: set<nat>, maxBatch: nat,
        syncEvery: bool)
    requires j.pc.JGrab? && InvJournal(j, log, maxBatch, syncEvery) && InvTaken(j, stamped)
    requires End(j) < |log| && slot.event == log[End(j)]
    ensures InvJournal(j.(batch := j.batch + [slot.event], pc := JGather), log, maxBatch, syncEvery)
    ensures InvTaken(j.(batch := j.batch + [slot.event], pc := JGather), stamped)
  {
    assert j.wal + (j.batch + [slot.event]) == (j.wal + j.batch) + [slot.event];
  }

  lemma {:induction false} AppendKept(j: Journal, log: seq<OrderEvent>, maxBatch: nat, syncEvery: bool, elapsed: bool,
        ok: bool, written: nat)
    requires j.pc.JAppend? && InvJournal(j, log, maxBatch, syncEvery)
    ensures InvJournal(AppendBatch(j, syncEvery, elapsed, ok, written), log, maxBatch, syncEvery)
    ensures |AppendBatch(j, syncEvery, elapsed, ok, written).wal| <= End(j)
  {
    var part := j.batch[..Min(written, |j.batch|)];
    assert part <= j.batch;
    assert j.wal + part <= j.wal + j.batch;
  }

  /** What the slot under the journaler's hand may hold. */
  ghost predicate SlotSeen(j: Journal, slot: Slot, log: seq<OrderEvent>, stamped: set<nat>) {
    && (slot.published != 0 ==> slot.published - 1 in stamped)
    && (j.pc.JGrab? ==> End(j) < |log| && slot.event == log[End(j)])
  }

  lemma {:induction false} JournalNextKept(j: Journal, g: Gate, slot: Slot, stamped: set<nat>, maxBatch: nat,
        syncEvery: bool, elapsed: bool, ok: bool, written: nat)
    requires !j.pc.JOff? && !j.pc.JExited? && maxBatch > 0 && |g.log| < U63
    requires InvJournal(j, g.log, maxBatch, syncEvery) && InvTaken(j, stamped) && SlotSeen(j, slot, g.log, stamped)
    ensures InvJournal(JournalNext(j, g, slot, maxBatch, syncEvery, elapsed, ok, written), g.log, maxBatch, syncEvery)
    ensures InvTaken(JournalNext(j, g, slot, maxBatch, syncEvery, elapsed, ok, written), stamped)
  {
    match j.pc
    case JGather => GatherKept(j, slot, g.log, stamped, maxBatch, syncEvery, elapsed);
    case JGrab => GrabKept(j, slot, g.log, stamped, maxBatch, syncEvery);
    case JAppend => AppendKept(j, g.log, maxBatch, syncEvery, elapsed, ok, written);
    case _ =>
      if Failing(j.pc) {
        FailingJournalKept(j, g, slot, stamped, maxBatch, syncEvery, elapsed, ok, written);
      } else {
        OtherJournalStepKept(j, g, slot, stamped, maxBatch, syncEvery, elapsed, ok, written);
      }
  }

  lemma {:induction false} FailingJournalKept(j: Journal, g: Gate, slot: Slot, stamped: set<nat>, maxBatch: nat,
        syncEvery: bool, elapsed: bool, ok: bool, written: nat)
    requires Failing(j.pc) && InvJournal(j, g.log, maxBatch, syncEvery) && InvTaken(j, stamped)
    ensures InvJournal(JournalNext(j, g, slot, maxBatch, syncEvery, elapsed, ok, written), g.log, maxBatch, syncEvery)
    ensures InvTaken(JournalNext(j, g, slot, maxBatch, syncEvery, elapsed, ok, written), stamped)
  {
  }

  lemma {:induction false} OtherJournalStepKept(j: Journal, g: Gate, slot: Slot, stamped: set<nat>, maxBatch: nat,
        syncEvery: bool, elapsed: bool, ok: bool, written: nat)
    requires !j.pc.JOff? && !j.pc.JExited? && !Collecting(j.pc) && !Failing(j.pc)
    requires InvJournal(j, g.log, maxBatch, syncEvery) && InvTaken(j, stamped)
    ensures InvJournal(JournalNext(j, g, slot, maxBatch, syncEvery, elapsed, ok, written), g.log, maxBatch, syncEvery)
    ensures InvTaken(JournalNext(j, g, slot, maxBatch, syncEvery, elapsed, ok, written), stamped)
  {
    assert j.wal + [] == j.wal;
  }

  lemma {:induction false} JournalStopKept(j: Journal, g: Gate, slot: Slot, stamped: set<nat>, maxBatch: nat,
        syncEvery: bool, elapsed: bool, ok: bool, written: nat, failErr: bool, failedFlag: bool)
    requires !j.pc.JOff? && !j.pc.JExited?
    requires InvGate(g) && InvJournal(j, g.log, maxBatch, syncEvery) && InvTaken(j, stamped)
    requires forall n :: n in stamped ==> n < |g.log|
    requires InvStop(j, g, failErr, failedFlag)
    ensures InvStop(JournalNext(j, g, slot, maxBatch, syncEvery, elapsed, ok, written), g,
                    failErr || j.pc.JFailErr?, failedFlag || j.pc.JFailFlag?)
  {
    if j.next > 0 { assert j.next - 1 in stamped; }
  }

  lemma {:induction false} JournalCursorMoves(j: Journal, g: Gate, slot: Slot, maxBatch: nat, syncEvery: bool,
        elapsed: bool, ok: bool, written: nat)
    requires j.cursor == j.next
    ensures var j' := JournalNext(j, g, slot, maxBatch, syncEvery, elapsed, ok, written);
            j.cursor <= j'.cursor && (j'.cursor != j.cursor ==> j.pc.JStore?)
            && (j.pc.JStore? ==> j'.pc.JLock?)
  {
  }

  function Woken(pc: Waiter, wake: bool): Waiter {
    if wake && pc.WParked? then WLock(pc.sn) else pc
  }

  lemma {:induction false} JournalKeepsWaiter(pc: Waiter, j: Journal, g: Gate, slot: Slot, maxBatch: nat,
        syncEvery: bool, elapsed: bool, ok: bool, written: nat, failErr: bool)
    requires j.cursor == j.next && InvWaiter(pc, j.cursor, j.pc, failErr)
    requires HoldsMutex(pc) ==> !JournalerHoldsMutex(j.pc) && !JLocks(j.pc)
    requires failErr ==> j.pc.JFailFlag? || j.pc.JFailBroadcast? || j.pc.JFailUnlock? || j.pc.JExited?
    ensures var j' := JournalNext(j, g, slot, maxBatch, syncEvery, elapsed, ok, written);
            InvWaiter(Woken(pc, JWakes(j.pc)), j'.cursor, j'.pc, failErr || j.pc.JFailErr?)
  {
    JournalCursorMoves(j, g, slot, maxBatch, syncEvery, elapsed, ok, written);
  }

  lemma {:induction false} JournalMutexPc(j: Journal, g: Gate, slot: Slot, maxBatch: nat, syncEvery: bool,
        elapsed: bool, ok: bool, written: nat)
    ensures JournalerHoldsMutex(JournalNext(j, g, slot, maxBatch, syncEvery, elapsed, ok, written).pc)
            <==> JLocks(j.pc) || (JournalerHoldsMutex(j.pc) && !JUnlocks(j.pc))
  {
    match j.pc
    case JGather =>
    case JAppend =>
    case JIdleSync =>
    case _ =>
  }

  lemma {:induction false} JournalKeepsMutex(ws: seq<Waiter>, mutex: Mutex, j: Journal, g: Gate, slot: Slot,
        maxBatch: nat, syncEvery: bool, elapsed: bool, ok: bool, written: nat)
    requires InvMutex(ws, mutex, j.pc) && (JLocks(j.pc) ==> mutex.Free?)
    ensures InvMutex(if JWakes(j.pc) then WakeAll(ws) else ws,
                     if JLocks(j.pc) then HeldByJournaler else if JUnlocks(j.pc) then Free else mutex,
                     JournalNext(j, g, slot, maxBatch, syncEvery, elapsed, ok, written).pc)
  {
    JournalMutexPc(j, g, slot, maxBatch, syncEvery, elapsed, ok, written);
    MutexKept(ws, mutex, j.pc, JournalNext(j, g, slot, maxBatch, syncEvery, elapsed, ok, written).pc);
  }

  lemma {:induction false} MutexKept(ws: seq<Waiter>, mutex: Mutex, pc: JournalerPc, pc': JournalerPc)
    requires InvMutex(ws, mutex, pc) && (JLocks(pc) ==> mutex.Free?)
    requires JournalerHoldsMutex(pc') <==> JLocks(pc) || (JournalerHoldsMutex(pc) && !JUnlocks(pc))
    ensures InvMutex(if JWakes(pc) then WakeAll(ws) else ws,
                     if JLocks(pc) then HeldByJournaler else if JUnlocks(pc) then Free else mutex, pc')
  {
  }

  lemma {:induction false} EngineSeesCursor(e: Engine, log: seq<OrderEvent>, journalCursor: nat, journalCursor': nat)
    requires InvEngine(e, log, journalCursor) && journalCursor <= journalCursor'
    ensures InvEngine(e, log, journalCursor')
  {
  }

  /** The journaler reads a slot that its ticket still owns. */
  lemma {:induction false} JournalSlotSeen(s: State)
    requires Inv(s)
    ensures SlotSeen(s.j, SlotOf(s.slots, End(s.j)), s.gate.log, s.stamped)
  {
    var n := End(s.j);
    assert SlotOf(s.slots, n) == s.slots[n % |s.slots|];
  }

  lemma {:induction false} JournalKeepsWaiters(s: State, elapsed: bool, ok: bool, written: nat)
    requires Inv(s) && Enabled(s, RunJournaler(elapsed, ok, written))
    ensures var s' := JournalStep(s, elapsed, ok, written);
            InvWaiters(s'.waiters, s'.j.cursor, s'.j.pc, s'.failErr)
  {
    var s' := JournalStep(s, elapsed, ok, written);
    forall w | 0 <= w < |s'.waiters| ensures InvWaiter(s'.waiters[w], s'.j.cursor, s'.j.pc, s'.failErr) {
      assert InvWaiter(s.waiters[w], s.j.cursor, s.j.pc, s.failErr);
      JournalKeepsWaiter(s.waiters[w], s.j, s.gate, SlotOf(s.slots, End(s.j)), s.maxBatch, s.syncEvery, elapsed, ok,
        written, s.failErr);
      assert s'.waiters[w] == Woken(s.waiters[w], JWakes(s.j.pc));
    }
  }

  /** Parts of the invariant that a step of the journaler concerns. */
  lemma {:induction false} JournalChanged(s: State, s': State)
    requires Inv(s)
    requires s' == s.(j := s'.j, mutex := s'.mutex, waiters := s'.waiters, failErr := s'.failErr,
             failedFlag := s'.failedFlag)
    requires s.failedFlag ==> s'.failedFlag
    requires InvJournal(s'.j, s.gate.log, s.maxBatch, s.syncEvery) && InvTaken(s'.j, s.stamped)
    requires InvStop(s'.j, s.gate, s'.failErr, s'.failedFlag)
    requires InvMutex(s'.waiters, s'.mutex, s'.j.pc)
    requires InvWaiters(s'.waiters, s'.j.cursor, s'.j.pc, s'.failErr)
    requires s.j.cursor <= s'.j.cursor
    ensures Inv(s')
  {
    forall q | 0 <= q < |s.producers|
      ensures InvProducer(s.producers[q], q, s.gate, s.slots, s.stamped, s.e.cursor, s'.failedFlag)
    {
      assert InvProducer(s.producers[q], q, s.gate, s.slots, s.stamped, s.e.cursor, s.failedFlag);
    }
    EngineSeesCursor(s.e, s.gate.log, s.j.cursor, s'.j.cursor);
  }

  lemma {:induction false} JournalKeeps(s: State, elapsed: bool, ok: bool, written: nat)
    requires Inv(s) && Enabled(s, RunJournaler(elapsed, ok, written))
    ensures Inv(JournalStep(s, elapsed, ok, written))
  {
    hide InvWaiters, InvMutex, InvTaken, InvProducers, InvAccounted, JournalNext;
    var slot := SlotOf(s.slots, End(s.j));
    JournalSlotSeen(s);
    JournalNextKept(s.j, s.gate, slot, s.stamped, s.maxBatch, s.syncEvery, elapsed, ok, written);
    JournalStopKept(s.j, s.gate, slot, s.stamped, s.maxBatch, s.syncEvery, elapsed, ok, written, s.failErr,
      s.failedFlag);
    JournalKeepsMutex(s.waiters, s.mutex, s.j, s.gate, slot, s.maxBatch, s.syncEvery, elapsed, ok, written);
    JournalCursorMoves(s.j, s.gate, slot, s.maxBatch, s.syncEvery, elapsed, ok, written);
    JournalKeepsWaiters(s, elapsed, ok, written);
    JournalChanged(s, JournalStep(s, elapsed, ok, written));
  }

  // --- The consumer ---

  lemma {:induction false} EngineNextKept(e: Engine, g: Gate, slot: Slot, journalCursor: nat, failedFlag: bool)
    requires InvEngine(e, g.log, journalCursor) && InvEngineStop(e, g, failedFlag) && InvGate(g)
    requires journalCursor <= |g.log|
    requires e.pc.CRead? ==> slot.event == g.log[e.next]
    ensures InvEngine(EngineNext(e, g, slot, journalCursor, failedFlag), g.log, journalCursor)
    ensures InvEngineStop(EngineNext(e, g, slot, journalCursor, failedFlag), g, failedFlag)
    ensures e.cursor <= EngineNext(e, g, slot, journalCursor, failedFlag).cursor
  {
  }

  /** Parts of the invariant that a step of the consumer concerns. */
  lemma {:induction false} EngineChanged(s: State, e': Engine)
    requires Inv(s) && s.e.cursor <= e'.cursor
    requires InvEngine(e', s.gate.log, s.j.cursor) && InvEngineStop(e', s.gate, s.failedFlag)
    ensures Inv(s.(e := e'))
  {
    forall q | 0 <= q < |s.producers|
      ensures InvProducer(s.producers[q], q, s.gate, s.slots, s.stamped, e'.cursor, s.failedFlag)
    {
      assert InvProducer(s.producers[q], q, s.gate, s.slots, s.stamped, s.e.cursor, s.failedFlag);
    }
  }

  lemma {:induction false} EngineKeeps(s: State)
    requires Inv(s) && Enabled(s, RunConsumer)
    ensures Inv(EngineStep(s))
  {
    assert s.e.pc.CRead? ==> s.e.next in s.stamped;
    EngineNextKept(s.e, s.gate, SlotOf(s.slots, s.e.next), s.j.cursor, s.failedFlag);
    EngineChanged(s, EngineNext(s.e, s.gate, SlotOf(s.slots, s.e.next), s.j.cursor, s.failedFlag));
  }

  // --- Close ---

  lemma {:induction false} CloseKeepsGate(g: Gate)
    requires InvGate(g)
    ensures InvGate(CloseNext(g))
    ensures CloseNext(g).log == g.log && CloseNext(g).claimant == g.claimant && CloseNext(g).refused == g.refused
    ensures g.closedFlag ==> CloseNext(g) == g
    ensures !g.pc.KOpen? ==> !CloseNext(g).pc.KOpen?
  {
    if g.pc.KOpen? { NoWrap(g.claimCursor, CLOSED_BIT); }
    if g.pc.KFinal? { NoWrap(|g.log|, CLOSED_BIT); }
  }

  lemma {:induction false} CloseKeeps(s: State)
    requires Inv(s)
    ensures Inv(s.(gate := CloseNext(s.gate)))
  {
    var g' := CloseNext(s.gate);
    CloseKeepsGate(s.gate);
    forall q | 0 <= q < |s.producers|
      ensures InvProducer(s.producers[q], q, g', s.slots, s.stamped, s.e.cursor, s.failedFlag)
    {
      assert InvProducer(s.producers[q], q, s.gate, s.slots, s.stamped, s.e.cursor, s.failedFlag);
    }
  }

  // --- All steps ---

  /** A goroutine calls, or takes its result and leaves. */
  lemma {:induction false} CallKeeps(s: State, p: nat, pc': Producer)
    requires Inv(s) && p < |s.producers| && !Holding(s.producers[p]) && (pc'.PIdle? || pc'.PCheckFailed?)
    ensures Inv(s.(producers := s.producers[p := pc']))
  {
    PositionKept(s, s.(producers := s.producers[p := pc']), p);
  }

  lemma {:induction false} WaitCallKeeps(s: State, w: nat, pc': Waiter)
    requires Inv(s) && w < |s.waiters| && (pc'.WIdle? || pc'.WFast?) && !HoldsMutex(s.waiters[w])
    ensures Inv(s.(waiters := s.waiters[w := pc']))
  {
  }

  lemma {:induction false} StepKeeps(s: State, step: Step)
    requires Inv(s) && Enabled(s, step) && Claims(Apply(s, step).gate) < U63
    ensures Inv(Apply(s, step))
  {
    hide Inv, PublishStep, JournalStep, WaitStep;
    match step
    case Call(p, ev) => CallKeeps(s, p, PCheckFailed(ev));
    case Publish(p) => PublishKeeps(s, p);
    case Return(p) => CallKeeps(s, p, PIdle);
    case WaitCall(w, sn) => WaitCallKeeps(s, w, WFast(sn));
    case Wait(w) => WaitKeeps(s, w);
    case WaitReturn(w) => WaitCallKeeps(s, w, WIdle);
    case StartJournaler => StartJournalerKeeps(s);
    case RunJournaler(e, o, n) => JournalKeeps(s, e, o, n);
    case StartConsumer => StartConsumerKeeps(s);
    case RunConsumer => EngineKeeps(s);
    case Close => CloseKeeps(s);
  }

  lemma {:induction false} StartConsumerKeeps(s: State)
    requires Inv(s) && s.e.pc.COff?
    ensures Inv(s.(e := s.e.(pc := CCheckCursor)))
  {
    EngineChanged(s, s.e.(pc := CCheckCursor));
  }

  lemma {:induction false} StartJournalerKeeps(s: State)
    requires Inv(s) && s.j.pc.JOff?
    ensures Inv(s.(j := s.j.(pc := JGather)))
  {
    var s' := s.(j := s.j.(pc := JGather));
    assert s.j.wal + [] == s.j.wal;
    forall w | 0 <= w < |s'.waiters| ensures InvWaiter(s'.waiters[w], s'.j.cursor, s'.j.pc, s'.failErr) {
      assert InvWaiter(s.waiters[w], s.j.cursor, s.j.pc, s.failErr);
    }
    JournalChanged(s, s');
  }

  lemma {:induction false} NextKeeps(s: State, s': State)
    requires Inv(s) && Next(s, s') && Claims(s'.gate) < U63
    ensures Inv(s')
  {
    var step :| Enabled(s, step) && s' == Apply(s, step);
    StepKeeps(s, step);
  }

  lemma {:induction false} PathSafe(run: seq<State>)
    requires IsPath(run) && Inv(run[0])
    ensures Inv(run[|run| - 1])
  {
    var n := |run| - 1;
    if n > 0 {
      PathSafe(run[..n]);
      NextKeeps(run[n - 1], run[n]);
    }
  }

  /** Every state of every run satisfies the invariant. */
  lemma {:induction false} ReachableSafe(s: State)
    requires Reachable(s)
    ensures Inv(s)
  {
    var run :| IsRun(run) && run[|run| - 1] == s;
    InitEstablishes(run[0]);
    PathSafe(run);
  }
}
