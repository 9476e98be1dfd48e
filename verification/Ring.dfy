/**
 The journaled ring buffer as a state machine over its atomic actions: any number
 of producers calling Publish, any number of goroutines calling WaitDurable, the
 journaler, the consumer and Close. One step is one atomic load, store or add, one
 plain access to a slot, one call of the journal, or one operation on durMu and its
 condition variable; the few lines that journalFailure runs under durMu are one step.
 Producers, waiters, the moment a stage starts, the outcome of
 every journal call and the passing of SyncInterval are chosen by the environment.
 */
module Ring {
  import opened Events

  const CLOSED_BIT: nat := U63

  function Add64(a: nat, b: nat): nat { (a + b) % U64 }
  function Sub64(a: nat, b: nat): nat { (a - b) % U64 }

  datatype Slot = Slot(event: OrderEvent, published: nat)

  datatype PublishError = ErrClosed | ErrJournalFailed

  /** Where a goroutine stands inside Publish. */
  datatype Producer =
    | PIdle
    | PCheckFailed(ev: OrderEvent)               // load failedFlag on entry
    | PClaim(ev: OrderEvent)                     // add 1 to claimCursor
    | PCheckSpace(ev: OrderEvent, sn: nat)       // load consumerCursor
    | PRecheckFailed(ev: OrderEvent, sn: nat)    // ring full: load failedFlag
    | PWrite(ev: OrderEvent, sn: nat)            // write the event into the slot
    | PStamp(ev: OrderEvent, sn: nat)            // store sn+1 into the slot's stamp
    | PJournalFailure(ev: OrderEvent)            // failed: journalFailure reads failErr under durMu
    | POk(ev: OrderEvent, sn: nat)
    | PErr(ev: OrderEvent, error: PublishError)

  /** Where a goroutine stands inside WaitDurable. */
  datatype Waiter =
    | WIdle
    | WFast(sn: nat)                 // load journalCursor without the lock
    | WLock(sn: nat)                 // acquire durMu (first time, or after a wakeup)
    | WCheck(sn: nat)                // holding durMu: load journalCursor
    | WInspect(sn: nat)              // holding durMu: read failErr
    | WPark(sn: nat)                 // holding durMu: Wait enqueues and unlocks
    | WParked(sn: nat)               // in the queue of durCond
    | WRelease(sn: nat, ok: bool)    // holding durMu: deferred unlock
    | WDone(sn: nat, ok: bool)

  /** Where the journaler stands inside StartJournaler. */
  datatype JournalerPc =
    | JOff
    | JGather          // size test and load of the stamp at next + len(batch)
    | JGrab            // stamp was there: copy the event
    | JIdleSync        // idle, dirty and interval elapsed: Sync
    | JCheckClosed     // idle: load closedFlag
    | JCheckFinal      // closed: load finalSeq
    | JExitSync        // drained but dirty: last Sync
    | JAppend | JSync
    | JStore           // store journalCursor
    | JLock | JBroadcast | JUnlock
    | JFailLock | JFailErr | JFailFlag | JFailBroadcast | JFailUnlock
    | JExited

  /** Where the consumer stands inside StartConsumer. */
  datatype ConsumerPc =
    | COff
    | CCheckCursor     // load journalCursor
    | CCheckFailed     // load failedFlag
    | CCheckClosed     // load closedFlag
    | CCheckFinal      // load finalSeq
    | CRead            // copy the event out of the slot
    | CHandle(ev: OrderEvent)
    | CStore           // store consumerCursor
    | CExited

  datatype CloserPc = KOpen | KFinal(accepted: nat) | KFlag | KClosed

  datatype Mutex = Free | HeldByWaiter(w: nat) | HeldByJournaler

  /** The claiming side. log, claimant and refused record who took which ticket. */
  datatype Gate = Gate(claimCursor: nat, finalSeq: nat, closedFlag: bool, pc: CloserPc,
                       log: seq<OrderEvent>, claimant: seq<nat>, refused: nat)

  /** The journaler, its locals, journalCursor and the file it writes. */
  datatype Journal = Journal(pc: JournalerPc, next: nat, batch: seq<OrderEvent>, dirty: bool,
                             cursor: nat, wal: seq<OrderEvent>, synced: nat)

  /** The consumer, its local, consumerCursor and every event given to OnEvent. */
  datatype Engine = Engine(pc: ConsumerPc, next: nat, cursor: nat, history: seq<OrderEvent>)

  datatype State = State(
    maxBatch: nat, syncEvery: bool,          // JournalOptions; syncEvery is SyncInterval <= 0
    gate: Gate,
    slots: seq<Slot>, stamped: set<nat>,     // stamped records the tickets whose stamp was stored
    producers: seq<Producer>,
    j: Journal,
    e: Engine,
    waiters: seq<Waiter>, mutex: Mutex,
    failErr: bool, failedFlag: bool)

  /** Everything the environment decides about one step. */
  datatype Step =
    | Call(p: nat, ev: OrderEvent) | Publish(p: nat) | Return(p: nat)
    | WaitCall(w: nat, sn: nat) | Wait(w: nat) | WaitReturn(w: nat)
    | StartJournaler | RunJournaler(elapsed: bool, ok: bool, written: nat)
    | StartConsumer | RunConsumer
    | Close

  predicate Shape(s: State) {
    |s.slots| > 0 && s.maxBatch > 0
  }

  /** The slot of ticket n: n & bitMask, the length being a power of two. */
  function SlotOf(slots: seq<Slot>, n: nat): Slot
    requires |slots| > 0
  {
    slots[n % |slots|]
  }

  function PutSlot(slots: seq<Slot>, n: nat, v: Slot): seq<Slot>
    requires |slots| > 0
  {
    slots[n % |slots| := v]
  }

  /** seq := claimCursor++; a ticket with bit 63 set is refused. */
  function Claim(g: Gate, p: nat, ev: OrderEvent): (Gate, Producer) {
    var cursor := Add64(g.claimCursor, 1);
    var sn := Sub64(cursor, 1);
    if sn >= CLOSED_BIT then
      (g.(claimCursor := cursor, refused := g.refused + 1), PErr(ev, ErrClosed))
    else
      (g.(claimCursor := cursor, log := g.log + [ev], claimant := g.claimant + [p]), PCheckSpace(ev, sn))
  }

  function PublishStep(s: State, p: nat): State
    requires Shape(s) && p < |s.producers|
  {
    match s.producers[p]
    case PCheckFailed(ev) =>
      s.(producers := s.producers[p := if s.failedFlag then PJournalFailure(ev) else PClaim(ev)])
    case PClaim(ev) =>
      var (gate, pc) := Claim(s.gate, p, ev);
      s.(gate := gate, producers := s.producers[p := pc])
    case PCheckSpace(ev, sn) =>
      var full := Sub64(sn, s.e.cursor) >= |s.slots|;
      s.(producers := s.producers[p := if full then PRecheckFailed(ev, sn) else PWrite(ev, sn)])
    case PRecheckFailed(ev, sn) =>
      s.(producers := s.producers[p := if s.failedFlag then PJournalFailure(ev) else PCheckSpace(ev, sn)])
    case PWrite(ev, sn) =>
      s.(slots := PutSlot(s.slots, sn, SlotOf(s.slots, sn).(event := ev)),
         producers := s.producers[p := PStamp(ev, sn)])
    case PStamp(ev, sn) =>
      s.(slots := PutSlot(s.slots, sn, SlotOf(s.slots, sn).(published := Add64(sn, 1))),
         stamped := s.stamped + {sn},
         producers := s.producers[p := POk(ev, sn)])
    case PJournalFailure(ev) =>
      s.(producers := s.producers[p := PErr(ev, ErrJournalFailed)])
    case _ => s
  }

  predicate Locks(pc: Waiter) { pc.WLock? }
  predicate Unlocks(pc: Waiter) { pc.WPark? || pc.WRelease? }

  function WaiterNext(pc: Waiter, journalCursor: nat, failErr: bool): Waiter {
    match pc
    case WFast(sn) => if journalCursor > sn then WDone(sn, true) else WLock(sn)
    case WLock(sn) => WCheck(sn)
    case WCheck(sn) => if journalCursor <= sn then WInspect(sn) else WRelease(sn, true)
    case WInspect(sn) => if failErr then WRelease(sn, false) else WPark(sn)
    case WPark(sn) => WParked(sn)
    case WRelease(sn, ok) => WDone(sn, ok)
    case _ => pc
  }

  function WaitStep(s: State, w: nat): State
    requires w < |s.waiters|
  {
    var pc := s.waiters[w];
    s.(waiters := s.waiters[w := WaiterNext(pc, s.j.cursor, s.failErr)],
       mutex := if Locks(pc) then HeldByWaiter(w) else if Unlocks(pc) then Free else s.mutex)
  }

  /** Broadcast: every parked goroutine must go back for the lock. */
  function WakeAll(ws: seq<Waiter>): (r: seq<Waiter>)
    ensures |r| == |ws|
    ensures forall i :: 0 <= i < |ws| ==> r[i] == if ws[i].WParked? then WLock(ws[i].sn) else ws[i]
  {
    seq(|ws|, i requires 0 <= i < |ws| => if ws[i].WParked? then WLock(ws[i].sn) else ws[i])
  }

  /** One past the last event the journaler has copied out of the ring. */
  function End(j: Journal): nat { j.next + |j.batch| }

  function Min(a: nat, b: nat): nat { if a < b then a else b }

  function SyncThen(j: Journal, ok: bool, next: JournalerPc): Journal {
    if ok then j.(synced := |j.wal|, dirty := false, pc := next) else j.(pc := JFailLock)
  }

  /** A failed Append may still have written a prefix of the batch. */
  function AppendBatch(j: Journal, syncEvery: bool, elapsed: bool, ok: bool, written: nat): Journal {
    if !ok then j.(wal := j.wal + j.batch[..Min(written, |j.batch|)], pc := JFailLock)
    else if syncEvery then j.(wal := j.wal + j.batch, pc := JSync)
    else j.(wal := j.wal + j.batch, dirty := true, pc := if elapsed then JSync else JStore)
  }

  /** slot is the one at End(j), the only slot the journaler looks at. */
  function Gather(j: Journal, slot: Slot, maxBatch: nat, elapsed: bool): Journal {
    if |j.batch| >= maxBatch then j.(pc := JAppend)
    else if slot.published == Add64(End(j), 1) then j.(pc := JGrab)
    else if j.batch != [] then j.(pc := JAppend)
    else j.(pc := if j.dirty && elapsed then JIdleSync else JCheckClosed)
  }

  function JournalNext(j: Journal, g: Gate, slot: Slot, maxBatch: nat, syncEvery: bool, elapsed: bool, ok: bool,
        written: nat): Journal {
    match j.pc
    case JGather => Gather(j, slot, maxBatch, elapsed)
    case JGrab => j.(batch := j.batch + [slot.event], pc := JGather)
    case JIdleSync => SyncThen(j, ok, JCheckClosed)
    case JCheckClosed => j.(pc := if g.closedFlag then JCheckFinal else JGather)
    case JCheckFinal =>
      j.(pc := if j.next < g.finalSeq then JGather else if j.dirty then JExitSync else JExited)
    case JExitSync => SyncThen(j, ok, JExited)
    case JAppend => AppendBatch(j, syncEvery, elapsed, ok, written)
    case JSync => SyncThen(j, ok, JStore)
    case JStore => j.(cursor := End(j), next := End(j), batch := [], pc := JLock)
    case JLock => j.(pc := JBroadcast)
    case JBroadcast => j.(pc := JUnlock)
    case JUnlock => j.(pc := JGather)
    case JFailLock => j.(pc := JFailErr)
    case JFailErr => j.(pc := JFailFlag)
    case JFailFlag => j.(pc := JFailBroadcast)
    case JFailBroadcast => j.(pc := JFailUnlock)
    case JFailUnlock => j.(pc := JExited)
    case _ => j
  }

  predicate JLocks(pc: JournalerPc) { pc.JLock? || pc.JFailLock? }
  predicate JUnlocks(pc: JournalerPc) { pc.JUnlock? || pc.JFailUnlock? }
  predicate JWakes(pc: JournalerPc) { pc.JBroadcast? || pc.JFailBroadcast? }

  function JournalStep(s: State, elapsed: bool, ok: bool, written: nat): State
    requires Shape(s)
  {
    var pc := s.j.pc;
    s.(j := JournalNext(s.j, s.gate, SlotOf(s.slots, End(s.j)), s.maxBatch, s.syncEvery, elapsed, ok, written),
       mutex := if JLocks(pc) then HeldByJournaler else if JUnlocks(pc) then Free else s.mutex,
       waiters := if JWakes(pc) then WakeAll(s.waiters) else s.waiters,
       failErr := s.failErr || pc.JFailErr?,
       failedFlag := s.failedFlag || pc.JFailFlag?)
  }

  function EngineNext(e: Engine, g: Gate, slot: Slot, journalCursor: nat, failedFlag: bool): Engine {
    match e.pc
    case CCheckCursor => e.(pc := if e.next < journalCursor then CRead else CCheckFailed)
    case CCheckFailed => e.(pc := if failedFlag then CExited else CCheckClosed)
    case CCheckClosed => e.(pc := if g.closedFlag then CCheckFinal else CCheckCursor)
    case CCheckFinal => e.(pc := if e.next >= g.finalSeq then CExited else CCheckCursor)
    case CRead => e.(pc := CHandle(slot.event))
    case CHandle(ev) => e.(history := e.history + [ev], pc := CStore)
    case CStore => e.(next := e.next + 1, cursor := e.next + 1, pc := CCheckCursor)
    case _ => e
  }

  function EngineStep(s: State): State
    requires Shape(s)
  {
    s.(e := EngineNext(s.e, s.gate, SlotOf(s.slots, s.e.next), s.j.cursor, s.failedFlag))
  }

  function CloseNext(g: Gate): Gate {
    match g.pc
    case KOpen =>
      var accepted := Add64(g.claimCursor, CLOSED_BIT);
      g.(claimCursor := accepted, pc := KFinal(accepted))
    case KFinal(accepted) => g.(finalSeq := Sub64(accepted, CLOSED_BIT), pc := KFlag)
    case KFlag => g.(closedFlag := true, pc := KClosed)
    case KClosed => g
  }

  predicate Busy(pc: Producer) { !pc.PIdle? && !pc.POk? && !pc.PErr? }
  predicate Running(pc: Waiter) { !pc.WIdle? && !pc.WDone? && !pc.WParked? }

  predicate Enabled(s: State, step: Step) {
    match step
    case Call(p, _) => p < |s.producers| && s.producers[p].PIdle?
    case Publish(p) => p < |s.producers| && Busy(s.producers[p]) && (s.producers[p].PJournalFailure? ==> s.mutex.Free?)
    case Return(p) => p < |s.producers| && (s.producers[p].POk? || s.producers[p].PErr?)
    case WaitCall(w, _) => w < |s.waiters| && s.waiters[w].WIdle?
    case Wait(w) => w < |s.waiters| && Running(s.waiters[w]) && (Locks(s.waiters[w]) ==> s.mutex.Free?)
    case WaitReturn(w) => w < |s.waiters| && s.waiters[w].WDone?
    case StartJournaler => s.j.pc.JOff?
    case RunJournaler(_, _, _) => !s.j.pc.JOff? && !s.j.pc.JExited? && (JLocks(s.j.pc) ==> s.mutex.Free?)
    case StartConsumer => s.e.pc.COff?
    case RunConsumer => !s.e.pc.COff? && !s.e.pc.CExited?
    case Close => !s.gate.pc.KClosed?
  }

  function Apply(s: State, step: Step): State
    requires Shape(s) && Enabled(s, step)
  {
    match step
    case Call(p, ev) => s.(producers := s.producers[p := PCheckFailed(ev)])
    case Publish(p) => PublishStep(s, p)
    case Return(p) => s.(producers := s.producers[p := PIdle])
    case WaitCall(w, sn) => s.(waiters := s.waiters[w := WFast(sn)])
    case Wait(w) => WaitStep(s, w)
    case WaitReturn(w) => s.(waiters := s.waiters[w := WIdle])
    case StartJournaler => s.(j := s.j.(pc := JGather))
    case RunJournaler(elapsed, ok, written) => JournalStep(s, elapsed, ok, written)
    case StartConsumer => s.(e := s.e.(pc := CCheckCursor))
    case RunConsumer => EngineStep(s)
    case Close => s.(gate := CloseNext(s.gate))
  }

  ghost predicate Next(s: State, s': State) {
    Shape(s) && exists step :: Enabled(s, step) && s' == Apply(s, step)
  }

  /** NewJournaledRingBuffer: an empty ring; no goroutine is inside it yet. */
  ghost predicate Init(s: State) {
    && Shape(s)
    && s.gate == Gate(0, 0, false, KOpen, [], [], 0)
    && (forall i :: 0 <= i < |s.slots| ==> s.slots[i].published == 0) && s.stamped == {}
    && s.j == Journal(JOff, 0, [], false, 0, [], 0)
    && s.e == Engine(COff, 0, 0, [])
    && (forall i :: 0 <= i < |s.producers| ==> s.producers[i].PIdle?)
    && (forall i :: 0 <= i < |s.waiters| ==> s.waiters[i].WIdle?)
    && s.mutex.Free? && !s.failErr && !s.failedFlag
  }

  /** Tickets handed out by Publish, including those refused after Close. */
  function Claims(g: Gate): nat { |g.log| + g.refused }

  /** Consecutive states; tickets stay below 2^63, as closedBit requires. */
  ghost predicate IsPath(run: seq<State>) {
    if |run| <= 1 then |run| == 1
    else
      var n := |run| - 1;
      IsPath(run[..n]) && Next(run[n - 1], run[n]) && Claims(run[n].gate) < U63
  }

  ghost predicate IsRun(run: seq<State>) {
    IsPath(run) && Init(run[0])
  }

  ghost predicate Reachable(s: State) {
    exists run :: IsRun(run) && run[|run| - 1] == s
  }
}
