/**
 The ring never deadlocks. A lexicographic measure of the work left never grows
 between two claims; as long as an accepted event is unprocessed, or the ring is
 closed and a stage is still running, one goroutine is enabled all of whose steps
 lower it (or find a failing journal), and it stays the one until it is lowered.
 */
module RingLiveness {
  import opened Events
  import opened Ring
  import opened RingSafety

  // --- Ranks: how far each goroutine is from its next contribution ---

  /** Everything accepted has gone past mark n, and the stage can know it. */
  predicate Drained(g: Gate, n: nat) { g.closedFlag && n >= g.finalSeq }

  function JournalRank(pc: JournalerPc, empty: bool, visible: bool, drained: bool): nat {
    match pc
    case JOff => 30
    case JUnlock => 21
    case JBroadcast => 22
    case JLock => 23
    case JGather => if !empty then 10 else if visible then 11 else if drained then 15 else 20
    case JGrab => 9
    case JAppend => 8
    case JSync => 7
    case JStore => 6
    case JIdleSync => if visible || drained then 14 else 20
    case JCheckClosed => if visible || drained then 13 else 20
    case JCheckFinal => if visible || drained then 12 else 20
    case JExitSync => 11
    case _ => 0
  }

  function EngineRank(pc: ConsumerPc, visible: bool, drained: bool): nat {
    match pc
    case COff => 30
    case CCheckFailed => if visible || drained then 9 else 15
    case CCheckClosed => if visible || drained then 8 else 15
    case CCheckFinal => if visible || drained then 7 else 15
    case CCheckCursor => if visible then 6 else if drained then 10 else 15
    case CRead => 5
    case CHandle(_) => 4
    case CStore => 3
    case CExited => 0
  }

  function ProducerRank(pc: Producer, consumerCursor: nat, cap: nat): nat {
    match pc
    case PCheckSpace(_, sn) => if sn < consumerCursor + cap then 3 else 5
    case PRecheckFailed(_, sn) => if sn < consumerCursor + cap then 4 else 5
    case PWrite(_, _) => 2
    case PStamp(_, _) => 1
    case _ => 0
  }

  function ProducersRank(ps: seq<Producer>, consumerCursor: nat, cap: nat): nat {
    if ps == [] then 0 else ProducersRank(ps[1..], consumerCursor, cap) + ProducerRank(ps[0], consumerCursor, cap)
  }

  function WaiterRank(pc: Waiter): nat {
    match pc
    case WFast(_) => 6
    case WLock(_) => 5
    case WCheck(_) => 4
    case WInspect(_) => 3
    case WPark(_) => 2
    case WRelease(_, _) => 1
    case _ => 0
  }

  function Total<T>(xs: seq<T>, f: T -> nat): nat {
    if xs == [] then 0 else Total(xs[1..], f) + f(xs[0])
  }

  function WaitersRank(ws: seq<Waiter>): nat { Total(ws, WaiterRank) }

  function Monus(a: nat, b: nat): nat { if a < b then 0 else a - b }

  ghost function JournalWork(j: Journal, g: Gate, stamped: set<nat>): nat {
    30 * Monus(|g.log|, End(j)) + 30 * Monus(|g.log|, j.cursor)
    + JournalRank(j.pc, j.batch == [], End(j) in stamped, Drained(g, j.next))
  }

  ghost function EngineWork(e: Engine, g: Gate, journalCursor: nat): nat {
    20 * Monus(|g.log|, e.next) + EngineRank(e.pc, e.next < journalCursor, Drained(g, e.next))
  }

  /** Work that moves events; waiters are ranked below it. */
  ghost function Work(s: State): nat {
    ProducersRank(s.producers, s.e.cursor, |s.slots|) + JournalWork(s.j, s.gate, s.stamped) + EngineWork(s.e, s.gate,
      s.j.cursor)
  }

  /** Lexicographic: less work, or the same work and waiters closer to being out of the way. */
  ghost predicate Lower(t: State, s: State) {
    Work(t) < Work(s) || (Work(t) == Work(s) && WaitersRank(t.waiters) < WaitersRank(s.waiters))
  }

  ghost predicate SameMeasure(t: State, s: State) {
    Work(t) == Work(s) && WaitersRank(t.waiters) == WaitersRank(s.waiters)
  }

  // --- Who has to move ---

  datatype Process = TheProducer(p: nat) | TheWaiter(w: nat) | TheJournaler | TheConsumer

  /** The steps a process takes on its own. */
  predicate StepOf(q: Process, step: Step) {
    match q
    case TheProducer(p) => step == Publish(p)
    case TheWaiter(w) => step == Wait(w)
    case TheJournaler => step.RunJournaler?
    case TheConsumer => step.RunConsumer?
  }

  predicate Unfailed(s: State) { !s.failErr && !Failing(s.j.pc) }

  predicate Started(s: State) { !s.j.pc.JOff? && !s.e.pc.COff? }

  /** An accepted event is unprocessed, or the closed ring still has a stage running. */
  predicate Unfinished(s: State) {
    || |s.e.history| < |s.gate.log|
    || s.e.next < |s.gate.log|
    || (s.gate.closedFlag && !(s.j.pc.JExited? && s.e.pc.CExited?))
  }

  ghost predicate EngineBusy(s: State) {
    !s.e.pc.CExited? && (s.e.next < s.j.cursor || Drained(s.gate, s.e.next))
  }

  ghost predicate JournalBusy(s: State) {
    && !s.j.pc.JExited?
    && (s.j.pc.JLock? || s.j.pc.JBroadcast? || s.j.pc.JUnlock? || s.j.batch != []
        || End(s.j) in s.stamped || Drained(s.gate, s.j.next))
  }

  ghost function Helpful(s: State): Process {
    if EngineBusy(s) then TheConsumer
    else if JournalBusy(s) then
      if JLocks(s.j.pc) && s.mutex.HeldByWaiter? then TheWaiter(s.mutex.w) else TheJournaler
    else if End(s.j) < |s.gate.claimant| then TheProducer(s.gate.claimant[End(s.j)])
    else TheJournaler
  }

  /** Steps that bring new work in from outside. */
  predicate Outside(s: State, step: Step) {
    || step.Call? || step.Return? || step.WaitCall? || step.WaitReturn? || step.StartJournaler? || step.StartConsumer?
    || step.Close?
    || (step.Publish? && step.p < |s.producers| && s.producers[step.p].PClaim?)
  }

  // --- Sums ---

  lemma {:induction false} ProducersRankAt(ps: seq<Producer>, p: nat, pc: Producer, cc: nat, cap: nat)
    requires p < |ps|
    ensures ProducersRank(ps[p := pc], cc, cap) + ProducerRank(ps[p], cc, cap)
            == ProducersRank(ps, cc, cap) + ProducerRank(pc, cc, cap)
  {
    if p == 0 {
      assert ps[p := pc][1..] == ps[1..];
    } else {
      assert ps[p := pc][1..] == ps[1..][p - 1 := pc];
      ProducersRankAt(ps[1..], p - 1, pc, cc, cap);
    }
  }

  /** Freeing slots brings no producer further from its goal. */
  lemma {:induction false} ProducersRankFalls(ps: seq<Producer>, cc: nat, cc': nat, cap: nat)
    requires cc <= cc'
    ensures ProducersRank(ps, cc', cap) <= ProducersRank(ps, cc, cap)
  {
    if ps != [] { ProducersRankFalls(ps[1..], cc, cc', cap); }
  }

  lemma {:induction false} TotalAt<T>(xs: seq<T>, i: nat, x: T, f: T -> nat)
    requires i < |xs|
    ensures Total(xs[i := x], f) + f(xs[i]) == Total(xs, f) + f(x)
  {
    if i == 0 {
      assert xs[i := x][1..] == xs[1..];
    } else {
      assert xs[i := x][1..] == xs[1..][i - 1 := x];
      TotalAt(xs[1..], i - 1, x, f);
    }
  }

  lemma {:induction false} TotalMonotone<T>(xs: seq<T>, ys: seq<T>, f: T -> nat)
    requires |xs| == |ys| && forall i :: 0 <= i < |xs| ==> f(ys[i]) <= f(xs[i])
    ensures Total(ys, f) <= Total(xs, f)
  {
    if xs != [] { TotalMonotone(xs[1..], ys[1..], f); }
  }

  // --- Each kind of step ---

  /** What a step may do to the measure; strict says it must go down. */
  ghost predicate Moves(s: State, s': State, strict: bool) {
    || Lower(s', s)
    || (!strict && SameMeasure(s', s))
  }

  lemma {:induction false} WaitMoves(s: State, w: nat)
    requires Inv(s) && Enabled(s, Wait(w))
    ensures Lower(WaitStep(s, w), s)
    ensures Work(WaitStep(s, w)) == Work(s)
  {
    TotalAt(s.waiters, w, WaiterNext(s.waiters[w], s.j.cursor, s.failErr), WaiterRank);
  }

  lemma {:induction false} StampMakesVisible(j: Journal, g: Gate, stamped: set<nat>, sn: nat)
    ensures JournalWork(j, g, stamped + {sn}) <= JournalWork(j, g, stamped)
  {
  }

  /** Publish's own rank: room in the ring means every action is progress. */
  lemma {:induction false} ProducerRankFalls(s: State, p: nat)
    requires Inv(s) && p < |s.producers| && Busy(s.producers[p]) && !s.producers[p].PClaim?
    ensures var pc, pc', room := s.producers[p], PublishStep(s, p).producers[p], s.e.cursor + |s.slots|;
            && ProducerRank(pc', s.e.cursor, |s.slots|) <= ProducerRank(pc, s.e.cursor, |s.slots|)
            && (Holding(pc) && pc.sn < room && !s.failedFlag ==>
                ProducerRank(pc', s.e.cursor, |s.slots|) < ProducerRank(pc, s.e.cursor, |s.slots|))
  {
    var pc := s.producers[p];
    if Holding(pc) {
      assert InvProducer(pc, p, s.gate, s.slots, s.stamped, s.e.cursor, s.failedFlag);
      HeldAboveConsumer(pc.sn, s.j, s.e, s.gate.log, s.stamped);
      NoWrap(pc.sn - s.e.cursor, s.e.cursor);
    }
  }

  lemma {:induction false} PublishMoves(s: State, p: nat)
    requires Inv(s) && Enabled(s, Publish(p)) && !s.producers[p].PClaim?
    ensures Moves(s, PublishStep(s, p), false)
    ensures Holding(s.producers[p]) && s.producers[p].sn < s.e.cursor + |s.slots| && !s.failedFlag ==>
             Lower(PublishStep(s, p), s)
  {
    var s' := PublishStep(s, p);
    var pc := s.producers[p];
    ProducerRankFalls(s, p);
    ProducersRankAt(s.producers, p, s'.producers[p], s.e.cursor, |s.slots|);
    PublishFrame(s, p);
    if pc.PStamp? { StampMakesVisible(s.j, s.gate, s.stamped, pc.sn); }
  }

  lemma {:induction false} PublishFrame(s: State, p: nat)
    requires Shape(s) && p < |s.producers| && !s.producers[p].PClaim?
    ensures var s' := PublishStep(s, p);
            && s' == s.(slots := s'.slots, stamped := s'.stamped, producers := s.producers[p := s'.producers[p]])
            && |s'.slots| == |s.slots|
            && s'.stamped == (if s.producers[p].PStamp? then s.stamped + {s.producers[p].sn} else s.stamped)
  {
    assert s.producers == s.producers[p := s.producers[p]];
  }

  lemma {:induction false} GatherMoves(j: Journal, g: Gate, slot: Slot, stamped: set<nat>, maxBatch: nat,
        syncEvery: bool, elapsed: bool)
    requires j.pc.JGather? && maxBatch > 0 && |g.log| < U63
    requires InvJournal(j, g.log, maxBatch, syncEvery) && InvTaken(j, stamped)
    requires slot.published == End(j) + 1 <==> End(j) in stamped
    ensures JournalWork(Gather(j, slot, maxBatch, elapsed), g, stamped) <= JournalWork(j, g, stamped)
    ensures (j.batch != [] || End(j) in stamped || Drained(g, j.next)) ==>
              JournalWork(Gather(j, slot, maxBatch, elapsed), g, stamped) < JournalWork(j, g, stamped)
  {
    NoWrap(End(j), 1);
  }

  lemma {:induction false} GrabMoves(j: Journal, g: Gate, stamped: set<nat>, ev: OrderEvent)
    requires j.pc.JGrab? && End(j) < |g.log|
    ensures JournalWork(j.(batch := j.batch + [ev], pc := JGather), g, stamped) < JournalWork(j, g, stamped)
  {
  }

  lemma {:induction false} StoreMoves(j: Journal, g: Gate, stamped: set<nat>)
    requires j.pc.JStore? && j.batch != [] && End(j) <= |g.log| && j.cursor == j.next
    ensures JournalWork(j.(cursor := End(j), next := End(j), batch := [], pc := JLock), g, stamped) < JournalWork(j, g,
             stamped)
  {
  }

  /** Actions of the journaler that take or release no event. */
  lemma {:induction false} InnerMoves(j: Journal, g: Gate, slot: Slot, stamped: set<nat>, maxBatch: nat,
        syncEvery: bool, elapsed: bool, ok: bool, written: nat)
    requires !j.pc.JOff? && !j.pc.JExited? && !Failing(j.pc) && !j.pc.JGather? && !j.pc.JGrab? && !j.pc.JStore?
    requires InvGate(g) && InvJournal(j, g.log, maxBatch, syncEvery) && InvTaken(j, stamped)
    requires End(j) in stamped ==> End(j) < |g.log|
    requires j.pc.JCheckFinal? || j.pc.JExitSync? ==> g.closedFlag
    ensures var j' := JournalNext(j, g, slot, maxBatch, syncEvery, elapsed, ok, written);
            && (Failing(j'.pc) || JournalWork(j', g, stamped) <= JournalWork(j, g, stamped))
            && (Failing(j'.pc) || JournalWork(j', g, stamped) < JournalWork(j, g, stamped)
                || !(j.pc.JLock? || j.pc.JBroadcast? || j.pc.JUnlock? || j.batch != [] || End(j) in stamped
                  || Drained(g, j.next)))
  {
  }

  lemma {:induction false} JournalNextMoves(j: Journal, g: Gate, slot: Slot, stamped: set<nat>, maxBatch: nat,
        syncEvery: bool, elapsed: bool, ok: bool, written: nat)
    requires !j.pc.JOff? && !j.pc.JExited? && !Failing(j.pc) && maxBatch > 0
    requires InvGate(g) && InvJournal(j, g.log, maxBatch, syncEvery) && InvTaken(j, stamped)
    requires (End(j) in stamped ==> End(j) < |g.log|) && End(j) <= |g.log|
    requires slot.published == End(j) + 1 <==> End(j) in stamped
    requires j.pc.JCheckFinal? || j.pc.JExitSync? ==> g.closedFlag
    ensures var j' := JournalNext(j, g, slot, maxBatch, syncEvery, elapsed, ok, written);
            && (Failing(j'.pc) || JournalWork(j', g, stamped) <= JournalWork(j, g, stamped))
            && (Failing(j'.pc) || JournalWork(j', g, stamped) < JournalWork(j, g, stamped)
                || !(j.pc.JLock? || j.pc.JBroadcast? || j.pc.JUnlock? || j.batch != [] || End(j) in stamped
                  || Drained(g, j.next)))
  {
    if j.pc.JGather? {
      GatherMoves(j, g, slot, stamped, maxBatch, syncEvery, elapsed);
    } else if j.pc.JGrab? {
      GrabMoves(j, g, stamped, slot.event);
    } else if j.pc.JStore? {
      StoreMoves(j, g, stamped);
    } else {
      InnerMoves(j, g, slot, stamped, maxBatch, syncEvery, elapsed, ok, written);
    }
  }

  lemma {:induction false} EngineNextMoves(e: Engine, g: Gate, slot: Slot, journalCursor: nat)
    requires InvGate(g) && InvEngine(e, g.log, journalCursor) && journalCursor <= |g.log|
    requires e.pc.CCheckFinal? ==> g.closedFlag
    requires !e.pc.COff? && !e.pc.CExited?
    ensures EngineWork(EngineNext(e, g, slot, journalCursor, false), g, journalCursor) <= EngineWork(e, g,
             journalCursor)
    ensures (e.next < journalCursor || Drained(g, e.next)) ==>
              EngineWork(EngineNext(e, g, slot, journalCursor, false), g, journalCursor) < EngineWork(e, g,
                journalCursor)
  {
  }

  lemma {:induction false} CursorOnlyHelps(e: Engine, g: Gate, cursor: nat, cursor': nat)
    requires cursor <= cursor'
    ensures EngineWork(e, g, cursor') <= EngineWork(e, g, cursor)
  {
  }

  /** The stamp under the journaler's hand tells exactly whether its ticket is stamped. */
  lemma {:induction false} StampExact(s: State)
    requires Inv(s)
    ensures SlotOf(s.slots, End(s.j)).published == End(s.j) + 1 <==> End(s.j) in s.stamped
    ensures End(s.j) <= |s.gate.log| < U63
    ensures forall n :: n in s.stamped ==> n < |s.gate.log|
  {
    hide Inv, InvSlots;
    StampPieces(s);
    var n := End(s.j);
    StampTells(s.slots, s.stamped, s.gate.log, s.e.cursor, n);
    if n > 0 { assert n - 1 in s.stamped; }
  }

  lemma {:induction false} StampTells(slots: seq<Slot>, stamped: set<nat>, log: seq<OrderEvent>, consumerCursor: nat,
        n: nat)
    requires |slots| > 0 && InvSlots(slots, stamped, log, consumerCursor) && consumerCursor <= n
    ensures SlotOf(slots, n).published == n + 1 <==> n in stamped
    ensures forall k :: k in stamped ==> k < |log|
  {
    if n !in stamped { StampOnSlot(slots, stamped, log, consumerCursor, n % |slots|); }
  }

  lemma {:induction false} StampOnSlot(slots: seq<Slot>, stamped: set<nat>, log: seq<OrderEvent>, consumerCursor: nat,
        i: nat)
    requires |slots| > 0 && InvSlots(slots, stamped, log, consumerCursor) && i < |slots|
    ensures slots[i].published != 0 ==> slots[i].published - 1 in stamped
  {
    hide SlotOf;
  }

  lemma {:induction false} StampPieces(s: State)
    requires Inv(s)
    ensures Shape(s) && |s.gate.log| < U63 && s.e.cursor <= End(s.j)
    ensures InvSlots(s.slots, s.stamped, s.gate.log, s.e.cursor) && InvTaken(s.j, s.stamped)
  {
  }

  lemma {:induction false} JournalMoves(s: State, elapsed: bool, ok: bool, written: nat)
    requires Inv(s) && Unfailed(s) && Enabled(s, RunJournaler(elapsed, ok, written))
    ensures var s' := JournalStep(s, elapsed, ok, written);
            Failing(s'.j.pc) || Moves(s, s', JournalBusy(s))
  {
    var s' := JournalStep(s, elapsed, ok, written);
    var slot := SlotOf(s.slots, End(s.j));
    StampExact(s);
    JournalNextMoves(s.j, s.gate, slot, s.stamped, s.maxBatch, s.syncEvery, elapsed, ok, written);
    JournalCursorMoves(s.j, s.gate, slot, s.maxBatch, s.syncEvery, elapsed, ok, written);
    CursorOnlyHelps(s.e, s.gate, s.j.cursor, s'.j.cursor);
    assert JWakes(s.j.pc) ==> JournalBusy(s);
  }

  lemma {:induction false} EngineMoves(s: State)
    requires Inv(s) && Unfailed(s) && Enabled(s, RunConsumer)
    ensures Moves(s, EngineStep(s), EngineBusy(s))
  {
    var slot := SlotOf(s.slots, s.e.next);
    EngineNextMoves(s.e, s.gate, slot, s.j.cursor);
    EngineNextKept(s.e, s.gate, slot, s.j.cursor, s.failedFlag);
    ProducersRankFalls(s.producers, s.e.cursor, EngineStep(s).e.cursor, |s.slots|);
  }

  /** Nothing but a claim or an outside event can raise the measure. */
  lemma {:induction false} NeverRises(s: State, step: Step)
    requires Inv(s) && Unfailed(s) && Enabled(s, step) && !Outside(s, step)
    ensures Failing(Apply(s, step).j.pc) || Moves(s, Apply(s, step), false)
  {
    match step
    case Publish(p) => PublishMoves(s, p);
    case Wait(w) => WaitMoves(s, w);
    case RunJournaler(e, o, n) => JournalMoves(s, e, o, n);
    case RunConsumer => EngineMoves(s);
    case _ =>
  }

  /** With both stages idle, the ticket the journaler waits for is held, and has room. */
  lemma {:induction false} IdleStages(s: State)
    requires Inv(s) && Started(s) && Unfailed(s) && Unfinished(s) && !EngineBusy(s) && !JournalBusy(s)
    ensures var n := End(s.j);
            && n < |s.gate.claimant| && s.gate.claimant[n] < |s.producers|
            && Holding(s.producers[s.gate.claimant[n]]) && s.producers[s.gate.claimant[n]].sn == n
            && n < s.e.cursor + |s.slots| && !s.failedFlag
  {
    var n := End(s.j);
    StampExact(s);
    assert n == s.j.cursor == s.e.cursor;
    if n == |s.gate.log| {
      assert false;
    }
    assert Accounted(n, s.producers, s.gate.claimant, s.stamped);
  }

  /** The goroutine to watch is never blocked... */
  lemma {:induction false} HelpfulEnabled(s: State, step: Step)
    requires Inv(s) && Started(s) && Unfailed(s) && Unfinished(s)
    requires StepOf(Helpful(s), step)
    ensures Enabled(s, step) && !Outside(s, step)
  {
    if !EngineBusy(s) {
      if JournalBusy(s) {
        if JLocks(s.j.pc) && s.mutex.HeldByWaiter? { assert HoldsMutex(s.waiters[s.mutex.w]); }
      } else {
        IdleStages(s);
      }
    }
  }

  /** ...and each of its actions lowers the measure, or meets a failing journal. */
  lemma {:induction false} HelpfulProgress(s: State, step: Step)
    requires Inv(s) && Started(s) && Unfailed(s) && Unfinished(s)
    requires StepOf(Helpful(s), step) && Enabled(s, step)
    ensures Failing(Apply(s, step).j.pc) || Lower(Apply(s, step), s)
  {
    if EngineBusy(s) {
      EngineMoves(s);
    } else if JournalBusy(s) {
      if JLocks(s.j.pc) && s.mutex.HeldByWaiter? {
        WaitMoves(s, s.mutex.w);
      } else {
        JournalMoves(s, step.elapsed, step.ok, step.written);
      }
    } else {
      IdleStages(s);
      PublishMoves(s, s.gate.claimant[End(s.j)]);
    }
  }

  lemma {:induction false} EngineLeavesHelpful(s: State)
    requires Inv(s) && Unfailed(s) && Enabled(s, RunConsumer) && !EngineBusy(s)
    ensures Helpful(EngineStep(s)) == Helpful(s)
  {
    EngineNextKept(s.e, s.gate, SlotOf(s.slots, s.e.next), s.j.cursor, s.failedFlag);
  }

  /** The idle round of the journaler: it waits for a stamp or for the end. */
  predicate Idling(pc: JournalerPc) { pc.JGather? || pc.JIdleSync? || pc.JCheckClosed? || pc.JCheckFinal? }

  lemma {:induction false} IdleJournalNext(j: Journal, g: Gate, slot: Slot, maxBatch: nat, syncEvery: bool,
        elapsed: bool, ok: bool, written: nat)
    requires Idling(j.pc) && j.batch == [] && maxBatch > 0 && |g.log| < U63 && j.next <= |g.log|
    requires slot.published != End(j) + 1 && !Drained(g, j.next) && (j.pc.JCheckFinal? ==> g.closedFlag)
    ensures var j' := JournalNext(j, g, slot, maxBatch, syncEvery, elapsed, ok, written);
            && j'.next == j.next && j'.batch == [] && j'.cursor == j.cursor
            && (Idling(j'.pc) || Failing(j'.pc))
  {
    NoWrap(End(j), 1);
  }

  lemma {:induction false} JournalLeavesHelpful(s: State, elapsed: bool, ok: bool, written: nat)
    requires Inv(s) && Unfailed(s) && Enabled(s, RunJournaler(elapsed, ok, written)) && !JournalBusy(s)
    ensures Failing(JournalStep(s, elapsed, ok, written).j.pc)
             || Helpful(JournalStep(s, elapsed, ok, written)) == Helpful(s)
  {
    var s' := JournalStep(s, elapsed, ok, written);
    var slot := SlotOf(s.slots, End(s.j));
    IdleJournal(s);
    JournalOutside(s, elapsed, ok, written);
    hide Inv, JournalStep, Helpful;
    IdleJournalNext(s.j, s.gate, slot, s.maxBatch, s.syncEvery, elapsed, ok, written);
    hide JournalNext;
    if Idling(s'.j.pc) {
      StaysIdle(s, s');
      HelpfulIdle(s);
      HelpfulIdle(s');
    }
  }

  /** Who has to move while the journaler has nothing to do. */
  ghost function IdleHelp(e: Engine, g: Gate, cursor: nat, end: nat): Process {
    if !e.pc.CExited? && (e.next < cursor || Drained(g, e.next)) then TheConsumer
    else if end < |g.claimant| then TheProducer(g.claimant[end])
    else TheJournaler
  }

  lemma {:induction false} HelpfulIdle(s: State)
    requires !JournalBusy(s)
    ensures Helpful(s) == IdleHelp(s.e, s.gate, s.j.cursor, End(s.j))
  {
  }

  lemma {:induction false} JournalOutside(s: State, elapsed: bool, ok: bool, written: nat)
    requires Shape(s)
    ensures var s' := JournalStep(s, elapsed, ok, written);
            && s'.e == s.e && s'.gate == s.gate && s'.stamped == s.stamped
            && s'.j == JournalNext(s.j, s.gate, SlotOf(s.slots, End(s.j)), s.maxBatch, s.syncEvery,
                                   elapsed, ok, written)
  {
    hide JournalNext;
  }

  lemma {:induction false} StaysIdle(s: State, s': State)
    requires !JournalBusy(s) && Idling(s.j.pc) && Idling(s'.j.pc) && s.j.batch == s'.j.batch == []
    requires s'.j.next == s.j.next && s'.gate == s.gate && s'.stamped == s.stamped
    ensures !JournalBusy(s') && End(s'.j) == End(s.j)
  {
  }

  /** Nothing to write, nothing to wake, nothing to leave for. */
  lemma {:induction false} IdleJournal(s: State)
    requires Inv(s) && Unfailed(s) && !s.j.pc.JOff? && !s.j.pc.JExited? && !JournalBusy(s)
    ensures Shape(s) && Idling(s.j.pc) && s.j.batch == [] && |s.gate.log| < U63 && s.j.next <= |s.gate.log|
    ensures SlotOf(s.slots, End(s.j)).published != End(s.j) + 1 && !Drained(s.gate, s.j.next)
    ensures s.j.pc.JCheckFinal? ==> s.gate.closedFlag
  {
    StampExact(s);
    hide InvProducers, InvAccounted, InvMutex, InvWaiters, InvEngine;
  }

  lemma {:induction false} PublishLeavesHelpful(s: State, p: nat)
    requires Inv(s) && Unfailed(s) && Enabled(s, Publish(p)) && !s.producers[p].PClaim? && !s.producers[p].PStamp?
    ensures Helpful(PublishStep(s, p)) == Helpful(s)
  {
    PublishFrame(s, p);
  }

  lemma {:induction false} StampLowers(s: State, p: nat)
    requires Inv(s) && p < |s.producers| && s.producers[p].PStamp?
    ensures Lower(PublishStep(s, p), s)
  {
    assert InvProducer(s.producers[p], p, s.gate, s.slots, s.stamped, s.e.cursor, s.failedFlag);
    ProducersRankAt(s.producers, p, PublishStep(s, p).producers[p], s.e.cursor, |s.slots|);
    PublishFrame(s, p);
    StampMakesVisible(s.j, s.gate, s.stamped, s.producers[p].sn);
  }

  /** While nobody lowers the measure, the goroutine to watch stays the same one. */
  lemma {:induction false} HelpfulStays(s: State, step: Step)
    requires Inv(s) && Started(s) && Unfailed(s) && Unfinished(s)
    requires Enabled(s, step) && !Outside(s, step) && !StepOf(Helpful(s), step)
    ensures var s' := Apply(s, step);
            Failing(s'.j.pc) || Lower(s', s) || (SameMeasure(s', s) && Helpful(s') == Helpful(s))
  {
    NeverRises(s, step);
    match step
    case Publish(p) =>
      if s.producers[p].PStamp? { StampLowers(s, p); } else { PublishLeavesHelpful(s, p); }
    case Wait(w) => WaitMoves(s, w);
    case RunJournaler(e, o, n) =>
      JournalMoves(s, e, o, n);
      if !JournalBusy(s) { JournalLeavesHelpful(s, e, o, n); }
    case RunConsumer =>
      EngineLeavesHelpful(s);
    case _ =>
  }

  // --- Draining ---

  lemma {:induction false} PathPrepend(s: State, run: seq<State>)
    requires IsPath(run) && Next(s, run[0]) && Claims(run[0].gate) < U63
    ensures IsPath([s] + run)
  {
    hide Next;
    var whole := [s] + run;
    var n := |run|;
    if n == 1 {
      assert whole[..1] == [s];
    } else {
      PathPrepend(s, run[..n - 1]);
      assert whole[..n] == [s] + run[..n - 1];
      assert whole[n - 1] == run[n - 2] && whole[n] == run[n - 1];
    }
  }

  lemma {:induction false} SinglePath(s: State)
    ensures IsPath([s])
  {
  }

  /** A step, and then a path from where it leads. */
  lemma {:induction false} Onward(s: State, step: Step, run: seq<State>)
    requires Shape(s) && Enabled(s, step) && |run| > 0 && IsPath(run)
    requires run[0] == Apply(s, step) && Claims(run[0].gate) < U63
    ensures IsPath([s] + run) && ([s] + run)[0] == s && ([s] + run)[|run|] == run[|run| - 1]
  {
    hide IsPath, Enabled, Apply;
    assert Next(s, run[0]);
    PathPrepend(s, run);
  }

  /** A step in which the journal does not fail. */
  function KindStep(q: Process): Step {
    match q
    case TheProducer(p) => Publish(p)
    case TheWaiter(w) => Wait(w)
    case TheJournaler => RunJournaler(true, true, 0)
    case TheConsumer => RunConsumer
  }

  lemma {:induction false} KindStepKeeps(s: State)
    requires Inv(s) && Started(s) && Unfailed(s) && Unfinished(s)
    ensures var step := KindStep(Helpful(s));
            && Enabled(s, step)
            && (var s' := Apply(s, step);
                Inv(s') && Started(s') && Unfailed(s') && Lower(s', s) && s'.gate == s.gate)
  {
    var step := KindStep(Helpful(s));
    HelpfulEnabled(s, step);
    KindStepOutcome(s, step);
    HelpfulProgress(s, step);
    StepKeeps(s, step);
  }

  lemma {:induction false} KindStepOutcome(s: State, step: Step)
    requires Inv(s) && Started(s) && Unfailed(s) && Enabled(s, step) && !Outside(s, step)
    requires step.RunJournaler? ==> step.ok
    ensures Unfailed(Apply(s, step)) && Started(Apply(s, step)) && Apply(s, step).gate == s.gate
  {
    assert Shape(s);
    hide Inv;
    if step.RunJournaler? {
      hide JournalNext;
      KindJournalNext(s.j, s.gate, SlotOf(s.slots, End(s.j)), s.maxBatch, s.syncEvery, step.elapsed, step.written);
    } else {
      hide Apply;
      QuietStep(s, step);
    }
  }

  lemma {:induction false} QuietStep(s: State, step: Step)
    requires Shape(s) && Enabled(s, step) && !Outside(s, step) && !step.RunJournaler?
    ensures var s' := Apply(s, step);
            s'.j == s.j && s'.failErr == s.failErr && s'.failedFlag == s.failedFlag && s'.gate == s.gate
            && (s'.e.pc.COff? ==> s.e.pc.COff?)
  {
    hide WaiterNext;
  }

  lemma {:induction false} KindJournalNext(j: Journal, g: Gate, slot: Slot, maxBatch: nat, syncEvery: bool,
        elapsed: bool, written: nat)
    requires !Failing(j.pc) && !j.pc.JOff?
    ensures !Failing(JournalNext(j, g, slot, maxBatch, syncEvery, elapsed, true, written).pc)
    ensures !JournalNext(j, g, slot, maxBatch, syncEvery, elapsed, true, written).pc.JOff?
  {
  }

  /** Where nothing is unfinished, everything accepted is journaled and processed. */
  lemma {:induction false} Finished(s: State)
    requires Inv(s) && Started(s) && Unfailed(s) && !Unfinished(s)
    ensures s.e.history == s.gate.log == s.j.wal
    ensures s.gate.closedFlag ==> s.j.pc.JExited? && s.e.pc.CExited? && s.j.synced == |s.gate.log|
  {
    hide InvProducers, InvAccounted, InvSlots, InvTaken, InvMutex, InvWaiters;
  }

  lemma {:induction false} FewClaims(s: State)
    requires Inv(s)
    ensures Shape(s) && Claims(s.gate) < U63
  {
    hide InvProducers, InvAccounted, InvSlots, InvTaken, InvMutex, InvWaiters, InvJournal, InvEngine, InvStop;
  }

  /** From any reachable point where both stages run and the journal works, the ring can
      be drained without a new claim: all that was accepted is journaled and processed,
      and a closed ring has stopped. */
  lemma {:induction false} Drain(s: State) returns (run: seq<State>)
    requires Inv(s) && Started(s) && Unfailed(s)
    ensures |run| > 0 && IsPath(run) && run[0] == s
    ensures var t := run[|run| - 1];
            && Inv(t) && t.gate == s.gate && t.e.history == s.gate.log == t.j.wal
            && (s.gate.closedFlag ==> t.j.pc.JExited? && t.e.pc.CExited? && t.j.synced == |s.gate.log|)
    decreases Work(s), WaitersRank(s.waiters)
  {
    hide Inv, Started, Unfailed, Unfinished, Enabled, Apply, IsPath, Work, WaitersRank, Helpful, KindStep;
    FewClaims(s);
    if Unfinished(s) {
      KindStepKeeps(s);
      var step := KindStep(Helpful(s));
      run := Drain(Apply(s, step));
      Onward(s, step, run);
      run := [s] + run;
    } else {
      Finished(s);
      SinglePath(s);
      run := [s];
    }
  }
}
