/**
 Connections end: from any state of any history in which the servers are being stopped and
 the journal works, there is a continuation in which every handler has published, confirmed,
 archived and answered what it had in hand, and is gone.
 */
module ExchangeHandlers {
  import opened Events
  import opened Exchange
  import opened ExchangeSafety
  import opened ExchangeTheorems
  import R = Ring
  import RS = RingSafety
  import RL = RingLiveness
  import B = Batcher

  function Last(run: seq<State>): State
    requires run != []
  {
    run[|run| - 1]
  }

  lemma {:induction false} Extend(run: seq<State>, step: Step) returns (longer: seq<State>)
    requires run != [] && IsHistory(run) && Sized(Last(run)) && Enabled(Last(run), step)
    requires R.Claims(Apply(Last(run), step).ring.gate) < U63
    ensures longer != [] && IsHistory(longer) && run <= longer && Last(longer) == Apply(Last(run), step)
  {
    longer := run + [Apply(Last(run), step)];
    hide Enabled, Apply, Sized, Init;
    assert longer[..|run|] == run;
  }

  // --- The ring alone moves ---

  /** Only the ring, and the book it feeds, have moved, and no ticket was taken. */
  ghost predicate RingOnly(s: State, t: State) {
    t == s.(ring := t.ring, book := t.book) && t.ring.gate == s.ring.gate
  }

  lemma {:induction false} RingTurn(run: seq<State>, r: R.Step) returns (longer: seq<State>)
    requires run != [] && IsHistory(run) && Sized(Last(run)) && RingInside(Last(run), r) && R.Enabled(Last(run).ring, r)
    requires R.Claims(R.Apply(Last(run).ring, r).gate) < U63
    ensures longer != [] && IsHistory(longer) && run <= longer
    ensures Last(longer) == Last(run).(ring := R.Apply(Last(run).ring, r), book := Last(longer).book)
  {
    hide R.Apply, IsHistory, R.Enabled;
    longer := Extend(run, RingStep(r));
  }

  lemma {:induction false} OneDrainStep(run: seq<State>) returns (longer: seq<State>)
    requires run != [] && IsHistory(run) && !Last(run).down.walClosed
    requires RL.Started(Last(run).ring) && RL.Unfailed(Last(run).ring) && RL.Unfinished(Last(run).ring)
    ensures longer != [] && IsHistory(longer) && run <= longer && RingOnly(Last(run), Last(longer))
    ensures RL.Started(Last(longer).ring) && RL.Unfailed(Last(longer).ring)
             && RL.Lower(Last(longer).ring, Last(run).ring)
  {
    hide Inv, RS.Inv, R.Apply, R.Enabled, IsHistory, RL.Started, RL.Unfailed, RL.Unfinished, RL.Lower, RL.Helpful;
    HistorySafe(run);
    var s := Last(run);
    InvSized(s);
    RingPieces(s);
    RL.KindStepKeeps(s.ring);
    RingFacts(s.ring);
    longer := RingTurn(run, RL.KindStep(RL.Helpful(s.ring)));
  }

  lemma {:induction false} DrainRing(run: seq<State>) returns (longer: seq<State>)
    requires run != [] && IsHistory(run) && !Last(run).down.walClosed
    requires RL.Started(Last(run).ring) && RL.Unfailed(Last(run).ring)
    ensures longer != [] && IsHistory(longer) && run <= longer && RingOnly(Last(run), Last(longer))
    ensures RL.Started(Last(longer).ring) && RL.Unfailed(Last(longer).ring) && !RL.Unfinished(Last(longer).ring)
    decreases RL.Work(Last(run).ring), RL.WaitersRank(Last(run).ring.waiters)
  {
    hide IsHistory, RL.Started, RL.Unfailed, RL.Unfinished, RL.Work, RL.WaitersRank;
    if RL.Unfinished(Last(run).ring) {
      longer := OneDrainStep(run);
      longer := DrainRing(longer);
    } else {
      longer := run;
    }
  }

  // --- The servers are being stopped, on time so far ---

  ghost predicate Stopping(s: State) {
    && s.down.pc.StopServers? && !s.down.errs && !s.down.walClosed
    && RL.Started(s.ring) && RL.Unfailed(s.ring)
  }

  /** What is known about handler h. */
  lemma {:induction false} HandlerNow(run: seq<State>, h: nat)
    requires run != [] && IsHistory(run) && h < |Last(run).handlers|
    ensures var s := Last(run);
            && Sized(s) && RS.Inv(s.ring) && B.Inv(s.batcher) && R.Claims(s.ring.gate) < U63
            && LinkOk(s.handlers[h], s.ring.producers[h], s.ring.waiters[h], s.batcher.pushers[h])
            && TicketsOk(h, s.handlers[h], s.ring.producers[h], s.ring.gate.log, s.ring.gate.claimant, s.acked)
            && Accounts(s.handlers, s.ring.producers, s.ring.gate.claimant, s.acked, s.ring.failErr)
  {
    hide Init, Next, LinkOk, TicketsOk, IsHistory;
    HistorySafe(run);
    var s := Last(run);
    HandlerFacts(s, h);
    RingFacts(s.ring);
  }

  lemma {:induction false} HandlerFacts(s: State, h: nat)
    requires Inv(s) && h < |s.handlers|
    ensures Sized(s) && RS.Inv(s.ring) && B.Inv(s.batcher)
    ensures LinkOk(s.handlers[h], s.ring.producers[h], s.ring.waiters[h], s.batcher.pushers[h])
    ensures TicketsOk(h, s.handlers[h], s.ring.producers[h], s.ring.gate.log, s.ring.gate.claimant, s.acked)
    ensures Accounts(s.handlers, s.ring.producers, s.ring.gate.claimant, s.acked, s.ring.failErr)
  {
    hide Linked, Ticketed, RS.Inv, B.Inv, Accounts, Confirmed, IdsHeld, Unique, Ids, ArchiveLog, ArchiveAcks,
      ArchiveOpen, DownFlow, DownBatcher, HardOk, Promises;
    LinkAt(s.handlers, s.ring.producers, s.ring.waiters, s.batcher.pushers, h);
    TicketsAt(s.handlers, s.ring.producers, s.ring.gate.log, s.ring.gate.claimant, s.acked, h);
  }

  // --- Publish returns ---

  /** In a drained ring nobody holds a ticket. */
  lemma {:induction false} NothingHeld(r: R.State, h: nat)
    requires RS.Inv(r) && RL.Started(r) && RL.Unfailed(r) && !RL.Unfinished(r) && h < |r.producers|
    ensures !RS.Holding(r.producers[h]) && |r.gate.log| <= r.j.cursor
  {
    assert RS.InvProducer(r.producers[h], h, r.gate, r.slots, r.stamped, r.e.cursor, r.failedFlag);
    hide RS.InvProducers, RS.InvWaiters, RS.InvMutex, RS.InvSlots, RS.InvAccounted;
  }

  /** One step of a Publish that has not claimed yet. */
  lemma {:induction false} BeforeClaim(r: R.State, h: nat)
    requires RS.Inv(r) && RL.Unfailed(r) && h < |r.producers|
             && (r.producers[h].PCheckFailed? || r.producers[h].PClaim?)
    ensures R.Enabled(r, R.Publish(h))
    ensures var r' := R.Apply(r, R.Publish(h));
            && r' == r.(gate := r'.gate, producers := r'.producers) && |r'.producers| == |r.producers|
            && R.Claims(r'.gate) <= R.Claims(r.gate) + 1 && r.gate.log <= r'.gate.log
            && (r.producers[h].PCheckFailed? ==> r'.producers[h].PClaim? && r'.gate == r.gate)
            && (r.producers[h].PClaim? ==> RS.Holding(r'.producers[h]) || r'.producers[h].PErr?)
  {
    hide RS.InvProducers, RS.InvWaiters, RS.InvMutex, RS.InvSlots, RS.InvAccounted, RS.InvTaken, RS.InvJournal,
      RS.InvEngine;
  }

  function ClaimLeft(p: R.Producer): nat { if p.PCheckFailed? then 2 else if p.PClaim? then 1 else 0 }

  /** The handler's call of Publish comes to its end. */
  lemma {:induction false} FinishPublish(run: seq<State>, h: nat) returns (longer: seq<State>)
    requires run != [] && IsHistory(run) && Stopping(Last(run)) && h < |Last(run).handlers|
             && Last(run).handlers[h].pc.Publishing?
    requires h < |Last(run).ring.producers|
    requires R.Claims(Last(run).ring.gate) + (if ClaimLeft(Last(run).ring.producers[h]) > 0 then 1 else 0) < U63
    ensures longer != [] && IsHistory(longer) && run <= longer && Stopping(Last(longer))
    ensures Last(longer) == Last(run).(ring := Last(longer).ring, book := Last(longer).book)
    ensures R.Claims(Last(longer).ring.gate)
            <= R.Claims(Last(run).ring.gate) + (if ClaimLeft(Last(run).ring.producers[h]) > 0 then 1 else 0)
    ensures R.Enabled(Last(longer).ring, R.Return(h)) && Last(run).ring.gate.log <= Last(longer).ring.gate.log
    decreases ClaimLeft(Last(run).ring.producers[h])
  {
    hide IsHistory, RS.Inv, B.Inv, TicketsOk, Accounts, RL.Unfinished;
    HandlerNow(run, h);
    var s := Last(run);
    if ClaimLeft(s.ring.producers[h]) > 0 {
      BeforeClaim(s.ring, h);
      longer := RingTurn(run, R.Publish(h));
      longer := FinishPublish(longer, h);
    } else if s.ring.producers[h].POk? || s.ring.producers[h].PErr? {
      longer := run;
    } else {
      NoJournalFailure(s.ring, h);
      longer := DrainRing(run);
      HandlerNow(longer, h);
      StillCarried(s, Last(longer), h);
    }
  }

  lemma {:induction false} NoJournalFailure(r: R.State, h: nat)
    requires RS.Inv(r) && RL.Unfailed(r) && h < |r.producers|
    ensures !r.producers[h].PJournalFailure?
  {
    assert RS.InvProducer(r.producers[h], h, r.gate, r.slots, r.stamped, r.e.cursor, r.failedFlag);
  }

  /** A ticket that was held before the ring drained is in the hands of the same call, stamped. */
  lemma {:induction false} StillCarried(s: State, t: State, h: nat)
    requires h < |s.handlers| && h < |s.ring.producers| && RS.Holding(s.ring.producers[h])
    requires TicketsOk(h, s.handlers[h], s.ring.producers[h], s.ring.gate.log, s.ring.gate.claimant, s.acked)
    requires RingOnly(s, t) && RS.Inv(t.ring) && RL.Started(t.ring) && RL.Unfailed(t.ring) && !RL.Unfinished(t.ring)
    requires Accounts(t.handlers, t.ring.producers, t.ring.gate.claimant, t.acked, t.ring.failErr)
    ensures h < |t.ring.producers| && t.ring.producers[h].POk?
  {
    var n := s.ring.producers[h].sn;
    assert n in t.acked || CarriedBy(t.handlers, t.ring.producers, t.ring.gate.claimant[n], n);
    hide RS.Inv, RL.Started, RL.Unfailed, RL.Unfinished;
    NothingHeld(t.ring, h);
  }

  // --- WaitDurable returns ---

  /** How far the journaler is from having woken everybody. */
  function WakeLeft(pc: R.JournalerPc): nat {
    if pc.JLock? then 3 else if pc.JBroadcast? then 2 else if pc.JUnlock? then 1 else 0
  }

  ghost predicate NearerAwake(t: R.State, s: R.State) {
    || WakeLeft(t.j.pc) < WakeLeft(s.j.pc)
    || (WakeLeft(t.j.pc) == WakeLeft(s.j.pc) && RL.WaitersRank(t.waiters) < RL.WaitersRank(s.waiters))
  }

  /** A goroutine inside WaitDurable, behind the cursor: somebody can act, and it comes nearer to returning. */
  lemma {:induction false} WakeStep(r: R.State, h: nat) returns (step: R.Step)
    requires RS.Inv(r) && RL.Unfailed(r) && h < |r.waiters|
    requires !r.waiters[h].WIdle? && !r.waiters[h].WDone? && r.waiters[h].sn < r.j.cursor
    ensures R.Enabled(r, step) && (step.Wait? || step == R.RunJournaler(true, true, 0))
    ensures step.RunJournaler? ==> WakeLeft(r.j.pc) > 0
  {
    assert RS.InvWaiter(r.waiters[h], r.j.cursor, r.j.pc, r.failErr);
    if r.mutex.HeldByWaiter? {
      assert RS.HoldsMutex(r.waiters[r.mutex.w]);
      step := R.Wait(r.mutex.w);
    } else if r.mutex.HeldByJournaler? || r.waiters[h].WParked? {
      assert RS.HoldsMutex(r.waiters[h]) <==> r.mutex == R.HeldByWaiter(h);
      step := R.RunJournaler(true, true, 0);
    } else {
      assert RS.HoldsMutex(r.waiters[h]) <==> r.mutex == R.HeldByWaiter(h);
      step := R.Wait(h);
    }
  }

  lemma {:induction false} WakeNearer(r: R.State, step: R.Step)
    requires RS.Inv(r) && RL.Unfailed(r) && RL.Started(r) && R.Enabled(r, step)
    requires step.Wait? || (step == R.RunJournaler(true, true, 0) && WakeLeft(r.j.pc) > 0)
    ensures var r' := R.Apply(r, step);
            && NearerAwake(r', r) && r'.j == r.j.(pc := r'.j.pc) && RL.Unfailed(r') && RL.Started(r')
            && r'.gate == r.gate && r'.e == r.e
  {
    assert R.Shape(r);
    if step.Wait? {
      RL.WaitMoves(r, step.w);
      RL.TotalAt(r.waiters, step.w, R.WaitStep(r, step.w).waiters[step.w], RL.WaiterRank);
    } else {
      hide RS.Inv, RL.WaitersRank;
    }
  }

  /** The handler's call of WaitDurable comes to its end, once the cursor is past its ticket. */
  lemma {:induction false} FinishWait(run: seq<State>, h: nat) returns (longer: seq<State>)
    requires run != [] && IsHistory(run) && Stopping(Last(run)) && h < |Last(run).handlers|
             && Last(run).handlers[h].pc.Waiting?
    requires Last(run).handlers[h].pending != [] && Last(run).handlers[h].pending[0].sn < Last(run).ring.j.cursor
    ensures longer != [] && IsHistory(longer) && run <= longer && Stopping(Last(longer))
             && RingOnly(Last(run), Last(longer))
    ensures R.Enabled(Last(longer).ring, R.WaitReturn(h))
    decreases WakeLeft(Last(run).ring.j.pc), RL.WaitersRank(Last(run).ring.waiters)
  {
    hide IsHistory, RS.Inv, B.Inv, TicketsOk, Accounts, RL.WaitersRank, R.Apply, RL.Started, RL.Unfailed;
    HandlerNow(run, h);
    var s := Last(run);
    if s.ring.waiters[h].WDone? {
      longer := run;
    } else {
      var step := WakeStep(s.ring, h);
      WakeNearer(s.ring, step);
      longer := RingTurn(run, step);
      longer := FinishWait(longer, h);
    }
  }

  // --- Push returns ---

  /** Only the batcher and its record have moved. */
  ghost predicate BatcherOnly(s: State, t: State) {
    t == s.(batcher := t.batcher, archived := t.archived)
  }

  lemma {:induction false} BatcherTurn(run: seq<State>, step: B.Step) returns (longer: seq<State>)
    requires run != [] && IsHistory(run) && B.Enabled(Last(run).batcher, step) && B.Inside(step)
    ensures longer != [] && IsHistory(longer) && run <= longer && BatcherOnly(Last(run), Last(longer))
    ensures Last(longer).batcher == B.Apply(Last(run).batcher, step)
  {
    hide IsHistory, Inv, RS.Inv, B.Inv, B.Apply, B.Enabled, R.Claims;
    HistorySafe(run);
    var s := Last(run);
    InvSized(s);
    RingPieces(s);
    RingFacts(s.ring);
    if step.Push? { PusherBusy(s, step.p); }
    longer := Extend(run, BatcherStep(step));
  }

  /** Whoever is inside Push has a ticket in hand. */
  lemma {:induction false} PusherBusy(s: State, p: nat)
    requires Inv(s) && B.Enabled(s.batcher, B.Push(p))
    ensures p < |s.handlers| && s.handlers[p].pending != []
  {
    hide Linked, Ticketed, RS.Inv, B.Inv, Accounts, Confirmed, IdsHeld, Unique, Ids, ArchiveLog, ArchiveAcks,
      ArchiveOpen, DownFlow, DownBatcher, HardOk, Promises;
    LinkAt(s.handlers, s.ring.producers, s.ring.waiters, s.batcher.pushers, p);
  }

  /** Everybody inside the batcher comes to the end of his call. */
  lemma {:induction false} SettleBatcher(run: seq<State>) returns (longer: seq<State>)
    requires run != [] && IsHistory(run)
    ensures longer != [] && IsHistory(longer) && run <= longer && BatcherOnly(Last(run), Last(longer))
    ensures B.AllSettled(Last(longer).batcher)
    decreases B.Left(Last(run).batcher)
  {
    hide IsHistory, Inv, RS.Inv, B.Inv, B.Apply, B.Enabled, B.Left, B.AllSettled, Unique;
    HistorySafe(run);
    var s := Last(run);
    RingPieces(s);
    if B.AllSettled(s.batcher) {
      longer := run;
    } else {
      var step := B.NeverStuck(s.batcher);
      B.InsideLowers(s.batcher, step);
      longer := BatcherTurn(run, step);
      longer := SettleBatcher(longer);
    }
  }

  // --- One handler, one turn ---

  function PcWork(pc: HandlerPc, idle: bool): nat {
    match pc
    case Gone => 0
    case Pushing => 1
    case Waiting => 2
    case Confirming => 3
    case Reading => if idle then 1 else 5
    case Forgetting(_) => 6
    case Publishing(_) => 10
    case Registering(_) => 11
  }

  /** What a handler still has to do for the orders in hand, reading no more. */
  function HandlerWork(hd: Handler): nat { 4 * |hd.pending| + PcWork(hd.pc, hd.pending == []) }

  function ToClaim(hd: Handler): nat { if hd.pc.Registering? || hd.pc.Publishing? then 1 else 0 }

  predicate OwnStep(step: Step, h: nat) {
    || step == Register(h) || step == Published(h) || step == Forget(h) || step == EndBatch(h) || step == Confirm(h)
    || step == Waited(h) || step == Pushed(h) || step == Answer(h, true) || step == Leave(h)
  }

  /** The step lowers the handler's work and moves no stage, no ticket and no other handler. */
  lemma {:induction false} TurnLowers(s: State, step: Step, h: nat)
    requires Sized(s) && h < |s.handlers| && OwnStep(step, h) && Enabled(s, step)
    ensures var t := Apply(s, step);
            && t.handlers == s.handlers[h := t.handlers[h]] && |t.handlers| == |s.handlers|
            && HandlerWork(t.handlers[h]) < HandlerWork(s.handlers[h])
            && ToClaim(t.handlers[h]) <= ToClaim(s.handlers[h])
            && (step.Published? ==> ToClaim(t.handlers[h]) == 0)
            && t.down == s.down && t.ring.gate == s.ring.gate && t.ring.j == s.ring.j && t.ring.e == s.ring.e
            && t.ring.failErr == s.ring.failErr
  {
    RingUntouched(s, step, h);
    hide HandlerWork, ToClaim, Enabled, Apply;
    if step.Register? || step.Published? || step.Waited? || step.Pushed? {
      CallTurn(s, step, h);
    } else {
      LoopTurn(s, step, h);
    }
  }

  /** The turns between two calls. */
  lemma {:induction false} LoopTurn(s: State, step: Step, h: nat)
    requires Sized(s) && h < |s.handlers| && OwnStep(step, h) && Enabled(s, step)
    requires !(step.Register? || step.Published? || step.Waited? || step.Pushed?)
    ensures var t := Apply(s, step);
            && t.handlers == s.handlers[h := t.handlers[h]] && |t.handlers| == |s.handlers|
            && HandlerWork(t.handlers[h]) < HandlerWork(s.handlers[h])
            && ToClaim(t.handlers[h]) <= ToClaim(s.handlers[h])
  {
    hide R.Apply;
  }

  /** The turns that begin or end a call. */
  lemma {:induction false} CallTurn(s: State, step: Step, h: nat)
    requires Sized(s) && h < |s.handlers| && OwnStep(step, h) && Enabled(s, step)
    requires step.Register? || step.Published? || step.Waited? || step.Pushed?
    ensures var t := Apply(s, step);
            && t.handlers == s.handlers[h := t.handlers[h]] && |t.handlers| == |s.handlers|
            && HandlerWork(t.handlers[h]) < HandlerWork(s.handlers[h])
            && ToClaim(t.handlers[h]) <= ToClaim(s.handlers[h])
            && (step.Published? ==> ToClaim(t.handlers[h]) == 0)
  {
    hide R.Apply, B.Apply, R.Enabled, B.Enabled;
  }

  lemma {:induction false} RingUntouched(s: State, step: Step, h: nat)
    requires Sized(s) && h < |s.handlers| && OwnStep(step, h) && Enabled(s, step)
    ensures var t := Apply(s, step);
            && t.down == s.down && t.ring.gate == s.ring.gate && t.ring.j == s.ring.j && t.ring.e == s.ring.e
            && t.ring.failErr == s.ring.failErr
  {
    hide R.Apply, B.Apply, B.Enabled, HandlerWork, ToClaim;
    if step.Register? { CallChanges(s.ring, R.Call(h, s.handlers[h].pc.ev)); }
    if step.Published? { CallChanges(s.ring, R.Return(h)); }
    if step.Confirm? { CallChanges(s.ring, R.WaitCall(h, s.handlers[h].pending[0].sn)); }
    if step.Waited? { CallChanges(s.ring, R.WaitReturn(h)); }
  }

  /** The state after a turn, as far as the next turns care. */
  ghost predicate Onward(s: State, t: State, h: nat) {
    && Stopping(t) && h < |s.handlers| == |t.handlers| && t.handlers == s.handlers[h := t.handlers[h]]
    && HandlerWork(t.handlers[h]) < HandlerWork(s.handlers[h])
    && s.ring.gate.log <= t.ring.gate.log
    && R.Claims(t.ring.gate) + ToClaim(t.handlers[h]) <= R.Claims(s.ring.gate) + ToClaim(s.handlers[h])
  }

  lemma {:induction false} TakeTurn(run: seq<State>, step: Step, h: nat) returns (longer: seq<State>)
    requires run != [] && IsHistory(run) && Stopping(Last(run)) && Sized(Last(run)) && h < |Last(run).handlers|
    requires OwnStep(step, h) && Enabled(Last(run), step) && R.Claims(Last(run).ring.gate) < U63
    ensures longer != [] && IsHistory(longer) && run <= longer && Onward(Last(run), Last(longer), h)
    ensures step.Published? ==> ToClaim(Last(longer).handlers[h]) == 0
    ensures Last(longer).ring.gate == Last(run).ring.gate
  {
    hide IsHistory, Enabled, Apply, OwnStep, HandlerWork, ToClaim;
    TurnLowers(Last(run), step, h);
    longer := Extend(run, step);
  }

  lemma {:induction false} PublishTurn(run: seq<State>, h: nat) returns (longer: seq<State>)
    requires run != [] && IsHistory(run) && Stopping(Last(run)) && h < |Last(run).handlers|
             && Last(run).handlers[h].pc.Publishing?
    requires R.Claims(Last(run).ring.gate) + 1 < U63
    ensures longer != [] && IsHistory(longer) && run <= longer && Onward(Last(run), Last(longer), h)
  {
    hide IsHistory, RS.Inv, B.Inv, TicketsOk, Accounts, LinkOk, HandlerWork, Stopping, R.Enabled;
    HandlerNow(run, h);
    var mid := FinishPublish(run, h);
    HandlerNow(mid, h);
    longer := TakeTurn(mid, Published(h), h);
  }

  lemma {:induction false} WaitTurn(run: seq<State>, h: nat) returns (longer: seq<State>)
    requires run != [] && IsHistory(run) && Stopping(Last(run)) && h < |Last(run).handlers|
             && Last(run).handlers[h].pc.Waiting?
    ensures longer != [] && IsHistory(longer) && run <= longer && Onward(Last(run), Last(longer), h)
  {
    hide IsHistory, RS.Inv, B.Inv, Accounts, HandlerWork, R.Enabled, RL.Unfinished, RL.Started, RL.Unfailed;
    HandlerNow(run, h);
    var drained := DrainRing(run);
    HandlerNow(drained, h);
    NothingHeld(Last(drained).ring, h);
    var mid := FinishWait(drained, h);
    HandlerNow(mid, h);
    longer := TakeTurn(mid, Waited(h), h);
  }

  lemma {:induction false} PushTurn(run: seq<State>, h: nat) returns (longer: seq<State>)
    requires run != [] && IsHistory(run) && Stopping(Last(run)) && h < |Last(run).handlers|
             && Last(run).handlers[h].pc.Pushing?
    ensures longer != [] && IsHistory(longer) && run <= longer && Onward(Last(run), Last(longer), h)
  {
    hide IsHistory, RS.Inv, B.Inv, TicketsOk, Accounts, HandlerWork, RL.Started, RL.Unfailed;
    HandlerNow(run, h);
    var mid := SettleBatcher(run);
    HandlerNow(mid, h);
    assert B.PushSettled(Last(mid).batcher.pushers[h]);
    longer := TakeTurn(mid, Pushed(h), h);
  }

  /** Whatever the handler is doing, it can be brought one turn further. */
  lemma {:induction false} OneTurn(run: seq<State>, h: nat) returns (longer: seq<State>)
    requires run != [] && IsHistory(run) && Stopping(Last(run)) && h < |Last(run).handlers|
             && !Last(run).handlers[h].pc.Gone?
    requires R.Claims(Last(run).ring.gate) + ToClaim(Last(run).handlers[h]) < U63
    ensures longer != [] && IsHistory(longer) && run <= longer && Onward(Last(run), Last(longer), h)
  {
    hide IsHistory, RS.Inv, B.Inv, TicketsOk, Accounts, HandlerWork, Stopping, Onward;
    HandlerNow(run, h);
    var hd := Last(run).handlers[h];
    match hd.pc
    case Registering(_) => longer := TakeTurn(run, Register(h), h);
    case Publishing(_) => longer := PublishTurn(run, h);
    case Forgetting(_) => longer := TakeTurn(run, Forget(h), h);
    case Reading => longer := TakeTurn(run, if hd.pending == [] then Leave(h) else EndBatch(h), h);
    case Confirming => longer := TakeTurn(run, if hd.pending == [] then Answer(h, true) else Confirm(h), h);
    case Waiting => longer := WaitTurn(run, h);
    case Pushing => longer := PushTurn(run, h);
  }

  // --- All of them ---

  lemma {:induction false} TurnSums(s: State, t: State, h: nat)
    requires Onward(s, t, h)
    ensures RL.Total(t.handlers, HandlerWork) < RL.Total(s.handlers, HandlerWork)
    ensures R.Claims(t.ring.gate) + RL.Total(t.handlers, ToClaim)
            <= R.Claims(s.ring.gate) + RL.Total(s.handlers, ToClaim)
  {
    hide RL.Total, HandlerWork, ToClaim;
    RL.TotalAt(s.handlers, h, t.handlers[h], HandlerWork);
    RL.TotalAt(s.handlers, h, t.handlers[h], ToClaim);
  }

  lemma {:induction false} ShareOfTotal<T>(xs: seq<T>, i: nat, f: T -> nat)
    requires i < |xs|
    ensures f(xs[i]) <= RL.Total(xs, f)
  {
    if i > 0 { ShareOfTotal(xs[1..], i - 1, f); }
  }

  /** Every connection can end, its orders published, confirmed, archived and answered. */
  lemma {:induction false} FinishHandlers(run: seq<State>) returns (longer: seq<State>)
    requires run != [] && IsHistory(run) && Stopping(Last(run))
    requires R.Claims(Last(run).ring.gate) + RL.Total(Last(run).handlers, ToClaim) < U63
    ensures longer != [] && IsHistory(longer) && run <= longer && Stopping(Last(longer))
             && AllGone(Last(longer).handlers)
    ensures Last(run).ring.gate.log <= Last(longer).ring.gate.log
    decreases RL.Total(Last(run).handlers, HandlerWork)
  {
    hide IsHistory, HandlerWork, ToClaim, RL.Total, RL.Started, RL.Unfailed;
    if h :| 0 <= h < |Last(run).handlers| && !Last(run).handlers[h].pc.Gone? {
      ShareOfTotal(Last(run).handlers, h, ToClaim);
      longer := OneTurn(run, h);
      TurnSums(Last(run), Last(longer), h);
      longer := FinishHandlers(longer);
    } else {
      longer := run;
    }
  }

  /** Each handler takes at most one more ticket. */
  lemma {:induction false} FewToClaim(hs: seq<Handler>)
    ensures RL.Total(hs, ToClaim) <= |hs|
  {
    if hs != [] { FewToClaim(hs[1..]); }
  }
}
