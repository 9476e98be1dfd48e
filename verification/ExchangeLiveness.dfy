/**
 A shutdown that is given the time it needs can always end cleanly: from any state of any
 history in which the server is up and nothing has failed, whatever orders are in flight,
 there is a continuation in which every piece drains and Shutdown has nothing to report.
 */
module ExchangeLiveness {
  import opened Events
  import opened Exchange
  import opened ExchangeSafety
  import opened ExchangeTheorems
  import opened ExchangeHandlers
  import R = Ring
  import RS = RingSafety
  import RL = RingLiveness
  import B = Batcher

  /** Waiting in Close of the batcher, with everybody else gone. */
  ghost predicate ClosingBatcher(s: State) {
    s.down.pc.CloseBatcher? && AllGone(s.handlers) && |s.batcher.closers| > 0
      && s.batcher.closers[0] != B.CloseDone(false)
  }

  predicate BatcherBusy(b: B.State) {
    |b.closers| > 0 && !b.closers[0].CloseIdle? && !b.closers[0].CloseDone?
  }

  lemma {:induction false} OneBatcherStep(run: seq<State>) returns (longer: seq<State>)
    requires run != [] && IsHistory(run) && ClosingBatcher(Last(run)) && BatcherBusy(Last(run).batcher)
    ensures longer != [] && IsHistory(longer) && run <= longer && BatcherOnly(Last(run), Last(longer))
    ensures ClosingBatcher(Last(longer)) && B.Left(Last(longer).batcher) < B.Left(Last(run).batcher)
    ensures !Last(longer).batcher.closers[0].CloseIdle?
  {
    hide Inv, RS.Inv, B.Inv, IsHistory, B.Left, B.Apply, B.Enabled, DownFlow, DownBatcher, R.Claims;
    HistorySafe(run);
    var s := Last(run);
    InvSized(s);
    RingPieces(s);
    DownPieces(s);
    assert !B.AllSettled(s.batcher) by { assert !B.CloseSettled(s.batcher.closers[0]); }
    var step := B.NeverStuck(s.batcher);
    B.InsideLowers(s.batcher, step);
    CloserAfter(s.batcher, step, 0);
    longer := BatcherTurn(run, step);
  }

  lemma {:induction false} CloserAfter(b: B.State, step: B.Step, c: nat)
    requires B.Enabled(b, step) && B.Inside(step) && c < |b.closers|
    requires step.Close? ==> !step.expired
    ensures |B.Apply(b, step).closers| == |b.closers|
    ensures b.closers[c] != B.CloseDone(false) ==> B.Apply(b, step).closers[c] != B.CloseDone(false)
    ensures !b.closers[c].CloseIdle? ==> !B.Apply(b, step).closers[c].CloseIdle?
  {
    hide B.NoReader;
  }

  lemma {:induction false} DrainBatcher(run: seq<State>) returns (longer: seq<State>)
    requires run != [] && IsHistory(run) && ClosingBatcher(Last(run)) && !Last(run).batcher.closers[0].CloseIdle?
    ensures longer != [] && IsHistory(longer) && run <= longer && BatcherOnly(Last(run), Last(longer))
    ensures |Last(longer).batcher.closers| > 0 && Last(longer).batcher.closers[0] == B.CloseDone(true)
    decreases B.Left(Last(run).batcher)
  {
    hide IsHistory, B.Left;
    if BatcherBusy(Last(run).batcher) {
      longer := OneBatcherStep(run);
      longer := DrainBatcher(longer);
    } else {
      longer := run;
    }
  }

  /** Shutdown on its way, on time so far. */
  ghost predicate OnTime(s: State, pc: DownPc) {
    && s.down.pc == pc && !s.down.errs && AllGone(s.handlers)
    && RL.Started(s.ring) && RL.Unfailed(s.ring) && (Rank(pc) <= 5 ==> !s.down.walClosed)
  }

  /** One step of Shutdown, in time, its errors nil. */
  lemma {:induction false} ShutdownOnce(run: seq<State>, pc: DownPc, pc': DownPc) returns (longer: seq<State>)
    requires run != [] && IsHistory(run) && OnTime(Last(run), pc) && ShutdownEnabled(Last(run), false)
             && Sized(Last(run))
    requires var s := Last(run); var t := ShutdownStep(s, false, true);
             OnTime(t, pc') && t.ring.gate.log == s.ring.gate.log && t.ring.gate.refused == s.ring.gate.refused
    ensures longer != [] && IsHistory(longer) && run <= longer && Last(longer) == ShutdownStep(Last(run), false, true)
  {
    hide Inv, RS.Inv, B.Inv, IsHistory, ShutdownStep, OnTime;
    HistorySafe(run);
    RingPieces(Last(run));
    RingFacts(Last(run).ring);
    longer := Extend(run, Shutdown(false, true));
  }

  lemma {:induction false} SizedNow(run: seq<State>)
    requires run != [] && IsHistory(run)
    ensures Sized(Last(run)) && DownBatcher(Last(run).down, Last(run).batcher.closers, Last(run).batcher.closed,
             Last(run).batcher.worker)
    ensures RS.InvGate(Last(run).ring.gate)
  {
    hide Inv, RS.Inv, B.Inv, IsHistory;
    HistorySafe(run);
    DownPieces(Last(run));
    RingPieces(Last(run));
    RingFacts(Last(run).ring);
  }

  function CloseLeft(pc: R.CloserPc): nat {
    match pc
    case KOpen => 3
    case KFinal(_) => 2
    case KFlag => 1
    case KClosed => 0
  }

  lemma {:induction false} FinishClose(run: seq<State>) returns (longer: seq<State>)
    requires run != [] && IsHistory(run) && OnTime(Last(run), CloseRing)
    ensures longer != [] && Last(longer).ring.gate.log == Last(run).ring.gate.log
    ensures longer != [] && IsHistory(longer) && run <= longer && OnTime(Last(longer), CloseRing)
    ensures Last(longer).ring.gate.pc.KClosed?
    decreases CloseLeft(Last(run).ring.gate.pc)
  {
    hide IsHistory;
    if Last(run).ring.gate.pc.KClosed? {
      longer := run;
    } else {
      SizedNow(run);
      longer := ShutdownOnce(run, CloseRing, CloseRing);
      longer := FinishClose(longer);
    }
  }

  /** The ring is closed and drained: both stages have returned. */
  lemma {:induction false} StagesReturned(run: seq<State>) returns (longer: seq<State>)
    requires run != [] && IsHistory(run) && OnTime(Last(run), WaitJournaler) && Last(run).ring.gate.pc.KClosed?
    ensures longer != [] && Last(longer).ring.gate.log == Last(run).ring.gate.log
    ensures longer != [] && IsHistory(longer) && run <= longer && OnTime(Last(longer), CloseWal)
  {
    hide IsHistory;
    longer := DrainRing(run);
    SizedNow(longer);
    longer := ShutdownOnce(longer, WaitJournaler, WaitConsumer);
    longer := ShutdownOnce(longer, WaitConsumer, CloseWal);
  }

  lemma {:induction false} BatcherDown(run: seq<State>) returns (longer: seq<State>)
    requires run != [] && IsHistory(run) && OnTime(Last(run), CloseWal)
    ensures longer != [] && Last(longer).ring.gate.log == Last(run).ring.gate.log
    ensures longer != [] && IsHistory(longer) && run <= longer && OnTime(Last(longer), Finished)
  {
    hide IsHistory, RL.Unfailed, RL.Started, AllGone;
    SizedNow(run);
    longer := ShutdownOnce(run, CloseWal, CallBatcher);
    SizedNow(longer);
    longer := ShutdownOnce(longer, CallBatcher, CloseBatcher);
    longer := DrainBatcher(longer);
    SizedNow(longer);
    longer := ShutdownOnce(longer, CloseBatcher, CloseTrades);
    SizedNow(longer);
    longer := ShutdownOnce(longer, CloseTrades, Finished);
  }

  lemma {:induction false} ServersStopped(run: seq<State>) returns (longer: seq<State>)
    requires run != [] && IsHistory(run) && Stopping(Last(run)) && AllGone(Last(run).handlers)
    ensures longer != [] && IsHistory(longer) && run <= longer && OnTime(Last(longer), Finished)
    ensures Last(longer).ring.gate.log == Last(run).ring.gate.log
  {
    hide IsHistory, RL.Started, RL.Unfailed;
    SizedNow(run);
    longer := ShutdownOnce(run, StopServers, CloseRing);
    longer := FinishClose(longer);
    SizedNow(longer);
    longer := ShutdownOnce(longer, CloseRing, WaitJournaler);
    longer := StagesReturned(longer);
    longer := BatcherDown(longer);
  }

  lemma {:induction false} ShutdownBegins(run: seq<State>) returns (longer: seq<State>)
    requires run != [] && IsHistory(run) && Last(run).down.pc.Serving? && !Last(run).down.errs
             && !Last(run).down.walClosed
    requires RL.Started(Last(run).ring) && RL.Unfailed(Last(run).ring)
    ensures longer != [] && IsHistory(longer) && run <= longer && Stopping(Last(longer))
    ensures Last(longer) == Last(run).(down := Last(longer).down)
  {
    hide Inv, RS.Inv, B.Inv, IsHistory, RL.Started, RL.Unfailed;
    HistorySafe(run);
    InvSized(Last(run));
    RingPieces(Last(run));
    RingFacts(Last(run).ring);
    longer := Extend(run, Shutdown(false, true));
  }

  /** From any point at which the server is up, orders in flight and all, with room for the tickets
      they may take: the exchange can go down with nothing to report. Then every order that had a
      ticket at that point is answered AckOK, journaled on stable storage, processed and archived. */
  lemma {:induction false} CanShutDownCleanly(run: seq<State>) returns (longer: seq<State>)
    requires run != [] && IsHistory(run) && Last(run).down.pc.Serving? && !Last(run).down.errs
             && !Last(run).down.walClosed
    requires RL.Started(Last(run).ring) && RL.Unfailed(Last(run).ring)
    requires R.Claims(Last(run).ring.gate) + |Last(run).handlers| < U63
    ensures longer != [] && IsHistory(longer) && run <= longer && CleanlyDown(Last(longer))
    ensures Last(run).ring.gate.log <= Last(longer).ring.gate.log
    ensures forall n :: 0 <= n < |Last(run).ring.gate.log| ==> n in Last(longer).acked
    ensures multiset(B.Flatten(Last(longer).batcher.sunk)) == multiset(Last(longer).ring.j.wal)
  {
    hide IsHistory, B.Flatten, UniqueIds, RL.Started, RL.Unfailed, RL.Total;
    longer := ShutdownBegins(run);
    FewToClaim(Last(longer).handlers);
    longer := FinishHandlers(longer);
    longer := ServersStopped(longer);
    DownCleanly(Last(longer));
    CleanShutdown(longer);
  }

  lemma {:induction false} DownCleanly(s: State)
    requires OnTime(s, Finished)
    ensures CleanlyDown(s)
  {
  }
}
