/** What every step of the exchange keeps. */
module ExchangeSafety {
  import opened Events
  import opened Exchange
  import Ingest
  import R = Ring
  import RS = RingSafety
  import B = Batcher
  import Ref = ReferenceBook

  predicate HasTicket(p: R.Producer) { RS.Holding(p) || p.POk? }

  predicate Holds(pc: HandlerPc) { pc.Publishing? || pc.Forgetting? }

  /** A handler stands where its goroutine in the ring and in the batcher stands. */
  ghost predicate LinkOk(hd: Handler, p: R.Producer, w: R.Waiter, q: B.Pusher) {
    && (hd.pc.Publishing? <==> !p.PIdle?) && (!p.PIdle? && hd.pc.Publishing? ==> p.ev == hd.pc.ev)
    && (hd.pc.Waiting? <==> !w.WIdle?) && (!w.WIdle? ==> hd.pending != [] && w.sn == hd.pending[0].sn)
    && (hd.pc.Pushing? <==> !q.PushIdle?) && (!q.PushIdle? ==> hd.pending != [] && q.ev == hd.pending[0].ev)
    && (hd.pc.Gone? ==> hd.pending == [])
  }

  ghost predicate Linked(hs: seq<Handler>, ps: seq<R.Producer>, ws: seq<R.Waiter>, qs: seq<B.Pusher>) {
    && |hs| == |ps| == |ws| == |qs|
    && forall h :: 0 <= h < |hs| ==> LinkOk(hs[h], ps[h], ws[h], qs[h])
  }

  ghost predicate TicketOk(t: Ticket, h: nat, log: seq<OrderEvent>, claimant: seq<nat>, acked: set<nat>) {
    t.sn < |log| && t.sn < |claimant| && log[t.sn] == t.ev && claimant[t.sn] == h && t.sn !in acked
  }

  /** The tickets a handler still has to answer: its own, ascending, the one in Publish last. */
  ghost predicate TicketsOk(h: nat, hd: Handler, p: R.Producer, log: seq<OrderEvent>, claimant: seq<nat>,
        acked: set<nat>) {
    && (forall i :: 0 <= i < |hd.pending| ==> TicketOk(hd.pending[i], h, log, claimant, acked))
    && (forall i, k :: 0 <= i < k < |hd.pending| ==> hd.pending[i].sn < hd.pending[k].sn)
    && (HasTicket(p) ==> TicketOk(Ticket(p.ev, p.sn), h, log, claimant, acked))
    && (HasTicket(p) ==> forall i :: 0 <= i < |hd.pending| ==> hd.pending[i].sn < p.sn)
  }

  ghost predicate Ticketed(hs: seq<Handler>, ps: seq<R.Producer>, log: seq<OrderEvent>, claimant: seq<nat>,
        acked: set<nat>) {
    |hs| == |ps| && forall h :: 0 <= h < |hs| ==> TicketsOk(h, hs[h], ps[h], log, claimant, acked)
  }

  ghost predicate Carries(hd: Handler, p: R.Producer, n: nat) {
    (exists i :: 0 <= i < |hd.pending| && hd.pending[i].sn == n) || (HasTicket(p) && p.sn == n)
  }

  ghost predicate CarriedBy(hs: seq<Handler>, ps: seq<R.Producer>, c: nat, n: nat) {
    c < |hs| && c < |ps| && Carries(hs[c], ps[c], n)
  }

  /** Without failure every ticket is answered AckOK or will be. */
  ghost predicate Accounts(hs: seq<Handler>, ps: seq<R.Producer>, claimant: seq<nat>, acked: set<nat>, failErr: bool) {
    !failErr ==> forall n :: 0 <= n < |claimant| ==> n in acked || CarriedBy(hs, ps, claimant[n], n)
  }

  /** What is answered AckOK, or about to be, the journal has released. */
  ghost predicate Confirmed(hs: seq<Handler>, acked: set<nat>, cursor: nat) {
    && (forall n :: n in acked ==> n < cursor)
    && (forall h :: 0 <= h < |hs| && hs[h].pc.Pushing? && hs[h].pending != [] ==> hs[h].pending[0].sn < cursor)
  }

  ghost predicate IdOk(hd: Handler, p: R.Producer, ids: set<uint64>, baseIds: set<uint64>, logIds: set<uint64>,
        failed: bool) {
    && (hd.pc.Registering? || Holds(hd.pc) ==> Ingest.Validate(hd.pc.ev).Fine?)
    && (Holds(hd.pc) ==> hd.pc.ev.orderId in ids && hd.pc.ev.orderId !in baseIds)
    && (hd.pc.Publishing? && p.PClaim? ==> hd.pc.ev.orderId !in logIds)
    && (hd.pc.Publishing? && (p.PCheckFailed? || p.PJournalFailure? || p.PErr?) ==>
      failed || hd.pc.ev.orderId !in logIds)
    && (hd.pc.Forgetting? ==> failed || hd.pc.ev.orderId !in logIds)
  }

  /** An id is taken while anybody holds it or once the order is in the log. */
  ghost predicate IdsHeld(hs: seq<Handler>, ps: seq<R.Producer>, ids: set<uint64>, baseIds: set<uint64>,
        logIds: set<uint64>, failed: bool) {
    && |hs| == |ps| && baseIds <= ids && (failed || logIds <= ids)
    && (forall h :: 0 <= h < |hs| ==> IdOk(hs[h], ps[h], ids, baseIds, logIds, failed))
    && (forall h, k :: 0 <= h < k < |hs| && Holds(hs[h].pc) && Holds(hs[k].pc) ==>
      hs[h].pc.ev.orderId != hs[k].pc.ev.orderId)
  }

  ghost predicate UniqueIds(es: seq<OrderEvent>) {
    forall i, k :: 0 <= i < k < |es| ==> es[i].orderId != es[k].orderId
  }

  ghost predicate AllValid(es: seq<OrderEvent>) {
    forall i :: 0 <= i < |es| ==> Ingest.Validate(es[i]).Fine?
  }

  ghost predicate Unique(base: seq<OrderEvent>, log: seq<OrderEvent>) {
    UniqueIds(base) && UniqueIds(log) && Ids(base) !! Ids(log) && AllValid(base) && AllValid(log)
  }

  predicate Sent(q: B.Pusher) { (q.PushUnlock? || q.PushDone?) && q.ok }
  predicate Turned(q: B.Pusher) { (q.PushUnlock? || q.PushDone?) && !q.ok }

  /** The handler's first ticket is n, and the batcher has taken it. */
  ghost predicate HandsOver(hd: Handler, q: B.Pusher, n: nat) {
    hd.pc.Pushing? && hd.pending != [] && hd.pending[0].sn == n && Sent(q)
  }

  ghost predicate HandedOver(hs: seq<Handler>, qs: seq<B.Pusher>, c: nat, n: nat) {
    c < |hs| && c < |qs| && HandsOver(hs[c], qs[c], n)
  }

  /** The batcher's events are log entries of tickets, none twice, each answered or about to be. */
  ghost predicate ArchiveLog(archived: seq<nat>, accepted: seq<OrderEvent>, log: seq<OrderEvent>, claimant: seq<nat>) {
    && |archived| == |accepted| && |claimant| == |log|
    && (forall i :: 0 <= i < |archived| ==> archived[i] < |log| && accepted[i] == log[archived[i]])
    && (forall i, k :: 0 <= i < k < |archived| ==> archived[i] != archived[k])
  }

  ghost predicate ArchiveAcks(hs: seq<Handler>, qs: seq<B.Pusher>, archived: seq<nat>, claimant: seq<nat>,
        acked: set<nat>, unarchived: set<nat>) {
    && |hs| == |qs|
    && (forall n :: n in archived ==> n in acked || (n < |claimant| && HandedOver(hs, qs, claimant[n], n)))
    && (forall n :: n in acked ==> n in archived || n in unarchived)
    && (forall h :: 0 <= h < |hs| && hs[h].pc.Pushing? && hs[h].pending != [] && Sent(qs[h]) ==>
      hs[h].pending[0].sn in archived)
  }

  ghost predicate ArchiveOpen(qs: seq<B.Pusher>, unarchived: set<nat>, closed: bool) {
    && (forall h :: 0 <= h < |qs| && Turned(qs[h]) ==> closed)
    && (unarchived != {} ==> closed)
  }

  function Rank(pc: DownPc): nat {
    match pc
    case Serving => 0
    case StopServers => 1
    case CloseRing => 2
    case WaitJournaler => 3
    case WaitConsumer => 4
    case CloseWal => 5
    case CallBatcher => 6
    case CloseBatcher => 7
    case CloseTrades => 8
    case Finished => 9
  }

  /** A shutdown without an expired deadline stops each piece after those that feed it. */
  ghost predicate DownFlow(d: Down, hs: seq<Handler>, unarchived: set<nat>, jpc: R.JournalerPc, cpc: R.ConsumerPc) {
    && (!d.errs && Rank(d.pc) >= 2 ==> AllGone(hs))
    && (!d.errs ==> unarchived == {} && d.engineStopped)
    && (d.engineStopped && Rank(d.pc) >= 4 ==> jpc.JOff? || jpc.JExited?)
    && (d.engineStopped && Rank(d.pc) >= 5 ==> cpc.COff? || cpc.CExited?)
    && (d.tradesClosed ==> d.engineStopped && d.pc.Finished?)
  }

  ghost predicate DownBatcher(d: Down, closers: seq<B.Closer>, closed: bool, worker: B.Worker) {
    && |closers| > 0 && (forall c :: 1 <= c < |closers| ==> closers[c].CloseIdle?)
    && (d.pc.CloseBatcher? <==> !closers[0].CloseIdle?)
    && (Rank(d.pc) < 7 ==> !closed)
    && (closers[0] == B.CloseDone(true) ==> worker.Exited?)
    && (!d.errs && Rank(d.pc) >= 8 ==> worker.Exited?)
  }

  /** The durable part is part of the file, and all of it once the file was closed without an error. */
  ghost predicate HardOk(hard: nat, base: seq<OrderEvent>, wal: seq<OrderEvent>, d: Down) {
    && hard <= |base| + |wal|
    && (!d.errs && Rank(d.pc) >= 6 ==> hard == |base| + |wal|)
  }

  /** Orders that earlier processes answered with AckOK are in the recovered file for good. */
  ghost predicate Promises(promised: set<OrderEvent>, base: seq<OrderEvent>, hard: nat, syncEvery: bool) {
    syncEvery ==> forall e :: e in promised ==> e in base[..Lesser(hard, |base|)]
  }

  function Lesser(a: nat, b: nat): nat { if a < b then a else b }

  ghost predicate Inv(s: State) {
    && Sized(s) && RS.Inv(s.ring) && B.Inv(s.batcher)
    && Linked(s.handlers, s.ring.producers, s.ring.waiters, s.batcher.pushers)
    && Ticketed(s.handlers, s.ring.producers, s.ring.gate.log, s.ring.gate.claimant, s.acked)
    && Accounts(s.handlers, s.ring.producers, s.ring.gate.claimant, s.acked, s.ring.failErr)
    && Confirmed(s.handlers, s.acked, s.ring.j.cursor)
    && IdsHeld(s.handlers, s.ring.producers, s.ids, Ids(s.base), Ids(s.ring.gate.log), s.ring.failedFlag)
    && Unique(s.base, s.ring.gate.log)
    && ArchiveLog(s.archived, s.batcher.accepted, s.ring.gate.log, s.ring.gate.claimant)
    && ArchiveAcks(s.handlers, s.batcher.pushers, s.archived, s.ring.gate.claimant, s.acked, s.unarchived)
    && ArchiveOpen(s.batcher.pushers, s.unarchived, s.batcher.closed)
    && DownFlow(s.down, s.handlers, s.unarchived, s.ring.j.pc, s.ring.e.pc)
    && DownBatcher(s.down, s.batcher.closers, s.batcher.closed, s.batcher.worker)
    && HardOk(s.hard, s.base, s.ring.j.wal, s.down)
    && Promises(s.promised, s.base, s.hard, s.ring.syncEvery)
  }

  // --- When only handler h and its goroutines move ---

  ghost predicate Except<T>(xs: seq<T>, ys: seq<T>, h: nat) {
    |xs| == |ys| && forall k :: 0 <= k < |xs| && k != h ==> ys[k] == xs[k]
  }

  lemma {:induction false} LinkedMoved(hs: seq<Handler>, ps: seq<R.Producer>, ws: seq<R.Waiter>, qs: seq<B.Pusher>,
        hs': seq<Handler>, ps': seq<R.Producer>, ws': seq<R.Waiter>, qs': seq<B.Pusher>, h: nat)
    requires Linked(hs, ps, ws, qs) && h < |hs|
    requires Except(hs, hs', h) && Except(ps, ps', h) && Except(ws, ws', h) && Except(qs, qs', h)
    requires LinkOk(hs'[h], ps'[h], ws'[h], qs'[h])
    ensures Linked(hs', ps', ws', qs')
  {
    hide LinkOk;
  }

  lemma {:induction false} TicketGrows(t: Ticket, h: nat, log: seq<OrderEvent>, claimant: seq<nat>, acked: set<nat>,
        log': seq<OrderEvent>, claimant': seq<nat>, acked': set<nat>, n: nat, c: nat)
    requires TicketOk(t, h, log, claimant, acked) && log <= log' && claimant <= claimant'
    requires acked' == acked || (acked' == acked + {n} && n < |claimant| && claimant[n] == c && c != h)
    ensures TicketOk(t, h, log', claimant', acked')
  {
  }

  lemma {:induction false} TicketedMoved(hs: seq<Handler>, ps: seq<R.Producer>, log: seq<OrderEvent>,
        claimant: seq<nat>, acked: set<nat>, hs': seq<Handler>, ps': seq<R.Producer>, log': seq<OrderEvent>,
        claimant': seq<nat>, acked': set<nat>, n: nat, h: nat)
    requires Ticketed(hs, ps, log, claimant, acked) && h < |hs|
    requires Except(hs, hs', h) && Except(ps, ps', h) && log <= log' && claimant <= claimant'
    requires acked' == acked || (acked' == acked + {n} && n < |claimant| && claimant[n] == h)
    requires TicketsOk(h, hs'[h], ps'[h], log', claimant', acked')
    ensures Ticketed(hs', ps', log', claimant', acked')
  {
    hide TicketOk;
    forall k | 0 <= k < |hs| && k != h ensures TicketsOk(k, hs[k], ps[k], log', claimant', acked') {
      assert TicketsOk(k, hs[k], ps[k], log, claimant, acked);
      forall i | 0 <= i < |hs[k].pending| ensures TicketOk(hs[k].pending[i], k, log', claimant', acked') {
        TicketGrows(hs[k].pending[i], k, log, claimant, acked, log', claimant', acked', n, h);
      }
      if HasTicket(ps[k]) {
        TicketGrows(Ticket(ps[k].ev, ps[k].sn), k, log, claimant, acked, log', claimant', acked', n, h);
      }
    }
  }

  lemma {:induction false} AccountsMoved(hs: seq<Handler>, ps: seq<R.Producer>, claimant: seq<nat>, acked: set<nat>,
        failErr: bool, hs': seq<Handler>, ps': seq<R.Producer>, acked': set<nat>, failErr': bool, h: nat)
    requires Accounts(hs, ps, claimant, acked, failErr) && h < |hs| == |ps|
    requires Except(hs, hs', h) && Except(ps, ps', h) && acked <= acked' && (failErr ==> failErr')
    requires forall n :: Carries(hs[h], ps[h], n) ==> failErr' || n in acked' || Carries(hs'[h], ps'[h], n)
    ensures Accounts(hs', ps', claimant, acked', failErr')
  {
    hide Carries;
    if !failErr' {
      forall n | 0 <= n < |claimant| ensures n in acked' || CarriedBy(hs', ps', claimant[n], n) {
        assert n in acked || CarriedBy(hs, ps, claimant[n], n);
      }
    }
  }

  lemma {:induction false} ConfirmedMoved(hs: seq<Handler>, acked: set<nat>, cursor: nat, hs': seq<Handler>,
        acked': set<nat>, cursor': nat, h: nat)
    requires Confirmed(hs, acked, cursor) && h < |hs| && Except(hs, hs', h) && cursor <= cursor'
    requires forall n :: n in acked' ==> n in acked || n < cursor'
    requires hs'[h].pc.Pushing? && hs'[h].pending != [] ==> hs'[h].pending[0].sn < cursor'
    ensures Confirmed(hs', acked', cursor')
  {
  }

  lemma {:induction false} IdsMoved(hs: seq<Handler>, ps: seq<R.Producer>, ids: set<uint64>, baseIds: set<uint64>,
        logIds: set<uint64>, failed: bool, hs': seq<Handler>, ps': seq<R.Producer>, ids': set<uint64>,
        logIds': set<uint64>, failed': bool, h: nat, x: uint64)
    requires IdsHeld(hs, ps, ids, baseIds, logIds, failed) && h < |hs|
    requires Except(hs, hs', h) && Except(ps, ps', h) && (failed ==> failed')
    requires ids - {x} <= ids' && logIds' <= logIds + {x}
    requires forall k :: 0 <= k < |hs| && k != h && Holds(hs[k].pc) ==> hs[k].pc.ev.orderId != x
    requires baseIds <= ids' && (failed' || logIds' <= ids')
    requires IdOk(hs'[h], ps'[h], ids', baseIds, logIds', failed')
    requires Holds(hs'[h].pc) ==> hs'[h].pc.ev.orderId == x
    ensures IdsHeld(hs', ps', ids', baseIds, logIds', failed')
  {
    forall k | 0 <= k < |hs| && k != h ensures IdOk(hs'[k], ps'[k], ids', baseIds, logIds', failed') {
      assert IdOk(hs[k], ps[k], ids, baseIds, logIds, failed);
    }
  }

  lemma {:induction false} ArchiveAcksMoved(hs: seq<Handler>, qs: seq<B.Pusher>, archived: seq<nat>, claimant: seq<nat>,
        acked: set<nat>, unarchived: set<nat>, hs': seq<Handler>, qs': seq<B.Pusher>, archived': seq<nat>,
        claimant': seq<nat>, acked': set<nat>, unarchived': set<nat>, h: nat)
    requires ArchiveAcks(hs, qs, archived, claimant, acked, unarchived) && h < |hs|
    requires Except(hs, hs', h) && Except(qs, qs', h) && claimant <= claimant' && acked <= acked'
             && unarchived <= unarchived'
    requires forall n :: HandsOver(hs[h], qs[h], n) ==> n in acked' || HandsOver(hs'[h], qs'[h], n)
    requires forall n :: n in archived ==> n in archived'
    requires forall n :: n in archived' ==>
             n in archived || (n < |claimant'| && claimant'[n] == h && HandsOver(hs'[h], qs'[h], n))
    requires forall n :: n in acked' ==> n in acked || n in archived' || n in unarchived'
    requires hs'[h].pc.Pushing? && hs'[h].pending != [] && Sent(qs'[h]) ==> hs'[h].pending[0].sn in archived'
    ensures ArchiveAcks(hs', qs', archived', claimant', acked', unarchived')
  {
    hide HandsOver, Sent;
    forall n | n in archived' ensures n in acked' || (n < |claimant'| && HandedOver(hs', qs', claimant'[n], n)) {
      if n in archived && n !in acked {
        assert HandedOver(hs, qs, claimant[n], n) && claimant'[n] == claimant[n];
      }
    }
  }

  lemma {:induction false} DownMoved(d: Down, hs: seq<Handler>, unarchived: set<nat>, jpc: R.JournalerPc,
        cpc: R.ConsumerPc, hs': seq<Handler>, unarchived': set<nat>, h: nat)
    requires DownFlow(d, hs, unarchived, jpc, cpc) && h < |hs| && Except(hs, hs', h)
    requires hs[h].pc.Gone? ==> d.pc.Serving?
    requires unarchived' == unarchived || Rank(d.pc) >= 2
    ensures DownFlow(d, hs', unarchived', jpc, cpc)
  {
  }

  lemma {:induction false} LinkAt(hs: seq<Handler>, ps: seq<R.Producer>, ws: seq<R.Waiter>, qs: seq<B.Pusher>, h: nat)
    requires Linked(hs, ps, ws, qs) && h < |hs|
    ensures |hs| == |ps| == |ws| == |qs| && LinkOk(hs[h], ps[h], ws[h], qs[h])
  {
  }

  lemma {:induction false} TicketsAt(hs: seq<Handler>, ps: seq<R.Producer>, log: seq<OrderEvent>, claimant: seq<nat>,
        acked: set<nat>, h: nat)
    requires Ticketed(hs, ps, log, claimant, acked) && h < |hs|
    ensures |hs| == |ps| && TicketsOk(h, hs[h], ps[h], log, claimant, acked)
  {
  }

  /** Entering and leaving the ring moves one goroutine and nothing else. */
  lemma {:induction false} CallChanges(r: R.State, step: R.Step)
    requires R.Shape(r) && R.Enabled(r, step)
    ensures step.Call? ==> R.Apply(r, step) == r.(producers := r.producers[step.p := R.PCheckFailed(step.ev)])
    ensures step.Return? ==> R.Apply(r, step) == r.(producers := r.producers[step.p := R.PIdle])
    ensures step.WaitCall? ==> R.Apply(r, step) == r.(waiters := r.waiters[step.w := R.WFast(step.sn)])
    ensures step.WaitReturn? ==> R.Apply(r, step) == r.(waiters := r.waiters[step.w := R.WIdle])
  {
  }

  // --- Steps of a handler alone ---

  predicate Quiet(pc: HandlerPc) { !pc.Publishing? && !pc.Waiting? && !pc.Pushing? }

  /** Nobody holds id 0: validation refuses it. */
  lemma {:induction false} NobodyHoldsZero(hs: seq<Handler>, ps: seq<R.Producer>, ids: set<uint64>,
        baseIds: set<uint64>, logIds: set<uint64>, failed: bool)
    requires IdsHeld(hs, ps, ids, baseIds, logIds, failed)
    ensures forall k :: 0 <= k < |hs| && Holds(hs[k].pc) ==> hs[k].pc.ev.orderId != 0
  {
    forall k | 0 <= k < |hs| && Holds(hs[k].pc) ensures hs[k].pc.ev.orderId != 0 {
      assert IdOk(hs[k], ps[k], ids, baseIds, logIds, failed);
    }
  }

  /** What others hold differs from what h holds. */
  lemma {:induction false} OthersHold(hs: seq<Handler>, ps: seq<R.Producer>, ids: set<uint64>, baseIds: set<uint64>,
        logIds: set<uint64>, failed: bool, h: nat)
    requires IdsHeld(hs, ps, ids, baseIds, logIds, failed) && h < |hs|
    ensures IdOk(hs[h], ps[h], ids, baseIds, logIds, failed) && baseIds <= ids && (failed || logIds <= ids)
    ensures Holds(hs[h].pc) ==> forall k :: 0 <= k < |hs| && k != h && Holds(hs[k].pc) ==>
             hs[k].pc.ev.orderId != hs[h].pc.ev.orderId
    ensures forall k :: 0 <= k < |hs| && Holds(hs[k].pc) ==> hs[k].pc.ev.orderId in ids
  {
    forall k | 0 <= k < |hs| && Holds(hs[k].pc) ensures hs[k].pc.ev.orderId in ids {
      assert IdOk(hs[k], ps[k], ids, baseIds, logIds, failed);
    }
  }

  ghost predicate QuietStep(hd: Handler, hd': Handler, ids: set<uint64>, ids': set<uint64>) {
    && Quiet(hd.pc) && Quiet(hd'.pc) && hd'.pending == hd.pending && !hd'.pc.Forgetting?
    && (hd'.pc.Gone? ==> hd'.pending == [])
    && (hd'.pc.Registering? ==> Ingest.Validate(hd'.pc.ev).Fine?)
    && (ids' == ids || (hd.pc.Forgetting? && ids' == ids - {hd.pc.ev.orderId}))
  }

  lemma {:induction false} QuietIds(hs: seq<Handler>, ps: seq<R.Producer>, ids: set<uint64>, baseIds: set<uint64>,
        logIds: set<uint64>, failed: bool, h: nat, hd': Handler, ids': set<uint64>)
    requires IdsHeld(hs, ps, ids, baseIds, logIds, failed) && h < |hs| && QuietStep(hs[h], hd', ids, ids')
    ensures IdsHeld(hs[h := hd'], ps, ids', baseIds, logIds, failed)
  {
    NobodyHoldsZero(hs, ps, ids, baseIds, logIds, failed);
    OthersHold(hs, ps, ids, baseIds, logIds, failed, h);
    IdsMoved(hs, ps, ids, baseIds, logIds, failed, hs[h := hd'], ps, ids', logIds, failed, h,
             if hs[h].pc.Forgetting? then hs[h].pc.ev.orderId else 0);
  }

  /** A handler that is in neither machine, and does not enter one. */
  lemma {:induction false} QuietKeeps(s: State, h: nat, hd': Handler, ids': set<uint64>)
    requires Inv(s) && h < |s.handlers| && QuietStep(s.handlers[h], hd', s.ids, ids')
    requires s.handlers[h].pc.Gone? ==> s.down.pc.Serving?
    ensures Inv(Move(s, h, hd').(ids := ids'))
  {
    hide RS.Inv, B.Inv, Accounts, Confirmed, IdsHeld, Unique, Ids, ArchiveLog, ArchiveAcks, ArchiveOpen, DownFlow,
      DownBatcher, HardOk, Promises;
    var hs, hs' := s.handlers, s.handlers[h := hd'];
    var r, b := s.ring, s.batcher;
    QuietIds(hs, r.producers, s.ids, Ids(s.base), Ids(r.gate.log), r.failedFlag, h, hd', ids');
    LinkedMoved(hs, r.producers, r.waiters, b.pushers, hs', r.producers, r.waiters, b.pushers, h);
    TicketedMoved(hs, r.producers, r.gate.log, r.gate.claimant, s.acked, hs', r.producers, r.gate.log, r.gate.claimant,
      s.acked, 0, h);
    AccountsMoved(hs, r.producers, r.gate.claimant, s.acked, r.failErr, hs', r.producers, s.acked, r.failErr, h);
    ConfirmedMoved(hs, s.acked, r.j.cursor, hs', s.acked, r.j.cursor, h);
    ArchiveAcksMoved(hs, b.pushers, s.archived, r.gate.claimant, s.acked, s.unarchived,
                     hs', b.pushers, s.archived, r.gate.claimant, s.acked, s.unarchived, h);
    DownMoved(s.down, hs, s.unarchived, r.j.pc, r.e.pc, hs', s.unarchived, h);
  }

  lemma {:induction false} RegisterKeeps(s: State, h: nat)
    requires Inv(s) && h < |s.handlers| && s.handlers[h].pc.Registering? && s.ring.producers[h].PIdle?
    ensures Inv(RegisterStep(s, h))
  {
    hide R.Apply, Inv;
    var hd, ev := s.handlers[h], s.handlers[h].pc.ev;
    PublishBegins(s, h, ev);
    if ev.orderId in s.ids {
      QuietKeeps(s, h, hd.(pc := Reading), s.ids);
      assert RegisterStep(s, h) == Move(s, h, hd.(pc := Reading)).(ids := s.ids);
    } else {
      CallChanges(s.ring, R.Call(h, ev));
      RegisterMoves(s, h, s.ring.(producers := s.ring.producers[h := R.PCheckFailed(ev)]));
    }
  }

  lemma {:induction false} PublishBegins(s: State, h: nat, ev: OrderEvent)
    requires Inv(s) && h < |s.handlers| && (h < |s.ring.producers| ==> s.ring.producers[h].PIdle?)
    ensures Sized(s) && RS.Inv(s.ring.(producers := s.ring.producers[h := R.PCheckFailed(ev)]))
  {
    hide RS.Inv, R.Apply;
    CallChanges(s.ring, R.Call(h, ev));
    ClaimsBelow(s);
    RS.StepKeeps(s.ring, R.Call(h, ev));
  }

  lemma {:induction false} RegisterMoves(s: State, h: nat, r': R.State)
    requires Inv(s) && h < |s.handlers| && s.handlers[h].pc.Registering? && s.ring.producers[h].PIdle?
    requires var ev := s.handlers[h].pc.ev;
             ev.orderId !in s.ids && r' == s.ring.(producers := s.ring.producers[h := R.PCheckFailed(ev)]) && RS.Inv(r')
    ensures var ev := s.handlers[h].pc.ev;
            Inv(Move(s, h, s.handlers[h].(pc := Publishing(ev))).(ids := s.ids + {ev.orderId}, ring := r'))
  {
    hide Linked, Ticketed, RS.Inv, B.Inv, Accounts, Confirmed, IdsHeld, Unique, Ids, ArchiveLog, ArchiveAcks,
      ArchiveOpen, DownFlow, DownBatcher, HardOk, Promises;
    var hs, r, b := s.handlers, s.ring, s.batcher;
    var ev := hs[h].pc.ev;
    var hs', ids' := hs[h := hs[h].(pc := Publishing(ev))], s.ids + {ev.orderId};
    LinkAt(hs, r.producers, r.waiters, b.pushers, h);
    TicketsAt(hs, r.producers, r.gate.log, r.gate.claimant, s.acked, h);
    OthersHold(hs, r.producers, s.ids, Ids(s.base), Ids(r.gate.log), r.failedFlag, h);
    IdsMoved(hs, r.producers, s.ids, Ids(s.base), Ids(r.gate.log), r.failedFlag,
             hs', r'.producers, ids', Ids(r.gate.log), r.failedFlag, h, ev.orderId);
    LinkedMoved(hs, r.producers, r.waiters, b.pushers, hs', r'.producers, r.waiters, b.pushers, h);
    TicketedMoved(hs, r.producers, r.gate.log, r.gate.claimant, s.acked, hs', r'.producers, r.gate.log,
      r.gate.claimant, s.acked, 0, h);
    AccountsMoved(hs, r.producers, r.gate.claimant, s.acked, r.failErr, hs', r'.producers, s.acked, r.failErr, h);
    ConfirmedMoved(hs, s.acked, r.j.cursor, hs', s.acked, r.j.cursor, h);
    ArchiveAcksMoved(hs, b.pushers, s.archived, r.gate.claimant, s.acked, s.unarchived,
                     hs', b.pushers, s.archived, r.gate.claimant, s.acked, s.unarchived, h);
    DownMoved(s.down, hs, s.unarchived, r.j.pc, r.e.pc, hs', s.unarchived, h);
  }

  lemma {:induction false} ClaimsBelow(s: State)
    requires RS.Inv(s.ring)
    ensures R.Claims(s.ring.gate) < U63
  {
  }

  lemma {:induction false} PublishedKeeps(s: State, h: nat)
    requires Inv(s) && h < |s.handlers| && s.handlers[h].pc.Publishing? && R.Enabled(s.ring, R.Return(h))
    ensures Inv(PublishedStep(s, h))
  {
    hide R.Apply, Inv;
    var hd, p := s.handlers[h], s.ring.producers[h];
    PublishOver(s, h);
    CallChanges(s.ring, R.Return(h));
    var r' := s.ring.(producers := s.ring.producers[h := R.PIdle]);
    PublishedMoves(s, h, if p.POk? then hd.(pc := Reading, pending := hd.pending + [Ticket(hd.pc.ev, p.sn)])
                         else hd.(pc := Forgetting(hd.pc.ev), fatal := true), r');
  }

  lemma {:induction false} PublishOver(s: State, h: nat)
    requires Inv(s) && h < |s.handlers| && R.Enabled(s.ring, R.Return(h))
    ensures Sized(s) && RS.Inv(s.ring.(producers := s.ring.producers[h := R.PIdle]))
  {
    hide RS.Inv, R.Apply;
    CallChanges(s.ring, R.Return(h));
    ClaimsBelow(s);
    RS.StepKeeps(s.ring, R.Return(h));
  }

  lemma {:induction false} PublishedMoves(s: State, h: nat, hd': Handler, r': R.State)
    requires Inv(s) && h < |s.handlers| && s.handlers[h].pc.Publishing?
             && (s.ring.producers[h].POk? || s.ring.producers[h].PErr?)
    requires r' == s.ring.(producers := s.ring.producers[h := R.PIdle]) && RS.Inv(r')
    requires var hd, p := s.handlers[h], s.ring.producers[h];
             hd' == if p.POk? then hd.(pc := Reading, pending := hd.pending + [Ticket(hd.pc.ev, p.sn)])
                    else hd.(pc := Forgetting(hd.pc.ev), fatal := true)
    ensures Inv(Move(s, h, hd').(ring := r'))
  {
    hide Linked, Ticketed, RS.Inv, B.Inv, Accounts, Confirmed, IdsHeld, Unique, Ids, ArchiveLog, ArchiveAcks,
      ArchiveOpen, DownFlow, DownBatcher, HardOk, Promises;
    var hs, r, b := s.handlers, s.ring, s.batcher;
    var ev, p := hs[h].pc.ev, r.producers[h];
    var hs' := hs[h := hd'];
    LinkAt(hs, r.producers, r.waiters, b.pushers, h);
    TicketsAt(hs, r.producers, r.gate.log, r.gate.claimant, s.acked, h);
    OthersHold(hs, r.producers, s.ids, Ids(s.base), Ids(r.gate.log), r.failedFlag, h);
    IdsMoved(hs, r.producers, s.ids, Ids(s.base), Ids(r.gate.log), r.failedFlag,
             hs', r'.producers, s.ids, Ids(r.gate.log), r.failedFlag, h, ev.orderId);
    LinkedMoved(hs, r.producers, r.waiters, b.pushers, hs', r'.producers, r.waiters, b.pushers, h);
    TicketedMoved(hs, r.producers, r.gate.log, r.gate.claimant, s.acked, hs', r'.producers, r.gate.log,
      r.gate.claimant, s.acked, 0, h);
    TicketTaken(hs[h], p, hs'[h]);
    AccountsMoved(hs, r.producers, r.gate.claimant, s.acked, r.failErr, hs', r'.producers, s.acked, r.failErr, h);
    ConfirmedMoved(hs, s.acked, r.j.cursor, hs', s.acked, r.j.cursor, h);
    ArchiveAcksMoved(hs, b.pushers, s.archived, r.gate.claimant, s.acked, s.unarchived,
                     hs', b.pushers, s.archived, r.gate.claimant, s.acked, s.unarchived, h);
    DownMoved(s.down, hs, s.unarchived, r.j.pc, r.e.pc, hs', s.unarchived, h);
  }

  /** The ticket that Publish returns goes to the end of the pending ones. */
  lemma {:induction false} TicketTaken(hd: Handler, p: R.Producer, hd': Handler)
    requires p.POk? || p.PErr?
    requires p.POk? ==> hd'.pending == hd.pending + [Ticket(p.ev, p.sn)]
    requires p.PErr? ==> hd'.pending == hd.pending
    ensures forall n :: Carries(hd, p, n) ==> Carries(hd', R.PIdle, n)
  {
    forall n | Carries(hd, p, n) ensures Carries(hd', R.PIdle, n) {
      if p.POk? && p.sn == n {
        assert hd'.pending[|hd.pending|].sn == n;
      } else {
        var i :| 0 <= i < |hd.pending| && hd.pending[i].sn == n;
        assert hd'.pending[i].sn == n;
      }
    }
  }

  lemma {:induction false} ConfirmKeeps(s: State, h: nat)
    requires Inv(s) && Enabled(s, Confirm(h))
    ensures Inv(Apply(s, Confirm(h)))
  {
    hide R.Apply, Linked, Ticketed, RS.Inv, B.Inv, Accounts, Confirmed, IdsHeld, Unique, Ids, ArchiveLog, ArchiveAcks,
      ArchiveOpen, DownFlow, DownBatcher, HardOk, Promises;
    var hs, r, b := s.handlers, s.ring, s.batcher;
    var s' := Apply(s, Confirm(h));
    var hs', r' := s'.handlers, s'.ring;
    LinkAt(hs, r.producers, r.waiters, b.pushers, h);
    CallChanges(r, R.WaitCall(h, hs[h].pending[0].sn));
    RS.StepKeeps(r, R.WaitCall(h, hs[h].pending[0].sn)) by { ClaimsBelow(s); }
    LeavesIds(hs, r.producers, s.ids, Ids(s.base), Ids(r.gate.log), r.failedFlag, h, hs'[h]);
    LinkedMoved(hs, r.producers, r.waiters, b.pushers, hs', r.producers, r'.waiters, b.pushers, h);
    TicketsAt(hs, r.producers, r.gate.log, r.gate.claimant, s.acked, h);
    TicketedMoved(hs, r.producers, r.gate.log, r.gate.claimant, s.acked, hs', r.producers, r.gate.log, r.gate.claimant,
      s.acked, 0, h);
    AccountsMoved(hs, r.producers, r.gate.claimant, s.acked, r.failErr, hs', r.producers, s.acked, r.failErr, h);
    ConfirmedMoved(hs, s.acked, r.j.cursor, hs', s.acked, r.j.cursor, h);
    ArchiveAcksMoved(hs, b.pushers, s.archived, r.gate.claimant, s.acked, s.unarchived,
                     hs', b.pushers, s.archived, r.gate.claimant, s.acked, s.unarchived, h);
    DownMoved(s.down, hs, s.unarchived, r.j.pc, r.e.pc, hs', s.unarchived, h);
  }

  lemma {:induction false} LeavesIds(hs: seq<Handler>, ps: seq<R.Producer>, ids: set<uint64>, baseIds: set<uint64>,
        logIds: set<uint64>, failed: bool, h: nat, hd': Handler)
    requires IdsHeld(hs, ps, ids, baseIds, logIds, failed) && h < |hs|
    requires !hd'.pc.Registering? && !Holds(hd'.pc)
    ensures IdsHeld(hs[h := hd'], ps, ids, baseIds, logIds, failed)
  {
    NobodyHoldsZero(hs, ps, ids, baseIds, logIds, failed);
    IdsMoved(hs, ps, ids, baseIds, logIds, failed, hs[h := hd'], ps, ids, logIds, failed, h, 0);
  }

  lemma {:induction false} WaitedKeeps(s: State, h: nat)
    requires Inv(s) && h < |s.handlers| && s.handlers[h].pc.Waiting? && s.handlers[h].pending != []
    requires R.Enabled(s.ring, R.WaitReturn(h)) && s.batcher.pushers[h].PushIdle?
    ensures Inv(WaitedStep(s, h))
  {
    hide R.Apply, B.Apply, Inv;
    var hd, ev := s.handlers[h], s.handlers[h].pending[0].ev;
    WaitOver(s, h);
    CallChanges(s.ring, R.WaitReturn(h));
    var r' := s.ring.(waiters := s.ring.waiters[h := R.WIdle]);
    if s.ring.waiters[h].ok {
      PushCalled(s.batcher, h, ev);
      WaitedMoves(s, h, hd.(pc := Pushing), r', s.batcher.(pushers := s.batcher.pushers[h := B.PushLock(ev)]));
    } else {
      WaitedMoves(s, h, Handler(Gone, [], true), r', s.batcher);
    }
  }

  lemma {:induction false} WaitOver(s: State, h: nat)
    requires Inv(s) && h < |s.handlers| && R.Enabled(s.ring, R.WaitReturn(h))
    ensures RS.Inv(s.ring.(waiters := s.ring.waiters[h := R.WIdle]))
    ensures Sized(s) && B.Inv(s.batcher) && ArchiveOpen(s.batcher.pushers, s.unarchived, s.batcher.closed)
  {
    hide RS.Inv, R.Apply;
    CallChanges(s.ring, R.WaitReturn(h));
    ClaimsBelow(s);
    RS.StepKeeps(s.ring, R.WaitReturn(h));
  }

  lemma {:induction false} PushCalled(b: B.State, h: nat, ev: OrderEvent)
    requires B.Inv(b) && h < |b.pushers| && b.pushers[h].PushIdle?
    ensures B.Enabled(b, B.CallPush(h, ev))
             && B.Apply(b, B.CallPush(h, ev)) == b.(pushers := b.pushers[h := B.PushLock(ev)])
    ensures B.Inv(b.(pushers := b.pushers[h := B.PushLock(ev)]))
  {
    hide B.Inv;
    B.StepKeeps(b, B.CallPush(h, ev));
  }

  lemma {:induction false} WaitedMoves(s: State, h: nat, hd': Handler, r': R.State, b': B.State)
    requires Inv(s) && h < |s.handlers| && s.handlers[h].pc.Waiting? && s.handlers[h].pending != []
             && s.ring.waiters[h].WDone?
    requires r' == s.ring.(waiters := s.ring.waiters[h := R.WIdle]) && RS.Inv(r')
    requires if s.ring.waiters[h].ok
             then hd' == s.handlers[h].(pc := Pushing)
                  && b' == s.batcher.(pushers := s.batcher.pushers[h := B.PushLock(s.handlers[h].pending[0].ev)])
                    && B.Inv(b')
             else hd' == Handler(Gone, [], true) && b' == s.batcher
    ensures Inv(Move(s, h, hd').(ring := r', batcher := b'))
  {
    hide Linked, Ticketed, RS.Inv, B.Inv, Accounts, Confirmed, IdsHeld, Unique, Ids, ArchiveLog, ArchiveAcks, DownFlow,
      DownBatcher, HardOk, Promises;
    var hs, r, b := s.handlers, s.ring, s.batcher;
    var hs' := hs[h := hd'];
    LinkAt(hs, r.producers, r.waiters, b.pushers, h);
    TicketsAt(hs, r.producers, r.gate.log, r.gate.claimant, s.acked, h);
    WaiterTold(s, h);
    LeavesIds(hs, r.producers, s.ids, Ids(s.base), Ids(r.gate.log), r.failedFlag, h, hd');
    LinkedMoved(hs, r.producers, r.waiters, b.pushers, hs', r.producers, r'.waiters, b'.pushers, h);
    TicketedMoved(hs, r.producers, r.gate.log, r.gate.claimant, s.acked, hs', r.producers, r.gate.log, r.gate.claimant,
      s.acked, 0, h);
    AccountsMoved(hs, r.producers, r.gate.claimant, s.acked, r.failErr, hs', r.producers, s.acked, r.failErr, h);
    ConfirmedMoved(hs, s.acked, r.j.cursor, hs', s.acked, r.j.cursor, h);
    ArchiveAcksMoved(hs, b.pushers, s.archived, r.gate.claimant, s.acked, s.unarchived,
                     hs', b'.pushers, s.archived, r.gate.claimant, s.acked, s.unarchived, h);
    DownMoved(s.down, hs, s.unarchived, r.j.pc, r.e.pc, hs', s.unarchived, h);
  }

  /** WaitDurable returns nil behind the cursor, and an error only after a failure. */
  lemma {:induction false} WaiterTold(s: State, h: nat)
    requires RS.Inv(s.ring) && h < |s.ring.waiters| && s.ring.waiters[h].WDone?
    ensures s.ring.waiters[h].ok ==> s.ring.waiters[h].sn < s.ring.j.cursor
    ensures !s.ring.waiters[h].ok ==> s.ring.failErr
  {
    assert RS.InvWaiter(s.ring.waiters[h], s.ring.j.cursor, s.ring.j.pc, s.ring.failErr);
  }

  lemma {:induction false} PushedKeeps(s: State, h: nat)
    requires Inv(s) && h < |s.handlers| && s.handlers[h].pc.Pushing? && s.handlers[h].pending != []
    requires B.Enabled(s.batcher, B.ReturnPush(h))
    ensures Inv(PushedStep(s, h))
  {
    hide Linked, Ticketed, RS.Inv, B.Inv, Accounts, Confirmed, IdsHeld, Unique, Ids, ArchiveLog, ArchiveAcks,
      ArchiveOpen, DownFlow, DownBatcher, HardOk, Promises;
    var hs, r, b := s.handlers, s.ring, s.batcher;
    var s' := PushedStep(s, h);
    var hs', b' := s'.handlers, s'.batcher;
    var sn := hs[h].pending[0].sn;
    LinkAt(hs, r.producers, r.waiters, b.pushers, h);
    TicketsAt(hs, r.producers, r.gate.log, r.gate.claimant, s.acked, h);
    B.StepKeeps(b, B.ReturnPush(h));
    ArchiveReturned(b.pushers, h, s.unarchived, s'.unarchived, b.closed);
    LeavesIds(hs, r.producers, s.ids, Ids(s.base), Ids(r.gate.log), r.failedFlag, h, hs'[h]);
    LinkedMoved(hs, r.producers, r.waiters, b.pushers, hs', r.producers, r.waiters, b'.pushers, h);
    TicketAnswered(h, hs[h], r.producers[h], r.gate.log, r.gate.claimant, s.acked, hs'[h]);
    TicketedMoved(hs, r.producers, r.gate.log, r.gate.claimant, s.acked, hs', r.producers, r.gate.log, r.gate.claimant,
      s'.acked, sn, h);
    AccountsMoved(hs, r.producers, r.gate.claimant, s.acked, r.failErr, hs', r.producers, s'.acked, r.failErr, h);
    PushConfirmed(hs, s.acked, r.j.cursor, h);
    ConfirmedMoved(hs, s.acked, r.j.cursor, hs', s'.acked, r.j.cursor, h);
    PushHandedOver(hs, b.pushers, s.archived, r.gate.claimant, s.acked, s.unarchived, h);
    ArchiveAcksMoved(hs, b.pushers, s.archived, r.gate.claimant, s.acked, s.unarchived,
                     hs', b'.pushers, s.archived, r.gate.claimant, s'.acked, s'.unarchived, h);
    TurnedLate(s, h);
    DownMoved(s.down, hs, s.unarchived, r.j.pc, r.e.pc, hs', s'.unarchived, h);
  }

  lemma {:induction false} ArchiveReturned(qs: seq<B.Pusher>, h: nat, unarchived: set<nat>, unarchived': set<nat>,
        closed: bool)
    requires ArchiveOpen(qs, unarchived, closed) && h < |qs| && qs[h].PushDone?
    requires qs[h].ok ==> unarchived' == unarchived
    ensures ArchiveOpen(qs[h := B.PushIdle], unarchived', closed)
  {
  }

  lemma {:induction false} TurnedLate(s: State, h: nat)
    requires ArchiveOpen(s.batcher.pushers, s.unarchived, s.batcher.closed)
             && DownBatcher(s.down, s.batcher.closers, s.batcher.closed, s.batcher.worker)
    requires h < |s.batcher.pushers|
    ensures Turned(s.batcher.pushers[h]) ==> Rank(s.down.pc) >= 2
  {
  }

  lemma {:induction false} PushConfirmed(hs: seq<Handler>, acked: set<nat>, cursor: nat, h: nat)
    requires Confirmed(hs, acked, cursor) && h < |hs| && hs[h].pc.Pushing? && hs[h].pending != []
    ensures hs[h].pending[0].sn < cursor
  {
  }

  lemma {:induction false} PushHandedOver(hs: seq<Handler>, qs: seq<B.Pusher>, archived: seq<nat>, claimant: seq<nat>,
        acked: set<nat>, unarchived: set<nat>, h: nat)
    requires ArchiveAcks(hs, qs, archived, claimant, acked, unarchived) && h < |hs| && hs[h].pc.Pushing?
             && hs[h].pending != []
    ensures Sent(qs[h]) ==> hs[h].pending[0].sn in archived
  {
  }

  /** The first ticket is answered; the others stay. */
  lemma {:induction false} TicketAnswered(h: nat, hd: Handler, p: R.Producer, log: seq<OrderEvent>, claimant: seq<nat>,
        acked: set<nat>, hd': Handler)
    requires TicketsOk(h, hd, p, log, claimant, acked) && hd.pending != [] && hd'.pending == hd.pending[1..]
    ensures TicketsOk(h, hd', p, log, claimant, acked + {hd.pending[0].sn})
    ensures forall n :: Carries(hd, p, n) ==> n in acked + {hd.pending[0].sn} || Carries(hd', p, n)
  {
    forall n | Carries(hd, p, n) ensures n in acked + {hd.pending[0].sn} || Carries(hd', p, n) {
      if i :| 0 <= i < |hd.pending| && hd.pending[i].sn == n {
        assert i > 0 ==> hd'.pending[i - 1].sn == n;
      }
    }
  }

  // --- Steps inside the ring ---

  lemma {:induction false} IdsAppend(es: seq<OrderEvent>, e: OrderEvent)
    ensures Ids(es + [e]) == Ids(es) + {e.orderId}
  {
    var all := es + [e];
    assert all[|es|] == e;
    forall x | x in Ids(es) + {e.orderId} ensures x in Ids(all) {
      if x in Ids(es) {
        var i :| 0 <= i < |es| && es[i].orderId == x;
        assert all[i] == es[i];
      }
    }
  }

  /** What one step of Publish can do to its goroutine and to the log. */
  ghost predicate PublishMove(p: R.Producer, p': R.Producer, h: nat, g: R.Gate, g': R.Gate, failed: bool) {
    && !p.PIdle? && !p'.PIdle? && p'.ev == p.ev
    && (p.PClaim? && g.pc.KOpen? ==>
          p' == R.PCheckSpace(p.ev, |g.log|) && g'.log == g.log + [p.ev] && g'.claimant == g.claimant + [h])
    && (p.PClaim? && !g.pc.KOpen? ==> p' == R.PErr(p.ev, R.ErrClosed) && g'.log == g.log && g'.claimant == g.claimant)
    && (!p.PClaim? ==> g' == g && !p'.PCheckFailed?)
    && (!p.PClaim? && p'.PErr? ==> p.PJournalFailure?) && (p'.PJournalFailure? ==> failed)
    && (p'.PClaim? ==> p.PCheckFailed? && !failed)
    && (HasTicket(p) ==> (p'.PJournalFailure? && failed) || (HasTicket(p') && p'.sn == p.sn))
    && (HasTicket(p') && !p.PClaim? ==> HasTicket(p) && p'.sn == p.sn)
  }

  /** One step of Publish by goroutine h. */
  ghost predicate PublishChange(r: R.State, r': R.State, h: nat) {
    && h < |r.producers| == |r'.producers|
    && r' == r.(gate := r'.gate, slots := r'.slots, stamped := r'.stamped, producers := r'.producers)
    && r'.producers == r.producers[h := r'.producers[h]] && |r'.slots| == |r.slots|
    && PublishMove(r.producers[h], r'.producers[h], h, r.gate, r'.gate, r.failedFlag)
  }

  lemma {:induction false} PublishIs(r: R.State, h: nat)
    requires R.Shape(r) && RS.InvGate(r.gate) && R.Enabled(r, R.Publish(h))
             && R.Claims(R.Apply(r, R.Publish(h)).gate) < U63
    ensures PublishChange(r, R.Apply(r, R.Publish(h)), h)
  {
    hide R.Claim, R.Add64, R.Sub64;
    if r.producers[h].PClaim? { RS.ClaimKeepsGate(r.gate, h, r.producers[h].ev); }
  }

  /** Tickets and counts after one step of Publish. */
  lemma {:induction false} PublishTickets(h: nat, hd: Handler, p: R.Producer, p': R.Producer, g: R.Gate, g': R.Gate,
        failed: bool, acked: set<nat>, cursor: nat)
    requires PublishMove(p, p', h, g, g', failed) && |g.claimant| == |g.log| && cursor <= |g.log|
    requires TicketsOk(h, hd, p, g.log, g.claimant, acked) && forall n :: n in acked ==> n < cursor
    ensures TicketsOk(h, hd, p', g'.log, g'.claimant, acked) && g.log <= g'.log && g.claimant <= g'.claimant
  {
    forall i | 0 <= i < |hd.pending| ensures TicketOk(hd.pending[i], h, g'.log, g'.claimant, acked) {
      TicketGrows(hd.pending[i], h, g.log, g.claimant, acked, g'.log, g'.claimant, acked, 0, 0);
    }
    if HasTicket(p) { TicketGrows(Ticket(p.ev, p.sn), h, g.log, g.claimant, acked, g'.log, g'.claimant, acked, 0, 0); }
  }

  lemma {:induction false} PublishAccounts(hs: seq<Handler>, ps: seq<R.Producer>, g: R.Gate, g': R.Gate,
        acked: set<nat>, failErr: bool, failed: bool, h: nat, p': R.Producer)
    requires Accounts(hs, ps, g.claimant, acked, failErr) && h < |hs| == |ps| && |g.claimant| == |g.log|
    requires PublishMove(ps[h], p', h, g, g', failed) && (failed ==> failErr)
    requires ps[h].PErr? || ps[h].PClaim? ==> !HasTicket(ps[h])
    ensures Accounts(hs, ps[h := p'], g'.claimant, acked, failErr)
  {
    var ps' := ps[h := p'];
    if !failErr {
      forall n | 0 <= n < |g'.claimant| ensures n in acked || CarriedBy(hs, ps', g'.claimant[n], n) {
        if n < |g.claimant| {
          assert g'.claimant[n] == g.claimant[n];
          assert n in acked || CarriedBy(hs, ps, g.claimant[n], n);
        } else {
          assert HasTicket(ps'[h]) && ps'[h].sn == n;
        }
      }
    }
  }

  lemma {:induction false} PublishIds(hs: seq<Handler>, ps: seq<R.Producer>, ids: set<uint64>, baseIds: set<uint64>,
        g: R.Gate, g': R.Gate, failed: bool, h: nat, p': R.Producer)
    requires IdsHeld(hs, ps, ids, baseIds, Ids(g.log), failed) && h < |hs| && hs[h].pc.Publishing?
             && ps[h].PIdle? == false
    requires ps[h].ev == hs[h].pc.ev && PublishMove(ps[h], p', h, g, g', failed)
    ensures IdsHeld(hs, ps[h := p'], ids, baseIds, Ids(g'.log), failed)
  {
    var ev := hs[h].pc.ev;
    hide Ids;
    OthersHold(hs, ps, ids, baseIds, Ids(g.log), failed, h);
    IdsAppend(g.log, ev);
    IdsMoved(hs, ps, ids, baseIds, Ids(g.log), failed, hs, ps[h := p'], ids, Ids(g'.log), failed, h, ev.orderId);
  }

  lemma {:induction false} PublishUnique(base: seq<OrderEvent>, log: seq<OrderEvent>, ev: OrderEvent)
    requires Unique(base, log) && ev.orderId !in Ids(log) && ev.orderId !in Ids(base) && Ingest.Validate(ev).Fine?
    ensures Unique(base, log + [ev])
  {
    IdsAppend(log, ev);
    forall i | 0 <= i < |log| ensures log[i].orderId != ev.orderId {
      assert log[i].orderId in Ids(log);
    }
  }

  lemma {:induction false} ArchiveLogGrows(archived: seq<nat>, accepted: seq<OrderEvent>, log: seq<OrderEvent>,
        claimant: seq<nat>, log': seq<OrderEvent>, claimant': seq<nat>)
    requires ArchiveLog(archived, accepted, log, claimant) && log <= log' && |claimant'| == |log'|
    ensures ArchiveLog(archived, accepted, log', claimant')
  {
  }

  lemma {:induction false} RingFacts(r: R.State)
    requires RS.Inv(r)
    ensures R.Shape(r) && RS.InvGate(r.gate) && |r.gate.claimant| == |r.gate.log|
    ensures r.j.cursor <= |r.j.wal| && r.j.wal <= r.gate.log && r.j.synced <= |r.j.wal|
    ensures (r.failedFlag ==> r.failErr) && (r.syncEvery ==> r.j.cursor <= r.j.synced)
  {
  }

  lemma {:induction false} PublishKeeps(s: State, h: nat)
    requires Inv(s) && R.Enabled(s.ring, R.Publish(h))
    requires R.Claims(R.Apply(s.ring, R.Publish(h)).gate) < U63
    ensures Inv(s.(ring := R.Apply(s.ring, R.Publish(h))))
  {
    hide R.Apply, Inv;
    PublishStays(s, h);
    PublishMoves(s, h, R.Apply(s.ring, R.Publish(h)));
  }

  lemma {:induction false} PublishStays(s: State, h: nat)
    requires Inv(s) && R.Enabled(s.ring, R.Publish(h))
    requires R.Claims(R.Apply(s.ring, R.Publish(h)).gate) < U63
    ensures Sized(s) && h < |s.handlers| && RS.Inv(R.Apply(s.ring, R.Publish(h)))
    ensures PublishChange(s.ring, R.Apply(s.ring, R.Publish(h)), h)
  {
    hide RS.Inv, R.Apply, PublishChange;
    RingFacts(s.ring);
    PublishIs(s.ring, h);
    RS.StepKeeps(s.ring, R.Publish(h));
  }

  lemma {:induction false} PublishMoves(s: State, h: nat, r': R.State)
    requires Inv(s) && h < |s.handlers| && RS.Inv(r')
    requires PublishChange(s.ring, r', h)
    ensures Inv(s.(ring := r'))
  {
    hide Linked, Ticketed, RS.Inv, B.Inv, Accounts, Confirmed, IdsHeld, Unique, Ids, ArchiveLog, ArchiveAcks,
      ArchiveOpen, DownFlow, DownBatcher, HardOk, Promises;
    var hs, r, b := s.handlers, s.ring, s.batcher;
    var p, p' := r.producers[h], r'.producers[h];
    RingFacts(r);
    RingFacts(r');
    LinkAt(hs, r.producers, r.waiters, b.pushers, h);
    LinkedMoved(hs, r.producers, r.waiters, b.pushers, hs, r'.producers, r.waiters, b.pushers, h);
    TicketsAt(hs, r.producers, r.gate.log, r.gate.claimant, s.acked, h);
    assert forall n :: n in s.acked ==> n < r.j.cursor by { AckedBelow(hs, s.acked, r.j.cursor); }
    PublishTickets(h, hs[h], p, p', r.gate, r'.gate, r.failedFlag, s.acked, r.j.cursor);
    TicketedMoved(hs, r.producers, r.gate.log, r.gate.claimant, s.acked, hs, r'.producers, r'.gate.log,
      r'.gate.claimant, s.acked, 0, h);
    PublishAccounts(hs, r.producers, r.gate, r'.gate, s.acked, r.failErr, r.failedFlag, h, p');
    PublishIds(hs, r.producers, s.ids, Ids(s.base), r.gate, r'.gate, r.failedFlag, h, p');
    if p.PClaim? && r.gate.pc.KOpen? {
      OthersHold(hs, r.producers, s.ids, Ids(s.base), Ids(r.gate.log), r.failedFlag, h);
      PublishUnique(s.base, r.gate.log, p.ev);
    }
    ArchiveLogGrows(s.archived, b.accepted, r.gate.log, r.gate.claimant, r'.gate.log, r'.gate.claimant);
    ArchiveAcksMoved(hs, b.pushers, s.archived, r.gate.claimant, s.acked, s.unarchived,
                     hs, b.pushers, s.archived, r'.gate.claimant, s.acked, s.unarchived, h);
  }

  lemma {:induction false} AckedBelow(hs: seq<Handler>, acked: set<nat>, cursor: nat)
    requires Confirmed(hs, acked, cursor)
    ensures forall n :: n in acked ==> n < cursor
  {
  }

  /** The steps of the stages, of waiters and of Close. */
  predicate NotPublish(step: R.Step) {
    || step.Wait? || step.RunJournaler? || step.RunConsumer?
    || step.StartJournaler? || step.StartConsumer? || step.Close?
  }

  /** What the other steps of the ring leave alone. */
  ghost predicate StageMove(r: R.State, r': R.State, started: bool) {
    && r'.producers == r.producers && r'.gate.log == r.gate.log && r'.gate.claimant == r.gate.claimant
    && r'.maxBatch == r.maxBatch && r'.syncEvery == r.syncEvery && r'.slots == r.slots
    && |r'.waiters| == |r.waiters| && r.j.cursor <= r'.j.cursor && r.j.wal <= r'.j.wal
    && r.j.synced <= r'.j.synced
    && (r.j.pc.JExited? || (r.j.pc.JOff? && !started) ==> r'.j == r.j)
    && (forall w :: 0 <= w < |r.waiters| ==> WaiterMove(r.waiters[w], r'.waiters[w]))
    && (r.failErr ==> r'.failErr) && (r.failedFlag ==> r'.failedFlag)
    && (started || (r.j.pc.JOff? ==> r'.j.pc.JOff?)) && (r.j.pc.JExited? ==> r'.j.pc.JExited?)
    && (started || (r.e.pc.COff? ==> r'.e.pc.COff?)) && (r.e.pc.CExited? ==> r'.e.pc.CExited?)
  }

  ghost predicate WaiterMove(w: R.Waiter, w': R.Waiter) {
    (w.WIdle? <==> w'.WIdle?) && (!w.WIdle? && !w'.WIdle? ==> w'.sn == w.sn)
  }

  lemma {:induction false} StageIs(r: R.State, step: R.Step)
    requires RS.Inv(r) && R.Enabled(r, step)
    requires NotPublish(step)
    ensures StageMove(r, R.Apply(r, step), step.StartJournaler? || step.StartConsumer?)
  {
    hide R.Apply, StageMove;
    JournalCursorFact(r);
    hide RS.Inv;
    if step.RunJournaler? { JournalStageIs(r, step); } else { OtherStageIs(r, step); }
  }

  lemma {:induction false} OtherStageIs(r: R.State, step: R.Step)
    requires R.Shape(r) && R.Enabled(r, step) && NotPublish(step) && !step.RunJournaler?
    ensures StageMove(r, R.Apply(r, step), step.StartJournaler? || step.StartConsumer?)
  {
    hide R.JournalNext;
  }

  lemma {:induction false} JournalCursorFact(r: R.State)
    requires RS.Inv(r)
    ensures R.Shape(r) && r.j.cursor == r.j.next && r.j.synced <= |r.j.wal|
  {
  }

  /** Whatever is called on the journal, what was written stays. */
  lemma {:induction false} WalGrows(j: R.Journal, g: R.Gate, slot: R.Slot, maxBatch: nat, syncEvery: bool,
        elapsed: bool, ok: bool, written: nat)
    requires j.synced <= |j.wal|
    ensures j.wal <= R.JournalNext(j, g, slot, maxBatch, syncEvery, elapsed, ok, written).wal
    ensures j.synced <= R.JournalNext(j, g, slot, maxBatch, syncEvery, elapsed, ok, written).synced
  {
  }

  lemma {:induction false} JournalStageIs(r: R.State, step: R.Step)
    requires R.Shape(r) && step.RunJournaler? && R.Enabled(r, step)
    requires r.j.cursor == r.j.next && r.j.synced <= |r.j.wal|
    ensures StageMove(r, R.Apply(r, step), false)
  {
    hide R.JournalNext;
    var slot := R.SlotOf(r.slots, R.End(r.j));
    RS.JournalCursorMoves(r.j, r.gate, slot, r.maxBatch, r.syncEvery, step.elapsed, step.ok, step.written);
    WalGrows(r.j, r.gate, slot, r.maxBatch, r.syncEvery, step.elapsed, step.ok, step.written);
  }

  lemma {:induction false} StageKeeps(s: State, step: R.Step)
    requires Inv(s) && R.Enabled(s.ring, step)
    requires NotPublish(step)
    requires step.StartJournaler? || step.StartConsumer? ==> s.down.pc.Serving?
    ensures Inv(s.(ring := R.Apply(s.ring, step)))
  {
    hide R.Apply, Inv;
    StageStays(s, step);
    StageMoves(s, R.Apply(s.ring, step), step.StartJournaler? || step.StartConsumer?);
  }

  lemma {:induction false} StageStays(s: State, step: R.Step)
    requires Inv(s) && R.Enabled(s.ring, step)
    requires NotPublish(step)
    ensures Sized(s) && RS.Inv(R.Apply(s.ring, step))
    ensures StageMove(s.ring, R.Apply(s.ring, step), step.StartJournaler? || step.StartConsumer?)
  {
    hide RS.Inv, StageMove, R.Apply;
    RingFacts(s.ring);
    StageIs(s.ring, step);
    StageClaims(s.ring, step);
    RS.StepKeeps(s.ring, step);
  }

  /** Only Publish takes tickets. */
  lemma {:induction false} StageClaims(r: R.State, step: R.Step)
    requires R.Shape(r) && R.Enabled(r, step) && R.Claims(r.gate) < U63
    requires NotPublish(step)
    ensures R.Claims(R.Apply(r, step).gate) < U63
  {
    hide R.JournalNext, R.EngineNext, R.WaiterNext;
  }

  lemma {:induction false} StageLinked(hs: seq<Handler>, ps: seq<R.Producer>, ws: seq<R.Waiter>, qs: seq<B.Pusher>,
        ws': seq<R.Waiter>)
    requires Linked(hs, ps, ws, qs) && |ws'| == |ws|
    requires forall w :: 0 <= w < |ws| ==> WaiterMove(ws[w], ws'[w])
    ensures Linked(hs, ps, ws', qs)
  {
    forall h | 0 <= h < |hs| ensures LinkOk(hs[h], ps[h], ws'[h], qs[h]) {
      assert LinkOk(hs[h], ps[h], ws[h], qs[h]) && WaiterMove(ws[h], ws'[h]);
    }
  }

  lemma {:induction false} StageIds(hs: seq<Handler>, ps: seq<R.Producer>, ids: set<uint64>, baseIds: set<uint64>,
        logIds: set<uint64>, failed: bool, failed': bool)
    requires IdsHeld(hs, ps, ids, baseIds, logIds, failed) && (failed ==> failed')
    ensures IdsHeld(hs, ps, ids, baseIds, logIds, failed')
  {
    forall k | 0 <= k < |hs| ensures IdOk(hs[k], ps[k], ids, baseIds, logIds, failed') {
      assert IdOk(hs[k], ps[k], ids, baseIds, logIds, failed);
    }
  }

  lemma {:induction false} StageMoves(s: State, r': R.State, started: bool)
    requires Inv(s) && RS.Inv(r') && StageMove(s.ring, r', started) && (started ==> s.down.pc.Serving?)
    ensures Inv(s.(ring := r'))
  {
    hide Linked, Ticketed, RS.Inv, B.Inv, IdsHeld, Unique, Ids, ArchiveLog, ArchiveAcks, ArchiveOpen, DownBatcher,
      HardOk, Promises, WaiterMove, Carries;
    var hs, r, b := s.handlers, s.ring, s.batcher;
    StageLinked(hs, r.producers, r.waiters, b.pushers, r'.waiters);
    StageIds(hs, r.producers, s.ids, Ids(s.base), Ids(r.gate.log), r.failedFlag, r'.failedFlag);
    StageHard(s, r', started);
  }

  lemma {:induction false} StageHard(s: State, r': R.State, started: bool)
    requires HardOk(s.hard, s.base, s.ring.j.wal, s.down)
    requires DownFlow(s.down, s.handlers, s.unarchived, s.ring.j.pc, s.ring.e.pc)
    requires StageMove(s.ring, r', started) && (started ==> s.down.pc.Serving?)
    ensures HardOk(s.hard, s.base, r'.j.wal, s.down)
  {
  }

  // --- Steps inside the batcher ---

  /** The handlers' goroutines in the batcher, one of which may have moved. */
  ghost predicate PusherMove(q: B.Pusher, q': B.Pusher, closed: bool) {
    && !q.PushIdle? && !q'.PushIdle? && q'.ev == q.ev && !q.PushDone?
    && (Sent(q) ==> Sent(q')) && (Sent(q') ==> Sent(q) || q.PushSend?)
    && (Turned(q') ==> Turned(q) || closed)
  }

  lemma {:induction false} PushIs(b: B.State, h: nat)
    requires B.Enabled(b, B.Push(h))
    ensures var b' := B.Apply(b, B.Push(h));
            && b' == b.(pushers := b.pushers[h := b'.pushers[h]], ch := b'.ch, accepted := b'.accepted,
              returned := b'.returned)
            && |b'.pushers| == |b.pushers| && PusherMove(b.pushers[h], b'.pushers[h], b.closed)
            && b'.accepted == (if b.pushers[h].PushSend? then b.accepted + [b.pushers[h].ev] else b.accepted)
            && (b.pushers[h].PushSend? ==> Sent(b'.pushers[h]))
  {
    hide B.NoReader;
  }

  lemma {:induction false} PushStepKeeps(s: State, h: nat)
    requires Inv(s) && B.Enabled(s.batcher, B.Push(h)) && h < |s.handlers| && s.handlers[h].pending != []
    ensures Inv(BatcherStepOf(s, B.Push(h)))
  {
    hide B.Apply, Inv;
    PushStays(s, h);
    PushMoves(s, h, B.Apply(s.batcher, B.Push(h)));
  }

  lemma {:induction false} PushStays(s: State, h: nat)
    requires Inv(s) && B.Enabled(s.batcher, B.Push(h))
    ensures Sized(s) && B.Inv(B.Apply(s.batcher, B.Push(h)))
    ensures var b, b' := s.batcher, B.Apply(s.batcher, B.Push(h));
            && b' == b.(pushers := b.pushers[h := b'.pushers[h]], ch := b'.ch, accepted := b'.accepted,
              returned := b'.returned)
            && |b'.pushers| == |b.pushers| && PusherMove(b.pushers[h], b'.pushers[h], b.closed)
            && b'.accepted == (if b.pushers[h].PushSend? then b.accepted + [b.pushers[h].ev] else b.accepted)
            && (b.pushers[h].PushSend? ==> Sent(b'.pushers[h]))
  {
    hide B.Inv, B.Apply, PusherMove, Sent;
    PushIs(s.batcher, h);
    B.StepKeeps(s.batcher, B.Push(h));
  }

  /** A ticket is handed to the batcher for the first time. */
  lemma {:induction false} ArchiveOneMore(hs: seq<Handler>, qs: seq<B.Pusher>, archived: seq<nat>,
        accepted: seq<OrderEvent>, log: seq<OrderEvent>, claimant: seq<nat>, acked: set<nat>, unarchived: set<nat>,
        h: nat, t: Ticket)
    requires ArchiveLog(archived, accepted, log, claimant) && ArchiveAcks(hs, qs, archived, claimant, acked, unarchived)
    requires h < |qs| && qs[h].PushSend? && TicketOk(t, h, log, claimant, acked)
    ensures ArchiveLog(archived + [t.sn], accepted + [t.ev], log, claimant)
  {
    assert !Sent(qs[h]);
    assert t.sn !in archived;
  }

  lemma {:induction false} OpenMoved(qs: seq<B.Pusher>, unarchived: set<nat>, closed: bool, h: nat, q': B.Pusher)
    requires ArchiveOpen(qs, unarchived, closed) && h < |qs| && PusherMove(qs[h], q', closed)
    ensures ArchiveOpen(qs[h := q'], unarchived, closed)
  {
  }

  lemma {:induction false} PushMoves(s: State, h: nat, b': B.State)
    requires Inv(s) && h < |s.handlers| && s.handlers[h].pending != [] && B.Inv(b')
    requires var b := s.batcher;
             && b' == b.(pushers := b'.pushers, ch := b'.ch, accepted := b'.accepted, returned := b'.returned)
             && |b'.pushers| == |b.pushers| && b'.pushers == b.pushers[h := b'.pushers[h]]
               && PusherMove(b.pushers[h], b'.pushers[h], b.closed)
             && b'.accepted == (if b.pushers[h].PushSend? then b.accepted + [b.pushers[h].ev] else b.accepted)
             && (b.pushers[h].PushSend? ==> Sent(b'.pushers[h]))
    ensures Inv(s.(batcher := b', archived := if s.batcher.pushers[h].PushSend?
             then s.archived + [s.handlers[h].pending[0].sn] else s.archived))
  {
    hide Linked, Ticketed, RS.Inv, B.Inv, Accounts, Confirmed, IdsHeld, Unique, Ids, ArchiveLog, ArchiveAcks,
      ArchiveOpen, DownFlow, DownBatcher, HardOk, Promises;
    hide TicketOk;
    var hs, r, b := s.handlers, s.ring, s.batcher;
    var archived' := if b.pushers[h].PushSend? then s.archived + [hs[h].pending[0].sn] else s.archived;
    LinkAt(hs, r.producers, r.waiters, b.pushers, h);
    LinkedMoved(hs, r.producers, r.waiters, b.pushers, hs, r.producers, r.waiters, b'.pushers, h);
    TicketsAt(hs, r.producers, r.gate.log, r.gate.claimant, s.acked, h);
    OpenMoved(b.pushers, s.unarchived, b.closed, h, b'.pushers[h]);
    OwnTicket(hs[h], r.gate.log, r.gate.claimant, s.acked, h);
    if b.pushers[h].PushSend? {
      ArchiveOneMore(hs, b.pushers, s.archived, b.accepted, r.gate.log, r.gate.claimant, s.acked, s.unarchived, h,
        hs[h].pending[0]);
    }
    PushHandedOver(hs, b.pushers, s.archived, r.gate.claimant, s.acked, s.unarchived, h);
    ArchiveAcksMoved(hs, b.pushers, s.archived, r.gate.claimant, s.acked, s.unarchived,
                     hs, b'.pushers, archived', r.gate.claimant, s.acked, s.unarchived, h);
  }

  lemma {:induction false} OwnTicket(hd: Handler, log: seq<OrderEvent>, claimant: seq<nat>, acked: set<nat>, h: nat)
    requires hd.pending != [] && TicketOk(hd.pending[0], h, log, claimant, acked)
    ensures hd.pending[0].sn < |claimant| && claimant[hd.pending[0].sn] == h && hd.pending[0].sn < |log|
             && log[hd.pending[0].sn] == hd.pending[0].ev
  {
  }

  /** The worker, and Close. */
  ghost predicate WorkerMove(b: B.State, b': B.State) {
    && b'.pushers == b.pushers && b'.accepted == b.accepted && |b'.closers| == |b.closers|
    && (b'.worker.Exited? || !b.worker.Exited?)
    && (forall c :: 0 <= c < |b.closers| ==> (b.closers[c].CloseIdle? <==> b'.closers[c].CloseIdle?))
    && (forall c :: 0 <= c < |b.closers| && b'.closers[c] == B.CloseDone(true) ==>
      b.closers[c] == B.CloseDone(true) || b'.worker.Exited?)
    && (b'.closed ==> b.closed || exists c :: 0 <= c < |b.closers| && !b.closers[c].CloseIdle?)
    && (b.closed ==> b'.closed)
  }

  lemma {:induction false} WorkerIs(b: B.State, step: B.Step)
    requires B.Enabled(b, step) && B.Inside(step) && !step.Push?
    ensures WorkerMove(b, B.Apply(b, step))
  {
    hide B.NoReader;
  }

  lemma {:induction false} WorkerDown(d: Down, b: B.State, b': B.State)
    requires DownBatcher(d, b.closers, b.closed, b.worker) && WorkerMove(b, b')
    ensures DownBatcher(d, b'.closers, b'.closed, b'.worker)
  {
  }

  lemma {:induction false} WorkerOpen(qs: seq<B.Pusher>, unarchived: set<nat>, closed: bool, closed': bool)
    requires ArchiveOpen(qs, unarchived, closed) && (closed ==> closed')
    ensures ArchiveOpen(qs, unarchived, closed')
  {
  }

  lemma {:induction false} WorkerKeeps(s: State, step: B.Step)
    requires Inv(s) && B.Enabled(s.batcher, step) && B.Inside(step) && !step.Push?
    ensures Inv(BatcherStepOf(s, step))
  {
    hide B.Apply, B.Enabled, Linked, Ticketed, RS.Inv, B.Inv, Accounts, Confirmed, IdsHeld, Unique, Ids, ArchiveLog,
      ArchiveAcks, ArchiveOpen, DownFlow, DownBatcher, HardOk, Promises;
    B.StepKeeps(s.batcher, step);
    WorkerIs(s.batcher, step);
    WorkerDown(s.down, s.batcher, B.Apply(s.batcher, step));
    WorkerOpen(s.batcher.pushers, s.unarchived, s.batcher.closed, B.Apply(s.batcher, step).closed);
  }

  // --- Shutdown ---

  lemma {:induction false} DownPieces(s: State)
    requires Inv(s)
    ensures Sized(s) && DownFlow(s.down, s.handlers, s.unarchived, s.ring.j.pc, s.ring.e.pc)
    ensures DownBatcher(s.down, s.batcher.closers, s.batcher.closed, s.batcher.worker)
    ensures HardOk(s.hard, s.base, s.ring.j.wal, s.down)
  {
  }

  /** Shutdown goes from one piece to the next. */
  lemma {:induction false} DownKeeps(s: State, d: Down, hard: nat, b': B.State)
    requires Inv(s) && B.Inv(b')
    requires DownFlow(d, s.handlers, s.unarchived, s.ring.j.pc, s.ring.e.pc)
    requires b' == s.batcher.(closers := b'.closers) && |b'.closers| == |s.batcher.closers|
    requires DownBatcher(d, b'.closers, b'.closed, b'.worker)
    requires hard >= s.hard && HardOk(hard, s.base, s.ring.j.wal, d)
    ensures Inv(s.(down := d, hard := hard, batcher := b'))
  {
    PromisesGrow(s, hard);
    hide Linked, Ticketed, RS.Inv, B.Inv, Accounts, Confirmed, IdsHeld, Unique, Ids, ArchiveLog, ArchiveAcks,
      ArchiveOpen, DownFlow, DownBatcher, HardOk, Promises;
  }

  lemma {:induction false} PromisesGrow(s: State, hard: nat)
    requires Inv(s) && hard >= s.hard
    ensures Promises(s.promised, s.base, hard, s.ring.syncEvery)
  {
    hide Linked, Ticketed, RS.Inv, B.Inv, Accounts, Confirmed, IdsHeld, Unique, Ids, ArchiveLog, ArchiveAcks,
      ArchiveOpen, DownFlow, DownBatcher, HardOk;
    var a, b := s.base[..Lesser(s.hard, |s.base|)], s.base[..Lesser(hard, |s.base|)];
    assert forall i :: 0 <= i < |a| ==> b[i] == a[i];
  }

  lemma {:induction false} ShutdownKeeps(s: State, expired: bool, synced: bool)
    requires Inv(s) && ShutdownEnabled(s, expired)
    ensures Inv(ShutdownStep(s, expired, synced))
  {
    hide Inv, B.Inv, R.Apply, B.Apply, RS.Inv, DownFlow, DownBatcher, HardOk;
    DownPieces(s);
    var s' := ShutdownStep(s, expired, synced);
    if s.down.pc.CloseRing? && !s.ring.gate.pc.KClosed? {
      StageKeeps(s, R.Close);
    } else if s.down.pc.CallBatcher? || s.down.pc.CloseBatcher? {
      ArchiveCloses(s, expired, synced);
    } else {
      DownOnly(s, expired, synced);
      BatcherInv(s);
      DownKeeps(s, s'.down, s'.hard, s.batcher);
      assert s'.(batcher := s.batcher) == s';
    }
  }

  /** Waiting for one piece after the other, with or without the deadline. */
  lemma {:induction false} DownOnly(s: State, expired: bool, synced: bool)
    requires Sized(s) && ShutdownEnabled(s, expired) && !s.down.pc.CallBatcher? && !s.down.pc.CloseBatcher?
    requires s.down.pc.CloseRing? ==> s.ring.gate.pc.KClosed?
    requires DownFlow(s.down, s.handlers, s.unarchived, s.ring.j.pc, s.ring.e.pc)
    requires DownBatcher(s.down, s.batcher.closers, s.batcher.closed, s.batcher.worker)
    requires HardOk(s.hard, s.base, s.ring.j.wal, s.down)
    ensures var s' := ShutdownStep(s, expired, synced);
            && s' == s.(down := s'.down, hard := s'.hard) && s'.hard >= s.hard
            && DownFlow(s'.down, s.handlers, s.unarchived, s.ring.j.pc, s.ring.e.pc)
            && DownBatcher(s'.down, s.batcher.closers, s.batcher.closed, s.batcher.worker)
            && HardOk(s'.hard, s.base, s.ring.j.wal, s'.down)
  {
    hide R.Apply, B.Apply;
  }

  lemma {:induction false} BatcherInv(s: State)
    requires Inv(s)
    ensures B.Inv(s.batcher)
  {
  }

  lemma {:induction false} ArchiveCloses(s: State, expired: bool, synced: bool)
    requires Inv(s) && ShutdownEnabled(s, expired) && (s.down.pc.CallBatcher? || s.down.pc.CloseBatcher?)
    ensures Inv(ShutdownStep(s, expired, synced))
  {
    hide Inv, B.Inv, DownFlow, DownBatcher, HardOk;
    DownPieces(s);
    BatcherInv(s);
    var s' := ShutdownStep(s, expired, synced);
    B.StepKeeps(s.batcher, if s.down.pc.CallBatcher? then B.CallClose(0) else B.ReturnClose(0));
    ClosesDown(s, expired, synced);
    DownKeeps(s, s'.down, s.hard, s'.batcher);
  }

  lemma {:induction false} ClosesDown(s: State, expired: bool, synced: bool)
    requires Sized(s) && ShutdownEnabled(s, expired) && (s.down.pc.CallBatcher? || s.down.pc.CloseBatcher?)
    requires DownFlow(s.down, s.handlers, s.unarchived, s.ring.j.pc, s.ring.e.pc)
    requires DownBatcher(s.down, s.batcher.closers, s.batcher.closed, s.batcher.worker)
    requires HardOk(s.hard, s.base, s.ring.j.wal, s.down)
    ensures var s' := ShutdownStep(s, expired, synced);
            && DownFlow(s'.down, s.handlers, s.unarchived, s.ring.j.pc, s.ring.e.pc)
            && DownBatcher(s'.down, s'.batcher.closers, s'.batcher.closed, s'.batcher.worker)
            && HardOk(s.hard, s.base, s.ring.j.wal, s'.down)
            && s' == s.(down := s'.down, batcher := s'.batcher)
            && s'.batcher == s.batcher.(closers := s'.batcher.closers) && |s'.batcher.closers| == |s.batcher.closers|
  {
  }

  // --- A crash, and the next process ---

  lemma {:induction false} UniquePrefix(base: seq<OrderEvent>, log: seq<OrderEvent>, wal: seq<OrderEvent>, at: nat)
    requires Unique(base, log) && wal <= log && at <= |base| + |wal|
    ensures Unique((base + wal)[..at], [])
  {
    var all := (base + wal)[..at];
    forall i, k | 0 <= i < k < |all| ensures all[i].orderId != all[k].orderId {
      if i < |base| <= k {
        assert all[i].orderId in Ids(base);
        assert log[k - |base|].orderId in Ids(log);
      }
    }
  }

  /** What was answered AckOK is on stable storage when every batch is synced. */
  lemma {:induction false} PromisesKept(s: State, at: nat)
    requires Promises(s.promised, s.base, s.hard, s.ring.syncEvery) && HardOk(s.hard, s.base, s.ring.j.wal, s.down)
    requires s.ring.j.wal <= s.ring.gate.log && s.ring.j.synced <= |s.ring.j.wal| && Durable(s) <= at <= |File(s)|
    requires s.ring.syncEvery ==> forall n :: n in s.acked ==> n < s.ring.j.synced
    ensures Promises(CrashStep(s, at).promised, CrashStep(s, at).base, Durable(s), s.ring.syncEvery)
  {
    var log, durable := s.ring.gate.log, File(s)[..at][..Durable(s)];
    if s.ring.syncEvery {
      forall n | n in s.acked && n < |log| ensures log[n] in durable {
        assert durable[|s.base| + n] == log[n];
      }
      forall e | e in s.promised ensures e in durable {
        var i :| 0 <= i < Lesser(s.hard, |s.base|) && s.base[i] == e;
        assert durable[i] == e;
      }
    }
  }

  lemma {:induction false} NewMachines(s: State)
    requires Inv(s)
    ensures Sized(s) && RS.Inv(NewRing(s.ring)) && B.Inv(NewBatcher(s.batcher))
  {
    hide Linked, Ticketed, Accounts, Confirmed, IdsHeld, Unique, Ids, ArchiveLog, ArchiveAcks, ArchiveOpen, DownFlow,
      DownBatcher, HardOk, Promises;
    NewRingOk(s.ring);
    NewBatcherOk(s.batcher);
  }

  lemma {:induction false} NewRingOk(r: R.State)
    requires RS.Inv(r)
    ensures RS.Inv(NewRing(r))
  {
    RS.InitEstablishes(NewRing(r));
  }

  lemma {:induction false} NewBatcherOk(b: B.State)
    requires B.Inv(b)
    ensures B.Inv(NewBatcher(b))
  {
    B.InitEstablishes(NewBatcher(b));
  }

  lemma {:induction false} CrashKeeps(s: State, at: nat)
    requires Inv(s) && Durable(s) <= at <= |File(s)|
    ensures Inv(CrashStep(s, at))
  {
    hide RS.Inv, B.Inv, Unique, Promises, Ids, HardOk, Durable, DownFlow, DownBatcher;
    var r := s.ring;
    NewMachines(s);
    RingFacts(r);
    UniquePrefix(s.base, r.gate.log, r.j.wal, at);
    AckedBelow(s.handlers, s.acked, r.j.cursor);
    PromisesKept(s, at);
    FreshStart(CrashStep(s, at));
  }

  /** Everybody idle, nothing logged. */
  lemma {:induction false} FreshStart(s: State)
    requires Sized(s) && RS.Inv(s.ring) && B.Inv(s.batcher) && Unique(s.base, [])
    requires Promises(s.promised, s.base, s.hard, s.ring.syncEvery) && s.hard <= |s.base|
    requires AllGone(s.handlers) && (forall h :: 0 <= h < |s.handlers| ==> s.handlers[h].pending == [])
    requires forall h :: 0 <= h < |s.handlers| ==>
             s.ring.producers[h].PIdle? && s.ring.waiters[h].WIdle? && s.batcher.pushers[h].PushIdle?
    requires s.ring.gate.log == [] && s.ring.gate.claimant == [] && s.batcher.accepted == [] && !s.batcher.closed
    requires s.acked == {} && s.archived == [] && s.unarchived == {} && s.ids == Ids(s.base)
    requires s.down == Down(Serving, false, true, false, false) && forall c :: 0 <= c < |s.batcher.closers| ==>
             s.batcher.closers[c].CloseIdle?
    ensures Inv(s)
  {
    hide RS.Inv, B.Inv, Unique, Promises;
    assert Ids([]) == {};
    assert Unique(s.base, s.ring.gate.log);
  }

  lemma {:induction false} InitEstablishes(s: State)
    requires Init(s)
    ensures Inv(s)
  {
    RS.InitEstablishes(s.ring);
    B.InitEstablishes(s.batcher);
    hide RS.Inv, B.Inv;
    assert Ids(s.base) == {};
    FreshStart(s);
  }

  // --- All steps ---

  lemma {:induction false} HandlerStepKeeps(s: State, step: Step)
    requires Inv(s) && Enabled(s, step)
    requires !step.RingStep? && !step.BatcherStep? && !step.Shutdown? && !step.Crash?
    ensures Inv(Apply(s, step))
  {
    hide Inv;
    match step
    case Accept(h) => GoneEmpty(s, h); Settle(s, h, Handler(Reading, [], false));
    case Frame(h, ev) => Settle(s, h,
      if Ingest.Validate(ev).Fine? then s.handlers[h].(pc := Registering(ev)) else s.handlers[h]);
    case Register(h) => RegisterKeeps(s, h);
    case Published(h) => PublishedKeeps(s, h);
    case Forget(h) => QuietKeeps(s, h, s.handlers[h].(pc := Confirming), s.ids - {s.handlers[h].pc.ev.orderId});
    case EndBatch(h) => Settle(s, h, s.handlers[h].(pc := Confirming));
    case Confirm(h) => ConfirmKeeps(s, h);
    case Waited(h) => WaitedKeeps(s, h);
    case Pushed(h) => PushedKeeps(s, h);
    case Answer(h, written) =>
      Settle(s, h, if s.handlers[h].fatal || !written then Handler(Gone, [], true) else s.handlers[h].(pc := Reading));
    case Leave(h) => Settle(s, h, Handler(Gone, [], false));
  }

  lemma {:induction false} GoneEmpty(s: State, h: nat)
    requires Inv(s) && h < |s.handlers| && s.handlers[h].pc.Gone?
    ensures s.handlers[h].pending == []
  {
    hide Ticketed, RS.Inv, B.Inv, Accounts, Confirmed, IdsHeld, Unique, Ids, ArchiveLog, ArchiveAcks, ArchiveOpen,
      DownFlow, DownBatcher, HardOk, Promises;
    LinkAt(s.handlers, s.ring.producers, s.ring.waiters, s.batcher.pushers, h);
  }

  lemma {:induction false} Settle(s: State, h: nat, hd': Handler)
    requires Inv(s) && h < |s.handlers| && QuietStep(s.handlers[h], hd', s.ids, s.ids)
    requires s.handlers[h].pc.Gone? ==> s.down.pc.Serving?
    ensures Inv(Move(s, h, hd'))
  {
    hide Inv;
    QuietKeeps(s, h, hd', s.ids);
    assert Move(s, h, hd').(ids := s.ids) == Move(s, h, hd');
  }

  lemma {:induction false} StepKeeps(s: State, step: Step)
    requires Inv(s) && Enabled(s, step) && R.Claims(Apply(s, step).ring.gate) < U63
    ensures Inv(Apply(s, step))
  {
    InvSized(s);
    hide Inv, R.Apply, B.Apply;
    if step.RingStep? {
      if step.r.Publish? { PublishKeeps(s, step.r.p); } else { StageKeeps(s, step.r); }
      BookApart(s.(ring := R.Apply(s.ring, step.r)), Apply(s, step).book);
    } else if step.BatcherStep? {
      if step.b.Push? { PushStepKeeps(s, step.b.p); } else { WorkerKeeps(s, step.b); }
    } else if step.Shutdown? {
      ShutdownKeeps(s, step.expired, step.synced);
    } else if step.Crash? {
      CrashKeeps(s, step.at);
    } else {
      HandlerStepKeeps(s, step);
    }
  }

  lemma {:induction false} InvSized(s: State)
    requires Inv(s)
    ensures Sized(s)
  {
  }

  /** The invariant is not about the book. */
  lemma {:induction false} BookApart(s: State, book: Ref.RefBook)
    requires Inv(s)
    ensures Inv(s.(book := book))
  {
    hide Linked, Ticketed, RS.Inv, B.Inv, Accounts, Confirmed, IdsHeld, Unique, Ids, ArchiveLog, ArchiveAcks,
      ArchiveOpen, DownFlow, DownBatcher, HardOk, Promises;
  }

  lemma {:induction false} NextKeeps(s: State, s': State)
    requires Inv(s) && Next(s, s') && R.Claims(s'.ring.gate) < U63
    ensures Inv(s')
  {
    hide Inv, Apply;
    var step :| Enabled(s, step) && s' == Apply(s, step);
    StepKeeps(s, step);
  }

  /** Every state of every history satisfies the invariant. */
  lemma {:induction false} HistorySafe(run: seq<State>)
    requires IsHistory(run)
    ensures Inv(run[|run| - 1])
  {
    hide Inv, Next, Init;
    var n := |run| - 1;
    if n == 0 {
      InitEstablishes(run[0]);
    } else {
      HistorySafe(run[..n]);
      NextKeeps(run[n - 1], run[n]);
    }
  }
}
