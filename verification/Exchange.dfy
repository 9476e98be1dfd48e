/**
 The whole exchange: connection handlers in front of the ring, the archive behind it,
 the shutdown sequence, and crashes followed by recovery from the journal. Handler h
 is goroutine h of the ring and of the batcher. The steps inside the ring and the
 batcher are the steps of those machines.
 */
module Exchange {
  import opened Events
  import Ingest
  import R = Ring
  import B = Batcher
  import Ref = ReferenceBook
  import Book = OrderBook

  /** An admitted order that has not been answered yet: pending in handleConnection. */
  datatype Ticket = Ticket(ev: OrderEvent, sn: nat)

  datatype HandlerPc =
    | Gone                               // no connection, or it is over
    | Reading                            // at the top of the read loop
    | Registering(ev: OrderEvent)        // valid: about to register its id
    | Publishing(ev: OrderEvent)         // inside Publish
    | Forgetting(ev: OrderEvent)         // Publish refused it
    | Confirming                         // at the top of the confirm loop
    | Waiting                            // inside WaitDurable for pending[0]
    | Pushing                            // inside Push of the batcher with pending[0]

  datatype Handler = Handler(pc: HandlerPc, pending: seq<Ticket>, fatal: bool)

  datatype DownPc =
    | Serving | StopServers | CloseRing | WaitJournaler | WaitConsumer
    | CloseWal | CallBatcher | CloseBatcher | CloseTrades | Finished

  /** Shutdown of app.Components: where it is, and whether a step had an error to report. */
  datatype Down = Down(pc: DownPc, errs: bool, engineStopped: bool, walClosed: bool, tradesClosed: bool)

  datatype State = State(
    base: seq<OrderEvent>,               // what recovery read from the journal file
    hard: nat,                           // events of the file that were on stable storage at the
                                         // start of this process, or at the last when it closed the file
    book: Ref.RefBook,                   // the engine's book: recovered, then fed by OnEvent
    ring: R.State,                       // ring.j.wal is what this process appended to it
    batcher: B.State,
    ids: set<uint64>,
    handlers: seq<Handler>,
    down: Down,
    acked: set<nat>,                     // tickets of this process answered with AckOK
    archived: seq<nat>,                  // the ticket of each event accepted by the batcher
    unarchived: set<nat>,                // tickets answered with AckOK although Push failed
    promised: set<OrderEvent>)           // orders answered with AckOK by earlier processes

  datatype Step =
    | Accept(h: nat) | Frame(h: nat, ev: OrderEvent) | Register(h: nat) | Published(h: nat) | Forget(h: nat)
    | EndBatch(h: nat) | Confirm(h: nat) | Waited(h: nat) | Pushed(h: nat)
    | Answer(h: nat, written: bool) | Leave(h: nat)
    | RingStep(r: R.Step) | BatcherStep(b: B.Step)
    | Shutdown(expired: bool, synced: bool)
    | Crash(at: nat)

  predicate Sized(s: State) {
    && R.Shape(s.ring)
    && |s.ring.producers| == |s.ring.waiters| == |s.batcher.pushers| == |s.handlers|
    && |s.batcher.closers| > 0
  }

  ghost predicate AllGone(hs: seq<Handler>) {
    forall h :: 0 <= h < |hs| ==> hs[h].pc.Gone?
  }

  /** The steps of the ring that nobody outside it decides. Close belongs to the shutdown;
      the stages are started before it; a closed file takes nothing more. */
  predicate RingInside(s: State, r: R.Step) {
    && (r.Publish? || r.Wait? || r.RunConsumer? || r.RunJournaler? || r.StartJournaler? || r.StartConsumer?)
    && (r.StartJournaler? || r.StartConsumer? ==> s.down.pc.Serving?)
    && (r.RunJournaler? && s.down.walClosed ==> !r.ok && r.written == 0)
  }

  predicate Started(s: State) { !s.ring.j.pc.JOff? && !s.ring.e.pc.COff? }

  /** The journal file as a list of events. */
  function File(s: State): seq<OrderEvent> { s.base + s.ring.j.wal }

  /** How many of them no crash takes away. A Sync covers the whole file, recovered part included. */
  function Durable(s: State): nat {
    if s.ring.j.synced > 0 && |s.base| + s.ring.j.synced > s.hard then |s.base| + s.ring.j.synced else s.hard
  }

  /** A wait ends when what it waits for is over, or when the deadline is; if both, either way. */
  ghost predicate ShutdownEnabled(s: State, expired: bool) {
    match s.down.pc
    case StopServers => AllGone(s.handlers) || expired
    case WaitJournaler => s.ring.j.pc.JOff? || s.ring.j.pc.JExited? || expired
    case WaitConsumer => s.ring.e.pc.COff? || s.ring.e.pc.CExited? || expired
    case CallBatcher => |s.batcher.closers| > 0 && s.batcher.closers[0].CloseIdle?
    case CloseBatcher => |s.batcher.closers| > 0 && s.batcher.closers[0].CloseDone?
    case Finished => false
    case _ => true
  }

  ghost predicate Enabled(s: State, step: Step)
    requires Sized(s)
  {
    match step
    case Accept(h) => h < |s.handlers| && s.handlers[h].pc.Gone? && s.down.pc.Serving?
    case Frame(h, _) => h < |s.handlers| && s.handlers[h].pc.Reading?
    case Register(h) => h < |s.handlers| && s.handlers[h].pc.Registering? && s.ring.producers[h].PIdle?
    case Published(h) => h < |s.handlers| && s.handlers[h].pc.Publishing? && R.Enabled(s.ring, R.Return(h))
    case Forget(h) => h < |s.handlers| && s.handlers[h].pc.Forgetting?
    case EndBatch(h) => h < |s.handlers| && s.handlers[h].pc.Reading? && s.handlers[h].pending != []
    case Confirm(h) => h < |s.handlers| && s.handlers[h].pc.Confirming? && s.handlers[h].pending != []
      && s.ring.waiters[h].WIdle?
    case Waited(h) => h < |s.handlers| && s.handlers[h].pc.Waiting? && s.handlers[h].pending != []
                      && R.Enabled(s.ring, R.WaitReturn(h)) && s.batcher.pushers[h].PushIdle?
    case Pushed(h) => h < |s.handlers| && s.handlers[h].pc.Pushing? && s.handlers[h].pending != []
                      && B.Enabled(s.batcher, B.ReturnPush(h))
    case Answer(h, _) => h < |s.handlers| && s.handlers[h].pc.Confirming? && s.handlers[h].pending == []
    case Leave(h) => h < |s.handlers| && s.handlers[h].pc.Reading? && s.handlers[h].pending == []
    case RingStep(r) => RingInside(s, r) && R.Enabled(s.ring, r)
    case BatcherStep(b) => B.Inside(b) && B.Enabled(s.batcher, b)
                           && (b.Push? ==> b.p < |s.handlers| && s.handlers[b.p].pending != [])
    case Shutdown(expired, _) => ShutdownEnabled(s, expired)
    case Crash(at) => Durable(s) <= at <= |File(s)|
  }

  function Ids(es: seq<OrderEvent>): set<uint64> {
    set i | 0 <= i < |es| :: es[i].orderId
  }

  function Move(s: State, h: nat, hd: Handler): State
    requires h < |s.handlers|
  {
    s.(handlers := s.handlers[h := hd])
  }

  /** Validate; an invalid order is answered and forgotten. */
  function FrameStep(s: State, h: nat, ev: OrderEvent): State
    requires h < |s.handlers|
  {
    var hd := s.handlers[h];
    Move(s, h, if Ingest.Validate(ev).Fine? then hd.(pc := Registering(ev)) else hd)
  }

  function RegisterStep(s: State, h: nat): State
    requires Sized(s) && h < |s.handlers| && s.handlers[h].pc.Registering? && s.ring.producers[h].PIdle?
  {
    var hd := s.handlers[h];
    var ev := hd.pc.ev;
    if ev.orderId in s.ids then Move(s, h, hd.(pc := Reading))
    else Move(s, h, hd.(pc := Publishing(ev))).(ids := s.ids + {ev.orderId}, ring := R.Apply(s.ring, R.Call(h, ev)))
  }

  function PublishedStep(s: State, h: nat): State
    requires Sized(s) && h < |s.handlers| && s.handlers[h].pc.Publishing? && R.Enabled(s.ring, R.Return(h))
  {
    var hd := s.handlers[h];
    var p := s.ring.producers[h];
    var s' := s.(ring := R.Apply(s.ring, R.Return(h)));
    if p.POk? then Move(s', h, hd.(pc := Reading, pending := hd.pending + [Ticket(hd.pc.ev, p.sn)]))
    else Move(s', h, hd.(pc := Forgetting(hd.pc.ev), fatal := true))
  }

  function WaitedStep(s: State, h: nat): State
    requires Sized(s) && h < |s.handlers| && s.handlers[h].pending != []
    requires R.Enabled(s.ring, R.WaitReturn(h)) && s.batcher.pushers[h].PushIdle?
  {
    var hd := s.handlers[h];
    var s' := s.(ring := R.Apply(s.ring, R.WaitReturn(h)));
    if s.ring.waiters[h].ok
    then Move(s', h, hd.(pc := Pushing)).(batcher := B.Apply(s.batcher, B.CallPush(h, hd.pending[0].ev)))
    else Move(s', h, Handler(Gone, [], true))
  }

  /** Confirm returns nil whether or not the archive took the order. */
  function PushedStep(s: State, h: nat): State
    requires Sized(s) && h < |s.handlers| && s.handlers[h].pending != [] && B.Enabled(s.batcher, B.ReturnPush(h))
  {
    var hd := s.handlers[h];
    var sn := hd.pending[0].sn;
    Move(s, h, hd.(pc := Confirming, pending := hd.pending[1..])).(
      batcher := B.Apply(s.batcher, B.ReturnPush(h)),
      acked := s.acked + {sn},
      unarchived := if s.batcher.pushers[h].ok then s.unarchived else s.unarchived + {sn})
  }

  function BatcherStepOf(s: State, b: B.Step): State
    requires Sized(s) && B.Enabled(s.batcher, b) && (b.Push? ==> s.handlers[b.p].pending != [])
  {
    s.(batcher := B.Apply(s.batcher, b),
       archived := if b.Push? && s.batcher.pushers[b.p].PushSend?
                   then s.archived + [s.handlers[b.p].pending[0].sn] else s.archived)
  }

  ghost function ShutdownStep(s: State, expired: bool, synced: bool): State
    requires Sized(s) && ShutdownEnabled(s, expired)
  {
    var d := s.down;
    match d.pc
    case Serving => s.(down := d.(pc := StopServers))
    case StopServers => s.(down := d.(pc := CloseRing, errs := d.errs || expired))
    case CloseRing =>
      if s.ring.gate.pc.KClosed? then s.(down := d.(pc := WaitJournaler))
      else s.(ring := R.Apply(s.ring, R.Close))
    case WaitJournaler =>
      if s.ring.j.pc.JOff? || !expired then s.(down := d.(pc := WaitConsumer))
      else s.(down := d.(pc := CloseWal, errs := true, engineStopped := false))
    case WaitConsumer =>
      if s.ring.e.pc.COff? || !expired then s.(down := d.(pc := CloseWal))
      else s.(down := d.(pc := CloseWal, errs := true, engineStopped := false))
    case CloseWal =>
      s.(down := d.(pc := CallBatcher, walClosed := true, errs := d.errs || !synced),
         hard := if synced then |File(s)| else s.hard)
    case CallBatcher => s.(down := d.(pc := CloseBatcher), batcher := B.Apply(s.batcher, B.CallClose(0)))
    case CloseBatcher =>
      s.(down := d.(pc := CloseTrades, errs := d.errs || !s.batcher.closers[0].drained),
         batcher := B.Apply(s.batcher, B.ReturnClose(0)))
    case CloseTrades => s.(down := d.(pc := Finished, tradesClosed := d.engineStopped))
    case Finished => s
  }

  /** The consumer's step calls OnEvent where it stands with an event in hand. */
  function Handled(book: Ref.RefBook, pc: R.ConsumerPc): Ref.RefBook {
    if pc.CHandle? then Ref.Process(book, Book.OrderOf(pc.ev)) else book
  }

  function NoEvent(): OrderEvent { OrderEvent(0, 0, 0, 0, 0, 0) }

  /** NewJournaledRingBuffer with the same options, and as many goroutines as before. */
  function NewRing(r: R.State): R.State {
    R.State(r.maxBatch, r.syncEvery, R.Gate(0, 0, false, R.KOpen, [], [], 0),
            seq(|r.slots|, i => R.Slot(NoEvent(), 0)), {},
            seq(|r.producers|, i => R.PIdle), R.Journal(R.JOff, 0, [], false, 0, [], 0), R.Engine(R.COff, 0, 0, []),
            seq(|r.waiters|, i => R.WIdle), R.Free, false, false)
  }

  function NewBatcher(b: B.State): B.State {
    B.State(b.batchSize, b.capacity, [], false, false, false, seq(|b.pushers|, i => B.PushIdle),
            seq(|b.closers|, i => B.CloseIdle), B.Select, [], [], [], {})
  }

  /** The process dies; the next one reads at events from the file, replays them
      and registers their ids.
      What was durable before is so now, and nothing more: opening the file does not sync it. */
  function CrashStep(s: State, at: nat): State
    requires at <= |File(s)|
  {
    var base := File(s)[..at];
    State(base, Durable(s), Book.RefAfter(Book.OrdersOf(base)), NewRing(s.ring), NewBatcher(s.batcher), Ids(base),
          seq(|s.handlers|, i => Handler(Gone, [], false)),
          Down(Serving, false, true, false, false), {}, [], {},
          s.promised + set n | n in s.acked && n < |s.ring.gate.log| :: s.ring.gate.log[n])
  }

  ghost function Apply(s: State, step: Step): State
    requires Sized(s) && Enabled(s, step)
  {
    match step
    case Accept(h) => Move(s, h, Handler(Reading, [], false))
    case Frame(h, ev) => FrameStep(s, h, ev)
    case Register(h) => RegisterStep(s, h)
    case Published(h) => PublishedStep(s, h)
    case Forget(h) =>
      Move(s, h, s.handlers[h].(pc := Confirming)).(ids := s.ids - {s.handlers[h].pc.ev.orderId})
    case EndBatch(h) => Move(s, h, s.handlers[h].(pc := Confirming))
    case Confirm(h) =>
      Move(s, h, s.handlers[h].(pc := Waiting)).(ring := R.Apply(s.ring, R.WaitCall(h, s.handlers[h].pending[0].sn)))
    case Waited(h) => WaitedStep(s, h)
    case Pushed(h) => PushedStep(s, h)
    case Answer(h, written) =>
      Move(s, h, if s.handlers[h].fatal || !written then Handler(Gone, [], true) else s.handlers[h].(pc := Reading))
    case Leave(h) => Move(s, h, Handler(Gone, [], false))
    case RingStep(r) =>
      s.(ring := R.Apply(s.ring, r), book := if r.RunConsumer? then Handled(s.book, s.ring.e.pc) else s.book)
    case BatcherStep(b) => BatcherStepOf(s, b)
    case Shutdown(expired, synced) => ShutdownStep(s, expired, synced)
    case Crash(at) => CrashStep(s, at)
  }

  ghost predicate Next(s: State, s': State) {
    Sized(s) && exists step :: Enabled(s, step) && s' == Apply(s, step)
  }

  /** The first process starts with an empty journal file. */
  ghost predicate Init(s: State) {
    && Sized(s) && R.Init(s.ring) && B.Init(s.batcher)
    && s.base == [] && s.hard == 0 && s.book == Ref.EMPTY_BOOK && s.ids == {} && AllGone(s.handlers)
      && (forall h :: 0 <= h < |s.handlers| ==> s.handlers[h].pending == [])
    && s.down == Down(Serving, false, true, false, false)
    && s.acked == {} && s.archived == [] && s.unarchived == {} && s.promised == {}
  }

  /** A history of the exchange, over any number of crashes and restarts. Within one process
      the tickets handed out stay below 2^63. */
  ghost predicate IsHistory(run: seq<State>) {
    if |run| <= 1 then |run| == 1 && Init(run[0])
    else
      var n := |run| - 1;
      IsHistory(run[..n]) && Next(run[n - 1], run[n]) && R.Claims(run[n].ring.gate) < U63
  }
}
