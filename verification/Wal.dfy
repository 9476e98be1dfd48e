/**
 The WAL object over its file, and the life of the file over any number of appends,
 syncs, crashes and reopenings. Log is the file with two things nobody can read off
 it: how many of its bytes would survive a crash, and which events were given to
 Append (after a reopening: which of them survived).
 */
module Wal {
  import opened Events
  import opened WalCodec
  import opened WalFile

  datatype Phase = Down | Up(closed: bool, stuck: bool)   // stuck: the buffered writer keeps its first error

  datatype Log = Log(content: Bytes, synced: nat, appended: seq<OrderEvent>, phase: Phase)

  function Min(a: nat, b: nat): nat { if a < b then a else b }

  /** Append: everything or, when the write fails, the first bytes of it. */
  function AppendTo(l: Log, es: seq<OrderEvent>, ok: bool, written: nat): Log
    requires l.phase.Up?
  {
    var bytes := EncodeAll(es);
    if l.phase.closed || l.phase.stuck then l
    else if ok then l.(content := l.content + bytes, appended := l.appended + es)
    else Log(l.content + bytes[..Min(written, |bytes|)], l.synced, l.appended + es, Up(false, true))
  }

  function SyncTo(l: Log, ok: bool): Log
    requires l.phase.Up?
  {
    if l.phase.closed || !ok then l else l.(synced := |l.content|)
  }

  function CloseTo(l: Log, ok: bool): Log
    requires l.phase.Up?
  {
    if l.phase.closed then l else SyncTo(l, ok).(phase := Up(true, l.phase.stuck))
  }

  function CrashTo(l: Log, at: nat): Log
    requires l.synced <= at <= |l.content|
  {
    l.(content := l.content[..at], phase := Down)
  }

  /** Opening keeps the records that are whole, and makes the file end with the last of them.
      Bytes that repair cut off or wrote anew are not known to be on stable storage. */
  function OpenTo(l: Log): Log {
    var es := Recovered(l.appended, |l.content|);
    var cut := es == [] || |l.content| > |EncodeAll(es)|;
    Log(EncodeAll(es), if cut then Min(l.synced, Whole(es)) else l.synced, es, Up(false, false))
  }

  datatype Op =
    | Append(es: seq<OrderEvent>, ok: bool, written: nat)
    | Sync(ok: bool)
    | Close(ok: bool)
    | Crash(at: nat)
    | Open

  predicate Enabled(l: Log, op: Op) {
    match op
    case Crash(at) => l.synced <= at <= |l.content|
    case Open => l.phase.Down?
    case _ => l.phase.Up?
  }

  function Apply(l: Log, op: Op): Log
    requires Enabled(l, op)
  {
    match op
    case Append(es, ok, written) => AppendTo(l, es, ok, written)
    case Sync(ok) => SyncTo(l, ok)
    case Close(ok) => CloseTo(l, ok)
    case Crash(at) => CrashTo(l, at)
    case Open => OpenTo(l)
  }

  /** The file is always the beginning of what was appended, and all of it unless a write failed. */
  ghost predicate Inv(l: Log) {
    && l.content <= EncodeAll(l.appended) && l.synced <= |l.content|
    && (l.phase.Up? && !l.phase.stuck ==> l.content == EncodeAll(l.appended))
  }

  /** The events whose records no crash can take away. */
  function Durable(l: Log): seq<OrderEvent> { Recovered(l.appended, l.synced) }

  const NEW_FILE: Log := Log([], 0, [], Down)

  ghost predicate Next(l: Log, l': Log) {
    exists op :: Enabled(l, op) && l' == Apply(l, op)
  }

  ghost predicate IsHistory(run: seq<Log>) {
    if |run| <= 1 then run == [NEW_FILE]
    else
      var n := |run| - 1;
      IsHistory(run[..n]) && Next(run[n - 1], run[n])
  }

  lemma {:induction false} AppendKeeps(l: Log, es: seq<OrderEvent>, ok: bool, written: nat)
    requires Inv(l) && l.phase.Up?
    ensures Inv(AppendTo(l, es, ok, written))
    ensures Durable(l) <= Durable(AppendTo(l, es, ok, written))
  {
    hide EncodeAll, Recoverable;
    EncodeAllConcat(l.appended, es);
    RecoverableGrows(l.appended, l.synced, es, l.synced);
  }

  lemma {:induction false} SyncKeeps(l: Log, ok: bool)
    requires Inv(l) && l.phase.Up?
    ensures Inv(SyncTo(l, ok)) && Durable(l) <= Durable(SyncTo(l, ok))
  {
    hide EncodeAll, Recoverable;
    assert l.appended + [] == l.appended;
    RecoverableGrows(l.appended, l.synced, [], SyncTo(l, ok).synced);
  }

  /** What a reopening recovers: whole records only, in order, and every synced one. */
  lemma {:induction false} Reopened(l: Log)
    requires Inv(l)
    ensures var l' := OpenTo(l);
            && l'.content == EncodeAll(l'.appended) && l'.appended <= l.appended
            && Durable(l) <= l'.appended && Durable(l) <= Durable(l') && l'.synced <= |l'.content|
  {
    hide EncodeAll, Recoverable, Whole;
    var l' := OpenTo(l);
    var d := Durable(l);
    assert l.appended + [] == l.appended;
    RecoverableGrows(l.appended, l.synced, [], |l.content|);
    assert d <= l'.appended;
    RecoverableFits(l.appended, l.synced);
    assert l'.appended[..|d|] == d;
    WholeOrder(l'.appended, |d|, |l'.appended|);
    assert l'.appended[..|l'.appended|] == l'.appended;
    assert Whole(d) <= l'.synced;
    Recovers(l'.appended, d, l'.synced);
    SyncedWithin(l);
  }

  lemma {:induction false} SyncedWithin(l: Log)
    requires Inv(l)
    ensures OpenTo(l).synced <= |OpenTo(l).content|
  {
    RecoverableFits(l.appended, |l.content|);
  }

  /** Whatever fits is recovered. */
  lemma {:induction false} Recovers(es: seq<OrderEvent>, d: seq<OrderEvent>, len: nat)
    requires d <= es && Whole(d) <= len
    ensures d <= Recovered(es, len)
  {
    hide EncodeAll, Whole;
    RecoverableFits(es, len);
    var n := Recoverable(es, len);
    assert es[..|d|] == d;
    if n < |d| { WholeOrder(es, n + 1, |d|); }
  }

  lemma {:induction false} StepKeeps(l: Log, op: Op)
    requires Inv(l) && Enabled(l, op)
    ensures Inv(Apply(l, op)) && Durable(l) <= Durable(Apply(l, op))
  {
    hide EncodeAll, Recoverable, Whole;
    if op.Append? {
      AppendKeeps(l, op.es, op.ok, op.written);
    } else if op.Sync? || op.Close? {
      SyncKeeps(l, op.ok);
    } else if op.Open? {
      Reopened(l);
    }
  }

  /** Over any history: the file is always the beginning of what was appended, it is
      readable to the end while no write has failed, and a synced event never goes away. */
  lemma {:induction false} HistorySafe(run: seq<Log>, i: nat)
    requires IsHistory(run) && i < |run|
    ensures Inv(run[|run| - 1]) && Durable(run[i]) <= Durable(run[|run| - 1])
  {
    hide Inv, Durable, Apply;
    if |run| <= 1 {
      NewFileOk();
    } else {
      var n := |run| - 1;
      HistorySafe(run[..n], if i < n then i else n - 1);
      var l := run[n - 1];
      var op :| Enabled(l, op) && run[n] == Apply(l, op);
      StepKeeps(run[n - 1], op);
    }
  }

  lemma {:induction false} NewFileOk()
    ensures Inv(NEW_FILE) && Durable(NEW_FILE) <= Durable(NEW_FILE)
  {
  }

  /** Every reopening in every history, however the file was cut. */
  lemma {:induction false} RecoverySafe(run: seq<Log>, i: nat)
    requires IsHistory(run) && i < |run| && run[|run| - 1].phase.Down?
    ensures var l, l' := run[|run| - 1], OpenTo(run[|run| - 1]);
            && l'.content == EncodeAll(l'.appended) && l'.appended <= l.appended
            && Durable(run[i]) <= l'.appended
  {
    hide Durable, OpenTo;
    HistorySafe(run, i);
    Reopened(run[|run| - 1]);
  }

  /** After a Sync that succeeded, with every Append before it, everything appended is durable. */
  lemma {:induction false} SyncMakesDurable(l: Log)
    requires Inv(l) && l.phase == Up(false, false)
    ensures Durable(SyncTo(l, true)) == l.appended
  {
    hide EncodeAll;
    assert l.appended[..|l.appended|] == l.appended;
    Recovers(l.appended, l.appended, |l.content|);
  }

  /** Repairing a repaired file changes nothing. */
  lemma {:induction false} RepairIdempotent(l: Log)
    requires Inv(l)
    ensures var once := OpenTo(l);
            var again := OpenTo(CrashTo(once, |once.content|));
            again == once
  {
    hide EncodeAll, Recoverable, Whole;
    Reopened(l);
    var once := OpenTo(l);
    assert once.appended[..|once.appended|] == once.appended;
    assert once.content[..|once.content|] == once.content;
    WholeFits(once.appended);
    Recovers(once.appended, once.appended, |once.content|);
    NothingSynced(l);
  }

  lemma {:induction false} WholeFits(es: seq<OrderEvent>)
    ensures Whole(es) <= |EncodeAll(es)| && (es == [] ==> Whole(es) == 0 == |EncodeAll(es)|)
  {
  }

  lemma {:induction false} NothingSynced(l: Log)
    requires Inv(l)
    ensures OpenTo(l).appended == [] ==> OpenTo(l).synced == 0
  {
  }

  // --- What a crash can leave, event by event ---

  /** A crash and the reopening after it keep some number of events, at least the durable ones and at
      most those wholly written; and the durable ones are then those that were, no more and no fewer. */
  lemma {:induction false} CrashKeepsDurable(l: Log, at: nat)
    requires Inv(l) && l.synced <= at <= |l.content|
    ensures var t := OpenTo(CrashTo(l, at));
            && t.appended == l.appended[..|t.appended|] && Durable(t) == Durable(l)
            && |Durable(l)| <= |t.appended| <= Recoverable(l.appended, |l.content|)
  {
    hide EncodeAll, Recoverable, Whole, Durable;
    var es := l.appended;
    assert es + [] == es;
    RecoverableGrows(es, l.synced, [], at);
    RecoverableGrows(es, at, [], |l.content|);
    DurableIs(l);
    SameDurable(l, at);
  }

  lemma {:induction false} DurableIs(l: Log)
    ensures Durable(l) == Recovered(l.appended, l.synced)
  {
  }

  lemma {:induction false} SameDurable(l: Log, at: nat)
    requires Inv(l) && l.synced <= at <= |l.content|
    ensures Durable(OpenTo(CrashTo(l, at))) == Durable(l)
  {
    hide EncodeAll, Recoverable, Whole, Inv;
    var t := OpenTo(CrashTo(l, at));
    var es, n := l.appended, Recoverable(l.appended, l.synced);
    RecoverableFits(es, l.synced);
    RecoverableFits(es, at);
    assert es + [] == es;
    RecoverableGrows(es, l.synced, [], at);
    assert t.appended[..n] == es[..n];
    if n < |t.appended| { assert t.appended[..n + 1] == es[..n + 1]; }
    WholeOrder(t.appended, n, |t.appended|);
    assert t.appended[..|t.appended|] == t.appended;
    RecoverableIs(t.appended, t.synced, n);
  }

  /** And every such number is one that a crash can leave. */
  lemma {:induction false} CrashCanKeep(l: Log, k: nat) returns (at: nat)
    requires Inv(l) && |Durable(l)| <= k <= Recoverable(l.appended, |l.content|)
    ensures l.synced <= at <= |l.content| && OpenTo(CrashTo(l, at)).appended == l.appended[..k]
  {
    hide EncodeAll, Recoverable, Inv;
    var es := l.appended;
    RecoverableFits(es, l.synced);
    RecoverableFits(es, |l.content|);
    SyncedInside(l);
    WholeOrder(es, k, Recoverable(es, |l.content|));
    if k < |es| { WholeLess(es, k); }
    if k > |Durable(l)| {
      at := if Whole(es[..k]) < l.synced then l.synced else Whole(es[..k]);
      WholeOrder(es, |Durable(l)| + 1, k);
    } else {
      at := l.synced;
    }
    RecoverableIs(es, at, k);
  }

  lemma {:induction false} SyncedInside(l: Log)
    requires Inv(l)
    ensures l.synced <= |l.content|
  {
  }

  lemma {:induction false} WholeLess(es: seq<OrderEvent>, k: nat)
    requires k < |es|
    ensures Whole(es[..k]) < Whole(es[..k + 1])
  {
    hide Encode;
    SplitAt(es, k);
    RecordShape(es[k]);
    WholeGrows(es, k, k + 1);
    TwoBytes(es[k]);
  }

  lemma {:induction false} TwoBytes(e: OrderEvent)
    ensures |Encode(e)| > 1
  {
    hide Key, Digits;
    FieldSplit(Vals(e), 0);
    KeyPlain(0);
    FieldEnds(Vals(e), 1);
  }

  class LogFile {
    var content: Bytes
    ghost var synced: nat
    ghost var appended: seq<OrderEvent>

    ghost predicate Valid()
      reads this
    {
      content <= EncodeAll(appended) && synced <= |content|
    }

    ghost function OnDisk(): Log
      reads this
    {
      Log(content, synced, appended, Down)
    }

    /** repairTail, with its four outcomes. */
    method RepairTail()
      requires Valid()
      modifies this
      ensures Valid() && OpenTo(old(OnDisk())).(phase := Down) == OnDisk()
    {
      hide EncodeAll, Recoverable, Encode;
      var size := |content|;
      ghost var es := Recovered(appended, size);
      if size == 0 {
        Repaired(content, 0, appended);
        appended := es;
        return;
      }
      var events, good, ok := Scan(content, appended);
      Repaired(content, good, appended);
      synced := if es == [] || size > |EncodeAll(es)| then Min(synced, Whole(es)) else synced;
      appended := es;
      if good == 0 {
        content := [];
      } else if size == good + 1 {
        // ends in a newline already
      } else if size == good {
        content := content + [NEWLINE];
      } else {
        content := content[..good] + [NEWLINE];
      }
    }
  }

  /** What the four branches make of the file. */
  lemma {:induction false} Repaired(content: Bytes, good: nat, appended: seq<OrderEvent>)
    requires content <= EncodeAll(appended)
    requires content == [] || good == Whole(Recovered(appended, |content|))
    ensures var es := Recovered(appended, |content|);
            && (content == [] || good == 0 ==> es == [] && EncodeAll(es) == [])
            && (content != [] && good > 0 ==>
                  && good <= |content| && |EncodeAll(es)| == good + 1 && EncodeAll(es) == content[..good] + [NEWLINE]
                  && (|content| == good + 1 ==> content[good] == NEWLINE))
  {
    hide EncodeAll, Encode;
    var es := Recovered(appended, |content|);
    RecoverableFits(appended, |content|);
    if es != [] {
      var n := |es| - 1;
      assert appended == es + appended[|es|..];
      EncodeAllConcat(es, appended[|es|..]);
      assert es == es[..n] + [es[n]];
      EncodeLast(es[..n], es[n]);
      RecordShape(es[n]);
      var all := EncodeAll(es);
      assert |all| == Whole(es) + 1 && all[|all| - 1] == NEWLINE;
      assert content[..Whole(es)] == all[..Whole(es)];
    } else {
      WholeFits(es);
    }
  }

  class WAL {
    const file: LogFile
    var closed: bool
    var stuck: bool

    ghost predicate Valid()
      reads this, file
    {
      Inv(State())
    }

    ghost function State(): Log
      reads this, file
    {
      Log(file.content, file.synced, file.appended, Up(closed, stuck))
    }

    /** NewWAL. */
    constructor (file: LogFile)
      requires file.Valid()
      modifies file
      ensures this.file == file && Valid() && State() == OpenTo(old(file.OnDisk()))
    {
      this.file := file;
      closed, stuck := false, false;
      new;
      hide EncodeAll, Recoverable, Whole;
      ghost var l := file.OnDisk();
      Reopened(l);
      file.RepairTail();
    }

    /** The encoder loop of Append, into the buffered writer. */
    method Encoded(events: seq<OrderEvent>) returns (buffer: Bytes)
      ensures buffer == EncodeAll(events)
    {
      hide EncodeAll, Encode;
      buffer := [];
      WholeFits([]);
      for i := 0 to |events|
        invariant buffer == EncodeAll(events[..i])
      {
        assert events[..i + 1] == events[..i] + [events[i]];
        EncodeLast(events[..i], events[i]);
        buffer := buffer + (Encode(events[i]) + [NEWLINE]);
      }
      assert events[..|events|] == events;
    }

    method Append(events: seq<OrderEvent>, writeOk: bool, written: nat) returns (err: bool)
      requires Valid()
      modifies this`stuck, file
      ensures Valid() && State() == AppendTo(old(State()), events, writeOk, written)
      ensures !err <==> writeOk && !old(closed) && !old(stuck)
    {
      hide Inv, EncodeAll;
      AppendKeeps(State(), events, writeOk, written);
      if closed || stuck { return true; }
      var buffer := Encoded(events);
      file.appended := file.appended + events;
      if writeOk {
        file.content := file.content + buffer;
      } else {
        file.content := file.content + buffer[..Min(written, |buffer|)];
        stuck := true;
      }
      err := !writeOk;
    }

    method Sync(syncOk: bool) returns (err: bool)
      requires Valid()
      modifies file`synced
      ensures Valid() && State() == SyncTo(old(State()), syncOk)
      ensures !err <==> syncOk && !closed
    {
      if closed { return true; }
      if syncOk { file.synced := |file.content|; }
      err := !syncOk;
    }

    /** Close: flush, fsync, close of the handle; an error of any of them is reported. */
    method Close(syncOk: bool, closeOk: bool) returns (err: bool)
      requires Valid()
      modifies this`closed, file`synced
      ensures Valid() && State() == CloseTo(old(State()), syncOk) && closed
      ensures !err <==> old(closed) || (syncOk && closeOk && !stuck)
    {
      if closed { return false; }
      var syncErr := Sync(syncOk);
      closed := true;
      err := stuck || syncErr || !closeOk;
    }

    /** ReadAll: while no write has failed, exactly the events appended. */
    method ReadAll() returns (events: seq<OrderEvent>)
      requires Valid()
      ensures events == Recovered(file.appended, |file.content|)
      ensures !stuck ==> events == file.appended
    {
      hide EncodeAll, Recoverable, Whole;
      var good, ok;
      events, good, ok := Scan(file.content, file.appended);
      if !stuck {
        WholeFits(file.appended);
        Recovers(file.appended, file.appended, |file.content|);
      }
    }
  }
}
