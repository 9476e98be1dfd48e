/**
 One binary TCP connection: 25-byte frames in, one byte an order out. Frames are
 admitted in batches of whatever is already buffered and confirmed together; the
 answers must be those of treating every frame on its own.
 */
module TcpBatch {
  import opened Events
  import opened Ingest

  const ACK_REJECTED: uint8 := 0
  const ACK_OK: uint8 := 1
  const ACK_INVALID: uint8 := 2
  const ACK_DUPLICATE: uint8 := 3

  const FRAME_SIZE: nat := 25
  const MAX_PIPELINE: nat := 256

  // --- Frames ---

  /** binary.BigEndian.Uint64 and its shorter relatives. */
  function BigEndian(b: seq<uint8>): nat {
    if b == [] then 0 else BigEndian(b[..|b| - 1]) * U8 + b[|b| - 1]
  }

  function Power(n: nat): (p: nat)
    ensures p > 0
  {
    if n == 0 then 1 else Power(n - 1) * U8
  }

  /** n bytes, most significant first. */
  function PutBigEndian(v: nat, n: nat): (b: seq<uint8>)
    ensures |b| == n
  {
    if n == 0 then [] else PutBigEndian(v / U8, n - 1) + [v % U8]
  }

  lemma {:induction false} BigEndianFits(b: seq<uint8>)
    ensures BigEndian(b) < Power(|b|)
  {
    if b != [] { BigEndianFits(b[..|b| - 1]); }
  }

  lemma {:induction false} BigEndianRoundTrip(v: nat, n: nat)
    requires v < Power(n)
    ensures BigEndian(PutBigEndian(v, n)) == v
  {
    if n > 0 {
      BigEndianRoundTrip(v / U8, n - 1);
      assert PutBigEndian(v, n)[..n - 1] == PutBigEndian(v / U8, n - 1);
    }
  }

  lemma {:induction false} BytesRoundTrip(b: seq<uint8>)
    ensures PutBigEndian(BigEndian(b), |b|) == b
  {
    if b != [] { BytesRoundTrip(b[..|b| - 1]); }
  }

  lemma {:induction false} EightBytes()
    ensures Power(8) == U64 && Power(1) == U8
  {
    assert Power(2) == 0x1_0000 && Power(3) == 0x100_0000 && Power(4) == U32;
    assert Power(5) == 0x100_0000_0000 && Power(6) == 0x1_0000_0000_0000 && Power(7) == 0x100_0000_0000_0000;
  }

  function Field(frame: seq<uint8>, i: nat): uint64
    requires |frame| == FRAME_SIZE && i < 3
  {
    BigEndianFits(frame[8 * i..8 * i + 8]);
    EightBytes();
    BigEndian(frame[8 * i..8 * i + 8])
  }

  function DecodeFrame(frame: seq<uint8>): OrderEvent
    requires |frame| == FRAME_SIZE
  {
    OrderEvent(Field(frame, 0), 0, Field(frame, 1), Field(frame, 2), 0, frame[24])
  }

  /** What a client sends. */
  function EncodeFrame(e: OrderEvent): (frame: seq<uint8>)
    ensures |frame| == FRAME_SIZE
  {
    PutBigEndian(e.orderId, 8) + PutBigEndian(e.price, 8) + PutBigEndian(e.quantity, 8) + [e.side]
  }

  /** Every order without account and asset survives the wire, and every frame is one order's. */
  lemma {:induction false} FrameRoundTrip(e: OrderEvent, frame: seq<uint8>)
    requires |frame| == FRAME_SIZE
    ensures DecodeFrame(EncodeFrame(e)) == e.(accountId := 0, assetId := 0)
    ensures EncodeFrame(DecodeFrame(frame)) == frame
  {
    hide PutBigEndian, BigEndian;
    EightBytes();
    var f := EncodeFrame(e);
    assert f[0..8] == PutBigEndian(e.orderId, 8);
    assert f[8..16] == PutBigEndian(e.price, 8);
    assert f[16..24] == PutBigEndian(e.quantity, 8);
    BigEndianRoundTrip(e.orderId, 8);
    BigEndianRoundTrip(e.price, 8);
    BigEndianRoundTrip(e.quantity, 8);
    BytesRoundTrip(frame[0..8]);
    BytesRoundTrip(frame[8..16]);
    BytesRoundTrip(frame[16..24]);
    assert frame == frame[0..8] + frame[8..16] + frame[16..24] + [frame[24]];
  }

  /** The 25 bytes of a frame: order_id, price and quantity, most significant byte first, and the side. */
  lemma {:induction false} FrameLayout(frame: seq<uint8>)
    requires |frame| == 25
    ensures var e := DecodeFrame(frame);
            && e.orderId == Eight(frame[0], frame[1], frame[2], frame[3], frame[4], frame[5], frame[6], frame[7])
            && e.price == Eight(frame[8], frame[9], frame[10], frame[11], frame[12], frame[13], frame[14], frame[15])
            && e.quantity == Eight(frame[16], frame[17], frame[18], frame[19], frame[20], frame[21], frame[22],
              frame[23])
            && e.side == frame[24] && e.accountId == 0 && e.assetId == 0
  {
    hide BigEndian;
    EightBytesAt(frame, 0);
    EightBytesAt(frame, 8);
    EightBytesAt(frame, 16);
  }

  function Eight(a: uint8, b: uint8, c: uint8, d: uint8, e: uint8, f: uint8, g: uint8, h: uint8): nat {
    a * 0x100_0000_0000_0000 + b * 0x1_0000_0000_0000 + c * 0x100_0000_0000 + d * 0x1_0000_0000
    + e * 0x100_0000 + f * 0x1_0000 + g * 0x100 + h
  }

  lemma {:induction false} EightBytesAt(frame: seq<uint8>, i: nat)
    requires i + 8 <= |frame|
    ensures BigEndian(frame[i..i + 8])
            == Eight(frame[i], frame[i + 1], frame[i + 2], frame[i + 3], frame[i + 4], frame[i + 5], frame[i + 6],
              frame[i + 7])
  {
    assert BigEndian(frame[i..i + 0]) == 0;
    OneByteMore(frame, i, 0);
    OneByteMore(frame, i, 1);
    OneByteMore(frame, i, 2);
    OneByteMore(frame, i, 3);
    OneByteMore(frame, i, 4);
    OneByteMore(frame, i, 5);
    OneByteMore(frame, i, 6);
    OneByteMore(frame, i, 7);
  }

  lemma {:induction false} OneByteMore(b: seq<uint8>, i: nat, n: nat)
    requires i + n < |b|
    ensures BigEndian(b[i..i + n + 1]) == BigEndian(b[i..i + n]) * 256 + b[i + n]
  {
    assert b[i..i + n + 1][..n] == b[i..i + n];
  }

  function FrameAt(input: seq<uint8>, i: nat): (frame: seq<uint8>)
    requires FRAME_SIZE * (i + 1) <= |input|
    ensures |frame| == FRAME_SIZE
  {
    input[FRAME_SIZE * i..FRAME_SIZE * (i + 1)]
  }

  function Frames(input: seq<uint8>): nat { |input| / FRAME_SIZE }

  function OrdersIn(input: seq<uint8>): (es: seq<OrderEvent>)
    ensures |es| == Frames(input)
  {
    seq(Frames(input), i requires 0 <= i < Frames(input) => DecodeFrame(FrameAt(input, i)))
  }

  // --- Answers ---

  /** The answer to one frame on its own: Submit. */
  function AckOf(a: Admission, durable: nat -> bool): uint8 {
    match a
    case Admitted(sn) => if durable(sn) then ACK_OK else ACK_REJECTED
    case Invalid => ACK_INVALID
    case Duplicate => ACK_DUPLICATE
    case Unavailable => ACK_REJECTED
  }

  /** The answers one frame at a time: a rejection is the last. */
  function Acks(admissions: seq<Admission>, durable: nat -> bool): seq<uint8> {
    if admissions == [] then []
    else
      var ack := AckOf(admissions[0], durable);
      if ack == ACK_REJECTED then [ack] else [ack] + Acks(admissions[1..], durable)
  }

  /** One answer a frame, in order, until the first rejection, and nothing after it. */
  lemma {:induction false} AcksInOrder(admissions: seq<Admission>, durable: nat -> bool)
    ensures var acks := Acks(admissions, durable);
            && |acks| <= |admissions|
            && (forall i :: 0 <= i < |acks| ==> acks[i] == AckOf(admissions[i], durable))
            && (forall i :: 0 <= i < |acks| - 1 ==> acks[i] != ACK_REJECTED)
            && (|acks| < |admissions| ==> acks != [] && acks[|acks| - 1] == ACK_REJECTED)
  {
    if admissions != [] { AcksInOrder(admissions[1..], durable); }
  }

  /** AckOK is only ever said of an order that the ring took and the journal confirmed. */
  lemma {:induction false} AckOkMeansConfirmed(admissions: seq<Admission>, durable: nat -> bool, i: nat)
    requires i < |Acks(admissions, durable)|
    ensures i < |admissions|
    ensures Acks(admissions, durable)[i] == ACK_OK <==> admissions[i].Admitted? && durable(admissions[i].sn)
  {
    AcksInOrder(admissions, durable);
  }

  /** The byte of every answer: 0 for a refusal and for an order that could not be confirmed, 1 for a
      confirmed one, 2 for a malformed one, 3 for an id already used. */
  lemma {:induction false} AckBytes(admissions: seq<Admission>, durable: nat -> bool, i: nat)
    requires i < |Acks(admissions, durable)|
    ensures i < |admissions|
    ensures var a, byte := admissions[i], Acks(admissions, durable)[i];
            && (byte == 1 <==> a.Admitted? && durable(a.sn))
            && (byte == 2 <==> a.Invalid?)
            && (byte == 3 <==> a.Duplicate?)
            && (byte == 0 <==> a.Unavailable? || (a.Admitted? && !durable(a.sn)))
  {
    AcksInOrder(admissions, durable);
  }

  lemma {:induction false} AcksConcat(a: seq<Admission>, b: seq<Admission>, durable: nat -> bool)
    ensures Acks(a + b, durable) == if ACK_REJECTED in Acks(a, durable) then Acks(a, durable)
             else Acks(a, durable) + Acks(b, durable)
  {
    if a == [] {
      assert a + b == b;
    } else {
      assert (a + b)[1..] == a[1..] + b;
      AcksConcat(a[1..], b, durable);
      Regroup([AckOf(a[0], durable)], Acks(a[1..], durable), Acks(b, durable));
    }
  }

  datatype Confirmation = Confirmation(event: OrderEvent, sn: nat)

  /** The Confirm calls that those answers take: every admitted frame's own order and ticket,
      in order, up to the first rejection. */
  function Confirms(orders: seq<OrderEvent>, admissions: seq<Admission>, durable: nat -> bool): seq<Confirmation>
    requires |orders| == |admissions|
  {
    if admissions == [] then []
    else
      var a := admissions[0];
      var first := if a.Admitted? then [Confirmation(orders[0], a.sn)] else [];
      if AckOf(a, durable) == ACK_REJECTED then first else first + Confirms(orders[1..], admissions[1..], durable)
  }

  /** Only admitted frames are confirmed, each with the order and the ticket of its own, and a frame
      answered AckOK was. */
  lemma {:induction false} ConfirmsMean(orders: seq<OrderEvent>, admissions: seq<Admission>, durable: nat -> bool)
    requires |orders| == |admissions|
    ensures forall c :: c in Confirms(orders, admissions, durable) ==>
              exists i :: 0 <= i < |Acks(admissions, durable)| && i < |orders|
                          && admissions[i] == Admitted(c.sn) && orders[i] == c.event
    ensures forall i :: 0 <= i < |Acks(admissions, durable)| && i < |orders| && admissions[i].Admitted? ==>
              Confirmation(orders[i], admissions[i].sn) in Confirms(orders, admissions, durable)
  {
    if admissions != [] {
      var os, rest := orders[1..], admissions[1..];
      ConfirmsMean(os, rest, durable);
      var all, tail := Confirms(orders, admissions, durable), Confirms(os, rest, durable);
      forall c | c in all
        ensures exists i :: 0 <= i < |Acks(admissions, durable)| && i < |orders|
                            && admissions[i] == Admitted(c.sn) && orders[i] == c.event
      {
        if admissions[0] == Admitted(c.sn) && orders[0] == c.event {
          assert 0 < |Acks(admissions, durable)|;
        } else {
          assert c in tail;
          var k :| 0 <= k < |Acks(rest, durable)| && k < |os| && rest[k] == Admitted(c.sn) && os[k] == c.event;
          assert admissions[k + 1] == Admitted(c.sn) && orders[k + 1] == c.event;
        }
      }
      forall i | 0 <= i < |Acks(admissions, durable)| && i < |orders| && admissions[i].Admitted?
        ensures Confirmation(orders[i], admissions[i].sn) in all
      {
        if i > 0 {
          assert rest[i - 1] == admissions[i] && os[i - 1] == orders[i];
          assert Confirmation(os[i - 1], rest[i - 1].sn) in tail;
        }
      }
    }
  }

  lemma {:induction false} ConfirmsConcat(o: seq<OrderEvent>, a: seq<Admission>, p: seq<OrderEvent>, b: seq<Admission>,
        durable: nat -> bool)
    requires |o| == |a| && |p| == |b|
    ensures Confirms(o + p, a + b, durable)
            == if ACK_REJECTED in Acks(a, durable) then Confirms(o, a, durable)
              else Confirms(o, a, durable) + Confirms(p, b, durable)
  {
    if a == [] {
      assert a + b == b && o + p == p;
    } else {
      assert (a + b)[1..] == a[1..] + b && (o + p)[1..] == o[1..] + p;
      ConfirmsConcat(o[1..], a[1..], p, b, durable);
      var first := if a[0].Admitted? then [Confirmation(o[0], a[0].sn)] else [];
      Regroup(first, Confirms(o[1..], a[1..], durable), Confirms(p, b, durable));
    }
  }

  lemma {:induction false} Regroup<T>(a: seq<T>, b: seq<T>, c: seq<T>)
    ensures (a + b) + c == a + (b + c)
  {
  }

  // --- The connection ---

  datatype Pending = Pending(event: OrderEvent, sn: nat, ack: uint8)

  function PendingOf(e: OrderEvent, a: Admission): Pending {
    match a
    case Admitted(sn) => Pending(e, sn, ACK_OK)
    case Invalid => Pending(e, 0, ACK_INVALID)
    case Duplicate => Pending(e, 0, ACK_DUPLICATE)
    case Unavailable => Pending(e, 0, ACK_REJECTED)
  }

  /** The ingress with its answers to this connection fixed. */
  class Desk {
    const script: seq<Admission>
    const durable: nat -> bool
    var asked: seq<OrderEvent>
    var confirmed: seq<Confirmation>       // every call of Confirm

    constructor (script: seq<Admission>, durable: nat -> bool)
      ensures this.script == script && this.durable == durable && asked == [] && confirmed == []
    {
      this.script := script;
      this.durable := durable;
      asked, confirmed := [], [];
    }

    method Admit(e: OrderEvent) returns (a: Admission)
      requires |asked| < |script|
      modifies this`asked
      ensures asked == old(asked) + [e] && a == script[|old(asked)|]
    {
      a := script[|asked|];
      asked := asked + [e];
    }

    method Confirm(e: OrderEvent, sn: nat) returns (ok: bool)
      modifies this`confirmed
      ensures ok == durable(sn) && confirmed == old(confirmed) + [Confirmation(e, sn)]
    {
      confirmed := confirmed + [Confirmation(e, sn)];
      ok := durable(sn);
    }
  }

  /** A batch as it was admitted, of these orders with these answers: nothing stands behind a refusal. */
  ghost predicate BatchOf(batch: seq<Pending>, orders: seq<OrderEvent>, answers: seq<Admission>, fatal: bool) {
    && |batch| == |orders| == |answers|
    && (forall i :: 0 <= i < |batch| ==> batch[i] == PendingOf(orders[i], answers[i]))
    && (forall i :: 0 <= i < |answers| - 1 ==> !answers[i].Unavailable?)
    && (fatal <==> answers != [] && answers[|answers| - 1].Unavailable?)
  }

  /** What has been read of the connection: whole frames, each passed to Admit in order. */
  ghost predicate ReadSoFar(input: seq<uint8>, pos: nat, asked: seq<OrderEvent>) {
    pos == FRAME_SIZE * |asked| <= |input| && asked == OrdersIn(input)[..|asked|]
  }

  lemma {:induction false} ReadOne(input: seq<uint8>, pos: nat, asked: seq<OrderEvent>)
    requires ReadSoFar(input, pos, asked) && pos + FRAME_SIZE <= |input|
    ensures ReadSoFar(input, pos + FRAME_SIZE, asked + [DecodeFrame(input[pos..pos + FRAME_SIZE])])
    ensures |asked| < Frames(input)
  {
    hide DecodeFrame;
    var n := |asked|;
    assert input[pos..pos + FRAME_SIZE] == FrameAt(input, n);
    assert OrdersIn(input)[n] == DecodeFrame(FrameAt(input, n));
    assert OrdersIn(input)[..n + 1] == OrdersIn(input)[..n] + [OrdersIn(input)[n]];
  }

  /** Read and admit one batch. Whether another frame is buffered is up to the network. */
  method ReadBatch(input: seq<uint8>, pos0: nat, desk: Desk)
    returns (batch: seq<Pending>, pos: nat, fatal: bool)
    requires ReadSoFar(input, pos0, desk.asked) && Frames(input) <= |desk.script|
    modifies desk`asked
    ensures ReadSoFar(input, pos, desk.asked) && |desk.asked| == |old(desk.asked)| + |batch|
    ensures BatchOf(batch, desk.asked[|old(desk.asked)|..], desk.script[|old(desk.asked)|..|desk.asked|], fatal)
    ensures |batch| <= 256 && old(desk.asked) <= desk.asked
    ensures batch == [] ==> |desk.asked| == Frames(input)
  {
    hide DecodeFrame, OrdersIn;
    ghost var n := |desk.asked|;
    batch, pos, fatal := [], pos0, false;
    while |batch| < MAX_PIPELINE && !fatal
      invariant ReadSoFar(input, pos, desk.asked) && |desk.asked| == n + |batch|
      invariant BatchOf(batch, desk.asked[n..], desk.script[n..|desk.asked|], fatal)
      invariant |batch| <= MAX_PIPELINE && old(desk.asked) <= desk.asked
      invariant batch == [] ==> pos == pos0
      decreases MAX_PIPELINE - |batch|
    {
      var buffered: bool := *;
      if |batch| > 0 && !buffered { break; }
      if pos + FRAME_SIZE > |input| { break; }
      var event := DecodeFrame(input[pos..pos + FRAME_SIZE]);
      ReadOne(input, pos, desk.asked);
      pos := pos + FRAME_SIZE;
      ghost var orders, answers := desk.asked[n..], desk.script[n..|desk.asked|];
      var a := desk.Admit(event);
      assert desk.script[n..|desk.asked|] == answers + [a] && desk.asked[n..] == orders + [event];
      fatal := a.Unavailable?;
      batch := batch + [PendingOf(event, a)];
    }
  }

  lemma {:induction false} AcksOneMore(answers: seq<Admission>, i: nat, durable: nat -> bool)
    requires i < |answers| && ACK_REJECTED !in Acks(answers[..i], durable)
    ensures var ack := AckOf(answers[i], durable);
            && Acks(answers[..i + 1], durable) == Acks(answers[..i], durable) + [ack]
            && (ack == ACK_REJECTED ==> Acks(answers, durable) == Acks(answers[..i], durable) + [ack])
  {
    hide Acks, AckOf;
    SplitSeq(answers, i);
    AcksAround(answers[..i], answers[i], answers[i + 1..], durable);
  }

  lemma {:induction false} SplitSeq<T>(s: seq<T>, i: nat)
    requires i < |s|
    ensures s[..i + 1] == s[..i] + [s[i]] && s == (s[..i] + [s[i]]) + s[i + 1..]
  {
  }

  lemma {:induction false} AcksAround(done: seq<Admission>, a: Admission, rest: seq<Admission>, durable: nat -> bool)
    requires ACK_REJECTED !in Acks(done, durable)
    ensures var ack := AckOf(a, durable);
            && Acks(done + [a], durable) == Acks(done, durable) + [ack]
            && (ack == ACK_REJECTED ==> Acks((done + [a]) + rest, durable) == Acks(done, durable) + [ack])
  {
    hide Acks, AckOf;
    AcksOfOne(a, durable);
    AcksConcat(done, [a], durable);
    AcksConcat(done + [a], rest, durable);
  }

  lemma {:induction false} AcksOfOne(a: Admission, durable: nat -> bool)
    ensures Acks([a], durable) == [AckOf(a, durable)]
  {
    assert [a][1..] == [];
  }

  /** One batch further along a connection, and what the answers to all of it are if it was the last. */
  lemma {:induction false} AcksOneBatch(script: seq<Admission>, n: nat, m: nat, total: nat, durable: nat -> bool)
    requires n <= m <= total <= |script| && ACK_REJECTED !in Acks(script[..n], durable)
    ensures var out := Acks(script[n..m], durable);
            && Acks(script[..m], durable) == Acks(script[..n], durable) + out
            && Acks(script[..m], durable) <= Acks(script[..total], durable)
            && (ACK_REJECTED in out ==> Acks(script[..m], durable) == Acks(script[..total], durable))
  {
    hide Acks;
    assert script[..m] == script[..n] + script[n..m];
    assert script[..total] == script[..m] + script[m..total];
    AcksConcat(script[..n], script[n..m], durable);
    AcksConcat(script[..m], script[m..total], durable);
  }

  lemma {:induction false} ConfirmsOneMore(orders: seq<OrderEvent>, answers: seq<Admission>, i: nat,
        durable: nat -> bool)
    requires i < |answers| == |orders| && ACK_REJECTED !in Acks(answers[..i], durable)
    ensures var first := if answers[i].Admitted? then [Confirmation(orders[i], answers[i].sn)] else [];
            var upTo := Confirms(orders[..i], answers[..i], durable) + first;
            && Confirms(orders[..i + 1], answers[..i + 1], durable) == upTo
            && (AckOf(answers[i], durable) == ACK_REJECTED ==> Confirms(orders, answers, durable) == upTo)
  {
    hide Acks, AckOf, Confirms;
    SplitSeq(orders, i);
    SplitSeq(answers, i);
    var done, a := answers[..i], answers[i];
    ConfirmsOfOne(orders[i], a, durable);
    ConfirmsConcat(orders[..i], done, [orders[i]], [a], durable);
    ConfirmsConcat(orders[..i] + [orders[i]], done + [a], orders[i + 1..], answers[i + 1..], durable);
    AcksAround(done, a, answers[i + 1..], durable);
  }

  lemma {:induction false} ConfirmsOfOne(e: OrderEvent, a: Admission, durable: nat -> bool)
    ensures Confirms([e], [a], durable) == if a.Admitted? then [Confirmation(e, a.sn)] else []
  {
    assert [e][1..] == [] && [a][1..] == [];
  }

  /** The answers to a batch, confirmed in order; a refusal is the last answer. */
  method ConfirmBatch(batch0: seq<Pending>, fatal0: bool, desk: Desk, ghost orders: seq<OrderEvent>,
        ghost answers: seq<Admission>)
    returns (out: seq<uint8>, fatal: bool)
    requires BatchOf(batch0, orders, answers, fatal0)
    modifies desk`confirmed
    ensures out == Acks(answers, desk.durable)
    ensures desk.confirmed == old(desk.confirmed) + Confirms(orders, answers, desk.durable)
    ensures fatal <==> ACK_REJECTED in out
  {
    hide Acks, Confirms;
    out, fatal := [], fatal0;
    NoAcks(desk.durable);
    var batch := batch0;
    var i := 0;
    while i < |batch|
      invariant i <= |batch| == |batch0| && forall k :: i <= k < |batch| ==> batch[k] == batch0[k]
      invariant out == Acks(answers[..i], desk.durable) && ACK_REJECTED !in out && fatal == fatal0
      invariant desk.confirmed == old(desk.confirmed) + Confirms(orders[..i], answers[..i], desk.durable)
      invariant forall k :: 0 <= k < i ==> !answers[k].Unavailable?
    {
      AcksOneMore(answers, i, desk.durable);
      ConfirmsOneMore(orders, answers, i, desk.durable);
      if batch[i].ack == ACK_OK {
        var ok := desk.Confirm(batch[i].event, batch[i].sn);
        if !ok {
          batch := batch[i := batch[i].(ack := ACK_REJECTED)];
          fatal := true;
        }
      }
      assert batch[i].ack == AckOf(answers[i], desk.durable);
      out := out + [batch[i].ack];
      if batch[i].ack == ACK_REJECTED { return; }
      i := i + 1;
    }
    assert answers[..|batch|] == answers && orders[..|batch|] == orders;
  }

  /** What Confirm is asked over a whole connection, one batch further along. */
  lemma {:induction false} ConfirmsOneBatch(orders: seq<OrderEvent>, script: seq<Admission>, n: nat, m: nat,
        durable: nat -> bool)
    requires n <= m <= |orders| <= |script| && ACK_REJECTED !in Acks(script[..n], durable)
    ensures var out := Confirms(orders[n..m], script[n..m], durable);
            var all := Confirms(orders, script[..|orders|], durable);
            && Confirms(orders[..m], script[..m], durable) == Confirms(orders[..n], script[..n], durable) + out
            && Confirms(orders[..m], script[..m], durable) <= all
            && (ACK_REJECTED in Acks(script[..m], durable) ==> Confirms(orders[..m], script[..m], durable) == all)
  {
    hide Acks, Confirms;
    assert script[..m] == script[..n] + script[n..m] && orders[..m] == orders[..n] + orders[n..m];
    assert script[..|orders|] == script[..m] + script[m..|orders|] && orders == orders[..m] + orders[m..];
    ConfirmsConcat(orders[..n], script[..n], orders[n..m], script[n..m], durable);
    ConfirmsConcat(orders[..m], script[..m], orders[m..], script[m..|orders|], durable);
  }

  /** handleConnection: however the frames fall into batches, the client is sent the
      answers of one frame at a time, and Confirm is asked what they take; a failed write
      only cuts that short. */
  method HandleConnection(input: seq<uint8>, desk: Desk) returns (sent: seq<uint8>, broken: bool)
    requires desk.asked == [] && desk.confirmed == [] && Frames(input) <= |desk.script|
    modifies desk
    ensures sent <= Acks(desk.script[..Frames(input)], desk.durable)
    ensures !broken ==> sent == Acks(desk.script[..Frames(input)], desk.durable)
    ensures desk.asked <= OrdersIn(input) && (ACK_REJECTED !in sent && !broken ==> desk.asked == OrdersIn(input))
    ensures desk.confirmed <= Confirms(OrdersIn(input), desk.script[..Frames(input)], desk.durable)
    ensures !broken ==> desk.confirmed == Confirms(OrdersIn(input), desk.script[..Frames(input)], desk.durable)
  {
    hide DecodeFrame, OrdersIn, Acks, Confirms;
    sent, broken := [], false;
    var pos := 0;
    ghost var script, orders := desk.script, OrdersIn(input);
    NoAcks(desk.durable);
    assert script[..0] == [] && orders[..0] == [];
    while true
      invariant ReadSoFar(input, pos, desk.asked)
      invariant sent == Acks(script[..|desk.asked|], desk.durable) && ACK_REJECTED !in sent
      invariant desk.confirmed == Confirms(orders[..|desk.asked|], script[..|desk.asked|], desk.durable)
      decreases |input| - pos
    {
      ghost var n := |desk.asked|;
      var batch, fatal;
      batch, pos, fatal := ReadBatch(input, pos, desk);
      ghost var m := |desk.asked|;
      if batch == [] {
        assert orders[..m] == orders;
        return;
      }
      var out;
      assert desk.asked[n..] == orders[n..m];
      out, fatal := ConfirmBatch(batch, fatal, desk, orders[n..m], script[n..m]);
      AcksOneBatch(script, n, m, Frames(input), desk.durable);
      ConfirmsOneBatch(orders, script, n, m, desk.durable);
      broken := *;
      if broken {
        var written: int := *;
        if 0 <= written <= |out| { sent := sent + out[..written]; }
        return;
      }
      sent := sent + out;
      if fatal { return; }
    }
  }

  lemma {:induction false} NoAcks(durable: nat -> bool)
    ensures Acks([], durable) == [] && Confirms([], [], durable) == []
  {
  }
}
