/**
 One record of the write-ahead log: the canonical JSON of an event, and the
 hand-written decoder that must accept exactly those byte strings.
 */
module WalCodec {
  import opened Events

  type Bytes = seq<uint8>

  const NEWLINE: uint8 := 10
  const ZERO: uint8 := 48
  const NINE: uint8 := 57
  const CLOSE_BRACE: uint8 := 125
  const MAX_UINT64: uint64 := U64 - 1

  function Ascii(s: string): (b: Bytes)
    ensures |b| == |s|
  {
    seq(|s|, i requires 0 <= i < |s| => s[i] as int % U8)
  }

  const FIELDS: nat := 6
  function KeyText(i: nat): string
    requires i < FIELDS
  {
    match i
    case 0 => "{\"OrderID\":"
    case 1 => ",\"AccountID\":"
    case 2 => ",\"Price\":"
    case 3 => ",\"Quantity\":"
    case 4 => ",\"AssetID\":"
    case 5 => ",\"Side\":"
  }

  /** canonicalKeys. */
  function Key(i: nat): Bytes
    requires i < FIELDS
  {
    Ascii(KeyText(i))
  }

  predicate IsDigit(c: uint8) { ZERO <= c <= NINE }

  /** A number in decimal, without leading zeros. */
  function Digits(v: nat): (ds: Bytes)
    ensures ds != []
  {
    if v < 10 then [ZERO + v] else Digits(v / 10) + [ZERO + v % 10]
  }

  /** The value of a string of digits. */
  function Value(ds: Bytes): nat
    requires AllDigits(ds)
  {
    if ds == [] then 0 else Value(ds[..|ds| - 1]) * 10 + (ds[|ds| - 1] - ZERO)
  }

  predicate AllDigits(ds: Bytes) {
    forall i :: 0 <= i < |ds| ==> IsDigit(ds[i])
  }

  /** The values of an event in the order of the keys. */
  function Vals(e: OrderEvent): (vs: seq<uint64>)
    ensures |vs| == FIELDS
  {
    [e.orderId, e.accountId, e.price, e.quantity, e.assetId, e.side]
  }

  /** The fields from the i-th on, and the closing brace. */
  function EncodeFrom(vs: seq<uint64>, i: nat): Bytes
    requires |vs| == FIELDS && i <= FIELDS
    decreases FIELDS - i
  {
    if i == FIELDS then [CLOSE_BRACE] else Key(i) + Digits(vs[i]) + EncodeFrom(vs, i + 1)
  }

  /** What json.Encoder writes for an event, without the newline. */
  function Encode(e: OrderEvent): Bytes { EncodeFrom(Vals(e), 0) }

  // --- Numbers ---

  lemma {:induction false} ValueOfDigits(v: nat)
    ensures AllDigits(Digits(v)) && Value(Digits(v)) == v
    ensures |Digits(v)| > 1 ==> Digits(v)[0] != ZERO
  {
    if v >= 10 {
      ValueOfDigits(v / 10);
      assert Digits(v)[..|Digits(v)| - 1] == Digits(v / 10);
    }
  }

  lemma {:induction false} DigitsStep(q: nat, d: nat)
    requires q > 0 && d < 10
    ensures Digits(q * 10 + d) == Digits(q) + [ZERO + d]
  {
    var v := q * 10 + d;
    assert v / 10 == q && v % 10 == d;
  }

  lemma {:induction false} DigitsOfValue(ds: Bytes)
    requires AllDigits(ds) && ds != [] && (|ds| > 1 ==> ds[0] != ZERO)
    ensures Digits(Value(ds)) == ds
    ensures ds[0] != ZERO ==> Value(ds) > 0
  {
    var n := |ds| - 1;
    var head, d := ds[..n], ds[n] - ZERO;
    assert IsDigit(ds[n]) && 0 <= d < 10;
    if n > 0 {
      DigitsOfValue(head);
      DigitsStep(Value(head), d);
      assert ds == head + [ds[n]];
    } else {
      assert Value(head) == 0;
    }
  }

  lemma {:induction false} ValueOfPrefix(ds: Bytes, k: nat)
    requires AllDigits(ds) && k <= |ds|
    ensures Value(ds[..k]) <= Value(ds)
  {
    if k < |ds| {
      var n := |ds| - 1;
      assert ds[..n][..k] == ds[..k];
      ValueOfPrefix(ds[..n], k);
    } else {
      assert ds[..k] == ds;
    }
  }

  /** b begins with the number w, and the number ends there. */
  ghost predicate StartsWith(b: Bytes, w: nat) {
    var n := |Digits(w)|;
    n <= |b| && b[..n] == Digits(w) && (n < |b| ==> !IsDigit(b[n]))
  }

  /** The longest run of digits at the start of b is what a number there must be. */
  lemma {:induction false} RunIsNumber(b: Bytes, n: nat, w: nat)
    requires n <= |b| && AllDigits(b[..n]) && StartsWith(b, w)
    ensures n <= |Digits(w)| && b[..n] == Digits(w)[..n] && Value(b[..n]) <= w
    ensures n == |b| || !IsDigit(b[n]) ==> b[..n] == Digits(w)
  {
    ValueOfDigits(w);
    var m := |Digits(w)|;
    forall i | 0 <= i < n ensures IsDigit(b[i]) { assert b[i] == b[..n][i]; }
    assert b[..m][..n] == b[..n];
    ValueOfPrefix(Digits(w), n);
    if n < m { assert b[n] == Digits(w)[n]; }
  }

  /** The digit loop: the number at the start of b, if there is one that fits a uint64. */
  method ParseNumber(b: Bytes) returns (v: uint64, n: nat, ok: bool)
    ensures ok ==> StartsWith(b, v) && n == |Digits(v)|
    ensures !ok ==> forall w: uint64 :: !StartsWith(b, w)
  {
    v, n, ok := 0, 0, false;
    while n < |b| && IsDigit(b[n])
      invariant n <= |b| && AllDigits(b[..n]) && v == Value(b[..n])
    {
      var d := b[n] - ZERO;
      assert b[..n + 1][..n] == b[..n];
      assert Value(b[..n + 1]) == v * 10 + d;
      if v > (MAX_UINT64 - d) / 10 {
        forall w: uint64 | StartsWith(b, w) ensures false { RunIsNumber(b, n + 1, w); }
        return;
      }
      v := (v * 10 + d) % U64;
      n := n + 1;
    }
    if n == 0 || (n > 1 && b[0] == ZERO) {
      forall w: uint64 | StartsWith(b, w) ensures false {
        ValueOfDigits(w);
        RunIsNumber(b, n, w);
      }
      return;
    }
    ok := true;
    assert n > 1 ==> b[..n][0] != ZERO;
    DigitsOfValue(b[..n]);
  }

  // --- Records ---

  /** A byte that only ends records: no digit, and in no key. */
  predicate Foreign(c: uint8) { c == NEWLINE || c == CLOSE_BRACE }

  lemma {:induction false} KeyPlain(i: nat)
    requires i < FIELDS
    ensures Key(i) != [] && !IsDigit(Key(i)[0])
    ensures forall c :: c in Key(i) ==> !Foreign(c)
  {
    var s := KeyText(i);
    assert forall k :: 0 <= k < |s| ==> Key(i)[k] == s[k] as int % U8;
    assert forall k :: 0 <= k < |s| ==> !Foreign(s[k] as int % U8);
  }

  /** A field's digits end where the next key or the closing brace begins. */
  lemma {:induction false} FieldEnds(vs: seq<uint64>, i: nat)
    requires |vs| == FIELDS && i <= FIELDS
    ensures EncodeFrom(vs, i) != [] && !IsDigit(EncodeFrom(vs, i)[0])
  {
    hide Key, Digits, StartsWith;
    if i < FIELDS { KeyPlain(i); }
  }

  lemma {:induction false} Parts<T>(a: seq<T>, b: seq<T>, c: seq<T>)
    ensures var s := a + b + c;
            a <= s && s[|a|..] == b + c && s[|a|..][|b|..] == c
  {
  }

  lemma {:induction false} FieldStarts(vs: seq<uint64>, i: nat)
    requires |vs| == FIELDS && i < FIELDS
    ensures var b := EncodeFrom(vs, i);
            && Key(i) <= b && StartsWith(b[|Key(i)|..], vs[i])
            && b[|Key(i)|..][|Digits(vs[i])|..] == EncodeFrom(vs, i + 1)
  {
    hide Key, Digits, EncodeFrom;
    FieldSplit(vs, i);
    Parts(Key(i), Digits(vs[i]), EncodeFrom(vs, i + 1));
    FieldEnds(vs, i + 1);
  }

  lemma {:induction false} FieldSplit(vs: seq<uint64>, i: nat)
    requires |vs| == FIELDS && i < FIELDS
    ensures EncodeFrom(vs, i) == Key(i) + Digits(vs[i]) + EncodeFrom(vs, i + 1)
  {
  }

  /** What is consumed of whole after i fields with these values. */
  ghost predicate Consumed(whole: Bytes, vs: seq<uint64>, i: nat, b: Bytes) {
    && |vs| == FIELDS && i <= FIELDS
    && forall ws: seq<uint64> :: |ws| == FIELDS && ws[..i] == vs[..i] && b == EncodeFrom(ws, i) ==>
      whole == EncodeFrom(ws, 0)
  }

  /** If whole is a record at all, b is what is left of it and vs what was read. */
  ghost predicate Tracks(whole: Bytes, vs: seq<uint64>, i: nat, b: Bytes) {
    && |vs| == FIELDS && i <= FIELDS
    && forall ws: seq<uint64> :: |ws| == FIELDS && whole == EncodeFrom(ws, 0) ==>
      ws[..i] == vs[..i] && b == EncodeFrom(ws, i)
  }

  lemma {:induction false} FieldRead(whole: Bytes, vs: seq<uint64>, i: nat, b: Bytes, v: uint64)
    requires i < FIELDS && Consumed(whole, vs, i, b) && Key(i) <= b && StartsWith(b[|Key(i)|..], v)
    ensures Consumed(whole, vs[i := v], i + 1, b[|Key(i)|..][|Digits(v)|..])
  {
    hide Key, Digits, EncodeFrom;
    var b1 := b[|Key(i)|..];
    var b2 := b1[|Digits(v)|..];
    forall ws: seq<uint64> | |ws| == FIELDS && ws[..i + 1] == vs[i := v][..i + 1] && b2 == EncodeFrom(ws, i + 1)
      ensures whole == EncodeFrom(ws, 0)
    {
      assert EncodeFrom(ws, i) == Key(i) + Digits(ws[i]) + EncodeFrom(ws, i + 1) by { FieldSplit(ws, i); }
      assert ws[i] == ws[..i + 1][i] == v;
      assert ws[..i] == ws[..i + 1][..i] == vs[i := v][..i + 1][..i] == vs[..i];
      assert b1 == Digits(v) + b2;
      assert b == Key(i) + b1 == Key(i) + Digits(v) + b2;
    }
  }

  lemma {:induction false} FieldTracked(whole: Bytes, vs: seq<uint64>, i: nat, b: Bytes, v: uint64)
    requires i < FIELDS && Tracks(whole, vs, i, b) && Key(i) <= b && StartsWith(b[|Key(i)|..], v)
    ensures Tracks(whole, vs[i := v], i + 1, b[|Key(i)|..][|Digits(v)|..])
  {
    hide Key, Digits, EncodeFrom;
    forall ws: seq<uint64> | |ws| == FIELDS && whole == EncodeFrom(ws, 0)
      ensures ws[..i + 1] == vs[i := v][..i + 1] && b[|Key(i)|..][|Digits(v)|..] == EncodeFrom(ws, i + 1)
    {
      FieldStarts(ws, i);
      SameNumber(b[|Key(i)|..], v, ws[i]);
      assert ws[..i + 1] == ws[..i] + [v];
      assert vs[i := v][..i + 1] == vs[..i] + [v];
    }
  }

  lemma {:induction false} SameNumber(b: Bytes, v: nat, w: nat)
    requires StartsWith(b, v) && StartsWith(b, w)
    ensures v == w
  {
    ValueOfDigits(v);
    ValueOfDigits(w);
    RunIsNumber(b, |Digits(v)|, w);
  }

  /** Where no field can be read, there was no record. */
  lemma {:induction false} NoField(whole: Bytes, vs: seq<uint64>, i: nat, b: Bytes, e: OrderEvent)
    requires i < FIELDS && Tracks(whole, vs, i, b)
    requires Key(i) <= b ==> forall w: uint64 :: !StartsWith(b[|Key(i)|..], w)
    ensures whole != Encode(e)
  {
    hide Key, Digits, StartsWith;
    if whole == Encode(e) { FieldStarts(Vals(e), i); }
  }

  /** parseCanonical: accepts exactly the canonical encodings, and returns the event encoded. */
  method ParseCanonical(b0: Bytes) returns (ev: OrderEvent, ok: bool)
    ensures ok ==> b0 == Encode(ev)
    ensures !ok ==> forall e :: b0 != Encode(e)
  {
    hide EncodeFrom, StartsWith, Encode, Key;
    ev, ok := OrderEvent(0, 0, 0, 0, 0, 0), false;
    var b := b0;
    var vals: seq<uint64> := [0, 0, 0, 0, 0, 0];
    for i := 0 to FIELDS
      invariant Consumed(b0, vals, i, b) && Tracks(b0, vals, i, b)
    {
      if !(Key(i) <= b) {
        forall e ensures b0 != Encode(e) { NoField(b0, vals, i, b, e); }
        return;
      }
      var v, n, parsed := ParseNumber(b[|Key(i)|..]);
      if !parsed {
        forall e ensures b0 != Encode(e) { NoField(b0, vals, i, b, e); }
        return;
      }
      FieldRead(b0, vals, i, b, v);
      FieldTracked(b0, vals, i, b, v);
      vals := vals[i := v];
      b := b[|Key(i)|..][n..];
    }
    if |b| != 1 || b[0] != CLOSE_BRACE || vals[4] >= U32 || vals[5] >= U8 {
      forall e ensures b0 != Encode(e) { BadEnd(b0, vals, b, e); }
      return;
    }
    ev, ok := OrderEvent(vals[0], vals[1], vals[2], vals[3], vals[4], vals[5]), true;
    GoodEnd(b0, vals, b, ev);
  }

  lemma {:induction false} BadEnd(whole: Bytes, vs: seq<uint64>, b: Bytes, e: OrderEvent)
    requires Tracks(whole, vs, FIELDS, b) && (b != [CLOSE_BRACE] || vs[4] >= U32 || vs[5] >= U8)
    ensures whole != Encode(e)
  {
    hide Key, Digits, StartsWith;
    assert Vals(e)[..FIELDS] == Vals(e) && vs[..FIELDS] == vs;
  }

  lemma {:induction false} GoodEnd(whole: Bytes, vs: seq<uint64>, b: Bytes, e: OrderEvent)
    requires Consumed(whole, vs, FIELDS, b) && b == [CLOSE_BRACE] && vs == Vals(e)
    ensures whole == Encode(e)
  {
    hide Key, Digits, StartsWith;
    assert b == EncodeFrom(vs, FIELDS);
  }

  /** Two events never share a record. */
  lemma {:induction false} EncodeInjective(e: OrderEvent, f: OrderEvent)
    requires Encode(e) == Encode(f)
    ensures e == f
  {
    SameFields(Vals(e), Vals(f), 0);
    assert forall i :: 0 <= i < FIELDS ==> Vals(e)[i] == Vals(f)[i];
    assert e.orderId == Vals(e)[0] == f.orderId && e.accountId == Vals(e)[1] == f.accountId
      && e.price == Vals(e)[2] == f.price;
    assert e.quantity == Vals(e)[3] == f.quantity && e.assetId == Vals(e)[4] == f.assetId
      && e.side == Vals(e)[5] == f.side;
  }

  lemma {:induction false} SameFields(vs: seq<uint64>, ws: seq<uint64>, i: nat)
    requires |vs| == FIELDS == |ws| && i <= FIELDS && EncodeFrom(vs, i) == EncodeFrom(ws, i)
    ensures forall k :: i <= k < FIELDS ==> vs[k] == ws[k]
    decreases FIELDS - i
  {
    hide Key, Digits, StartsWith;
    if i < FIELDS {
      FieldStarts(vs, i);
      FieldStarts(ws, i);
      SameNumber(EncodeFrom(vs, i)[|Key(i)|..], vs[i], ws[i]);
      SameFields(vs, ws, i + 1);
    }
  }

  lemma {:induction false} ForeignBytes(vs: seq<uint64>, i: nat, c: uint8)
    requires |vs| == FIELDS && i <= FIELDS && Foreign(c)
    ensures var b := EncodeFrom(vs, i);
            b != [] && b[|b| - 1] == CLOSE_BRACE && c !in b[..|b| - 1]
    decreases FIELDS - i
  {
    hide Key;
    if i < FIELDS {
      KeyPlain(i);
      ForeignBytes(vs, i + 1, c);
      ValueOfDigits(vs[i]);
      var b, rest := EncodeFrom(vs, i), EncodeFrom(vs, i + 1);
      assert b[..|b| - 1] == Key(i) + Digits(vs[i]) + rest[..|rest| - 1];
    }
  }

  /** A record has no newline in it, and its only closing brace is its last byte. */
  lemma {:induction false} RecordShape(e: OrderEvent)
    ensures Encode(e) != [] && NEWLINE !in Encode(e)
    ensures Encode(e)[|Encode(e)| - 1] == CLOSE_BRACE && CLOSE_BRACE !in Encode(e)[..|Encode(e)| - 1]
  {
    hide EncodeFrom;
    var b := Encode(e);
    ForeignBytes(Vals(e), 0, NEWLINE);
    ForeignBytes(Vals(e), 0, CLOSE_BRACE);
    assert b == b[..|b| - 1] + [CLOSE_BRACE];
  }

  /** A record cut short is not a record. */
  lemma {:induction false} CutRecord(e: OrderEvent, k: nat, f: OrderEvent)
    requires k < |Encode(e)|
    ensures Encode(e)[..k] != Encode(f)
  {
    RecordShape(e);
    RecordShape(f);
    hide Encode;
    var cut := Encode(e)[..k];
    assert k > 0 ==> cut[k - 1] == Encode(e)[..|Encode(e)| - 1][k - 1];
  }

  // --- The format, as text ---

  function Text(b: Bytes): (s: string)
    ensures |s| == |b|
  {
    seq(|b|, i requires 0 <= i < |b| => b[i] as char)
  }

  function Decimal(v: nat): string {
    if v < 10 then ["0123456789"[v]] else Decimal(v / 10) + ["0123456789"[v % 10]]
  }

  lemma {:induction false} TextConcat(a: Bytes, b: Bytes)
    ensures Text(a + b) == Text(a) + Text(b)
  {
  }

  lemma {:induction false} DigitText(v: nat)
    requires v < 10
    ensures (ZERO + v) as char == "0123456789"[v]
  {
    if v < 5 {
      assert v == 0 || v == 1 || v == 2 || v == 3 || v == 4;
    } else {
      assert v == 5 || v == 6 || v == 7 || v == 8 || v == 9;
    }
  }

  lemma {:induction false} DigitsText(v: nat)
    ensures Text(Digits(v)) == Decimal(v)
  {
    if v < 10 {
      DigitText(v);
    } else {
      DigitsText(v / 10);
      DigitText(v % 10);
      TextConcat(Digits(v / 10), [ZERO + v % 10]);
    }
  }

  lemma {:induction false} KeyIsText(i: nat)
    requires i < FIELDS
    ensures Text(Key(i)) == KeyText(i)
  {
    var s := KeyText(i);
    assert forall k :: 0 <= k < |s| ==> s[k] as int < U8;
    assert forall k :: 0 <= k < |s| ==> Key(i)[k] as char == s[k];
  }

  lemma {:induction false} FieldText(vs: seq<uint64>, i: nat)
    requires |vs| == FIELDS && i < FIELDS
    ensures Text(EncodeFrom(vs, i)) == KeyText(i) + Decimal(vs[i]) + Text(EncodeFrom(vs, i + 1))
  {
    hide Key, KeyText, Digits, Decimal, EncodeFrom, Text;
    FieldSplit(vs, i);
    KeyIsText(i);
    DigitsText(vs[i]);
    TextConcat(Key(i), Digits(vs[i]));
    TextConcat(Key(i) + Digits(vs[i]), EncodeFrom(vs, i + 1));
  }

  /** A record, letter by letter. */
  lemma {:induction false} RecordText(e: OrderEvent)
    ensures Text(Encode(e))
            == "{\"OrderID\":" + Decimal(e.orderId) + (",\"AccountID\":" + Decimal(e.accountId)
               + (",\"Price\":" + Decimal(e.price) + (",\"Quantity\":" + Decimal(e.quantity)
               + (",\"AssetID\":" + Decimal(e.assetId) + (",\"Side\":" + Decimal(e.side) + "}")))))
  {
    hide KeyText, Decimal, EncodeFrom, Text;
    var vs := Vals(e);
    KeyTexts();
    BraceText(vs);
    FieldText(vs, 0);
    FieldText(vs, 1);
    FieldText(vs, 2);
    FieldText(vs, 3);
    FieldText(vs, 4);
    FieldText(vs, 5);
  }

  lemma {:induction false} KeyTexts()
    ensures KeyText(0) == "{\"OrderID\":" && KeyText(1) == ",\"AccountID\":" && KeyText(2) == ",\"Price\":"
    ensures KeyText(3) == ",\"Quantity\":" && KeyText(4) == ",\"AssetID\":" && KeyText(5) == ",\"Side\":"
  {
  }

  lemma {:induction false} BraceText(vs: seq<uint64>)
    requires |vs| == FIELDS
    ensures Text(EncodeFrom(vs, 6)) == "}"
  {
  }
}
