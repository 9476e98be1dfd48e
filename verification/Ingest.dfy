/** The only way in: validation, deduplication by order_id, publication, confirmation. */
module Ingest {
  import opened Events

  const MAX_PRICE: uint64 := 1_000_000_000_000_000
  const MAX_QUANTITY: uint64 := 1_000_000_000

  datatype Verdict = Fine | BadOrderId | BadSide | BadPrice | BadQuantity

  /** Validate: the first rule that an order breaks. */
  function Validate(e: OrderEvent): (v: Verdict)
    ensures v.Fine? <==>
              e.orderId >= 1 && e.side <= SELL && 1 <= e.price <= MAX_PRICE && 1 <= e.quantity <= MAX_QUANTITY
  {
    if e.orderId == 0 then BadOrderId
    else if e.side != BUY && e.side != SELL then BadSide
    else if e.price == 0 || e.price > MAX_PRICE then BadPrice
    else if e.quantity == 0 || e.quantity > MAX_QUANTITY then BadQuantity
    else Fine
  }

  // --- The sharded set ---

  const SHARDS: nat := 64
  const MULTIPLIER: nat := 0x9E37_79B9_7F4A_7C15

  function Shard(id: uint64): (k: nat)
    ensures k < SHARDS
  {
    ((id * MULTIPLIER) % U64) / 0x0400_0000_0000_0000
  }

  /** Ids tend to be consecutive, and consecutive ids never wait for the same shard. */
  lemma {:induction false} NeighboursApart(id: uint64)
    requires id + 1 < U64
    ensures Shard(id) != Shard(id + 1)
  {
    var x := (id * MULTIPLIER) % U64;
    assert (id + 1) * MULTIPLIER == id * MULTIPLIER + MULTIPLIER;
    assert ((id + 1) * MULTIPLIER) % U64 == (if x + MULTIPLIER < U64 then x + MULTIPLIER else x + MULTIPLIER - U64) by {
      Shift(id * MULTIPLIER, MULTIPLIER);
    }
  }

  lemma {:induction false} Shift(a: nat, m: nat)
    requires m < U64
    ensures (a + m) % U64 == if a % U64 + m < U64 then a % U64 + m else a % U64 + m - U64
  {
  }

  /** Every id is in the shard it belongs to. */
  ghost predicate Placed(shards: seq<set<uint64>>) {
    |shards| == SHARDS && forall k, id :: 0 <= k < SHARDS && id in shards[k] ==> Shard(id) == k
  }

  /** The ids of the first n shards. */
  ghost function Union(shards: seq<set<uint64>>, n: nat): set<uint64>
    requires n <= |shards|
  {
    if n == 0 then {} else Union(shards, n - 1) + shards[n - 1]
  }

  lemma {:induction false} InUnion(shards: seq<set<uint64>>, n: nat, id: uint64)
    requires Placed(shards) && n <= SHARDS
    ensures id in Union(shards, n) <==> Shard(id) < n && id in shards[Shard(id)]
  {
    hide Shard;
    if n > 0 { InUnion(shards, n - 1, id); }
  }

  /** Changing one id's shard changes the whole set by that id. */
  lemma {:induction false} ShardChanged(shards: seq<set<uint64>>, shards': seq<set<uint64>>, id: uint64, add: bool)
    requires Placed(shards)
    requires shards' == shards[Shard(id) := if add then shards[Shard(id)] + {id} else shards[Shard(id)] - {id}]
    ensures Placed(shards')
    ensures Union(shards', SHARDS) == if add then Union(shards, SHARDS) + {id} else Union(shards, SHARDS) - {id}
  {
    hide Shard, Union;
    forall x ensures x in Union(shards', SHARDS) <==>
      if add then x in Union(shards, SHARDS) + {id} else x in Union(shards, SHARDS) - {id} {
      InUnion(shards, SHARDS, x);
      InUnion(shards', SHARDS, x);
    }
  }

  /** Shards do not overlap, so their sizes add up. */
  lemma {:induction false} UnionSize(shards: seq<set<uint64>>, n: nat)
    requires Placed(shards) && n < SHARDS
    ensures |Union(shards, n + 1)| == |Union(shards, n)| + |shards[n]|
  {
    hide Shard;
    forall x | x in Union(shards, n) ensures x !in shards[n] { InUnion(shards, n, x); }
    assert Union(shards, n) !! shards[n];
  }

  class IDSet {
    const shards: array<set<uint64>>

    ghost predicate Valid()
      reads this, shards
    {
      Placed(shards[..])
    }

    /** The set that the shards stand for. */
    ghost function Ids(): set<uint64>
      requires Valid()
      reads this, shards
    {
      Union(shards[..], SHARDS)
    }

    constructor ()
      ensures Valid() && fresh(shards) && Ids() == {}
    {
      shards := new set<uint64>[SHARDS];
      new;
      for k := 0 to SHARDS
        invariant shards.Length == SHARDS && fresh(shards)
        invariant forall i :: 0 <= i < k ==> shards[i] == {}
      {
        shards[k] := {};
      }
      forall id ensures id !in Union(shards[..], SHARDS) { InUnion(shards[..], SHARDS, id); }
    }

    method Register(id: uint64) returns (first: bool)
      requires Valid()
      modifies shards
      ensures Valid() && first == (id !in old(Ids())) && Ids() == old(Ids()) + {id}
    {
      hide Shard, Union;
      var k := Shard(id);
      InUnion(shards[..], SHARDS, id);
      first := id !in shards[k];
      ShardChanged(shards[..], shards[..][k := shards[k] + {id}], id, true);
      if !first {
        assert shards[k] + {id} == shards[k];
        assert shards[..][k := shards[k]] == shards[..];
        return;
      }
      shards[k] := shards[k] + {id};
    }

    method Forget(id: uint64)
      requires Valid()
      modifies shards
      ensures Valid() && Ids() == old(Ids()) - {id}
    {
      hide Shard, Union;
      var k := Shard(id);
      ShardChanged(shards[..], shards[..][k := shards[k] - {id}], id, false);
      shards[k] := shards[k] - {id};
    }

    method Len() returns (n: nat)
      requires Valid()
      ensures n == |Ids()|
    {
      n := 0;
      for k := 0 to SHARDS
        invariant n == |Union(shards[..], k)|
      {
        UnionSize(shards[..], k);
        n := n + |shards[k]|;
      }
    }
  }

  // --- Admission ---

  datatype Admission = Admitted(sn: nat) | Invalid | Duplicate | Unavailable

  /** What the ring answers to Publish. */
  datatype Published = Accepted(sn: nat) | Refused

  /** Admission as a function of the order, of whether its id is taken, and of the ring. */
  function Decide(e: OrderEvent, taken: bool, p: Published): Admission {
    if !Validate(e).Fine? then Invalid
    else if taken then Duplicate
    else if p.Accepted? then Admitted(p.sn)
    else Unavailable
  }

  /** The ring and the archive as callers see them. Whether the ring accepts, how far the journal
      gets while a caller waits, and whether the archive is open is up to the environment. */
  class Backend {
    var published: seq<OrderEvent>           // by ticket
    var released: nat                        // journalCursor
    var archived: seq<OrderEvent>

    predicate Valid()
      reads this
    {
      released <= |published|
    }

    constructor ()
      ensures Valid() && published == [] && archived == []
    {
      published, released, archived := [], 0, [];
    }

    method Publish(e: OrderEvent, accepts: bool) returns (p: Published)
      requires Valid()
      modifies this`published
      ensures Valid() && p == if accepts then Accepted(|old(published)|) else Refused
      ensures published == if accepts then old(published) + [e] else old(published)
    {
      if !accepts { return Refused; }
      p := Accepted(|published|);
      published := published + [e];
    }

    /** The journal moves on, and then WaitDurable returns: nil behind the cursor, else an error. */
    method WaitDurable(sn: nat, upTo: nat) returns (err: bool)
      requires Valid()
      modifies this`released
      ensures Valid() && old(released) <= released && (err <==> released <= sn)
    {
      if released < upTo <= |published| { released := upTo; }
      err := released <= sn;
    }

    method Push(e: OrderEvent, open: bool) returns (err: bool)
      modifies this`archived
      ensures err == !open && archived == if open then old(archived) + [e] else old(archived)
    {
      err := !open;
      if open { archived := archived + [e]; }
    }
  }

  class Ingress {
    const backend: Backend
    const ids: IDSet

    constructor (backend: Backend)
      ensures this.backend == backend && fresh(ids) && fresh(ids.shards) && ids.Valid() && ids.Ids() == {}
    {
      this.backend := backend;
      ids := new IDSet();
    }

    /** An order reaches the ring at most once for its id, and a refused one leaves no trace. */
    method Admit(e: OrderEvent, accepts: bool) returns (a: Admission)
      requires ids.Valid() && backend.Valid()
      modifies ids.shards, backend`published
      ensures ids.Valid() && backend.Valid()
      ensures a.Invalid? <==> e.orderId == 0 || (e.side != 0 && e.side != 1)
                              || e.price == 0 || e.price > 1_000_000_000_000_000
                              || e.quantity == 0 || e.quantity > 1_000_000_000
      ensures a.Duplicate? <==> !a.Invalid? && e.orderId in old(ids.Ids())
      ensures a.Unavailable? <==> !a.Invalid? && e.orderId !in old(ids.Ids()) && !accepts
      ensures a == Decide(e, e.orderId in old(ids.Ids()),
               if accepts then Accepted(|old(backend.published)|) else Refused)
      ensures a.Admitted? ==> e.orderId !in old(ids.Ids()) && ids.Ids() == old(ids.Ids()) + {e.orderId}
      ensures a.Admitted? ==> backend.published == old(backend.published) + [e]
      ensures !a.Admitted? ==> ids.Ids() == old(ids.Ids()) && backend.published == old(backend.published)
    {
      hide Union, Shard;
      if !Validate(e).Fine? { return Invalid; }
      var first := ids.Register(e.orderId);
      if !first { return Duplicate; }
      var p := backend.Publish(e, accepts);
      if p.Refused? {
        ids.Forget(e.orderId);
        return Unavailable;
      }
      a := Admitted(p.sn);
    }

    /** nil if and only if the journal has released the order's ticket; then, and only then, the order
        is offered to the archive, whose answer changes nothing. */
    method Confirm(e: OrderEvent, sn: nat, upTo: nat, archiveOpen: bool) returns (ok: bool)
      requires backend.Valid() && sn < |backend.published| && backend.published[sn] == e
      modifies backend`released, backend`archived
      ensures backend.Valid() && (ok <==> sn < backend.released) && old(backend.released) <= backend.released
      ensures ok ==> e in backend.published[..backend.released]
      ensures backend.archived == if ok && archiveOpen then old(backend.archived) + [e] else old(backend.archived)
    {
      var err := backend.WaitDurable(sn, upTo);
      if err { return false; }
      assert backend.published[..backend.released][sn] == e;
      err := backend.Push(e, archiveOpen);
      ok := true;
    }

    /** nil only for an order that is valid, was new, and is now in the released part of the journal. */
    method Submit(e: OrderEvent, accepts: bool, upTo: nat, archiveOpen: bool) returns (a: Admission, ok: bool)
      requires ids.Valid() && backend.Valid()
      modifies ids.shards, backend
      ensures ids.Valid() && backend.Valid()
      ensures a.Invalid? <==> e.orderId == 0 || (e.side != 0 && e.side != 1)
                              || e.price == 0 || e.price > 1_000_000_000_000_000
                              || e.quantity == 0 || e.quantity > 1_000_000_000
      ensures a.Duplicate? <==> !a.Invalid? && e.orderId in old(ids.Ids())
      ensures a.Unavailable? <==> !a.Invalid? && e.orderId !in old(ids.Ids()) && !accepts
      ensures a == Decide(e, e.orderId in old(ids.Ids()),
               if accepts then Accepted(|old(backend.published)|) else Refused)
      ensures ids.Ids() == old(ids.Ids()) + (if a.Admitted? then {e.orderId} else {})
      ensures backend.published == old(backend.published) + (if a.Admitted? then [e] else [])
      ensures ok <==> a.Admitted? && |old(backend.published)| < backend.released
      ensures ok ==> Validate(e).Fine? && e.orderId !in old(ids.Ids()) && e in backend.published[..backend.released]
      ensures backend.archived == old(backend.archived) + (if ok && archiveOpen then [e] else [])
    {
      a := Admit(e, accepts);
      ok := false;
      if a.Admitted? { ok := Confirm(e, a.sn, upTo, archiveOpen); }
    }
  }
}
