/** Ownership of contexts and message buffers (src/include/protocol/abd/replica_context.h):
    who frees what when the continuations of one round run in any order. */
module ReplicaContexts {
  import opened Basics
  import opened Quorum

  /** A message buffer, named after the round and the node it was allocated for. */
  datatype Buf = Buf(round: nat, node: nat, resp: bool)

  /** The message buffers of one `erpc::Rpc`. Freeing a buffer that is not in use, twice for
      instance, violates the precondition of `Free`. */
  class Pool {
    var rounds: nat
    var live: set<Buf>

    ghost predicate Valid()
      reads this
    {
      forall b | b in live :: b.round < rounds
    }

    constructor ()
      ensures Valid() && live == {}
    {
      rounds, live := 0, {};
    }

    method Alloc(b: Buf)
      requires Valid() && b !in live && b.round < rounds
      modifies this`live
      ensures Valid() && live == old(live) + {b}
    {
      live := live + {b};
    }

    method Free(b: Buf)
      requires Valid() && b in live
      modifies this`live
      ensures Valid() && live == old(live) - {b}
    {
      live := live - {b};
    }
  }

  /** A `ReplicaContext` with its nodes. `nodes[i]` tells whether node `i` still holds its
      reference to the context, that is, whether its continuation has not run yet. */
  class ReplicaContext {
    const pool: Pool
    const id: nat
    var creator: bool
    var refs: nat
    var alive: bool
    var nMsgs: nat
    var nResp: nat
    var done: bool
    var cache: seq<Buf>
    var nodes: seq<bool>
    ghost var pending: set<nat>

    /** The buffers this context still has to free: all responses, which are either with
        their node or in the cache, and the requests of the outstanding nodes. */
    ghost predicate Owns(b: Buf)
      reads this
    {
      alive && b.round == id && b.node < |nodes| && (b.resp || nodes[b.node])
    }

    /** The cache holds the responses of the nodes whose continuation has run, each once. */
    ghost predicate CacheFits(nodes: seq<bool>)
      reads this
    {
      && (forall c | 0 <= c < |cache| ::
            cache[c].round == id && cache[c].node < |nodes| && cache[c].resp && !nodes[cache[c].node])
      && Distinct(cache)
      && (forall i | 0 <= i < |nodes| && !nodes[i] :: Buf(id, i, true) in cache)
    }

    ghost predicate InUse()
      reads this, pool
    {
      pool.Valid() && id < pool.rounds && forall b | Owns(b) :: b in pool.live
    }

    /** The context lives as long as its creator or a node refers to it. */
    ghost predicate Counts()
      reads this
    {
      && (forall i :: i in pending <==> 0 <= i < |nodes| && nodes[i])
      && nMsgs == |nodes| && nResp == |cache| && nResp + |pending| == nMsgs
      && refs == |pending| + (if creator then 1 else 0)
      && (alive <==> refs > 0)
      && (done <==> nResp >= 1 && GateOpen(nResp, nMsgs))
    }

    ghost predicate Valid()
      reads this, pool
    {
      CacheFits(nodes) && InUse() && Counts()
    }

    /** `ReplicaContext::create`. */
    constructor (pool: Pool)
      requires pool.Valid()
      modifies pool`rounds
      ensures this.pool == pool && Valid() && creator && nodes == [] && id == old(pool.rounds)
    {
      this.pool, this.id := pool, pool.rounds;
      creator, refs, alive, nMsgs, nResp, done, cache, nodes := true, 1, true, 0, 0, false, [], [];
      pending := {};
      new;
      pool.rounds := pool.rounds + 1;
    }

    /** The part of one request: a buffer for it, one for its response, and a reference. */
    method AddNode()
      requires pool.Valid() && id < pool.rounds && forall b | b in pool.live && b.round == id :: b.node < |nodes|
      modifies this`nodes, this`refs, pool`live
      ensures pool.Valid() && nodes == old(nodes) + [true] && refs == old(refs) + 1
      ensures pool.live == old(pool.live) + {Buf(id, |old(nodes)|, false), Buf(id, |old(nodes)|, true)}
    {
      pool.Alloc(Buf(id, |nodes|, false));
      pool.Alloc(Buf(id, |nodes|, true));
      nodes := nodes + [true];
      refs := refs + 1;
    }

    /** `create_buffers`: two buffers and one reference for every request. */
    method Send(n: nat)
      requires Valid() && creator && nodes == [] && forall b | b in pool.live :: b.round != id
      modifies this, pool`live
      ensures Valid() && creator && pending == UpTo(n) && nMsgs == n && nResp == 0
      ensures forall b :: b in pool.live <==> b in old(pool.live) || Owns(b)
    {
      nMsgs := n;
      for i := 0 to n
        invariant pool.Valid() && id < pool.rounds && |nodes| == i
        invariant creator && alive && refs == 1 + i && nMsgs == n && nResp == 0 && cache == [] && !done
        invariant forall j | 0 <= j < i :: nodes[j]
        invariant forall b :: b in pool.live <==> b in old(pool.live) || (b.round == id && b.node < i)
      {
        AddNode();
      }
      pending := UpTo(n);
      assert CacheFits(nodes) && Counts();
    }

    /** `~ReplicaContext`: the cached responses go back; the nodes hold nothing any more. */
    method Destroy()
      requires CacheFits(nodes) && InUse() && alive && forall i | 0 <= i < |nodes| :: !nodes[i]
      modifies this`alive, pool`live
      ensures pool.Valid() && !alive
      ensures forall b :: b in pool.live <==> b in old(pool.live) && !old(Owns(b))
    {
      for c := 0 to |cache|
        invariant pool.Valid() && alive
        invariant forall b :: b in pool.live <==> b in old(pool.live) && b !in cache[..c]
      {
        assert Owns(cache[c]);
        pool.Free(cache[c]);
      }
      alive := false;
    }

    /** The creator's reference goes out of scope. */
    method Release()
      requires Valid() && creator
      modifies this`creator, this`refs, this`alive, pool`live
      ensures Valid() && !creator
      ensures forall b :: b in pool.live <==> b in old(pool.live) && !(old(Owns(b)) && !Owns(b))
    {
      creator, refs := false, refs - 1;
      if refs == 0 {
        Destroy();
      }
    }

    /** `req_conts` on node `i`: the response moves to the cache, the gate decides whether the
        body runs (`go`), and when the node is removed its request is freed and its reference
        dropped, the last one taking the context with it. */
    method Continue(i: nat) returns (go: bool)
      requires Valid() && i in pending && !creator
      modifies this, pool`live
      ensures Valid() && !creator && nMsgs == old(nMsgs) && nResp == old(nResp) + 1
      ensures pending == old(pending) - {i}
      ensures go <==> done && !old(done)
      ensures alive <==> pending != {}
      ensures forall b | Owns(b) :: old(Owns(b))
      ensures forall b :: b in pool.live <==> b in old(pool.live) && !(old(Owns(b)) && !Owns(b))
    {
      go := Arrive(i);
      assert |pending - {i}| == |pending| - 1;
      assert refs == 1 ==> pending - {i} == {};
      Remove(i);
      pending := pending - {i};
    }

    /** `add_to_cache`, the count of responses and the gate. */
    method Arrive(i: nat) returns (go: bool)
      requires CacheFits(nodes) && i < |nodes| && nodes[i]
      requires nResp == |cache| && (done <==> nResp >= 1 && GateOpen(nResp, nMsgs))
      modifies this`cache, this`nResp, this`done
      ensures CacheFits(nodes[i := false]) && nResp == |cache| == old(nResp) + 1
      ensures done <==> nResp >= 1 && GateOpen(nResp, nMsgs)
      ensures go <==> done && !old(done)
    {
      cache := cache + [Buf(id, i, true)];
      nResp := nResp + 1;
      go := false;
      if !(2 * nResp + 1 < nMsgs) {
        go := !done;
        done := true;
      }
    }

    /** `NodeReplicaContext::remove` on a node whose response has been moved to the cache. */
    method Remove(i: nat)
      requires i < |nodes| && nodes[i] && InUse() && refs > 0 && alive
      requires refs == 1 ==> forall j | 0 <= j < |nodes| && j != i :: !nodes[j]
      requires CacheFits(nodes[i := false])
      modifies this`nodes, this`refs, this`alive, pool`live
      ensures nodes == old(nodes)[i := false] && refs == old(refs) - 1 && alive == (refs > 0) && InUse()
      ensures forall b :: b in pool.live <==> b in old(pool.live) && !(old(Owns(b)) && !Owns(b))
    {
      pool.Free(Buf(id, i, false));
      nodes := nodes[i := false];
      refs := refs - 1;
      if refs == 0 {
        Destroy();
      }
    }
  }

  /** `create_rep_context` and `send_and_encrypt_msg` in a caller that then returns. */
  method Open(pool: Pool, n: nat) returns (ctx: ReplicaContext)
    requires pool.Valid()
    modifies pool
    ensures fresh(ctx) && ctx.pool == pool && ctx.id == old(pool.rounds) && ctx.Valid() && !ctx.creator
    ensures ctx.pending == UpTo(n) && ctx.nMsgs == n && ctx.nResp == 0
    ensures forall b :: b in pool.live <==> b in old(pool.live) || ctx.Owns(b)
  {
    ctx := new ReplicaContext(pool);
    ctx.Send(n);
    ctx.Release();
  }

  /** The event loop runs the outstanding continuations in the given order; `bodies` counts
      the continuation bodies that run. */
  method RunAll(ctx: ReplicaContext, order: seq<nat>) returns (bodies: nat)
    requires ctx.Valid() && !ctx.creator
    requires forall i :: i in ctx.pending <==> i in order
    requires Distinct(order)
    modifies ctx, ctx.pool`live
    ensures ctx.Valid() && !ctx.alive && ctx.nMsgs == ctx.nResp == old(ctx.nMsgs)
    ensures bodies == if ctx.done && !old(ctx.done) then 1 else 0
    ensures forall b :: b in ctx.pool.live <==> b in old(ctx.pool.live) && !old(ctx.Owns(b))
    decreases |order|
  {
    bodies := 0;
    if order == [] {
      assert ctx.pending == {};
    } else {
      assert order[0] in order;
      var go := ctx.Continue(order[0]);
      var rest := RunAll(ctx, order[1..]);
      bodies := if go then rest + 1 else rest;
    }
  }

  /** One whole round: whatever the order of its continuations, the body runs exactly once,
      the context is gone after the last of them and not before, every buffer is freed once
      and none is left. */
  method Round(pool: Pool, n: nat, order: seq<nat>) returns (bodies: nat, ctx: ReplicaContext)
    requires pool.Valid() && n > 0
    requires forall i :: i in order <==> 0 <= i < n
    requires Distinct(order)
    modifies pool
    ensures bodies == 1 && !ctx.alive && ctx.nResp == n
    ensures pool.live == old(pool.live)
  {
    ctx := Open(pool, n);
    bodies := RunAll(ctx, order);
    assert forall b :: b in pool.live <==> b in old(pool.live);
  }
}
