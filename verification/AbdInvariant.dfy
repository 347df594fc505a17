/** What every step of the protocol keeps: the shape of contexts, and how the clocks that
    contexts have seen relate to the clocks the stores hold. */
module AbdInvariant {
  import opened Basics
  import opened Lamports
  import opened Store
  import opened Quorum
  import opened Abd

  function ClockAt(s: State, r: ServerId, k: Key): Lamport
    requires r in s.servers
  {
    ClockOf(s.servers[r].table, k)
  }

  predicate IsQuery(kind: Kind) {
    kind.PutQuery? || kind.GetQuery?
  }

  predicate FitsKind(kind: Kind, r: Reply) {
    match kind
    case PutQuery => r.TimeStamp?
    case GetQuery => r.Versioned?
    case PutStore => r.Ack?
    case GetStore => r.Ack?
  }

  /** What a context looks like, whatever the stores hold: one slot for each other member of
      the group, the cache holding exactly the consumed replies, each remote once, and the
      `done` flag set exactly when the gate has opened. */
  ghost predicate Shape(cfg: Config, x: Ctx) {
    && x.coord in cfg.group(x.key)
    && x.slots.Keys == cfg.group(x.key) - {x.coord} != {}
    && x.nMsgs == |x.slots.Keys|
    && x.nResp == |x.cache| == |Froms(x.cache)|
    && (forall c | c in x.cache :: c.from in x.slots && x.slots[c.from].Consumed? && FitsKind(x.kind, c.reply))
    && (forall r | r in x.slots && x.slots[r].Consumed? :: r in Froms(x.cache))
    && (forall r | r in x.slots && x.slots[r].Answered? :: FitsKind(x.kind, x.slots[r].reply))
    && (x.done <==> x.nResp >= 1 && GateOpen(x.nResp, x.nMsgs))
  }

  /** The clocks of `base` are still reached by the stores, every reply of a query is at
      least as new as the store was at the start, and a store context's clock is held by
      every server that has answered, and by the coordinator of a put. */
  ghost predicate Held(s: State, x: Ctx) {
    && x.base.Keys == s.servers.Keys
    && x.coord in s.servers
    && x.slots.Keys <= s.servers.Keys
    && (forall r | r in s.servers :: Leq(x.base[r], ClockAt(s, r, x.key)))
    && (IsQuery(x.kind) ==>
         && (forall r | r in x.slots && x.slots[r].Answered? && !x.slots[r].reply.Ack? ::
               Leq(x.base[r], x.slots[r].reply.clock))
         && (forall c | c in x.cache && c.from in s.servers && !c.reply.Ack? :: Leq(x.base[c.from], c.reply.clock)))
    && (!IsQuery(x.kind) ==>
         forall r | r in x.slots && !x.slots[r].Requested? :: Leq(x.payload.clock, ClockAt(s, r, x.key)))
    && (x.kind.PutStore? ==> Leq(x.payload.clock, ClockAt(s, x.coord, x.key)))
    && (x.kind.PutQuery? && x.done ==> Leq(x.outcome.clock, ClockAt(s, x.coord, x.key)))
  }

  /** What the continuation decided when the gate opened. */
  ghost predicate Decided(cfg: Config, x: Ctx) {
    x.done && !x.kind.GetStore? ==>
      && Passing(x.outcome.quorum, cfg.group(x.key))
      && x.coord in x.outcome.quorum
      && (x.kind.PutQuery? ==>
           && x.outcome.clock == Lamport(Increment(x.outcome.seen), cfg.mid(x.coord))
           && forall r | r in x.outcome.quorum && r in x.base :: x.base[r].count <= x.outcome.seen)
      && (x.kind.GetQuery? ==>
           forall r | r in x.outcome.quorum && r in x.base :: Leq(x.base[r], x.outcome.clock))
      && (x.kind.PutStore? ==>
           forall r | r in x.outcome.quorum && r != x.coord :: r in x.slots && x.slots[r].Consumed?)
  }

  ghost predicate CtxOk(cfg: Config, s: State, x: Ctx) {
    Shape(cfg, x) && Held(s, x) && Decided(cfg, x)
  }

  ghost predicate Inv(cfg: Config, s: State) {
    && s.servers.Keys == cfg.servers
    && forall i | 0 <= i < |s.ctxs| :: CtxOk(cfg, s, s.ctxs[i])
  }

  /** No store ever goes back. */
  ghost predicate ClocksGrow(s: State, s': State) {
    && s.servers.Keys == s'.servers.Keys
    && forall r, k | r in s.servers :: Leq(ClockAt(s, r, k), ClockAt(s', r, k))
  }

  // ---------------------------------------------------------------- the folds

  /** The fold of GetTime yields the largest counter among the local one and all replies. */
  lemma {:induction false} MaxCountIsMax(init: U32, cache: seq<Cached>)
    ensures init <= MaxCount(init, cache)
    ensures forall c | c in cache && !c.reply.Ack? :: c.reply.clock.count <= MaxCount(init, cache)
    ensures MaxCount(init, cache) == init ||
            exists c :: c in cache && !c.reply.Ack? && c.reply.clock.count == MaxCount(init, cache)
  {
    if cache != [] {
      var rest := cache[..|cache| - 1];
      MaxCountIsMax(init, rest);
      assert cache == rest + [cache[|cache| - 1]];
      assert cache[|cache| - 1] in cache;
    }
  }

  /** The fold of RetValue yields the largest clock, together with an entry that carries it. */
  lemma {:induction false} NewestIsMax(local: Entry, k: Key, cache: seq<Cached>)
    ensures var b := Newest(local, k, cache);
      && b.clock == b.winner.clock
      && Leq(local.clock, b.clock)
      && (forall c | c in cache && c.reply.Versioned? :: Leq(c.reply.clock, b.clock))
      && (b.local ==> b.winner == local && b.span == local.value)
      && (!b.local ==> Less(local.clock, b.clock) && |b.span| == |k| + 8 &&
                       exists c :: c in cache && c.reply == Versioned(b.winner.clock, b.winner.value))
  {
    if cache != [] {
      var rest := cache[..|cache| - 1];
      var last := cache[|cache| - 1];
      NewestIsMax(local, k, rest);
      assert cache == rest + [last];
      assert last in cache;
    }
  }

  // ---------------------------------------------------------------- one context at a time

  lemma FromsAppend(cache: seq<Cached>, c: Cached)
    ensures Froms(cache + [c]) == Froms(cache) + {c.from}
  {
  }

  lemma HeldGrows(s: State, s': State, x: Ctx)
    requires Held(s, x) && ClocksGrow(s, s')
    ensures Held(s', x)
  {
  }

  lemma NewCtxOk(cfg: Config, s: State, s': State, kind: Kind, coord: ServerId, k: Key, e: Entry, op: CtxId)
    requires ValidConfig(cfg) && s.servers.Keys == cfg.servers && coord in cfg.servers
    requires cfg.remotes(coord, k) != {}
    requires ClocksGrow(s, s')
    requires kind.PutStore? ==> Leq(e.clock, ClockAt(s', coord, k))
    ensures CtxOk(cfg, s', NewCtx(cfg, s, kind, coord, k, e, op))
  {
  }

  lemma HandledGrows(s: State, i: CtxId, r: ServerId)
    requires i < |s.ctxs| && r in s.servers
    ensures ClocksGrow(s, Handled(s, i, r))
  {
  }

  function WithReply(x: Ctx, r: ServerId, reply: Reply): Ctx {
    x.(slots := x.slots[r := Answered(reply)])
  }

  lemma AnsweredShape(cfg: Config, x: Ctx, r: ServerId, reply: Reply)
    requires Shape(cfg, x) && r in x.slots && x.slots[r].Requested? && FitsKind(x.kind, reply)
    ensures Shape(cfg, WithReply(x, r, reply))
  {
  }

  lemma AnsweredHeld(s: State, x: Ctx, r: ServerId, reply: Reply)
    requires Held(s, x) && r in x.slots
    requires IsQuery(x.kind) && !reply.Ack? ==> Leq(x.base[r], reply.clock)
    requires !IsQuery(x.kind) ==> Leq(x.payload.clock, ClockAt(s, r, x.key))
    ensures Held(s, WithReply(x, r, reply))
  {
  }

  lemma AnsweredDecided(cfg: Config, x: Ctx, r: ServerId, reply: Reply)
    requires Decided(cfg, x) && r in x.slots && x.slots[r].Requested?
    ensures Decided(cfg, WithReply(x, r, reply))
  {
  }

  lemma HandledOk(cfg: Config, s: State, i: CtxId, r: ServerId)
    requires Inv(cfg, s) && Enabled(cfg, s, Handle(i, r))
    ensures CtxOk(cfg, Handled(s, i, r), Handled(s, i, r).ctxs[i])
  {
    hide Shape, Decided, Froms, PutNewer;
    var x := s.ctxs[i];
    var s' := Handled(s, i, r);
    var reply := ServeReply(s.servers[r].table, x.kind, x.key);
    assert s'.ctxs[i] == WithReply(x, r, reply);
    assert CtxOk(cfg, s, x);
    AnsweredShape(cfg, x, r, reply);
    AnsweredDecided(cfg, x, r, reply);
    HandledGrows(s, i, r);
    HeldGrows(s, s', x);
    assert Leq(x.base[r], ClockAt(s, r, x.key));
    PutNewerClock(s.servers[r].table, x.key, x.payload, x.key);
    AnsweredHeld(s', x, r, reply);
  }

  lemma FromsSlots(cfg: Config, x: Ctx, r: ServerId)
    requires Shape(cfg, x) && r in Froms(x.cache)
    ensures r in x.slots && x.slots[r].Consumed?
  {
  }

  lemma ArrivedShape(cfg: Config, x: Ctx, r: ServerId)
    requires Shape(cfg, x) && r in x.slots && x.slots[r].Answered?
    ensures var x' := Arrived(x, r);
      Shape(cfg, x'.(done := x.done || GateOpen(x'.nResp, x'.nMsgs)))
  {
    hide Froms;
    var x' := Arrived(x, r);
    FromsAppend(x.cache, Cached(r, x.slots[r].reply));
    if r in Froms(x.cache) {
      FromsSlots(cfg, x, r);
    }
    assert x'.slots.Keys == x.slots.Keys;
  }

  lemma ArrivedHeld(s: State, x: Ctx, r: ServerId)
    requires Held(s, x) && r in x.slots && x.slots[r].Answered?
    ensures Held(s, Arrived(x, r))
  {
  }

  /** The servers heard when the gate opens pass it. */
  lemma QuorumPasses(cfg: Config, x: Ctx)
    requires Shape(cfg, x) && x.done
    ensures Passing(Froms(x.cache) + {x.coord}, cfg.group(x.key))
  {
    var q := Froms(x.cache);
    assert x.coord !in q;
    UnionSize(q, {x.coord});
    UnionSize(x.slots.Keys, {x.coord});
    assert x.slots.Keys + {x.coord} == cfg.group(x.key);
  }

  // ---------------------------------------------------------------- one step at a time

  lemma GetTimeGrows(cfg: Config, s: State, i: CtxId)
    requires i < |s.ctxs| && s.ctxs[i].coord in s.servers
    ensures ClocksGrow(s, GetTime(cfg, s, i))
  {
  }

  /** When the gate of a put's query opens, the counter it found covers the start clock of
      every server it heard, itself included. */
  lemma GetTimeDecides(cfg: Config, s: State, i: CtxId)
    requires i < |s.ctxs| && s.ctxs[i].kind.PutQuery? && s.ctxs[i].done
    requires Shape(cfg, s.ctxs[i]) && Held(s, s.ctxs[i].(done := false))
    ensures Decided(cfg, GetTime(cfg, s, i).ctxs[i])
  {
    hide MaxCount, NewCtx, PutNewer;
    var x := s.ctxs[i];
    var x' := GetTime(cfg, s, i).ctxs[i];
    QuorumPasses(cfg, x);
    MaxCountIsMax(ClockAt(s, x.coord, x.key).count, x.cache);
    forall r | r in x'.outcome.quorum && r in x.base
      ensures x.base[r].count <= x'.outcome.seen
    {
      if r == x.coord {
        assert Leq(x.base[r], ClockAt(s, r, x.key));
      } else {
        var c :| c in x.cache && c.from == r;
        assert Leq(x.base[c.from], c.reply.clock);
      }
    }
  }

  lemma RetValueDecides(cfg: Config, s: State, i: CtxId)
    requires i < |s.ctxs| && s.ctxs[i].kind.GetQuery? && s.ctxs[i].done
    requires Shape(cfg, s.ctxs[i]) && Held(s, s.ctxs[i])
    ensures Decided(cfg, RetValue(cfg, s, i).ctxs[i])
  {
    hide Newest, Consensus, NewCtx;
    var x := s.ctxs[i];
    var x' := RetValue(cfg, s, i).ctxs[i];
    QuorumPasses(cfg, x);
    NewestIsMax(Lookup(s.servers[x.coord].table, x.key), x.key, x.cache);
    forall r | r in x'.outcome.quorum && r in x.base
      ensures Leq(x.base[r], x'.outcome.clock)
    {
      if r == x.coord {
        assert Leq(x.base[r], ClockAt(s, r, x.key));
      } else {
        var c :| c in x.cache && c.from == r;
        assert Leq(x.base[c.from], c.reply.clock);
      }
    }
  }

  lemma AckDecides(cfg: Config, s: State, i: CtxId)
    requires i < |s.ctxs| && s.ctxs[i].kind.PutStore? && s.ctxs[i].done
    requires Shape(cfg, s.ctxs[i]) && Held(s, s.ctxs[i])
    ensures Decided(cfg, AckPutTime(s, i).ctxs[i])
  {
  }

  /** The other contexts survive whatever happens to the stores and to context `i`. */
  lemma Compose(cfg: Config, s: State, s': State, i: CtxId)
    requires Inv(cfg, s) && ClocksGrow(s, s')
    requires i < |s.ctxs| <= |s'.ctxs| <= |s.ctxs| + 1
    requires forall j | 0 <= j < |s.ctxs| && j != i :: s'.ctxs[j] == s.ctxs[j]
    requires CtxOk(cfg, s', s'.ctxs[i])
    requires |s'.ctxs| > |s.ctxs| ==> CtxOk(cfg, s', s'.ctxs[|s.ctxs|])
    ensures Inv(cfg, s')
  {
    hide CtxOk;
    forall j | 0 <= j < |s'.ctxs|
      ensures CtxOk(cfg, s', s'.ctxs[j])
    {
      if j < |s.ctxs| && j != i {
        OtherOk(cfg, s, s', s.ctxs[j]);
      }
    }
  }

  lemma OtherOk(cfg: Config, s: State, s': State, x: Ctx)
    requires CtxOk(cfg, s, x) && ClocksGrow(s, s')
    ensures CtxOk(cfg, s', x)
  {
    hide Shape, Held, Decided, ClocksGrow;
    HeldGrows(s, s', x);
  }

  lemma StartInv(cfg: Config, s: State, id: ServerId, kind: Kind, k: Key, e: Entry)
    requires ValidConfig(cfg) && Inv(cfg, s) && id in s.servers && IsQuery(kind)
    ensures ClocksGrow(s, Start(cfg, s, id, kind, k, e))
    ensures Inv(cfg, Start(cfg, s, id, kind, k, e))
  {
    hide CtxOk;
    var s' := Start(cfg, s, id, kind, k, e);
    forall j | 0 <= j < |s'.ctxs|
      ensures CtxOk(cfg, s', s'.ctxs[j])
    {
      if j < |s.ctxs| {
        OtherOk(cfg, s, s', s.ctxs[j]);
      } else {
        NewCtxOk(cfg, s, s', kind, id, k, e, |s.ctxs|);
      }
    }
  }

  lemma HandleInv(cfg: Config, s: State, i: CtxId, r: ServerId)
    requires Inv(cfg, s) && Enabled(cfg, s, Handle(i, r))
    ensures Inv(cfg, Handled(s, i, r))
  {
    hide CtxOk, ServeTable, ServeReply;
    HandledGrows(s, i, r);
    HandledOk(cfg, s, i, r);
    Compose(cfg, s, Handled(s, i, r), i);
  }

  /** The state in which a continuation body runs: the reply is cached and counted. */
  function Opened(s: State, i: CtxId, r: ServerId): State
    requires i < |s.ctxs| && r in s.ctxs[i].slots && s.ctxs[i].slots[r].Answered?
  {
    s.(ctxs := s.ctxs[i := Arrived(s.ctxs[i], r).(done := true)])
  }

  lemma WaitInv(cfg: Config, s: State, i: CtxId, r: ServerId)
    requires Inv(cfg, s) && Enabled(cfg, s, Continue(i, r))
    requires var x := Arrived(s.ctxs[i], r); !GateOpen(x.nResp, x.nMsgs) || x.done
    ensures ClocksGrow(s, Continued(cfg, s, i, r))
    ensures Inv(cfg, Continued(cfg, s, i, r))
  {
    hide Shape, Held;
    var x := Arrived(s.ctxs[i], r);
    var s' := Continued(cfg, s, i, r);
    ArrivedShape(cfg, s.ctxs[i], r);
    assert x == x.(done := s.ctxs[i].done || GateOpen(x.nResp, x.nMsgs));
    ArrivedHeld(s, s.ctxs[i], r);
    HeldGrows(s, s', x);
    assert Decided(cfg, x);
    Compose(cfg, s, s', i);
  }

  /** What the continuation body may rely on. */
  lemma OpenedOk(cfg: Config, s: State, i: CtxId, r: ServerId)
    requires Inv(cfg, s) && Enabled(cfg, s, Continue(i, r))
    requires var x := Arrived(s.ctxs[i], r); GateOpen(x.nResp, x.nMsgs) && !x.done
    ensures var x := Opened(s, i, r).ctxs[i]; Shape(cfg, x) && Held(Opened(s, i, r), x.(done := false))
    ensures s.servers == Opened(s, i, r).servers
    ensures s.ctxs[i].coord in cfg.servers && s.ctxs[i].slots.Keys == cfg.group(s.ctxs[i].key) - {s.ctxs[i].coord} != {}
  {
    ArrivedShape(cfg, s.ctxs[i], r);
    ArrivedHeld(s, s.ctxs[i], r);
    assert Arrived(s.ctxs[i], r) == Opened(s, i, r).ctxs[i].(done := false);
  }

  lemma GetTimeCtxOk(cfg: Config, s: State, i: CtxId)
    requires i < |s.ctxs| && s.ctxs[i].kind.PutQuery? && s.ctxs[i].done
    requires Shape(cfg, s.ctxs[i]) && Held(s, s.ctxs[i].(done := false))
    ensures CtxOk(cfg, GetTime(cfg, s, i), GetTime(cfg, s, i).ctxs[i])
  {
    var x := s.ctxs[i];
    var s' := GetTime(cfg, s, i);
    GetTimeDecides(cfg, s, i);
    GetTimeGrows(cfg, s, i);
    HeldGrows(s, s', x.(done := false));
    PutNewerClock(s.servers[x.coord].table, x.key, s'.ctxs[i].outcome.winner, x.key);
  }

  lemma GetTimeNewOk(cfg: Config, s: State, i: CtxId)
    requires ValidConfig(cfg) && s.servers.Keys == cfg.servers && i < |s.ctxs| && s.ctxs[i].coord in s.servers
    requires cfg.remotes(s.ctxs[i].coord, s.ctxs[i].key) != {}
    ensures CtxOk(cfg, GetTime(cfg, s, i), GetTime(cfg, s, i).ctxs[|s.ctxs|])
  {
    hide CtxOk, MaxCount, Froms, PutNewer, Clocks;
    var x := s.ctxs[i];
    var s' := GetTime(cfg, s, i);
    var e := s'.ctxs[i].outcome.winner;
    GetTimeGrows(cfg, s, i);
    PutNewerClock(s.servers[x.coord].table, x.key, e, x.key);
    NewCtxOk(cfg, s, s', PutStore, x.coord, x.key, e, i);
  }

  lemma GetTimeInv(cfg: Config, s: State, i: CtxId, r: ServerId)
    requires ValidConfig(cfg) && Inv(cfg, s) && Enabled(cfg, s, Continue(i, r))
    requires var x := Arrived(s.ctxs[i], r); GateOpen(x.nResp, x.nMsgs) && !x.done && x.kind.PutQuery?
    ensures ClocksGrow(s, GetTime(cfg, Opened(s, i, r), i))
    ensures Inv(cfg, GetTime(cfg, Opened(s, i, r), i))
  {
    hide CtxOk, Shape, Held, MaxCount, Froms, PutNewer, NewCtx, ClockOf;
    var s1 := Opened(s, i, r);
    OpenedOk(cfg, s, i, r);
    GetTimeGrows(cfg, s1, i);
    GetTimeCtxOk(cfg, s1, i);
    GetTimeNewOk(cfg, s1, i);
    Compose(cfg, s, GetTime(cfg, s1, i), i);
  }

  lemma AckCtxOk(cfg: Config, s: State, i: CtxId)
    requires i < |s.ctxs| && s.ctxs[i].kind.PutStore? && s.ctxs[i].done
    requires Shape(cfg, s.ctxs[i]) && Held(s, s.ctxs[i])
    ensures CtxOk(cfg, AckPutTime(s, i), AckPutTime(s, i).ctxs[i])
  {
    AckDecides(cfg, s, i);
    HeldGrows(s, AckPutTime(s, i), s.ctxs[i]);
  }

  lemma AckGrows(s: State, i: CtxId)
    requires i < |s.ctxs| && s.ctxs[i].coord in s.servers
    ensures ClocksGrow(s, AckPutTime(s, i))
  {
  }

  lemma AckInv(cfg: Config, s: State, i: CtxId, r: ServerId)
    requires Inv(cfg, s) && Enabled(cfg, s, Continue(i, r))
    requires var x := Arrived(s.ctxs[i], r); GateOpen(x.nResp, x.nMsgs) && !x.done && x.kind.PutStore?
    ensures ClocksGrow(s, AckPutTime(Opened(s, i, r), i))
    ensures Inv(cfg, AckPutTime(Opened(s, i, r), i))
  {
    hide CtxOk, Shape, Held;
    var s1 := Opened(s, i, r);
    OpenedOk(cfg, s, i, r);
    HeldOpened(s1, s1.ctxs[i]);
    AckCtxOk(cfg, s1, i);
    AckGrows(s1, i);
    Compose(cfg, s, AckPutTime(s1, i), i);
  }

  lemma HeldOpened(s: State, x: Ctx)
    requires Held(s, x.(done := false)) && !x.kind.PutQuery?
    ensures Held(s, x)
  {
  }

  lemma OutcomeFree(cfg: Config, s: State, x: Ctx, o: Outcome)
    requires Shape(cfg, x) && Held(s, x) && !x.kind.PutQuery?
    ensures Shape(cfg, x.(outcome := o)) && Held(s, x.(outcome := o))
  {
  }

  lemma RetValueCtxOk(cfg: Config, s: State, i: CtxId)
    requires i < |s.ctxs| && s.ctxs[i].kind.GetQuery? && s.ctxs[i].done
    requires Shape(cfg, s.ctxs[i]) && Held(s, s.ctxs[i])
    ensures ClocksGrow(s, RetValue(cfg, s, i))
    ensures CtxOk(cfg, RetValue(cfg, s, i), RetValue(cfg, s, i).ctxs[i])
  {
    hide Newest, Consensus, NewCtx, Decided, Shape, Froms;
    var s' := RetValue(cfg, s, i);
    RetValueDecides(cfg, s, i);
    HeldGrows(s, s', s.ctxs[i]);
    OutcomeFree(cfg, s', s.ctxs[i], s'.ctxs[i].outcome);
  }

  lemma RetValueNewOk(cfg: Config, s: State, i: CtxId)
    requires ValidConfig(cfg) && s.servers.Keys == cfg.servers && i < |s.ctxs| && s.ctxs[i].coord in s.servers
    requires cfg.remotes(s.ctxs[i].coord, s.ctxs[i].key) != {}
    ensures var s' := RetValue(cfg, s, i);
      |s'.ctxs| > |s.ctxs| ==> |s'.ctxs| == |s.ctxs| + 1 && CtxOk(cfg, s', s'.ctxs[|s.ctxs|])
  {
  }

  lemma RetValueInv(cfg: Config, s: State, i: CtxId, r: ServerId)
    requires ValidConfig(cfg) && Inv(cfg, s) && Enabled(cfg, s, Continue(i, r))
    requires var x := Arrived(s.ctxs[i], r); GateOpen(x.nResp, x.nMsgs) && !x.done && x.kind.GetQuery?
    ensures ClocksGrow(s, RetValue(cfg, Opened(s, i, r), i))
    ensures Inv(cfg, RetValue(cfg, Opened(s, i, r), i))
  {
    hide CtxOk, Shape, Held, Newest, Froms, Consensus, NewCtx, ClockOf;
    var s1 := Opened(s, i, r);
    OpenedOk(cfg, s, i, r);
    HeldOpened(s1, s1.ctxs[i]);
    RetValueCtxOk(cfg, s1, i);
    RetValueNewOk(cfg, s1, i);
    Compose(cfg, s, RetValue(cfg, s1, i), i);
  }

  lemma GetStoreInv(cfg: Config, s: State, i: CtxId, r: ServerId)
    requires Inv(cfg, s) && Enabled(cfg, s, Continue(i, r))
    requires var x := Arrived(s.ctxs[i], r); GateOpen(x.nResp, x.nMsgs) && !x.done && x.kind.GetStore?
    ensures ClocksGrow(s, Opened(s, i, r))
    ensures Inv(cfg, Opened(s, i, r))
  {
    hide Shape, Held;
    var s' := Opened(s, i, r);
    OpenedOk(cfg, s, i, r);
    HeldOpened(s', s'.ctxs[i]);
    Compose(cfg, s, s', i);
  }

  /** Every step keeps the invariant and lowers no clock in any store. */
  lemma StepInv(cfg: Config, s: State, step: Step)
    requires ValidConfig(cfg) && Inv(cfg, s) && Enabled(cfg, s, step)
    ensures ClocksGrow(s, Apply(cfg, s, step))
    ensures Inv(cfg, Apply(cfg, s, step))
  {
    match step
    case StartPut(id, k, v) => StartInv(cfg, s, id, PutQuery, k, Entry(MIN, v));
    case StartGet(id, k) => StartInv(cfg, s, id, GetQuery, k, Entry(MIN, []));
    case Handle(i, r) => HandledGrows(s, i, r); HandleInv(cfg, s, i, r);
    case Continue(i, r) =>
      var x := Arrived(s.ctxs[i], r);
      if !GateOpen(x.nResp, x.nMsgs) || x.done {
        WaitInv(cfg, s, i, r);
      } else {
        assert Continued(cfg, s, i, r) == Fire(cfg, Opened(s, i, r), i);
        match x.kind
        case PutQuery => GetTimeInv(cfg, s, i, r);
        case PutStore => AckInv(cfg, s, i, r);
        case GetQuery => RetValueInv(cfg, s, i, r);
        case GetStore => GetStoreInv(cfg, s, i, r);
      }
  }

  lemma PickStep(cfg: Config, run: seq<State>, n: nat) returns (step: Step)
    requires IsRun(cfg, run) && 0 < n < |run|
    ensures Enabled(cfg, run[n - 1], step) && run[n] == Apply(cfg, run[n - 1], step)
  {
    assert Next(cfg, run[n - 1], run[n]);
    step :| Enabled(cfg, run[n - 1], step) && run[n] == Apply(cfg, run[n - 1], step);
  }

  lemma {:induction false} RunInv(cfg: Config, run: seq<State>, n: nat)
    requires ValidConfig(cfg) && IsRun(cfg, run) && n < |run|
    ensures Inv(cfg, run[n])
  {
    if n > 0 {
      RunInv(cfg, run, n - 1);
      var step := PickStep(cfg, run, n);
      StepInv(cfg, run[n - 1], step);
    }
  }

  lemma StepGrows(cfg: Config, run: seq<State>, n: nat)
    requires ValidConfig(cfg) && IsRun(cfg, run) && 0 < n < |run|
    ensures ClocksGrow(run[n - 1], run[n])
  {
    hide Inv, ClocksGrow, IsRun, ValidConfig, Apply, Enabled;
    RunInv(cfg, run, n - 1);
    var step := PickStep(cfg, run, n);
    StepInv(cfg, run[n - 1], step);
  }

  lemma GrowsTransitive(a: State, b: State, c: State)
    requires ClocksGrow(a, b) && ClocksGrow(b, c)
    ensures ClocksGrow(a, c)
  {
  }

  lemma {:induction false} RunGrows(cfg: Config, run: seq<State>, i: nat, j: nat)
    requires ValidConfig(cfg) && IsRun(cfg, run) && i <= j < |run|
    ensures ClocksGrow(run[i], run[j])
  {
    if i < j {
      RunGrows(cfg, run, i, j - 1);
      StepGrows(cfg, run, j);
      GrowsTransitive(run[i], run[j - 1], run[j]);
    }
  }
}
