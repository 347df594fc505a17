/** Counters and uniqueness over all runs: a clock's counter is at most the number of clocks
    created for its key, so the 32-bit increment cannot wrap before 2^32 puts on the key, and
    until then no clock is created twice. */
module AbdUniqueness {
  import opened Basics
  import opened Lamports
  import opened Store
  import opened Quorum
  import opened Abd
  import opened AbdInvariant
  import opened AbdRegularity
  import opened AbdHistory
  import opened AbdProvenance

  function Issues(k: Key): Ctx -> bool {
    (x: Ctx) => x.kind.PutQuery? && x.done && x.key == k
  }

  /** The number of GetTime continuations that have run for the key. */
  function Issued(s: State, k: Key): nat {
    Count(s.ctxs, Issues(k))
  }

  ghost predicate CountBound(s: State) {
    forall j | 0 <= j < |s.ctxs| && s.ctxs[j].kind.PutQuery? && s.ctxs[j].done ::
      && s.ctxs[j].outcome.seen < Issued(s, s.ctxs[j].key)
      && s.ctxs[j].outcome.clock.count <= Issued(s, s.ctxs[j].key)
  }

  /** With distinct machine ids, two puts on a key have different clocks unless more than
      2^32 clocks were created. */
  ghost predicate Unique(cfg: Config, s: State) {
    forall i, j | 0 <= i < j < |s.ctxs| && s.ctxs[i].kind.PutQuery? && s.ctxs[i].done
                  && s.ctxs[j].kind.PutQuery? && s.ctxs[j].done && s.ctxs[i].key == s.ctxs[j].key
                  && DistinctIds(cfg, s.ctxs[i].key) && Issued(s, s.ctxs[i].key) <= TWO32 ::
      s.ctxs[i].outcome.clock != s.ctxs[j].outcome.clock
  }

  lemma KnownCountBound(s: State, k: Key, c: Lamport)
    requires CountBound(s) && ClockKnown(s, k, c)
    ensures c.count <= Issued(s, k)
  {
  }

  /** The largest counter a put finds is at most the number of clocks created before. */
  lemma SeenBound(s: State, k: Key, local: Lamport, cache: seq<Cached>)
    requires CountBound(s) && ClockKnown(s, k, local)
    requires forall c | c in cache :: ReplyKnown(s, k, c.reply)
    ensures MaxCount(local.count, cache) <= Issued(s, k)
  {
    MaxCountIsMax(local.count, cache);
    KnownCountBound(s, k, local);
    if MaxCount(local.count, cache) != local.count {
      var c :| c in cache && !c.reply.Ack? && c.reply.clock.count == MaxCount(local.count, cache);
      assert ReplyKnown(s, k, c.reply);
      if c.reply.Versioned? {
        KnownClock(s, k, Entry(c.reply.clock, c.reply.value));
      }
      KnownCountBound(s, k, c.reply.clock);
    }
  }

  // ---------------------------------------------------------------- steps that create no clock

  /** A step that opens no put query leaves the creators alone. */
  ghost predicate SameCreators(s: State, s': State) {
    && |s.ctxs| <= |s'.ctxs|
    && (forall i, k | 0 <= i < |s.ctxs| :: Issues(k)(s.ctxs[i]) == Issues(k)(s'.ctxs[i]))
    && (forall i, k | |s.ctxs| <= i < |s'.ctxs| :: !Issues(k)(s'.ctxs[i]))
    && (forall i | 0 <= i < |s.ctxs| :: Persists(s.ctxs[i], s'.ctxs[i]))
  }

  lemma {:induction false} SameCount(xs: seq<Ctx>, ys: seq<Ctx>, p: Ctx -> bool)
    requires |xs| <= |ys|
    requires forall i | 0 <= i < |xs| :: p(xs[i]) == p(ys[i])
    requires forall i | |xs| <= i < |ys| :: !p(ys[i])
    ensures Count(xs, p) == Count(ys, p)
    decreases |ys|
  {
    if |ys| > |xs| {
      SameCount(xs, ys[..|ys| - 1], p);
    } else if |ys| > 0 {
      SameCount(xs[..|xs| - 1], ys[..|ys| - 1], p);
    }
  }

  lemma SameCreatorsKeep(cfg: Config, s: State, s': State)
    requires SameCreators(s, s') && CountBound(s) && Unique(cfg, s)
    ensures CountBound(s') && Unique(cfg, s')
  {
    forall k
      ensures Issued(s', k) == Issued(s, k)
    {
      SameCount(s.ctxs, s'.ctxs, Issues(k));
    }
    forall j | 0 <= j < |s'.ctxs| && s'.ctxs[j].kind.PutQuery? && s'.ctxs[j].done
      ensures j < |s.ctxs| && s.ctxs[j].kind.PutQuery? && s.ctxs[j].done
      ensures s.ctxs[j].key == s'.ctxs[j].key && s.ctxs[j].outcome == s'.ctxs[j].outcome
    {
      var k := s'.ctxs[j].key;
      assert Issues(k)(s'.ctxs[j]);
      if j < |s.ctxs| {
        assert Issues(k)(s.ctxs[j]);
        assert Persists(s.ctxs[j], s'.ctxs[j]);
      }
    }
  }

  // ---------------------------------------------------------------- the step that creates one

  lemma IssuedGetTime(cfg: Config, s: State, i: CtxId, r: ServerId, k: Key)
    requires Enabled(cfg, s, Continue(i, r)) && s.ctxs[i].kind.PutQuery? && !s.ctxs[i].done
    ensures var s' := GetTime(cfg, Opened(s, i, r), i);
      Issued(s', k) == Issued(s, k) + Bit(s.ctxs[i].key == k)
  {
    hide Count, MaxCount, PutNewer;
    var s' := GetTime(cfg, Opened(s, i, r), i);
    CountUpdate(s.ctxs, i, s'.ctxs[i], Issues(k));
    assert s'.ctxs == s.ctxs[i := s'.ctxs[i]] + [s'.ctxs[|s.ctxs|]];
    CountAppend(s.ctxs[i := s'.ctxs[i]], s'.ctxs[|s.ctxs|], Issues(k));
  }

  /** The counter that the continuation finds when the reply of `r` opens the gate. */
  function SeenAt(s: State, i: CtxId, r: ServerId): U32
    requires i < |s.ctxs| && r in s.ctxs[i].slots && s.ctxs[i].slots[r].Answered? && s.ctxs[i].coord in s.servers
  {
    MaxCount(ClockAt(s, s.ctxs[i].coord, s.ctxs[i].key).count, Arrived(s.ctxs[i], r).cache)
  }

  lemma SeenAtBounds(cfg: Config, s: State, i: CtxId, r: ServerId)
    requires Sourced(s) && CountBound(s) && Enabled(cfg, s, Continue(i, r))
    ensures ClockAt(s, s.ctxs[i].coord, s.ctxs[i].key).count <= SeenAt(s, i, r) <= Issued(s, s.ctxs[i].key)
  {
    hide Count, ReplyKnown, ClockKnown, CountBound;
    var x := Arrived(s.ctxs[i], r);
    SourcedArrived(s, s.ctxs[i], r);
    LookupKnown(s, x.coord, x.key);
    SeenBound(s, x.key, ClockAt(s, x.coord, x.key), x.cache);
    MaxCountIsMax(ClockAt(s, x.coord, x.key).count, x.cache);
  }

  /** A put's clock carries its coordinator's id and is covered by the coordinator's store. */
  lemma CreatorFacts(cfg: Config, s: State, j: CtxId)
    requires Inv(cfg, s) && j < |s.ctxs| && s.ctxs[j].kind.PutQuery? && s.ctxs[j].done
    ensures var x := s.ctxs[j];
      && x.coord in s.servers && x.outcome.clock == Lamport(Increment(x.outcome.seen), cfg.mid(x.coord))
      && Leq(x.outcome.clock, ClockAt(s, x.coord, x.key))
  {
  }

  lemma GetTimeClock(cfg: Config, s: State, i: CtxId, r: ServerId)
    requires Enabled(cfg, s, Continue(i, r))
    ensures GetTime(cfg, Opened(s, i, r), i).ctxs[i].outcome.seen == SeenAt(s, i, r)
    ensures GetTime(cfg, Opened(s, i, r), i).ctxs[i].outcome.clock
         == Lamport(Increment(SeenAt(s, i, r)), cfg.mid(s.ctxs[i].coord))
  {
  }

  lemma CoordExists(cfg: Config, s: State, i: CtxId)
    requires Inv(cfg, s) && i < |s.ctxs|
    ensures s.ctxs[i].coord in cfg.group(s.ctxs[i].key)
  {
  }

  /** The new clock: its counter is within the bound and, up to the 2^32nd clock of the key,
      it differs from every clock created before on the key. */
  lemma NewClockIsFresh(cfg: Config, s: State, i: CtxId, r: ServerId, j: CtxId)
    requires Inv(cfg, s) && Sourced(s) && CountBound(s)
    requires Enabled(cfg, s, Continue(i, r)) && s.ctxs[i].kind.PutQuery? && j < |s.ctxs|
    ensures var clock := GetTime(cfg, Opened(s, i, r), i).ctxs[i].outcome.clock;
      var k := s.ctxs[i].key;
      && clock == Lamport(Increment(SeenAt(s, i, r)), cfg.mid(s.ctxs[i].coord))
      && SeenAt(s, i, r) <= Issued(s, k) && clock.count <= Issued(s, k) + 1
      && (DistinctIds(cfg, k) && Issued(s, k) < TWO32
          && s.ctxs[j].kind.PutQuery? && s.ctxs[j].done && s.ctxs[j].key == k ==>
            s.ctxs[j].outcome.clock != clock)
  {
    hide Inv, Sourced, Count, MaxCount, GetTime, SeenAt;
    GetTimeClock(cfg, s, i, r);
    CoordExists(cfg, s, i);
    SeenAtBounds(cfg, s, i, r);
    CoordExists(cfg, s, j);
    if s.ctxs[j].kind.PutQuery? && s.ctxs[j].done {
      CreatorFacts(cfg, s, j);
    }
  }

  lemma GetTimeBound(cfg: Config, s: State, i: CtxId, r: ServerId)
    requires Inv(cfg, s) && Sourced(s) && CountBound(s)
    requires Enabled(cfg, s, Continue(i, r)) && s.ctxs[i].kind.PutQuery? && !s.ctxs[i].done
    ensures CountBound(GetTime(cfg, Opened(s, i, r), i))
  {
    hide Inv, Sourced, GetTime, Count, MaxCount;
    var s' := GetTime(cfg, Opened(s, i, r), i);
    GetTimeOthers(cfg, s, i, r);
    NewClockIsFresh(cfg, s, i, r, i);
    GetTimeClock(cfg, s, i, r);
    forall j | 0 <= j < |s'.ctxs| && s'.ctxs[j].kind.PutQuery? && s'.ctxs[j].done
      ensures s'.ctxs[j].outcome.seen < Issued(s', s'.ctxs[j].key)
      ensures s'.ctxs[j].outcome.clock.count <= Issued(s', s'.ctxs[j].key)
    {
      IssuedGetTime(cfg, s, i, r, s'.ctxs[j].key);
    }
  }

  lemma GetTimeUnique(cfg: Config, s: State, i: CtxId, r: ServerId)
    requires Inv(cfg, s) && Sourced(s) && CountBound(s) && Unique(cfg, s)
    requires Enabled(cfg, s, Continue(i, r)) && s.ctxs[i].kind.PutQuery? && !s.ctxs[i].done
    ensures Unique(cfg, GetTime(cfg, Opened(s, i, r), i))
  {
    hide Inv, Sourced, DistinctIds, GetTime, Count, MaxCount, CountBound;
    var s' := GetTime(cfg, Opened(s, i, r), i);
    GetTimeOthers(cfg, s, i, r);
    forall a, b | 0 <= a < b < |s'.ctxs| && s'.ctxs[a].kind.PutQuery? && s'.ctxs[a].done
                  && s'.ctxs[b].kind.PutQuery? && s'.ctxs[b].done && s'.ctxs[a].key == s'.ctxs[b].key
                  && DistinctIds(cfg, s'.ctxs[a].key) && Issued(s', s'.ctxs[a].key) <= TWO32
      ensures s'.ctxs[a].outcome.clock != s'.ctxs[b].outcome.clock
    {
      IssuedGetTime(cfg, s, i, r, s'.ctxs[a].key);
      NewClockIsFresh(cfg, s, i, r, if a == i then b else a);
    }
  }

  lemma GetTimeOthers(cfg: Config, s: State, i: CtxId, r: ServerId)
    requires Enabled(cfg, s, Continue(i, r)) && s.ctxs[i].kind.PutQuery?
    ensures var s' := GetTime(cfg, Opened(s, i, r), i);
      && |s'.ctxs| == |s.ctxs| + 1 && s'.ctxs[|s.ctxs|].kind.PutStore?
      && s'.ctxs[i].key == s.ctxs[i].key
      && forall j | 0 <= j < |s.ctxs| && j != i :: s'.ctxs[j] == s.ctxs[j]
  {
  }

  lemma OtherStepsSame(cfg: Config, s: State, step: Step)
    requires Enabled(cfg, s, step) && Extends(s, Apply(cfg, s, step))
    requires step.Continue? ==>
               var x := Arrived(s.ctxs[step.i], step.r);
               !(x.kind.PutQuery? && !x.done && GateOpen(x.nResp, x.nMsgs))
    ensures SameCreators(s, Apply(cfg, s, step))
  {
    hide MaxCount, Newest, Consensus, PutNewer, Froms, KeySpan, GetTime, Persists, Clocks;
  }

  lemma CountsStep(cfg: Config, s: State, step: Step)
    requires Inv(cfg, s) && Sourced(s) && CountBound(s) && Unique(cfg, s)
    requires Enabled(cfg, s, step)
    ensures CountBound(Apply(cfg, s, step)) && Unique(cfg, Apply(cfg, s, step))
  {
    hide Inv, Sourced, CountBound, Unique, Extends, SameCreators, GetTime;
    StepExtends(cfg, s, step);
    if step.Continue? && var x := Arrived(s.ctxs[step.i], step.r);
         x.kind.PutQuery? && !x.done && GateOpen(x.nResp, x.nMsgs)
    {
      assert Apply(cfg, s, step) == GetTime(cfg, Opened(s, step.i, step.r), step.i);
      GetTimeBound(cfg, s, step.i, step.r);
      GetTimeUnique(cfg, s, step.i, step.r);
    } else {
      OtherStepsSame(cfg, s, step);
      SameCreatorsKeep(cfg, s, Apply(cfg, s, step));
    }
  }

  lemma {:induction false} RunCounts(cfg: Config, run: seq<State>, n: nat)
    requires ValidConfig(cfg) && IsRun(cfg, run) && n < |run|
    ensures CountBound(run[n]) && Unique(cfg, run[n])
  {
    if n > 0 {
      hide Inv, Sourced, CountBound, Unique;
      RunCounts(cfg, run, n - 1);
      RunInv(cfg, run, n - 1);
      RunSourced(cfg, run, n - 1);
      var step := PickStep(cfg, run, n);
      CountsStep(cfg, run[n - 1], step);
    }
  }
}
