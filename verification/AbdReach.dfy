/** No reply is ahead of its sender, over all runs: a clock that has been reported to a
    coordinator, and the clock that a get selected, are held by an owner of the key. */
module AbdReach {
  import opened Lamports
  import opened Store
  import opened Quorum
  import opened Abd
  import opened AbdInvariant

  /** The server holds at least the clock of the reply. */
  ghost predicate Behind(s: State, r: ServerId, k: Key, reply: Reply) {
    r in s.servers && (reply.Ack? || Leq(reply.clock, ClockAt(s, r, k)))
  }

  ghost predicate HeldSomewhere(s: State, x: Ctx) {
    exists r :: r in s.servers && (r == x.coord || r in x.slots) && Leq(x.outcome.clock, ClockAt(s, r, x.key))
  }

  ghost predicate Reached(s: State, x: Ctx) {
    && (forall r | r in x.slots && x.slots[r].Answered? :: Behind(s, r, x.key, x.slots[r].reply))
    && (forall c | c in x.cache :: c.from in x.slots && Behind(s, c.from, x.key, c.reply))
    && (x.kind.GetQuery? && x.done ==> HeldSomewhere(s, x))
  }

  ghost predicate AllReached(s: State) {
    forall i | 0 <= i < |s.ctxs| :: Reached(s, s.ctxs[i])
  }

  lemma ReachedGrows(s: State, s': State, x: Ctx)
    requires Reached(s, x) && ClocksGrow(s, s')
    ensures Reached(s', x)
  {
    if x.kind.GetQuery? && x.done {
      var r :| r in s.servers && (r == x.coord || r in x.slots) && Leq(x.outcome.clock, ClockAt(s, r, x.key));
      assert Leq(ClockAt(s, r, x.key), ClockAt(s', r, x.key));
    }
  }

  /** All contexts but `i`, and new ones, are as before. */
  lemma ReachedCompose(s: State, s': State, i: CtxId)
    requires AllReached(s) && ClocksGrow(s, s') && |s.ctxs| <= |s'.ctxs|
    requires forall j | 0 <= j < |s.ctxs| && j != i :: s'.ctxs[j] == s.ctxs[j]
    requires i < |s.ctxs| ==> Reached(s', s'.ctxs[i])
    requires forall j | |s.ctxs| <= j < |s'.ctxs| :: Reached(s', s'.ctxs[j])
    ensures AllReached(s')
  {
    hide Reached, ClocksGrow;
    forall j | 0 <= j < |s'.ctxs|
      ensures Reached(s', s'.ctxs[j])
    {
      if j < |s.ctxs| && j != i {
        ReachedGrows(s, s', s.ctxs[j]);
      }
    }
  }

  lemma ReachedHandle(cfg: Config, s: State, i: CtxId, r: ServerId)
    requires AllReached(s) && Enabled(cfg, s, Handle(i, r)) && ClocksGrow(s, Handled(s, i, r))
    ensures AllReached(Handled(s, i, r))
  {
    hide ClocksGrow, PutNewer;
    var x := s.ctxs[i];
    var s' := Handled(s, i, r);
    ReachedGrows(s, s', x);
    assert Behind(s', r, x.key, ServeReply(s.servers[r].table, x.kind, x.key));
    ReachedCompose(s, s', i);
  }

  lemma ReachedArrived(s: State, x: Ctx, r: ServerId)
    requires Reached(s, x) && r in x.slots && x.slots[r].Answered?
    ensures Reached(s, Arrived(x, r))
  {
  }

  /** The newest of the local entry and the replies is held by the coordinator or by the
      sender of a reply. */
  lemma SelectedIsHeld(s: State, x: Ctx, o: Outcome)
    requires x.coord in s.servers && forall c | c in x.cache :: c.from in x.slots && Behind(s, c.from, x.key, c.reply)
    requires o.clock == Newest(Lookup(s.servers[x.coord].table, x.key), x.key, x.cache).clock
    ensures HeldSomewhere(s, x.(outcome := o))
  {
    hide Newest;
    var local := Lookup(s.servers[x.coord].table, x.key);
    NewestIsMax(local, x.key, x.cache);
    var b := Newest(local, x.key, x.cache);
    if b.local {
      assert Leq(o.clock, ClockAt(s, x.coord, x.key));
    } else {
      var c :| c in x.cache && c.reply == Versioned(b.winner.clock, b.winner.value);
      assert Leq(o.clock, ClockAt(s, c.from, x.key));
    }
  }

  /** After the continuation body the context has heard the same, and a get has selected. */
  lemma ReachedFire(cfg: Config, s: State, i: CtxId, r: ServerId)
    requires AllReached(s) && Enabled(cfg, s, Continue(i, r)) && !s.ctxs[i].done
    requires ClocksGrow(s, Fire(cfg, Opened(s, i, r), i))
    ensures AllReached(Fire(cfg, Opened(s, i, r), i))
  {
    hide MaxCount, Newest, Consensus, PutNewer, Froms, ClocksGrow, Clocks;
    var x := Arrived(s.ctxs[i], r);
    var s' := Fire(cfg, Opened(s, i, r), i);
    ReachedArrived(s, s.ctxs[i], r);
    ReachedGrows(s, s', x);
    var x' := s'.ctxs[i];
    if x.kind.GetQuery? {
      SelectedIsHeld(s', x, x'.outcome);
      HeldSame(s', x.(outcome := x'.outcome), x');
    }
    assert Reached(s', x');
    ReachedCompose(s, s', i);
  }

  lemma HeldSame(s: State, x: Ctx, y: Ctx)
    requires HeldSomewhere(s, x) && y.coord == x.coord && y.slots == x.slots && y.key == x.key && y.outcome == x.outcome
    ensures HeldSomewhere(s, y)
  {
  }

  lemma ReachedStep(cfg: Config, s: State, step: Step)
    requires AllReached(s) && Enabled(cfg, s, step) && ClocksGrow(s, Apply(cfg, s, step))
    ensures AllReached(Apply(cfg, s, step))
  {
    hide Fire, ClocksGrow, Reached;
    var s' := Apply(cfg, s, step);
    match step
    case StartPut(id, k, v) =>
      NewIsReached(cfg, s, s', PutQuery, id, k, Entry(MIN, v));
      ReachedCompose(s, s', |s.ctxs|);
    case StartGet(id, k) =>
      NewIsReached(cfg, s, s', GetQuery, id, k, Entry(MIN, []));
      ReachedCompose(s, s', |s.ctxs|);
    case Handle(i, r) => ReachedHandle(cfg, s, i, r);
    case Continue(i, r) =>
      var x := Arrived(s.ctxs[i], r);
      if GateOpen(x.nResp, x.nMsgs) && !x.done {
        assert s' == Fire(cfg, Opened(s, i, r), i);
        ReachedFire(cfg, s, i, r);
      } else {
        ReachedArrived(s, s.ctxs[i], r);
        ReachedGrows(s, s', x);
        ReachedCompose(s, s', i);
      }
  }

  lemma NewIsReached(cfg: Config, s: State, s': State, kind: Kind, id: ServerId, k: Key, e: Entry)
    ensures Reached(s', NewCtx(cfg, s, kind, id, k, e, |s.ctxs|))
  {
  }

  lemma {:induction false} RunReached(cfg: Config, run: seq<State>, n: nat)
    requires ValidConfig(cfg) && IsRun(cfg, run) && n < |run|
    ensures AllReached(run[n])
  {
    if n > 0 {
      hide ClocksGrow, Inv;
      RunReached(cfg, run, n - 1);
      RunInv(cfg, run, n - 1);
      var step := PickStep(cfg, run, n);
      StepInv(cfg, run[n - 1], step);
      ReachedStep(cfg, run[n - 1], step);
    }
  }
}
