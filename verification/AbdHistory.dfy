/** Operations over all runs: how rounds belong to operations, that every operation ends
    once, and that the server's counters account for all of them. */
module AbdHistory {
  import opened Basics
  import opened Lamports
  import opened Store
  import opened Quorum
  import opened Abd
  import opened AbdInvariant

  // ---------------------------------------------------------------- rounds of an operation

  ghost predicate LinkedAt(s: State, i: CtxId)
    requires i < |s.ctxs|
  {
    var x := s.ctxs[i];
    match x.kind
    case PutQuery =>
      && x.op == i
      && (if x.done then
            && i < x.outcome.next < |s.ctxs|
            && s.ctxs[x.outcome.next].kind.PutStore?
            && s.ctxs[x.outcome.next].op == i
            && (i in s.finished <==> s.ctxs[x.outcome.next].done)
          else i !in s.finished)
    case GetQuery => x.op == i && (i in s.finished <==> x.done)
    case PutStore =>
      && x.op < i
      && var y := s.ctxs[x.op];
      && y.kind.PutQuery? && y.done && y.outcome.next == i && y.key == x.key && y.coord == x.coord
      && x.payload == Entry(y.outcome.clock, y.payload.value)
    case GetStore =>
      && x.op < i
      && var y := s.ctxs[x.op];
      && y.kind.GetQuery? && y.done && y.key == x.key && y.coord == x.coord && y.outcome == x.outcome
      && x.payload == Entry(y.outcome.clock, y.outcome.value)
  }

  /** Every second round belongs to one operation and every operation has at most one second
      round that reports; the list of reported operations has no repeats and contains
      exactly the operations whose last round is done. */
  ghost predicate Linked(s: State) {
    && (forall i | 0 <= i < |s.ctxs| :: LinkedAt(s, i))
    && Distinct(s.finished)
    && (forall f | f in s.finished :: f < |s.ctxs| && IsQuery(s.ctxs[f].kind))
  }

  /** Changing slots, caches and tables does not touch the links. */
  predicate SameCore(x: Ctx, y: Ctx) {
    x.kind == y.kind && x.op == y.op && x.key == y.key && x.coord == y.coord && x.payload == y.payload &&
    x.outcome == y.outcome && (x.done == y.done || x.kind.GetStore?)
  }

  lemma LinkedCore(s: State, s': State)
    requires Linked(s) && |s'.ctxs| == |s.ctxs| && s'.finished == s.finished
    requires forall i | 0 <= i < |s.ctxs| :: SameCore(s.ctxs[i], s'.ctxs[i])
    ensures Linked(s')
  {
    forall i | 0 <= i < |s'.ctxs|
      ensures LinkedAt(s', i)
    {
      assert LinkedAt(s, i);
    }
  }

  lemma LinkedStart(cfg: Config, s: State, id: ServerId, kind: Kind, k: Key, e: Entry)
    requires Linked(s) && id in s.servers && IsQuery(kind)
    ensures Linked(Start(cfg, s, id, kind, k, e))
  {
    var s' := Start(cfg, s, id, kind, k, e);
    forall i | 0 <= i < |s'.ctxs|
      ensures LinkedAt(s', i)
    {
      if i < |s.ctxs| {
        assert LinkedAt(s, i);
      }
    }
  }

  lemma LinkedGetTime(cfg: Config, s: State, s1: State, i: CtxId)
    requires Linked(s) && i < |s.ctxs| && !s.ctxs[i].done && s.ctxs[i].kind.PutQuery?
    requires |s1.ctxs| == |s.ctxs| && s1.finished == s.finished && s1.ctxs[i].coord in s1.servers
    requires forall j | 0 <= j < |s.ctxs| && j != i :: s1.ctxs[j] == s.ctxs[j]
    requires s1.ctxs[i].done && SameCore(s.ctxs[i], s1.ctxs[i].(done := false))
    ensures Linked(GetTime(cfg, s1, i))
  {
    hide MaxCount, PutNewer, Froms;
    var s' := GetTime(cfg, s1, i);
    forall j | 0 <= j < |s'.ctxs|
      ensures LinkedAt(s', j)
    {
      assert LinkedAt(s, i);
      if j < |s.ctxs| {
        assert LinkedAt(s, j);
      }
    }
  }

  lemma LinkedAck(s: State, s1: State, i: CtxId)
    requires Linked(s) && i < |s.ctxs| && !s.ctxs[i].done && s.ctxs[i].kind.PutStore?
    requires |s1.ctxs| == |s.ctxs| && s1.finished == s.finished && s1.ctxs[i].coord in s1.servers
    requires forall j | 0 <= j < |s.ctxs| && j != i :: s1.ctxs[j] == s.ctxs[j]
    requires s1.ctxs[i].done && SameCore(s.ctxs[i], s1.ctxs[i].(done := false))
    ensures Linked(AckPutTime(s1, i))
  {
    hide Froms;
    var s' := AckPutTime(s1, i);
    var op := s.ctxs[i].op;
    assert LinkedAt(s, i) && LinkedAt(s, op);
    assert op !in s.finished;
    forall j | 0 <= j < |s'.ctxs|
      ensures LinkedAt(s', j)
    {
      assert LinkedAt(s, j);
    }
  }

  lemma LinkedRetValue(cfg: Config, s: State, s1: State, i: CtxId)
    requires Linked(s) && i < |s.ctxs| && !s.ctxs[i].done && s.ctxs[i].kind.GetQuery?
    requires |s1.ctxs| == |s.ctxs| && s1.finished == s.finished && s1.ctxs[i].coord in s1.servers
    requires forall j | 0 <= j < |s.ctxs| && j != i :: s1.ctxs[j] == s.ctxs[j]
    requires s1.ctxs[i].done && SameCore(s.ctxs[i], s1.ctxs[i].(done := false))
    ensures Linked(RetValue(cfg, s1, i))
  {
    hide Newest, Consensus, Froms;
    var s' := RetValue(cfg, s1, i);
    assert LinkedAt(s, i);
    forall j | 0 <= j < |s'.ctxs|
      ensures LinkedAt(s', j)
    {
      if j < |s.ctxs| {
        assert LinkedAt(s, j);
      }
    }
  }

  lemma LinkedContinue(cfg: Config, s: State, i: CtxId, r: ServerId)
    requires Linked(s) && Enabled(cfg, s, Continue(i, r))
    ensures Linked(Continued(cfg, s, i, r))
  {
    hide Linked;
    var x := Arrived(s.ctxs[i], r);
    if !GateOpen(x.nResp, x.nMsgs) || x.done {
      LinkedCore(s, Continued(cfg, s, i, r));
    } else {
      var s1 := Opened(s, i, r);
      assert Continued(cfg, s, i, r) == Fire(cfg, s1, i);
      match x.kind
      case PutQuery => LinkedGetTime(cfg, s, s1, i);
      case PutStore => LinkedAck(s, s1, i);
      case GetQuery => LinkedRetValue(cfg, s, s1, i);
      case GetStore => LinkedCore(s, s1);
    }
  }

  lemma LinkedStep(cfg: Config, s: State, step: Step)
    requires Linked(s) && Enabled(cfg, s, step)
    ensures Linked(Apply(cfg, s, step))
  {
    hide Linked;
    match step
    case StartPut(id, k, v) => LinkedStart(cfg, s, id, PutQuery, k, Entry(MIN, v));
    case StartGet(id, k) => LinkedStart(cfg, s, id, GetQuery, k, Entry(MIN, []));
    case Handle(i, r) => LinkedCore(s, Handled(s, i, r));
    case Continue(i, r) => LinkedContinue(cfg, s, i, r);
  }

  lemma {:induction false} RunLinked(cfg: Config, run: seq<State>, n: nat)
    requires IsRun(cfg, run) && n < |run|
    ensures Linked(run[n])
  {
    if n > 0 {
      RunLinked(cfg, run, n - 1);
      var step := PickStep(cfg, run, n);
      LinkedStep(cfg, run[n - 1], step);
    }
  }

  // ---------------------------------------------------------------- conservation

  function Count(xs: seq<Ctx>, p: Ctx -> bool): nat {
    if xs == [] then 0 else Count(xs[..|xs| - 1], p) + if p(xs[|xs| - 1]) then 1 else 0
  }

  function Bit(b: bool): nat {
    if b then 1 else 0
  }

  lemma CountAppend(xs: seq<Ctx>, x: Ctx, p: Ctx -> bool)
    ensures Count(xs + [x], p) == Count(xs, p) + Bit(p(x))
  {
  }

  lemma {:induction false} CountUpdate(xs: seq<Ctx>, i: nat, x: Ctx, p: Ctx -> bool)
    requires i < |xs|
    ensures Count(xs[i := x], p) + Bit(p(xs[i])) == Count(xs, p) + Bit(p(x))
  {
    var n := |xs| - 1;
    if i == n {
      assert xs[i := x][..n] == xs[..n];
    } else {
      CountUpdate(xs[..n], i, x, p);
      assert xs[i := x][..n] == xs[..n][i := x];
    }
  }

  /** A round whose end is still owed to the operation that started on server `id`. */
  function Owed(id: ServerId): Ctx -> bool {
    (x: Ctx) => x.coord == id && !x.done && !x.kind.GetStore?
  }

  /** `current_traces` and the rate counter count the owed rounds, which are no more than the
      limit, and started operations are owed or have ended in `put_ret`, `get_ret` or
      `skip_ret`. */
  ghost predicate Balanced(cfg: Config, s: State, id: ServerId)
    requires id in s.servers
  {
    var v := s.servers[id];
    && v.traces == Count(s.ctxs, Owed(id))
    && v.request == v.traces == v.acquired - v.released
    && v.request <= cfg.maxRequest
    && v.released == v.puts + v.gets + v.skips
  }

  ghost predicate AllBalanced(cfg: Config, s: State) {
    forall id | id in s.servers :: Balanced(cfg, s, id)
  }

  /** A continuation body settles the owed round `i` and may open one that is owed, or the
      operation ends. */
  lemma BalancedFire(cfg: Config, s: State, i: CtxId, r: ServerId, id: ServerId)
    requires Enabled(cfg, s, Continue(i, r)) && id in s.servers && Balanced(cfg, s, id) && !s.ctxs[i].done
    ensures var s' := Fire(cfg, Opened(s, i, r), i); id in s'.servers && Balanced(cfg, s', id)
  {
    hide MaxCount, Newest, Consensus, PutNewer, Froms, KeySpan, Count, Clocks, ClockOf, Increment;
    var s' := Fire(cfg, Opened(s, i, r), i);
    var ctxs := s.ctxs[i := s'.ctxs[i]];
    CountUpdate(s.ctxs, i, s'.ctxs[i], Owed(id));
    if |s'.ctxs| > |s.ctxs| {
      assert s'.ctxs == ctxs + [s'.ctxs[|s.ctxs|]];
      CountAppend(ctxs, s'.ctxs[|s.ctxs|], Owed(id));
    } else {
      assert s'.ctxs == ctxs;
    }
  }

  lemma BalancedContinue(cfg: Config, s: State, i: CtxId, r: ServerId, id: ServerId)
    requires Enabled(cfg, s, Continue(i, r)) && id in s.servers && Balanced(cfg, s, id)
    ensures id in Continued(cfg, s, i, r).servers && Balanced(cfg, Continued(cfg, s, i, r), id)
  {
    hide Fire, Count;
    var x := Arrived(s.ctxs[i], r);
    if GateOpen(x.nResp, x.nMsgs) && !x.done {
      assert Continued(cfg, s, i, r) == Fire(cfg, Opened(s, i, r), i);
      BalancedFire(cfg, s, i, r, id);
    } else {
      CountUpdate(s.ctxs, i, x, Owed(id));
    }
  }

  lemma BalancedStart(cfg: Config, s: State, me: ServerId, kind: Kind, k: Key, e: Entry, id: ServerId)
    requires me in s.servers && s.servers[me].request < cfg.maxRequest && IsQuery(kind)
    requires id in s.servers && Balanced(cfg, s, id)
    ensures var s' := Start(cfg, s, me, kind, k, e); id in s'.servers && Balanced(cfg, s', id)
  {
    hide Count, Clocks;
    CountAppend(s.ctxs, NewCtx(cfg, s, kind, me, k, e, |s.ctxs|), Owed(id));
  }

  lemma BalancedHandle(cfg: Config, s: State, i: CtxId, r: ServerId, id: ServerId)
    requires Enabled(cfg, s, Handle(i, r)) && id in s.servers && Balanced(cfg, s, id)
    ensures id in Handled(s, i, r).servers && Balanced(cfg, Handled(s, i, r), id)
  {
    hide Count, ServeTable, ServeReply;
    CountUpdate(s.ctxs, i, Handled(s, i, r).ctxs[i], Owed(id));
  }

  lemma BalancedStep(cfg: Config, s: State, step: Step)
    requires AllBalanced(cfg, s) && Enabled(cfg, s, step)
    ensures AllBalanced(cfg, Apply(cfg, s, step))
  {
    hide Balanced, Continued, Start, Handled;
    StepKeys(cfg, s, step);
    forall id | id in s.servers
      ensures id in Apply(cfg, s, step).servers && Balanced(cfg, Apply(cfg, s, step), id)
    {
      match step
      case StartPut(me, k, v) => BalancedStart(cfg, s, me, PutQuery, k, Entry(MIN, v), id);
      case StartGet(me, k) => BalancedStart(cfg, s, me, GetQuery, k, Entry(MIN, []), id);
      case Handle(i, r) => BalancedHandle(cfg, s, i, r, id);
      case Continue(i, r) => BalancedContinue(cfg, s, i, r, id);
    }
  }

  lemma StepKeys(cfg: Config, s: State, step: Step)
    requires Enabled(cfg, s, step)
    ensures Apply(cfg, s, step).servers.Keys == s.servers.Keys
  {
    hide MaxCount, Newest, Consensus, PutNewer, Froms;
  }

  // ---------------------------------------------------------------- rounds and operations

  /** The operations that started on the server and have not been reported. */
  function Unfinished(s: State, id: ServerId): set<CtxId> {
    set a | 0 <= a < |s.ctxs| && IsQuery(s.ctxs[a].kind) && s.ctxs[a].coord == id && a !in s.finished
  }

  function Chosen(xs: seq<Ctx>, p: Ctx -> bool): set<CtxId> {
    set i | 0 <= i < |xs| && p(xs[i])
  }

  lemma {:induction false} CountIsSize(xs: seq<Ctx>, p: Ctx -> bool)
    ensures Count(xs, p) == |Chosen(xs, p)|
  {
    if xs != [] {
      var n := |xs| - 1;
      CountIsSize(xs[..n], p);
      assert Chosen(xs, p) == Chosen(xs[..n], p) + if p(xs[n]) then {n} else {};
    }
  }

  /** Sets with a map each way that undo each other have the same size. */
  lemma {:induction false} SameSize(a: set<CtxId>, b: set<CtxId>, f: CtxId -> CtxId, g: CtxId -> CtxId)
    requires forall x | x in a :: f(x) in b && g(f(x)) == x
    requires forall y | y in b :: g(y) in a && f(g(y)) == y
    ensures |a| == |b|
    decreases a
  {
    if a != {} {
      var x :| x in a;
      SameSize(a - {x}, b - {f(x)}, f, g);
    }
  }

  /** The round that an unfinished operation waits for. */
  function RoundOf(s: State): CtxId -> CtxId {
    (a: CtxId) => if a < |s.ctxs| && s.ctxs[a].kind.PutQuery? && s.ctxs[a].done then s.ctxs[a].outcome.next else a
  }

  function OpOf(s: State): CtxId -> CtxId {
    (i: CtxId) => if i < |s.ctxs| then s.ctxs[i].op else 0
  }

  /** Every unfinished operation owes exactly one round. */
  lemma OwedIsUnfinished(s: State, id: ServerId)
    requires Linked(s)
    ensures Count(s.ctxs, Owed(id)) == |Unfinished(s, id)|
  {
    hide Count;
    var owed := Chosen(s.ctxs, Owed(id));
    forall a | a in Unfinished(s, id)
      ensures RoundOf(s)(a) in owed && OpOf(s)(RoundOf(s)(a)) == a
    {
      assert LinkedAt(s, a);
      assert LinkedAt(s, RoundOf(s)(a));
    }
    forall i | i in owed
      ensures OpOf(s)(i) in Unfinished(s, id) && RoundOf(s)(OpOf(s)(i)) == i
    {
      assert LinkedAt(s, i);
      assert LinkedAt(s, OpOf(s)(i));
    }
    SameSize(Unfinished(s, id), owed, RoundOf(s), OpOf(s));
    CountIsSize(s.ctxs, Owed(id));
  }

  /** In every state of every run `current_traces` and the rate counter of a server are the
      number of its operations that have not been reported, and all its counters agree. */
  lemma {:induction false} RunBalanced(cfg: Config, run: seq<State>, n: nat)
    requires IsRun(cfg, run) && n < |run|
    ensures AllBalanced(cfg, run[n])
    ensures forall id | id in run[n].servers :: run[n].servers[id].traces == |Unfinished(run[n], id)|
  {
    hide Linked, Unfinished, Apply, Enabled;
    RunLinked(cfg, run, n);
    if n > 0 {
      RunBalanced(cfg, run, n - 1);
      var step := PickStep(cfg, run, n);
      BalancedStep(cfg, run[n - 1], step);
    }
    forall id | id in run[n].servers
      ensures run[n].servers[id].traces == |Unfinished(run[n], id)|
    {
      OwedIsUnfinished(run[n], id);
      assert Balanced(cfg, run[n], id);
    }
  }
}
