/** Real-time order of operations on one key, over all runs: a clock that enough servers hold
    when an operation starts is never missed by that operation. */
module AbdRegularity {
  import opened Basics
  import opened Lamports
  import opened Store
  import opened Quorum
  import opened Abd
  import opened AbdInvariant

  // ---------------------------------------------------------------- what never changes

  predicate Persists(x: Ctx, x': Ctx) {
    && x'.kind == x.kind && x'.coord == x.coord && x'.key == x.key && x'.payload == x.payload
    && x'.base == x.base && x'.op == x.op
    && (x.done ==> x'.done && x'.outcome == x.outcome)
    && (x.kind.GetStore? ==> x'.outcome == x.outcome)
    && x'.slots.Keys == x.slots.Keys
    && (forall r | r in x.slots && !x.slots[r].Requested? :: !x'.slots[r].Requested?)
  }

  /** Contexts are only added, and a new one records the clocks the stores held before the
      step that created it. */
  ghost predicate Extends(s: State, s': State) {
    && |s.ctxs| <= |s'.ctxs|
    && (forall i | 0 <= i < |s.ctxs| :: Persists(s.ctxs[i], s'.ctxs[i]))
    && (forall i | |s.ctxs| <= i < |s'.ctxs| :: s'.ctxs[i].base == Clocks(s, s'.ctxs[i].key))
  }

  lemma FireExtends(cfg: Config, s: State, s1: State, i: CtxId)
    requires i < |s.ctxs| && s1.servers == s.servers && |s1.ctxs| == |s.ctxs|
    requires forall j | 0 <= j < |s.ctxs| && j != i :: s1.ctxs[j] == s.ctxs[j]
    requires !s.ctxs[i].done && Persists(s.ctxs[i], s1.ctxs[i]) && s1.ctxs[i].coord in s1.servers
    ensures Extends(s, Fire(cfg, s1, i))
  {
  }

  lemma ContinueExtends(cfg: Config, s: State, i: CtxId, r: ServerId)
    requires Enabled(cfg, s, Continue(i, r))
    ensures Extends(s, Continued(cfg, s, i, r))
  {
    hide Fire, Extends;
    var x := Arrived(s.ctxs[i], r);
    assert x.slots.Keys == s.ctxs[i].slots.Keys;
    if GateOpen(x.nResp, x.nMsgs) && !x.done {
      FireExtends(cfg, s, Opened(s, i, r), i);
    } else {
      WaitExtends(s, i, x);
    }
  }

  lemma WaitExtends(s: State, i: CtxId, x: Ctx)
    requires i < |s.ctxs| && Persists(s.ctxs[i], x)
    ensures Extends(s, s.(ctxs := s.ctxs[i := x]))
  {
  }

  lemma StepExtends(cfg: Config, s: State, step: Step)
    requires Enabled(cfg, s, step)
    ensures Extends(s, Apply(cfg, s, step))
  {
    match step
    case StartPut(id, k, v) =>
    case StartGet(id, k) =>
    case Handle(i, r) => assert Handled(s, i, r).ctxs[i].slots.Keys == s.ctxs[i].slots.Keys;
    case Continue(i, r) => ContinueExtends(cfg, s, i, r);
  }

  lemma RunExtends(cfg: Config, run: seq<State>, n: nat)
    requires IsRun(cfg, run) && 0 < n < |run|
    ensures Extends(run[n - 1], run[n])
  {
    var step := PickStep(cfg, run, n);
    StepExtends(cfg, run[n - 1], step);
  }

  lemma {:induction false} RunPersists(cfg: Config, run: seq<State>, i: nat, j: nat, b: CtxId)
    requires IsRun(cfg, run) && i <= j < |run| && b < |run[i].ctxs|
    ensures b < |run[j].ctxs| && Persists(run[i].ctxs[b], run[j].ctxs[b])
  {
    hide Persists, Next;
    if i == j {
      PersistsItself(run[i].ctxs[b]);
    } else {
      RunPersists(cfg, run, i, j - 1, b);
      RunExtends(cfg, run, j);
      PersistsTransitive(run[i].ctxs[b], run[j - 1].ctxs[b], run[j].ctxs[b]);
    }
  }

  lemma PersistsItself(x: Ctx)
    ensures Persists(x, x)
  {
  }

  lemma PersistsTransitive(x: Ctx, y: Ctx, z: Ctx)
    requires Persists(x, y) && Persists(y, z)
    ensures Persists(x, z)
  {
  }

  // ---------------------------------------------------------------- real-time order

  lemma BaseExtends(s: State, s': State, b: CtxId)
    requires Extends(s, s') && b < |s'.ctxs|
    ensures b < |s.ctxs| ==> s'.ctxs[b].base == s.ctxs[b].base && s'.ctxs[b].key == s.ctxs[b].key
    ensures b >= |s.ctxs| ==> s'.ctxs[b].base == Clocks(s, s'.ctxs[b].key)
  {
    assert b < |s.ctxs| ==> Persists(s.ctxs[b], s'.ctxs[b]);
  }

  /** A context created after state `i` starts from clocks at least as new as those the
      stores held in state `i`. */
  lemma {:induction false} BaseCovers(cfg: Config, run: seq<State>, i: nat, j: nat, b: CtxId)
    requires ValidConfig(cfg) && IsRun(cfg, run) && i <= j < |run|
    requires |run[i].ctxs| <= b < |run[j].ctxs|
    ensures var x := run[j].ctxs[b];
      forall r | r in run[i].servers :: r in x.base && Leq(ClockAt(run[i], r, x.key), x.base[r])
    decreases j
  {
    hide ValidConfig, ClockOf, Next, Leq, Extends;
    RunExtends(cfg, run, j);
    BaseExtends(run[j - 1], run[j], b);
    if b < |run[j - 1].ctxs| {
      BaseCovers(cfg, run, i, j - 1, b);
    } else {
      RunGrows(cfg, run, i, j - 1);
    }
  }

  /** Every server of `q` holds a clock of at least `c` for the key. */
  ghost predicate HeldBy(s: State, q: set<ServerId>, k: Key, c: Lamport) {
    forall r | r in q && r in s.servers :: Leq(c, ClockAt(s, r, k))
  }

  /** The heart of the protocol. Let a set `q` of servers of the group hold a clock of at
      least `c` in some state. An operation on that key that starts later, and whose gate
      opens on servers that must meet `q`, takes `c` into account: a get selects a clock of
      at least `c`, and the largest counter a put finds is at least that of `c`. */
  lemma LaterOperationSees(cfg: Config, run: seq<State>, i: nat, j: nat, q: set<ServerId>, c: Lamport, b: CtxId)
    requires ValidConfig(cfg) && IsRun(cfg, run) && i <= j < |run|
    requires |run[i].ctxs| <= b < |run[j].ctxs|
    requires var x := run[j].ctxs[b];
      && x.done && IsQuery(x.kind)
      && q <= cfg.group(x.key) && |q| + |x.outcome.quorum| > |cfg.group(x.key)|
      && HeldBy(run[i], q, x.key, c)
    ensures run[j].ctxs[b].kind.GetQuery? ==> Leq(c, run[j].ctxs[b].outcome.clock)
    ensures run[j].ctxs[b].kind.PutQuery? ==> c.count <= run[j].ctxs[b].outcome.seen
  {
    var x := run[j].ctxs[b];
    RunInv(cfg, run, i);
    RunInv(cfg, run, j);
    assert CtxOk(cfg, run[j], x);
    BaseCovers(cfg, run, i, j, b);
    var r := Meet(q, x.outcome.quorum, cfg.group(x.key));
    assert r in run[i].servers;
    assert Leq(ClockAt(run[i], r, x.key), x.base[r]);
  }

  /** The servers that hold a store context's clock for sure: all that have answered it and,
      for a put, the coordinator. */
  function Holders(x: Ctx): set<ServerId> {
    (set r | r in x.slots && !x.slots[r].Requested?) + (if x.kind.PutStore? then {x.coord} else {})
  }

  lemma HoldersHold(cfg: Config, s: State, a: CtxId)
    requires Inv(cfg, s) && a < |s.ctxs| && !IsQuery(s.ctxs[a].kind)
    ensures Holders(s.ctxs[a]) <= cfg.group(s.ctxs[a].key)
    ensures HeldBy(s, Holders(s.ctxs[a]), s.ctxs[a].key, s.ctxs[a].payload.clock)
  {
  }

  /** The exact relation between the clock of a put that found the counter `seen` and any
      clock with a counter of at most `seen`: larger, unless the 32-bit counter wrapped. */
  lemma NewClockIsNewer(c: Lamport, seen: U32, mid: U32)
    requires c.count <= seen
    ensures Less(c, Lamport(Increment(seen), mid)) <==> seen + 1 < TWO32 || Less(c, Lamport(0, mid))
  {
  }

  /** A completed put is held by a set of servers that passes the gate. */
  lemma CompletedPutIsHeld(cfg: Config, s: State, a: CtxId)
    requires Inv(cfg, s) && a < |s.ctxs| && s.ctxs[a].kind.PutStore? && s.ctxs[a].done
    ensures Passing(Holders(s.ctxs[a]), cfg.group(s.ctxs[a].key))
  {
    var x := s.ctxs[a];
    assert CtxOk(cfg, s, x);
    HoldersHold(cfg, s, a);
    assert x.outcome.quorum <= Holders(x);
    SubsetSize(x.outcome.quorum, Holders(x));
  }

  /** A write-back that every remote has answered is held by all but the reader itself. */
  lemma AnsweredWriteBackIsHeld(cfg: Config, s: State, a: CtxId)
    requires Inv(cfg, s) && a < |s.ctxs| && !IsQuery(s.ctxs[a].kind)
    requires forall r | r in s.ctxs[a].slots :: !s.ctxs[a].slots[r].Requested?
    ensures |Holders(s.ctxs[a])| >= |cfg.group(s.ctxs[a].key)| - 1
  {
    var x := s.ctxs[a];
    assert CtxOk(cfg, s, x);
    assert x.slots.Keys <= Holders(x);
    SubsetSize(x.slots.Keys, Holders(x));
    UnionSize(x.slots.Keys, {x.coord});
    assert x.slots.Keys + {x.coord} == cfg.group(x.key);
  }
}
