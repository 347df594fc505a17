/** Runs together with the steps they took: the operations that exist, the entries that the
    tables hold and the counters of a server are accounted for by the steps. */
module AbdJournal {
  import opened Basics
  import opened Lamports
  import opened Store
  import opened Quorum
  import opened Abd
  import opened AbdInvariant
  import opened AbdRegularity
  import opened AbdHistory
  import opened AbdProvenance
  import opened AbdTheorems
  import opened AbdValues
  import opened AbdRuns

  ghost predicate IsRunBy(cfg: Config, run: seq<State>, steps: seq<Step>) {
    && |run| == |steps| + 1
    && Init(cfg, run[0])
    && forall i | 0 <= i < |steps| :: Enabled(cfg, run[i], steps[i]) && run[i + 1] == Apply(cfg, run[i], steps[i])
  }

  lemma RunByIsRun(cfg: Config, run: seq<State>, steps: seq<Step>)
    requires IsRunBy(cfg, run, steps)
    ensures IsRun(cfg, run)
  {
    forall i | 0 < i < |run|
      ensures Next(cfg, run[i - 1], run[i])
    {
      assert Enabled(cfg, run[i - 1], steps[i - 1]) && run[(i - 1) + 1] == Apply(cfg, run[i - 1], steps[i - 1]);
    }
  }

  /** Every run has been made by some steps. */
  lemma {:induction false} StepsExist(cfg: Config, run: seq<State>) returns (steps: seq<Step>)
    requires IsRun(cfg, run)
    ensures IsRunBy(cfg, run, steps)
    decreases |run|
  {
    hide Apply, Enabled;
    if |run| == 1 {
      steps := [];
    } else {
      var n := |run| - 1;
      var before := StepsExist(cfg, run[..n]);
      var step := PickStep(cfg, run, n);
      steps := before + [step];
      assert forall i | 0 <= i < n :: run[..n][i] == run[i];
    }
  }

  lemma RunByPrefix(cfg: Config, run: seq<State>, steps: seq<Step>)
    requires IsRunBy(cfg, run, steps) && |steps| > 0
    ensures var n := |steps| - 1;
      && IsRunBy(cfg, run[..n + 1], steps[..n]) && Last(run[..n + 1]) == run[n]
      && Enabled(cfg, run[n], steps[n]) && Last(run) == Apply(cfg, run[n], steps[n])
  {
  }

  // ---------------------------------------------------------------- operations

  /** What a client asked for, and where. */
  datatype Op = Op(kind: Kind, coord: ServerId, key: Key, value: Bytes)

  function AsOp(x: Ctx): Op {
    Op(x.kind, x.coord, x.key, x.payload.value)
  }

  /** The operations behind the query contexts, in their order. */
  function OpsOf(xs: seq<Ctx>): seq<Op> {
    if xs == [] then []
    else
      var n := |xs| - 1;
      OpsOf(xs[..n]) + if IsQuery(xs[n].kind) then [AsOp(xs[n])] else []
  }

  /** The operation that a step starts, if the group of the key contains the server. */
  function StartedBy(cfg: Config, step: Step): seq<Op> {
    match step
    case StartPut(id, k, v) => if cfg.remotes(id, k) == {} then [] else [Op(PutQuery, id, k, v)]
    case StartGet(id, k) => if cfg.remotes(id, k) == {} then [] else [Op(GetQuery, id, k, [])]
    case Handle(_, _) => []
    case Continue(_, _) => []
  }

  function StartedIn(cfg: Config, steps: seq<Step>): seq<Op> {
    if steps == [] then [] else StartedIn(cfg, steps[..|steps| - 1]) + StartedBy(cfg, steps[|steps| - 1])
  }

  lemma {:induction false} SameOps(xs: seq<Ctx>, ys: seq<Ctx>)
    requires |xs| <= |ys| && forall i | 0 <= i < |xs| :: AsOp(xs[i]) == AsOp(ys[i])
    requires forall i | |xs| <= i < |ys| :: !IsQuery(ys[i].kind)
    ensures OpsOf(xs) == OpsOf(ys)
    decreases |ys|
  {
    if |ys| > |xs| {
      SameOps(xs, ys[..|ys| - 1]);
    } else if |ys| > 0 {
      SameOps(xs[..|xs| - 1], ys[..|ys| - 1]);
    }
  }

  /** Only start steps open queries. */
  lemma OthersOpenStores(cfg: Config, s: State, step: Step)
    requires Enabled(cfg, s, step) && (step.Handle? || step.Continue?)
    ensures var s' := Apply(cfg, s, step);
      |s.ctxs| <= |s'.ctxs| && forall i | |s.ctxs| <= i < |s'.ctxs| :: !IsQuery(s'.ctxs[i].kind)
  {
    hide MaxCount, Newest, Consensus, PutNewer, Froms, Clocks;
  }

  lemma StepStarts(cfg: Config, s: State, step: Step)
    requires Enabled(cfg, s, step)
    ensures OpsOf(Apply(cfg, s, step).ctxs) == OpsOf(s.ctxs) + StartedBy(cfg, step)
  {
    hide Continued, Handled, Clocks;
    var s' := Apply(cfg, s, step);
    if step.Handle? || step.Continue? {
      OthersOpenStores(cfg, s, step);
      StepExtends(cfg, s, step);
      assert forall i | 0 <= i < |s.ctxs| :: Persists(s.ctxs[i], s'.ctxs[i]);
      SameOps(s.ctxs, s'.ctxs);
    } else if |s'.ctxs| > |s.ctxs| {
      assert s'.ctxs[..|s.ctxs|] == s.ctxs;
    }
  }

  /** The queries of a run are, in order, exactly the operations that its steps started: with
      the server, the key and the value they were given. */
  lemma {:induction false} RunStarts(cfg: Config, run: seq<State>, steps: seq<Step>)
    requires IsRunBy(cfg, run, steps)
    ensures OpsOf(Last(run).ctxs) == StartedIn(cfg, steps)
    decreases |steps|
  {
    if steps != [] {
      hide Apply, Enabled, StartedBy;
      var n := |steps| - 1;
      RunByPrefix(cfg, run, steps);
      RunStarts(cfg, run[..n + 1], steps[..n]);
      StepStarts(cfg, run[n], steps[n]);
    }
  }

  lemma {:induction false} OpListed(xs: seq<Ctx>, i: nat)
    requires i < |xs| && IsQuery(xs[i].kind)
    ensures AsOp(xs[i]) in OpsOf(xs)
  {
    if i < |xs| - 1 {
      OpListed(xs[..|xs| - 1], i);
    }
  }

  lemma {:induction false} ListedHasStep(cfg: Config, steps: seq<Step>, o: Op) returns (t: nat)
    requires o in StartedIn(cfg, steps)
    ensures t < |steps| && StartedBy(cfg, steps[t]) == [o]
  {
    var n := |steps| - 1;
    if o in StartedIn(cfg, steps[..n]) {
      t := ListedHasStep(cfg, steps[..n], o);
    } else {
      t := n;
    }
  }

  /** Every put was started with its key and value, every get with its key, on its server. */
  lemma OperationWasStarted(cfg: Config, run: seq<State>, steps: seq<Step>, a: CtxId)
    requires IsRunBy(cfg, run, steps)
    ensures IsPut(Last(run), a) ==>
      var x := Last(run).ctxs[a]; StartPut(x.coord, x.key, x.payload.value) in steps
    ensures IsGet(Last(run), a) ==> var x := Last(run).ctxs[a]; StartGet(x.coord, x.key) in steps
  {
    if IsPut(Last(run), a) || IsGet(Last(run), a) {
      RunStarts(cfg, run, steps);
      OpListed(Last(run).ctxs, a);
      var t := ListedHasStep(cfg, steps, AsOp(Last(run).ctxs[a]));
      assert steps[t] in steps;
    }
  }

  // ---------------------------------------------------------------- values

  /** A client gave the value to a put on the key. */
  predicate Given(steps: seq<Step>, k: Key, v: Bytes) {
    exists t :: 0 <= t < |steps| && steps[t].StartPut? && steps[t].k == k && steps[t].v == v
  }

  lemma KnownWasGiven(cfg: Config, run: seq<State>, steps: seq<Step>, k: Key, e: Entry)
    requires IsRunBy(cfg, run, steps) && Known(Last(run), k, e) && Faithful(Last(run), k)
    ensures Given(steps, k, e.value)
  {
    var s := Last(run);
    var j :| 0 <= j < |s.ctxs| && IsCreator(s.ctxs[j], k, e.clock) && s.ctxs[j].payload.value == e.value;
    OperationWasStarted(cfg, run, steps, j);
    var t :| 0 <= t < |steps| && steps[t] == StartPut(s.ctxs[j].coord, k, e.value);
  }

  /** While the write-backs on the key are faithful, every value that is stored or carried was
      given by a client to a put on this key. */
  lemma PresentWasGiven(cfg: Config, run: seq<State>, steps: seq<Step>, k: Key, e: Entry)
    requires IsRunBy(cfg, run, steps) && Present(Last(run), k, e) && Faithful(Last(run), k)
    ensures Given(steps, k, e.value)
  {
    RunByIsRun(cfg, run, steps);
    RunSourced(cfg, run, |run| - 1);
    PresentIsKnown(Last(run), k, e);
    KnownWasGiven(cfg, run, steps, k, e);
  }

  /** A get of such a run whose own report is right returns a value that a client gave to a put
      on the key, or nothing with the minimal clock. */
  lemma ReportedValueWasGiven(cfg: Config, run: seq<State>, steps: seq<Step>, b: CtxId)
    requires IsRunBy(cfg, run, steps) && IsGet(Last(run), b) && HasClock(Last(run), b)
    requires var x := Last(run).ctxs[b]; Faithful(Last(run), x.key) && x.outcome.value == x.outcome.winner.value
    ensures var x := Last(run).ctxs[b];
      && StartGet(x.coord, x.key) in steps
      && (Given(steps, x.key, x.outcome.value) || (x.outcome.clock == MIN && x.outcome.value == []))
  {
    hide Known, Faithful, Given;
    RunByIsRun(cfg, run, steps);
    OperationWasStarted(cfg, run, steps, b);
    ReportedValueWasPut(cfg, run, |run| - 1, b);
    var x := Last(run).ctxs[b];
    if Known(Last(run), x.key, Entry(x.outcome.clock, x.outcome.value)) {
      KnownWasGiven(cfg, run, steps, x.key, Entry(x.outcome.clock, x.outcome.value));
    }
  }

  // ---------------------------------------------------------------- tables

  /** The round made server `r` store the entry: as a remote that has answered, or, in a put,
      as the coordinator. */
  predicate Wrote(x: Ctx, r: ServerId, k: Key, e: Entry) {
    && !IsQuery(x.kind) && x.key == k && x.payload == e
    && ((r in x.slots && !x.slots[r].Requested?) || (x.kind.PutStore? && x.coord == r))
  }

  ghost predicate Written(s: State, r: ServerId, k: Key, e: Entry) {
    exists i :: 0 <= i < |s.ctxs| && Wrote(s.ctxs[i], r, k, e)
  }

  ghost predicate AllWritten(s: State) {
    forall r, k | r in s.servers && k in s.servers[r].table :: Written(s, r, k, s.servers[r].table[k])
  }

  lemma WrittenGrows(s: State, s': State, r: ServerId, k: Key, e: Entry)
    requires Extends(s, s') && Written(s, r, k, e)
    ensures Written(s', r, k, e)
  {
    var i :| 0 <= i < |s.ctxs| && Wrote(s.ctxs[i], r, k, e);
    assert Persists(s.ctxs[i], s'.ctxs[i]);
    assert Wrote(s'.ctxs[i], r, k, e);
  }

  /** What a step adds to the tables comes from the round it serves or opens. */
  lemma TablesStep(cfg: Config, s: State, step: Step, r: ServerId, k: Key)
    requires Enabled(cfg, s, step) && r in s.servers
    ensures var s' := Apply(cfg, s, step);
      && r in s'.servers
      && (k in s'.servers[r].table ==>
            || (k in s.servers[r].table && s'.servers[r].table[k] == s.servers[r].table[k])
            || Written(s', r, k, s'.servers[r].table[k]))
  {
    hide MaxCount, Newest, Consensus, Froms, Clocks;
    var s' := Apply(cfg, s, step);
    if step.Handle? {
      assert step.r == r && !IsQuery(s.ctxs[step.i].kind) && s.ctxs[step.i].key == k ==>
        Wrote(s'.ctxs[step.i], r, k, s.ctxs[step.i].payload);
    } else if step.Continue? && |s'.ctxs| > |s.ctxs| {
      var y := s'.ctxs[|s.ctxs|];
      assert y.kind.PutStore? && y.coord == r && y.key == k ==> Wrote(y, r, k, y.payload);
    }
  }

  lemma {:induction false} RunWritten(cfg: Config, run: seq<State>, n: nat)
    requires IsRun(cfg, run) && n < |run|
    ensures AllWritten(run[n]) && run[n].servers.Keys == cfg.servers
  {
    if n > 0 {
      hide Written, Extends, Apply, Enabled;
      RunWritten(cfg, run, n - 1);
      var s := run[n - 1];
      var step := PickStep(cfg, run, n);
      StepKeys(cfg, s, step);
      StepExtends(cfg, s, step);
      forall r, k | r in run[n].servers && k in run[n].servers[r].table
        ensures Written(run[n], r, k, run[n].servers[r].table[k])
      {
        TablesStep(cfg, s, step, r, k);
        if k in s.servers[r].table && run[n].servers[r].table[k] == s.servers[r].table[k] {
          WrittenGrows(s, run[n], r, k, s.servers[r].table[k]);
        }
      }
    }
  }

  /** In every state of every run the entry of a server for a key is the newest of those that
      the rounds made it store: answers to write-backs and queries leave its table alone. */
  lemma TableIsNewest(cfg: Config, run: seq<State>, n: nat, r: ServerId, k: Key)
    requires ValidConfig(cfg) && IsRun(cfg, run) && n < |run| && r in run[n].servers
    ensures k in run[n].servers[r].table ==> Written(run[n], r, k, run[n].servers[r].table[k])
    ensures forall e | Written(run[n], r, k, e) :: Leq(e.clock, ClockAt(run[n], r, k))
  {
    RunWritten(cfg, run, n);
    RunInv(cfg, run, n);
    var s := run[n];
    forall e | Written(s, r, k, e)
      ensures Leq(e.clock, ClockAt(s, r, k))
    {
      var i :| 0 <= i < |s.ctxs| && Wrote(s.ctxs[i], r, k, e);
      assert CtxOk(cfg, s, s.ctxs[i]);
    }
  }

  // ---------------------------------------------------------------- counters

  predicate StartsOn(step: Step, id: ServerId) {
    (step.StartPut? || step.StartGet?) && step.s == id
  }

  /** The steps of a server that start an operation, and those among them on keys that it does
      not own. */
  function Starts(steps: seq<Step>, id: ServerId): nat {
    if steps == [] then 0
    else Starts(steps[..|steps| - 1], id) + Bit(StartsOn(steps[|steps| - 1], id))
  }

  function Skips(cfg: Config, steps: seq<Step>, id: ServerId): nat {
    if steps == [] then 0
    else
      var last := steps[|steps| - 1];
      Skips(cfg, steps[..|steps| - 1], id) + Bit(StartsOn(last, id) && cfg.remotes(id, last.k) == {})
  }

  /** The last rounds of the operations of a server that are over. */
  function Over(kind: Kind, id: ServerId): Ctx -> bool {
    (x: Ctx) => x.kind == kind && x.coord == id && x.done
  }

  ghost predicate Tallied(cfg: Config, s: State, steps: seq<Step>, id: ServerId)
    requires id in s.servers
  {
    var v := s.servers[id];
    && v.acquired == Starts(steps, id) && v.skips == Skips(cfg, steps, id)
    && v.puts == Count(s.ctxs, Over(PutStore, id)) && v.gets == Count(s.ctxs, Over(GetQuery, id))
  }

  /** What a step adds to the counters of a server. */
  lemma CountersStep(cfg: Config, s: State, step: Step, id: ServerId)
    requires Enabled(cfg, s, step) && id in s.servers
    ensures var s' := Apply(cfg, s, step);
      && id in s'.servers
      && var v, v' := s.servers[id], s'.servers[id];
      && v'.acquired == v.acquired + Bit(StartsOn(step, id))
      && v'.skips == v.skips + Bit(StartsOn(step, id) && cfg.remotes(id, step.k) == {})
      && (!step.Continue? ==> v'.puts == v.puts && v'.gets == v.gets)
  {
    hide MaxCount, Newest, Consensus, PutNewer, Froms, Clocks;
  }

  lemma OverFire(cfg: Config, s: State, i: CtxId, r: ServerId, id: ServerId)
    requires Enabled(cfg, s, Continue(i, r)) && id in s.servers && !s.ctxs[i].done
    ensures var s' := Fire(cfg, Opened(s, i, r), i);
      && id in s'.servers
      && var v, v' := s.servers[id], s'.servers[id];
      && v'.puts + Count(s.ctxs, Over(PutStore, id)) == v.puts + Count(s'.ctxs, Over(PutStore, id))
      && v'.gets + Count(s.ctxs, Over(GetQuery, id)) == v.gets + Count(s'.ctxs, Over(GetQuery, id))
  {
    hide MaxCount, Newest, Consensus, PutNewer, Froms, Clocks, Count;
    var s' := Fire(cfg, Opened(s, i, r), i);
    var ctxs := s.ctxs[i := s'.ctxs[i]];
    CountUpdate(s.ctxs, i, s'.ctxs[i], Over(PutStore, id));
    CountUpdate(s.ctxs, i, s'.ctxs[i], Over(GetQuery, id));
    if |s'.ctxs| > |s.ctxs| {
      assert s'.ctxs == ctxs + [s'.ctxs[|s.ctxs|]];
      CountAppend(ctxs, s'.ctxs[|s.ctxs|], Over(PutStore, id));
      CountAppend(ctxs, s'.ctxs[|s.ctxs|], Over(GetQuery, id));
    } else {
      assert s'.ctxs == ctxs;
    }
  }

  lemma OverContinue(cfg: Config, s: State, i: CtxId, r: ServerId, id: ServerId)
    requires Enabled(cfg, s, Continue(i, r)) && id in s.servers
    ensures var s' := Continued(cfg, s, i, r);
      && id in s'.servers
      && var v, v' := s.servers[id], s'.servers[id];
      && v'.puts + Count(s.ctxs, Over(PutStore, id)) == v.puts + Count(s'.ctxs, Over(PutStore, id))
      && v'.gets + Count(s.ctxs, Over(GetQuery, id)) == v.gets + Count(s'.ctxs, Over(GetQuery, id))
  {
    hide Fire, Count;
    var x := Arrived(s.ctxs[i], r);
    if GateOpen(x.nResp, x.nMsgs) && !x.done {
      assert Continued(cfg, s, i, r) == Fire(cfg, Opened(s, i, r), i);
      OverFire(cfg, s, i, r, id);
    } else {
      CountUpdate(s.ctxs, i, x, Over(PutStore, id));
      CountUpdate(s.ctxs, i, x, Over(GetQuery, id));
    }
  }

  /** Starting and answering finishes nothing. */
  lemma OverElse(cfg: Config, s: State, step: Step, kind: Kind, id: ServerId)
    requires Enabled(cfg, s, step) && !step.Continue?
    ensures Count(Apply(cfg, s, step).ctxs, Over(kind, id)) == Count(s.ctxs, Over(kind, id))
  {
    hide Count, Clocks, ServeReply, ServeTable;
    var s' := Apply(cfg, s, step);
    if step.Handle? {
      CountUpdate(s.ctxs, step.i, s'.ctxs[step.i], Over(kind, id));
    } else if |s'.ctxs| > |s.ctxs| {
      CountAppend(s.ctxs, s'.ctxs[|s.ctxs|], Over(kind, id));
    }
  }

  lemma {:induction false} RunTallied(cfg: Config, run: seq<State>, steps: seq<Step>, id: ServerId)
    requires IsRunBy(cfg, run, steps) && id in cfg.servers
    ensures id in Last(run).servers && Tallied(cfg, Last(run), steps, id)
    decreases |steps|
  {
    if steps != [] {
      hide Apply, Enabled, Count, StartsOn, Over;
      var n := |steps| - 1;
      RunByPrefix(cfg, run, steps);
      RunTallied(cfg, run[..n + 1], steps[..n], id);
      TallyStep(cfg, run[n], steps, id);
    }
  }

  lemma TallyStep(cfg: Config, s: State, steps: seq<Step>, id: ServerId)
    requires steps != [] && Enabled(cfg, s, steps[|steps| - 1])
    requires id in s.servers && Tallied(cfg, s, steps[..|steps| - 1], id)
    ensures var s' := Apply(cfg, s, steps[|steps| - 1]); id in s'.servers && Tallied(cfg, s', steps, id)
  {
    hide Count, Continued, Start, Handled;
    var step := steps[|steps| - 1];
    CountersStep(cfg, s, step, id);
    if step.Continue? {
      OverContinue(cfg, s, step.i, step.r, id);
    } else {
      OverElse(cfg, s, step, PutStore, id);
      OverElse(cfg, s, step, GetQuery, id);
    }
  }

  /** The reported operations of a server, by kind. */
  function Finished(s: State, kind: Kind, id: ServerId): set<CtxId> {
    set a | 0 <= a < |s.ctxs| && s.ctxs[a].kind == kind && s.ctxs[a].coord == id && a in s.finished
  }

  lemma OverIsFinished(s: State, id: ServerId)
    requires Linked(s)
    ensures Count(s.ctxs, Over(PutStore, id)) == |Finished(s, PutQuery, id)|
    ensures Count(s.ctxs, Over(GetQuery, id)) == |Finished(s, GetQuery, id)|
  {
    hide Count;
    var puts, gets := Chosen(s.ctxs, Over(PutStore, id)), Chosen(s.ctxs, Over(GetQuery, id));
    forall a | a in Finished(s, PutQuery, id)
      ensures RoundOf(s)(a) in puts && OpOf(s)(RoundOf(s)(a)) == a
    {
      assert LinkedAt(s, a);
      assert LinkedAt(s, RoundOf(s)(a));
    }
    forall i | i in puts
      ensures OpOf(s)(i) in Finished(s, PutQuery, id) && RoundOf(s)(OpOf(s)(i)) == i
    {
      assert LinkedAt(s, i);
      assert LinkedAt(s, OpOf(s)(i));
    }
    SameSize(Finished(s, PutQuery, id), puts, RoundOf(s), OpOf(s));
    CountIsSize(s.ctxs, Over(PutStore, id));
    forall a: CtxId
      ensures a in gets <==> a in Finished(s, GetQuery, id)
    {
      assert a < |s.ctxs| ==> LinkedAt(s, a);
    }
    assert gets == Finished(s, GetQuery, id);
    CountIsSize(s.ctxs, Over(GetQuery, id));
  }

  /** In every run each server has called `put_ret` once for every put of its own that is
      reported, `get_ret` once for every get, and `skip_ret` once for every start on a key that
      it does not own; and it has acquired once for every start. */
  lemma RunCalls(cfg: Config, run: seq<State>, steps: seq<Step>, id: ServerId)
    requires IsRunBy(cfg, run, steps) && id in cfg.servers
    ensures id in Last(run).servers
    ensures var v := Last(run).servers[id];
      && v.puts == |Finished(Last(run), PutQuery, id)| && v.gets == |Finished(Last(run), GetQuery, id)|
      && v.skips == Skips(cfg, steps, id) && v.acquired == Starts(steps, id)
  {
    hide Linked, Finished;
    RunByIsRun(cfg, run, steps);
    RunLinked(cfg, run, |run| - 1);
    RunTallied(cfg, run, steps, id);
    OverIsFinished(Last(run), id);
  }
}
