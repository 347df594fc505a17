/** The end of a benchmark run (src/server.cpp:412-437 and 466-478), with one thread per
    server: a server that has drained its operations tells everybody DONE and waits until it
    has heard DONE from all others and its own DONE has been acknowledged by all of them. */
module Barrier {
  import opened Quorum

  type ServerId = nat

  datatype Phase = Issuing | Waiting | Left

  /** `otherFinished` and `othersAck` are the counters the source waits on; `heard` and
      `acked` are history: from whom DONE has arrived, and who has acknowledged ours. */
  datatype Server = Server(
    phase: Phase, traces: nat, otherFinished: nat, othersAck: nat, heard: set<ServerId>, acked: set<ServerId>)

  type State = map<ServerId, Server>

  /** A server that has left the wait handles nothing any more. */
  datatype Step =
    | Begin(s: ServerId)
    | End(s: ServerId)
    | SendDone(s: ServerId)                  // the trace is used up and load_traces() is 0
    | HandleDone(from: ServerId, s: ServerId) // the handler `cmd`
    | HandleAck(from: ServerId, s: ServerId)  // the continuation `cmd_ret`
    | Leave(s: ServerId)

  predicate Enabled(st: State, step: Step) {
    step.s in st &&
    var v := st[step.s];
    match step
    case Begin(_) => v.phase.Issuing?
    case End(_) => v.traces > 0
    case SendDone(_) => v.phase.Issuing? && v.traces == 0
    case HandleDone(f, s) => !v.phase.Left? && f in st && f != s && !st[f].phase.Issuing? && f !in v.heard
    case HandleAck(f, s) => !v.phase.Left? && f in st && f != s && s in st[f].heard && f !in v.acked
    case Leave(_) => v.phase.Waiting? && !(v.otherFinished < |st| - 1 || v.othersAck < |st| - 1)
  }

  function Apply(st: State, step: Step): State
    requires Enabled(st, step)
  {
    var v := st[step.s];
    st[step.s :=
      match step
      case Begin(_) => v.(traces := v.traces + 1)
      case End(_) => v.(traces := v.traces - 1)
      case SendDone(_) => v.(phase := Waiting)
      case HandleDone(f, _) => v.(otherFinished := v.otherFinished + 1, heard := v.heard + {f})
      case HandleAck(f, _) => v.(othersAck := v.othersAck + 1, acked := v.acked + {f})
      case Leave(_) => v.(phase := Left)]
  }

  ghost predicate Init(st: State) {
    forall s | s in st :: st[s] == Server(Issuing, 0, 0, 0, {}, {})
  }

  ghost predicate Next(st: State, st': State) {
    exists step :: Enabled(st, step) && st' == Apply(st, step)
  }

  ghost predicate IsRun(run: seq<State>) {
    && |run| > 0 && Init(run[0])
    && forall i | 0 < i < |run| :: Next(run[i - 1], run[i])
  }

  /** The counters count servers, and the servers counted are peers. */
  ghost predicate Counted(st: State, s: ServerId)
    requires s in st
  {
    var v := st[s];
    && v.otherFinished == |v.heard| && v.heard <= st.Keys - {s}
    && v.othersAck == |v.acked| && v.acked <= st.Keys - {s}
    && (!v.phase.Issuing? ==> v.traces == 0)
    && (v.phase.Left? ==> v.otherFinished >= |st.Keys| - 1 && v.othersAck >= |st.Keys| - 1)
  }

  /** DONE is only heard from servers that have drained, and an acknowledgement only comes
      from servers that have heard us. */
  ghost predicate Honest(st: State, s: ServerId)
    requires s in st
  {
    && (forall f | f in st[s].heard :: f in st && !st[f].phase.Issuing?)
    && (forall f | f in st[s].acked :: f in st && s in st[f].heard)
  }

  ghost predicate Inv(st: State) {
    forall s | s in st :: Counted(st, s) && Honest(st, s)
  }

  lemma StepCounted(st: State, step: Step, s: ServerId)
    requires Enabled(st, step) && s in st && Counted(st, s)
    ensures Apply(st, step).Keys == st.Keys && Counted(Apply(st, step), s)
  {
  }

  lemma StepHonest(st: State, step: Step, s: ServerId)
    requires Enabled(st, step) && s in st && Honest(st, s)
    ensures s in Apply(st, step) && Honest(Apply(st, step), s)
  {
  }

  lemma {:induction false} RunInv(run: seq<State>, n: nat)
    requires IsRun(run) && n < |run|
    ensures Inv(run[n])
  {
    if n > 0 {
      RunInv(run, n - 1);
      var st := run[n - 1];
      assert Next(st, run[n]);
      var step :| Enabled(st, step) && run[n] == Apply(st, step);
      assert run[n].Keys == st.Keys;
      forall s | s in st
        ensures Counted(run[n], s) && Honest(run[n], s)
      {
        StepCounted(st, step, s);
        StepHonest(st, step, s);
      }
    }
  }

  lemma FullSet(a: set<ServerId>, b: set<ServerId>)
    requires a <= b && |a| >= |b|
    ensures a == b
  {
    SubsetSize(b - a, b);
    UnionSize(a, b - a);
    assert a + (b - a) == b;
  }

  lemma LeftHeardAll(st: State, s: ServerId)
    requires s in st && Counted(st, s) && st[s].phase.Left?
    ensures st[s].heard == st[s].acked == st.Keys - {s}
  {
    var peers := st.Keys - {s};
    UnionSize(peers, {s});
    assert peers + {s} == st.Keys;
    FullSet(st[s].heard, peers);
    FullSet(st[s].acked, peers);
  }

  /** In every state of every run, a server that has left the final wait has heard DONE from
      every peer, every peer has drained its operations and will start no more, and every
      peer has acknowledged this server's own DONE. */
  lemma LeavesLast(run: seq<State>, n: nat, s: ServerId, p: ServerId)
    requires IsRun(run) && n < |run| && s in run[n] && p in run[n] && p != s && run[n][s].phase.Left?
    ensures p in run[n][s].heard && p in run[n][s].acked
    ensures !run[n][p].phase.Issuing? && run[n][p].traces == 0 && s in run[n][p].heard
  {
    hide Next, Init;
    RunInv(run, n);
    var st := run[n];
    assert Counted(st, s) && Honest(st, s) && Counted(st, p);
    LeftHeardAll(st, s);
  }

  /** A state in which no server can do anything but start another operation. */
  ghost predicate Stuck(st: State) {
    forall step | Enabled(st, step) :: step.Begin?
  }

  lemma StuckHasDrained(st: State, s: ServerId)
    requires Stuck(st) && s in st
    ensures !st[s].phase.Issuing?
  {
    assert !Enabled(st, End(s)) && !Enabled(st, SendDone(s));
  }

  lemma CompleteMayLeave(st: State, s: ServerId)
    requires s in st && Counted(st, s) && st[s].phase.Waiting?
    requires forall p | p in st && p != s :: p in st[s].heard && p in st[s].acked
    ensures Enabled(st, Leave(s))
  {
    var peers := st.Keys - {s};
    UnionSize(peers, {s});
    assert peers + {s} == st.Keys && st[s].heard == peers && st[s].acked == peers;
  }

  /** Nobody is stranded: although a server that has left answers nothing, a run that can
      only start operations has let every server leave. */
  lemma NobodyIsStranded(run: seq<State>, n: nat, s: ServerId)
    requires IsRun(run) && n < |run| && s in run[n] && Stuck(run[n])
    ensures run[n][s].phase.Left?
  {
    RunInv(run, n);
    var st := run[n];
    StuckHasDrained(st, s);
    if st[s].phase.Waiting? {
      forall p | p in st && p != s
        ensures p in st[s].heard && p in st[s].acked
      {
        StuckHasDrained(st, p);
        assert !Enabled(st, HandleDone(p, s)) && !Enabled(st, HandleDone(s, p)) && !Enabled(st, HandleAck(p, s));
        if st[p].phase.Left? {
          LeavesLast(run, n, p, s);
        }
      }
      CompleteMayLeave(st, s);
    }
  }

  // ---------------------------------------------------------------- runs with their steps

  ghost predicate IsRunBy(run: seq<State>, steps: seq<Step>) {
    && |run| == |steps| + 1
    && Init(run[0])
    && forall i | 0 <= i < |steps| :: Enabled(run[i], steps[i]) && run[i + 1] == Apply(run[i], steps[i])
  }

  lemma RunByIsRun(run: seq<State>, steps: seq<Step>)
    requires IsRunBy(run, steps)
    ensures IsRun(run)
  {
    forall i | 0 < i < |run|
      ensures Next(run[i - 1], run[i])
    {
      assert Enabled(run[i - 1], steps[i - 1]) && run[(i - 1) + 1] == Apply(run[i - 1], steps[i - 1]);
    }
  }

  function Times(steps: seq<Step>, step: Step): nat {
    if steps == [] then 0
    else Times(steps[..|steps| - 1], step) + if steps[|steps| - 1] == step then 1 else 0
  }

  /** The record of a server says what the steps have done: the trace counter is the number of
      operations begun and not ended, DONE has been heard from exactly those whose message was
      handled, and the phase is that of the server's own steps. */
  ghost predicate Recorded(st: State, steps: seq<Step>, s: ServerId)
    requires s in st
  {
    var v := st[s];
    && v.traces + Times(steps, End(s)) == Times(steps, Begin(s))
    && (forall f :: f in v.heard <==> HandleDone(f, s) in steps)
    && (forall f :: f in v.acked <==> HandleAck(f, s) in steps)
    && (v.phase.Issuing? <==> SendDone(s) !in steps)
    && (v.phase.Left? <==> Leave(s) in steps)
  }

  lemma StepRecorded(st: State, before: seq<Step>, step: Step, s: ServerId)
    requires Enabled(st, step) && s in st && Recorded(st, before, s)
    ensures s in Apply(st, step) && Recorded(Apply(st, step), before + [step], s)
  {
    var steps := before + [step];
    assert steps[..|steps| - 1] == before;
    assert forall x :: x in steps <==> x in before || x == step;
  }

  lemma {:induction false} RunRecorded(run: seq<State>, steps: seq<Step>, s: ServerId)
    requires IsRunBy(run, steps) && s in run[0]
    ensures s in run[|steps|] && Recorded(run[|steps|], steps, s)
    decreases |steps|
  {
    if steps != [] {
      hide Recorded, Apply, Enabled;
      var n := |steps| - 1;
      assert steps == steps[..n] + [steps[n]];
      RunRecorded(run[..n + 1], steps[..n], s);
      StepRecorded(run[n], steps[..n], steps[n], s);
    }
  }

  lemma {:induction false} RunServers(run: seq<State>, n: nat)
    requires IsRun(run) && n < |run|
    ensures run[n].Keys == run[0].Keys
  {
    if n > 0 {
      RunServers(run, n - 1);
      assert Next(run[n - 1], run[n]);
    }
  }

  /** Once a server has left, it and every peer have ended each operation that they had begun, and
      the peer has sent DONE, which the server has heard, and has heard and acknowledged the
      server's own. */
  lemma LeavesWhenAllHaveDrained(run: seq<State>, steps: seq<Step>, s: ServerId, p: ServerId)
    requires IsRunBy(run, steps) && s in run[0] && p in run[0] && p != s && Leave(s) in steps
    ensures Times(steps, Begin(p)) == Times(steps, End(p)) && Times(steps, Begin(s)) == Times(steps, End(s))
    ensures SendDone(p) in steps && HandleDone(p, s) in steps && HandleDone(s, p) in steps && HandleAck(p, s) in steps
  {
    hide Init, Next, Enabled, Apply, Counted, Honest;
    RunByIsRun(run, steps);
    RunServers(run, |steps|);
    RunRecorded(run, steps, s);
    RunRecorded(run, steps, p);
    LeavesLast(run, |steps|, s, p);
    RunInv(run, |steps|);
    DrainedIsZero(run[|steps|], s);
  }

  lemma DrainedIsZero(st: State, s: ServerId)
    requires Inv(st) && s in st && !st[s].phase.Issuing?
    ensures st[s].traces == 0
  {
    assert Counted(st, s);
  }
}
