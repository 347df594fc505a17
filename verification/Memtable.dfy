/** Concurrent puts on one key of the memtable (src/memtables/memtable.cpp:9-19): threads
    interleave the insertion, the load of the metadata pointer and the compare-and-swap
    loop. The result is a register that keeps the newest clock. */
module Memtable {
  import opened Basics
  import opened Lamports
  import opened Store

  type Thread = nat

  /** Where a thread is in `put`. `Loaded(o)` holds the pointer `old_meta`; every installed
      metadata object is named by its position in the log of installations, so that two
      pointers are equal exactly when the positions are. */
  datatype Pc =
    | Enter
    | Found
    | Loaded(oldMeta: nat)
    | Done(result: bool)

  /** `log` lists the threads whose entry was installed, the current one last; `order` lists
      the threads in the order in which they returned (both are history), and `fails` counts
      the compare-and-swaps of a thread that failed because the pointer had changed. */
  datatype State = State(log: seq<Thread>, pcs: seq<Pc>, fails: seq<nat>, order: seq<Thread>)

  datatype Step =
    | Insert(t: Thread)   // addOrGetData adds the node
    | Find(t: Thread)     // addOrGetData finds the node
    | Load(t: Thread)
    | Test(t: Thread)     // the loop ends on old_meta->clock < clock being false
    | Cas(t: Thread)      // the compare-and-swap succeeds
    | Retry(t: Thread)    // it fails: the pointer has changed, old_meta is reloaded
    | Spurious(t: Thread) // the weak compare-and-swap fails for no reason

  predicate Older(puts: seq<Entry>, s: State, o: nat, t: Thread)
    requires o < |s.log| && s.log[o] < |puts| && t < |puts|
  {
    Less(puts[s.log[o]].clock, puts[t].clock)
  }

  predicate Enabled(puts: seq<Entry>, s: State, step: Step)
    requires Sized(puts, s)
  {
    var t := step.t;
    t < |puts| &&
    match step
    case Insert(_) => s.pcs[t].Enter? && s.log == []
    case Find(_) => s.pcs[t].Enter? && s.log != []
    case Load(_) => s.pcs[t].Found?
    case Test(_) => s.pcs[t].Loaded? && !Older(puts, s, s.pcs[t].oldMeta, t)
    case Cas(_) => s.pcs[t].Loaded? && Older(puts, s, s.pcs[t].oldMeta, t) && s.pcs[t].oldMeta == |s.log| - 1
    case Retry(_) => s.pcs[t].Loaded? && Older(puts, s, s.pcs[t].oldMeta, t) && s.pcs[t].oldMeta != |s.log| - 1
    case Spurious(_) => s.pcs[t].Loaded? && Older(puts, s, s.pcs[t].oldMeta, t) && s.pcs[t].oldMeta == |s.log| - 1
  }

  predicate Sized(puts: seq<Entry>, s: State) {
    && |s.pcs| == |s.fails| == |puts|
    && (forall i | 0 <= i < |s.log| :: s.log[i] < |puts|)
    && (forall t | 0 <= t < |puts| :: s.pcs[t].Found? || s.pcs[t].Loaded? ==> s.log != [])
    && (forall t | 0 <= t < |puts| && s.pcs[t].Loaded? :: s.pcs[t].oldMeta < |s.log|)
  }

  function Finish(s: State, t: Thread, result: bool): State
    requires t < |s.pcs|
  {
    s.(pcs := s.pcs[t := Done(result)], order := s.order + [t])
  }

  function Apply(puts: seq<Entry>, s: State, step: Step): State
    requires Sized(puts, s) && Enabled(puts, s, step)
  {
    var t := step.t;
    match step
    case Insert(_) => Finish(s, t, true).(log := [t])
    case Find(_) => s.(pcs := s.pcs[t := Found])
    case Load(_) => s.(pcs := s.pcs[t := Loaded(|s.log| - 1)])
    case Test(_) => Finish(s, t, Older(puts, s, s.pcs[t].oldMeta, t))
    case Cas(_) => Finish(s, t, Older(puts, s, s.pcs[t].oldMeta, t)).(log := s.log + [t])
    case Retry(_) => s.(pcs := s.pcs[t := Loaded(|s.log| - 1)], fails := s.fails[t := s.fails[t] + 1])
    case Spurious(_) => s
  }

  function Init(puts: seq<Entry>): State {
    State([], seq(|puts|, _ => Enter), seq(|puts|, _ => 0), [])
  }

  /** The states reached by a schedule. */
  ghost predicate Reaches(puts: seq<Entry>, steps: seq<Step>, s: State)
    decreases |steps|
  {
    if steps == [] then s == Init(puts)
    else
      var last := steps[|steps| - 1];
      exists r ::
        && Reaches(puts, steps[..|steps| - 1], r) && Sized(puts, r) && Enabled(puts, r, last)
        && s == Apply(puts, r, last)
  }

  // ---------------------------------------------------------------- invariant

  /** Installed clocks strictly increase. */
  ghost predicate LogOk(puts: seq<Entry>, s: State)
    requires Sized(puts, s)
  {
    forall i, j | 0 <= i < j < |s.log| :: Less(puts[s.log[i]].clock, puts[s.log[j]].clock)
  }

  /** A thread returns true exactly when its entry was installed, the clock of a thread that
      has returned is covered by the current one, and every counted failure moved the
      thread's pointer forward in the log. */
  ghost predicate ThreadOk(puts: seq<Entry>, s: State, t: Thread)
    requires Sized(puts, s) && t < |puts|
  {
    && (s.pcs[t] == Done(true) <==> t in s.log)
    && (s.pcs[t].Done? <==> t in s.order)
    && (match s.pcs[t]
        case Enter => s.fails[t] == 0
        case Found => s.fails[t] == 0
        case Loaded(o) => s.fails[t] <= o
        case Done(_) => s.fails[t] < |s.log| && Leq(puts[t].clock, puts[s.log[|s.log| - 1]].clock))
  }

  predicate OrderOk(puts: seq<Entry>, s: State) {
    && Distinct(s.order)
    && (forall i | 0 <= i < |s.order| :: s.order[i] < |puts|)
  }

  ghost predicate Inv(puts: seq<Entry>, s: State) {
    && Sized(puts, s)
    && LogOk(puts, s)
    && OrderOk(puts, s)
    && forall t | 0 <= t < |puts| :: ThreadOk(puts, s, t)
  }

  /** The node's current entry, as a table with the one key. */
  function Register(puts: seq<Entry>, s: State, k: Key): Table
    requires Sized(puts, s)
  {
    if s.log == [] then map[] else map[k := puts[s.log[|s.log| - 1]]]
  }

  lemma StepSized(puts: seq<Entry>, s: State, step: Step)
    requires Inv(puts, s) && Enabled(puts, s, step)
    ensures var s' := Apply(puts, s, step); Sized(puts, s') && LogOk(puts, s')
  {
  }

  lemma StepThread(puts: seq<Entry>, s: State, step: Step, t: Thread)
    requires Inv(puts, s) && Enabled(puts, s, step) && t < |puts|
    ensures var s' := Apply(puts, s, step); Sized(puts, s') && ThreadOk(puts, s', t)
  {
    hide OrderOk;
    StepSized(puts, s, step);
    assert ThreadOk(puts, s, t) && ThreadOk(puts, s, step.t);
  }

  lemma StepInv(puts: seq<Entry>, s: State, step: Step)
    requires Inv(puts, s) && Enabled(puts, s, step)
    ensures Inv(puts, Apply(puts, s, step))
  {
    hide LogOk, Sized;
    var s' := Apply(puts, s, step);
    StepSized(puts, s, step);
    assert ThreadOk(puts, s, step.t);
    forall t | 0 <= t < |puts|
      ensures ThreadOk(puts, s', t)
    {
      StepThread(puts, s, step, t);
    }
  }

  /** Every step of the interleaved code is nothing at all on the register, or the whole
      atomic put of one thread, with the result that this thread returns. */
  lemma StepRefines(puts: seq<Entry>, s: State, step: Step, k: Key)
    requires Inv(puts, s) && Enabled(puts, s, step)
    ensures Inv(puts, Apply(puts, s, step))
    ensures var s' := Apply(puts, s, step);
      var r, r' := Register(puts, s, k), Register(puts, s', k);
      if s'.pcs[step.t].Done? then
        && s'.order == s.order + [step.t]
        && r' == PutNewer(r, k, puts[step.t])
        && (s'.pcs[step.t].result <==> r' != r)
      else s'.order == s.order && r' == r
  {
    StepInv(puts, s, step);
    assert ThreadOk(puts, s, step.t);
  }

  /** Each failure that is not spurious is paid for by an installation of another thread with
      a clock strictly larger than the one that was loaded. */
  lemma FailureIsPaid(puts: seq<Entry>, s: State, t: Thread)
    requires Inv(puts, s) && Enabled(puts, s, Retry(t))
    ensures var o, n := s.pcs[t].oldMeta, |s.log| - 1;
      s.log[n] != t && Less(puts[s.log[o]].clock, puts[s.log[n]].clock)
  {
    assert ThreadOk(puts, s, t);
  }

  // ---------------------------------------------------------------- all schedules

  /** The atomic puts of the listed threads, one after the other. */
  function Sequential(puts: seq<Entry>, order: seq<Thread>, k: Key): Table
    requires forall i | 0 <= i < |order| :: order[i] < |puts|
  {
    if order == [] then map[]
    else PutNewer(Sequential(puts, order[..|order| - 1], k), k, puts[order[|order| - 1]])
  }

  lemma InitInv(puts: seq<Entry>)
    ensures Inv(puts, Init(puts))
  {
  }

  /** Under every schedule the register is what the atomic puts leave when they run in the
      order in which the threads return. */
  lemma {:induction false} Linearizes(puts: seq<Entry>, steps: seq<Step>, s: State, k: Key)
    requires Reaches(puts, steps, s)
    ensures Inv(puts, s) && Register(puts, s, k) == Sequential(puts, s.order, k)
    decreases |steps|
  {
    hide ThreadOk, LogOk, OrderOk, Sized, Enabled, Apply;
    if steps == [] {
      InitInv(puts);
    } else {
      var last := steps[|steps| - 1];
      var r :|
        && Reaches(puts, steps[..|steps| - 1], r) && Sized(puts, r) && Enabled(puts, r, last)
        && s == Apply(puts, r, last);
      Linearizes(puts, steps[..|steps| - 1], r, k);
      StepRefines(puts, r, last, k);
      if s.order != r.order {
        assert s.order[..|s.order| - 1] == r.order;
      }
    }
  }

  /** No thread is ever stuck: until it has returned it has a step, other than a spurious
      failure. */
  lemma ThreadCanStep(puts: seq<Entry>, s: State, t: Thread) returns (step: Step)
    requires Inv(puts, s) && t < |puts| && !s.pcs[t].Done?
    ensures step.t == t && !step.Spurious? && Enabled(puts, s, step)
  {
    assert ThreadOk(puts, s, t);
    match s.pcs[t]
    case Enter => step := if s.log == [] then Insert(t) else Find(t);
    case Found => step := Load(t);
    case Loaded(o) => step := if !Older(puts, s, o, t) then Test(t) else if o == |s.log| - 1 then Cas(t) else Retry(t);
  }

  /** The clock of the register, the minimum while the key is missing. */
  function Current(puts: seq<Entry>, s: State): Lamport
    requires Sized(puts, s)
  {
    if s.log == [] then MIN else puts[s.log[|s.log| - 1]].clock
  }

  lemma CurrentNeverDecreases(puts: seq<Entry>, s: State, step: Step)
    requires Inv(puts, s) && Enabled(puts, s, step)
    ensures Sized(puts, Apply(puts, s, step)) && Leq(Current(puts, s), Current(puts, Apply(puts, s, step)))
  {
  }

  lemma {:induction false} DistinctBound(xs: seq<Thread>, n: nat)
    requires forall i | 0 <= i < |xs| :: xs[i] < n
    requires Distinct(xs)
    ensures |xs| <= n
  {
    if xs == [] {
    } else if i :| 0 <= i < |xs| && xs[i] == n - 1 {
      DistinctBound(xs[..i] + xs[i + 1..], n - 1);
    } else {
      assert xs[0] < n;
      DistinctBound(xs, n - 1);
    }
  }

  /** The installations since the thread loaded its pointer for the first time. */
  function SinceLoad(steps: seq<Step>, t: Thread): nat
    decreases |steps|
  {
    if steps == [] then 0
    else
      var last := steps[|steps| - 1];
      if last == Load(t) then 0
      else SinceLoad(steps[..|steps| - 1], t) + if last.Insert? || last.Cas? then 1 else 0
  }

  /** What a thread still holds back of the installations since its load. */
  predicate Paid(s: State, t: Thread, since: nat)
    requires t < |s.pcs| && t < |s.fails|
  {
    match s.pcs[t]
    case Enter => s.fails[t] == 0
    case Found => s.fails[t] == 0
    case Loaded(o) => s.fails[t] + |s.log| <= since + o + 1
    case Done(_) => s.fails[t] <= since
  }

  lemma StepPaid(puts: seq<Entry>, s: State, steps: seq<Step>, t: Thread)
    requires steps != [] && Inv(puts, s) && Enabled(puts, s, steps[|steps| - 1]) && t < |puts|
    requires Paid(s, t, SinceLoad(steps[..|steps| - 1], t))
    ensures var s' := Apply(puts, s, steps[|steps| - 1]); Sized(puts, s') && Paid(s', t, SinceLoad(steps, t))
  {
    hide LogOk, OrderOk;
    StepSized(puts, s, steps[|steps| - 1]);
    assert ThreadOk(puts, s, t);
  }

  /** Under every schedule the counted failures of a thread are at most the installations since
      its load. */
  lemma {:induction false} FailuresArePaid(puts: seq<Entry>, steps: seq<Step>, s: State, t: Thread)
    requires Reaches(puts, steps, s) && t < |puts|
    ensures Inv(puts, s) && Paid(s, t, SinceLoad(steps, t)) && s.fails[t] <= SinceLoad(steps, t)
    decreases |steps|
  {
    Linearizes(puts, steps, s, []);
    if steps != [] {
      hide Inv, Apply, Enabled, Paid;
      var last := steps[|steps| - 1];
      var r :|
        && Reaches(puts, steps[..|steps| - 1], r) && Sized(puts, r) && Enabled(puts, r, last)
        && s == Apply(puts, r, last);
      FailuresArePaid(puts, steps[..|steps| - 1], r, t);
      StepPaid(puts, r, steps, t);
    }
    PaidBounds(puts, s, t, SinceLoad(steps, t));
  }

  lemma PaidBounds(puts: seq<Entry>, s: State, t: Thread, since: nat)
    requires Inv(puts, s) && t < |puts| && Paid(s, t, since)
    ensures s.fails[t] <= since
  {
    assert ThreadOk(puts, s, t);
  }

  /** Retries are bounded: under every schedule of n threads a thread sees fewer than n
      failures that are not spurious. */
  lemma RetriesAreBounded(puts: seq<Entry>, steps: seq<Step>, s: State, t: Thread)
    requires Reaches(puts, steps, s) && t < |puts|
    ensures Inv(puts, s) && s.fails[t] < |puts|
  {
    Linearizes(puts, steps, s, []);
    DistinctBound(s.log, |puts|);
    assert ThreadOk(puts, s, t);
  }

  /** When all threads have returned, the register holds one of the attempted entries, its
      clock is the largest of all attempted ones, and the threads that returned true are
      exactly those whose entries were installed. */
  lemma EndsAtMaximum(puts: seq<Entry>, steps: seq<Step>, s: State, k: Key)
    requires Reaches(puts, steps, s) && |puts| > 0
    requires forall t | 0 <= t < |s.pcs| :: s.pcs[t].Done?
    ensures Inv(puts, s) && s.log != []
    ensures Register(puts, s, k) == map[k := puts[s.log[|s.log| - 1]]]
    ensures forall t | 0 <= t < |puts| :: Leq(puts[t].clock, puts[s.log[|s.log| - 1]].clock)
    ensures forall t | 0 <= t < |puts| :: s.pcs[t].result <==> t in s.log
  {
    hide Reaches, LogOk, OrderOk, Sequential;
    Linearizes(puts, steps, s, k);
    assert ThreadOk(puts, s, 0);
    forall t | 0 <= t < |puts|
      ensures Leq(puts[t].clock, puts[s.log[|s.log| - 1]].clock) && (s.pcs[t].result <==> t in s.log)
    {
      assert ThreadOk(puts, s, t);
    }
  }
}
