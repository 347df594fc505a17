/** The guarantees of the protocol, stated on operations and whole runs. An operation is
    named by the context of its first round. */
module AbdTheorems {
  import opened Basics
  import opened Lamports
  import opened Store
  import opened Quorum
  import opened Abd
  import opened AbdInvariant
  import opened AbdRegularity
  import opened AbdHistory
  import opened AbdProvenance
  import opened AbdUniqueness

  predicate IsPut(s: State, a: CtxId) {
    a < |s.ctxs| && s.ctxs[a].kind.PutQuery?
  }

  predicate IsGet(s: State, a: CtxId) {
    a < |s.ctxs| && s.ctxs[a].kind.GetQuery?
  }

  /** The operation has chosen its clock. */
  predicate HasClock(s: State, a: CtxId) {
    a < |s.ctxs| && IsQuery(s.ctxs[a].kind) && s.ctxs[a].done
  }

  function ClockOfOp(s: State, a: CtxId): Lamport
    requires a < |s.ctxs|
  {
    s.ctxs[a].outcome.clock
  }

  /** `put_ret` has been called for the put. */
  lemma FinishedPutIsHeld(cfg: Config, s: State, a: CtxId)
    requires Inv(cfg, s) && Linked(s) && IsPut(s, a) && a in s.finished
    ensures HasClock(s, a)
    ensures exists q :: Passing(q, cfg.group(s.ctxs[a].key)) && HeldBy(s, q, s.ctxs[a].key, ClockOfOp(s, a))
  {
    assert LinkedAt(s, a);
    var x := s.ctxs[a].outcome.next;
    assert LinkedAt(s, x);
    CompletedPutIsHeld(cfg, s, x);
    HoldersHold(cfg, s, x);
  }

  /** The operation `b` takes the clock `c` into account: a get selects a clock at least as
      large; a put picks a strictly larger one, except when the 32-bit counter it increments
      wraps to zero; and that cannot happen before 2^32 puts on the key. */
  ghost predicate Sees(cfg: Config, s: State, b: CtxId, c: Lamport)
    requires b < |s.ctxs|
  {
    && (IsGet(s, b) ==> Leq(c, ClockOfOp(s, b)))
    && (IsPut(s, b) ==>
         && (Less(c, ClockOfOp(s, b)) <==>
               s.ctxs[b].outcome.seen + 1 < TWO32 || Less(c, Lamport(0, cfg.mid(s.ctxs[b].coord))))
         && (Issued(s, s.ctxs[b].key) < TWO32 ==> Less(c, ClockOfOp(s, b))))
  }

  /** A clock held by servers that must meet every passing set is seen by later operations. */
  lemma HeldClockIsSeen(cfg: Config, run: seq<State>, i: nat, j: nat, q: set<ServerId>, c: Lamport, b: CtxId)
    requires ValidConfig(cfg) && IsRun(cfg, run) && i <= j < |run|
    requires |run[i].ctxs| <= b && HasClock(run[j], b)
    requires q <= cfg.group(run[j].ctxs[b].key) && HeldBy(run[i], q, run[j].ctxs[b].key, c)
    requires Passing(run[j].ctxs[b].outcome.quorum, cfg.group(run[j].ctxs[b].key)) ==>
               |q| + |run[j].ctxs[b].outcome.quorum| > |cfg.group(run[j].ctxs[b].key)|
    ensures Sees(cfg, run[j], b, c)
  {
    hide Inv, HeldBy, Unique, Count, IsRun, ValidConfig;
    var x := run[j].ctxs[b];
    RunInv(cfg, run, j);
    DecidedOp(cfg, run[j], b);
    LaterOperationSees(cfg, run, i, j, q, c, b);
    RunCounts(cfg, run, j);
    if IsPut(run[j], b) {
      NewClockIsNewer(c, x.outcome.seen, cfg.mid(x.coord));
    }
  }

  lemma DecidedOp(cfg: Config, s: State, b: CtxId)
    requires Inv(cfg, s) && HasClock(s, b)
    ensures Passing(s.ctxs[b].outcome.quorum, cfg.group(s.ctxs[b].key))
    ensures IsPut(s, b) ==> ClockOfOp(s, b) == Lamport(Increment(s.ctxs[b].outcome.seen), cfg.mid(s.ctxs[b].coord))
  {
  }

  /** A put that has completed before another operation on the key starts, whoever the
      coordinators are, is seen by it. */
  lemma CompletedPutIsSeen(cfg: Config, run: seq<State>, i: nat, j: nat, a: CtxId, b: CtxId)
    requires ValidConfig(cfg) && IsRun(cfg, run) && i <= j < |run|
    requires IsPut(run[i], a) && a in run[i].finished
    requires |run[i].ctxs| <= b && HasClock(run[j], b) && run[j].ctxs[b].key == run[i].ctxs[a].key
    requires MajorityGroup(cfg.group(run[i].ctxs[a].key))
    ensures Sees(cfg, run[j], b, ClockOfOp(run[i], a))
  {
    hide Inv, Linked, HeldBy, IsRun, ValidConfig, Sees;
    RunInv(cfg, run, i);
    RunLinked(cfg, run, i);
    FinishedPutIsHeld(cfg, run[i], a);
    var k := run[i].ctxs[a].key;
    var q :| Passing(q, cfg.group(k)) && HeldBy(run[i], q, k, ClockOfOp(run[i], a));
    HeldClockIsSeen(cfg, run, i, j, q, ClockOfOp(run[i], a), b);
  }

  /** Once every remote has answered the write-back of a get, in a group of three or more,
      whatever its parity, every later operation on the key sees the clock the get had
      selected. */
  lemma AnsweredGetIsSeen(cfg: Config, run: seq<State>, i: nat, j: nat, w: CtxId, b: CtxId)
    requires ValidConfig(cfg) && IsRun(cfg, run) && i <= j < |run|
    requires w < |run[i].ctxs| && run[i].ctxs[w].kind.GetStore?
    requires forall r | r in run[i].ctxs[w].slots :: !run[i].ctxs[w].slots[r].Requested?
    requires |run[i].ctxs| <= b && HasClock(run[j], b) && run[j].ctxs[b].key == run[i].ctxs[w].key
    requires |cfg.group(run[i].ctxs[w].key)| >= 3
    ensures IsGet(run[i], run[i].ctxs[w].op) && HasClock(run[i], run[i].ctxs[w].op)
    ensures Sees(cfg, run[j], b, ClockOfOp(run[i], run[i].ctxs[w].op))
  {
    hide Inv, HeldBy, IsRun, ValidConfig, Sees;
    RunInv(cfg, run, i);
    RunLinked(cfg, run, i);
    assert LinkedAt(run[i], w);
    HoldersHold(cfg, run[i], w);
    AnsweredWriteBackIsHeld(cfg, run[i], w);
    HeldClockIsSeen(cfg, run, i, j, Holders(run[i].ctxs[w]), run[i].ctxs[w].payload.clock, b);
  }

  /** A get selects the minimal clock or one that a put on the same key created. */
  lemma SelectedClockWasCreated(cfg: Config, run: seq<State>, n: nat, b: CtxId)
    requires IsRun(cfg, run) && n < |run| && IsGet(run[n], b) && HasClock(run[n], b)
    ensures ClockKnown(run[n], run[n].ctxs[b].key, ClockOfOp(run[n], b))
  {
    RunSourced(cfg, run, n);
    assert SourcedCtx(run[n], run[n].ctxs[b]);
    KnownClock(run[n], run[n].ctxs[b].key, run[n].ctxs[b].outcome.winner);
  }

  /** With distinct machine ids no two puts on a key have the same clock, as long as no more
      than 2^32 clocks have been created for the key. */
  lemma PutClocksDiffer(cfg: Config, run: seq<State>, n: nat, a: CtxId, b: CtxId)
    requires ValidConfig(cfg) && IsRun(cfg, run) && n < |run|
    requires a != b && IsPut(run[n], a) && IsPut(run[n], b) && HasClock(run[n], a) && HasClock(run[n], b)
    requires run[n].ctxs[a].key == run[n].ctxs[b].key
    requires DistinctIds(cfg, run[n].ctxs[a].key) && Issued(run[n], run[n].ctxs[a].key) <= TWO32
    ensures ClockOfOp(run[n], a) != ClockOfOp(run[n], b)
  {
    RunCounts(cfg, run, n);
  }

  /** An entry is in some store, or in a PutReplica round of a put or of a get. */
  ghost predicate Present(s: State, k: Key, e: Entry) {
    || (exists r :: r in s.servers && k in s.servers[r].table && s.servers[r].table[k] == e)
    || (exists i :: 0 <= i < |s.ctxs| && !IsQuery(s.ctxs[i].kind) && s.ctxs[i].key == k && s.ctxs[i].payload == e)
  }

  /** As long as every write-back on the key carried the entry its get selected, and whatever
      happens to other keys, entries of the key with equal clocks are equal, wherever they are. */
  lemma EqualClocksEqualValues(cfg: Config, run: seq<State>, n: nat, k: Key, e: Entry, e': Entry)
    requires ValidConfig(cfg) && DistinctIds(cfg, k) && IsRun(cfg, run) && n < |run|
    requires Faithful(run[n], k) && Issued(run[n], k) <= TWO32
    requires Present(run[n], k, e) && Present(run[n], k, e') && e.clock == e'.clock
    ensures e == e'
  {
    var s := run[n];
    RunSourced(cfg, run, n);
    PresentIsKnown(s, k, e);
    PresentIsKnown(s, k, e');
    var i :| 0 <= i < |s.ctxs| && IsCreator(s.ctxs[i], k, e.clock) && s.ctxs[i].payload.value == e.value;
    var j :| 0 <= j < |s.ctxs| && IsCreator(s.ctxs[j], k, e'.clock) && s.ctxs[j].payload.value == e'.value;
    if i != j {
      PutClocksDiffer(cfg, run, n, i, j);
    }
  }

  lemma PresentIsKnown(s: State, k: Key, e: Entry)
    requires Sourced(s) && Present(s, k, e)
    ensures Known(s, k, e)
  {
  }

  /** The count of every clock that is stored or carried by a PutReplica round is at most the
      number of clocks created for its key. */
  lemma PresentCountBound(cfg: Config, run: seq<State>, n: nat, k: Key, e: Entry)
    requires ValidConfig(cfg) && IsRun(cfg, run) && n < |run| && Present(run[n], k, e)
    ensures e.clock.count <= Issued(run[n], k)
  {
    RunSourced(cfg, run, n);
    RunCounts(cfg, run, n);
    PresentIsKnown(run[n], k, e);
    KnownCountBound(run[n], k, e.clock);
  }

  /** A reply to a context of the key is on its way to the coordinator, or cached there. */
  ghost predicate InFlight(s: State, k: Key, r: Reply) {
    exists i :: 0 <= i < |s.ctxs| && s.ctxs[i].key == k && Carries(s.ctxs[i], r)
  }

  ghost predicate Carries(x: Ctx, r: Reply) {
    (exists q :: q in x.slots && x.slots[q] == Answered(r)) || (exists c :: c in x.cache && c.reply == r)
  }

  /** The same for the clock of every reply. */
  lemma ReplyCountBound(cfg: Config, run: seq<State>, n: nat, k: Key, r: Reply)
    requires ValidConfig(cfg) && IsRun(cfg, run) && n < |run| && InFlight(run[n], k, r) && !r.Ack?
    ensures r.clock.count <= Issued(run[n], k)
  {
    hide Count, IsRun, ValidConfig;
    var s := run[n];
    RunSourced(cfg, run, n);
    RunCounts(cfg, run, n);
    var i :| 0 <= i < |s.ctxs| && s.ctxs[i].key == k && Carries(s.ctxs[i], r);
    assert SourcedCtx(s, s.ctxs[i]);
    if r.Versioned? {
      KnownClock(s, k, Entry(r.clock, r.value));
    }
    KnownCountBound(s, k, r.clock);
  }

  // ---------------------------------------------------------------- the end of operations

  /** A put is over when its second round is done. */
  ghost predicate SecondRoundDone(s: State, a: CtxId) {
    exists x :: 0 <= x < |s.ctxs| && s.ctxs[x].kind.PutStore? && s.ctxs[x].op == a && s.ctxs[x].done
  }

  /** The reported operations are exactly the gets whose query is done and the puts whose
      second round is done. */
  lemma ReportedExactly(s: State, a: CtxId)
    requires Linked(s)
    ensures IsGet(s, a) ==> (a in s.finished <==> HasClock(s, a))
    ensures IsPut(s, a) ==> (a in s.finished <==> SecondRoundDone(s, a))
  {
    if IsPut(s, a) || IsGet(s, a) {
      assert LinkedAt(s, a);
      forall x | 0 <= x < |s.ctxs| && s.ctxs[x].kind.PutStore? && s.ctxs[x].op == a
        ensures IsPut(s, a) && s.ctxs[a].done && x == s.ctxs[a].outcome.next
      {
        assert LinkedAt(s, x);
      }
    }
  }

  /** An operation is reported once: the list of reported operations only grows, without
      repeats, and holds exactly the operations whose last round is done, whatever number of
      late answers arrives. */
  lemma {:induction false} ReportedOnce(cfg: Config, run: seq<State>, i: nat, j: nat, a: CtxId)
    requires IsRun(cfg, run) && i <= j < |run|
    ensures run[i].finished <= run[j].finished && Distinct(run[j].finished)
    ensures IsGet(run[j], a) ==> (a in run[j].finished <==> HasClock(run[j], a))
    ensures IsPut(run[j], a) ==> (a in run[j].finished <==> SecondRoundDone(run[j], a))
  {
    hide IsGet, IsPut, HasClock, SecondRoundDone, IsRun, Apply, Enabled;
    RunLinked(cfg, run, j);
    ReportedExactly(run[j], a);
    if i < j {
      ReportedOnce(cfg, run, i, j - 1, a);
      var step := PickStep(cfg, run, j);
      FinishedGrows(cfg, run[j - 1], step);
    }
  }

  lemma FinishedGrows(cfg: Config, s: State, step: Step)
    requires Enabled(cfg, s, step)
    ensures s.finished <= Apply(cfg, s, step).finished
  {
  }

  /** No answer is outstanding anywhere. */
  predicate Quiet(s: State) {
    forall i, r | 0 <= i < |s.ctxs| && r in s.ctxs[i].slots :: s.ctxs[i].slots[r].Consumed?
  }

  lemma {:induction false} CountNone(xs: seq<Ctx>, p: Ctx -> bool)
    requires forall i | 0 <= i < |xs| :: !p(xs[i])
    ensures Count(xs, p) == 0
  {
    if xs != [] {
      CountNone(xs[..|xs| - 1], p);
    }
  }

  lemma QuietIsDone(cfg: Config, s: State, i: CtxId)
    requires Inv(cfg, s) && Quiet(s) && i < |s.ctxs|
    ensures s.ctxs[i].done
  {
    var x := s.ctxs[i];
    assert CtxOk(cfg, s, x);
    forall r | r in x.slots
      ensures r in Froms(x.cache)
    {
      assert x.slots[r].Consumed?;
    }
    SubsetSize(x.slots.Keys, Froms(x.cache));
  }

  /** When every answer has arrived, every operation has been reported and both
      `current_traces` and the rate counter of every server are back at zero. */
  lemma QuietMeansFinished(cfg: Config, run: seq<State>, n: nat)
    requires ValidConfig(cfg) && IsRun(cfg, run) && n < |run| && Quiet(run[n])
    ensures forall a | 0 <= a < |run[n].ctxs| && IsQuery(run[n].ctxs[a].kind) :: a in run[n].finished
    ensures forall id | id in run[n].servers ::
              var v := run[n].servers[id];
              v.traces == 0 && v.request == 0 && v.acquired == v.puts + v.gets + v.skips
  {
    var s := run[n];
    RunInv(cfg, run, n);
    RunLinked(cfg, run, n);
    RunBalanced(cfg, run, n);
    forall i | 0 <= i < |s.ctxs|
      ensures s.ctxs[i].done
    {
      QuietIsDone(cfg, s, i);
    }
    forall a | 0 <= a < |s.ctxs| && IsQuery(s.ctxs[a].kind)
      ensures a in s.finished
    {
      assert LinkedAt(s, a);
    }
    forall id | id in s.servers
      ensures s.servers[id].traces == 0
    {
      CountNone(s.ctxs, Owed(id));
      assert Balanced(cfg, s, id);
    }
  }

  // ---------------------------------------------------------------- the consensus shortcut

  lemma {:induction false} VotesBound(cache: seq<Cached>, c: Lamport)
    ensures Votes(cache, c) <= |cache|
  {
    if cache != [] {
      VotesBound(cache[..|cache| - 1], c);
    }
  }

  /** The votes for a clock are the cached replies that carry it. */
  lemma {:induction false} VotesCount(cache: seq<Cached>, c: Lamport)
    ensures Votes(cache, c) == |Voters(cache, c)|
  {
    if cache != [] {
      var n := |cache| - 1;
      VotesCount(cache[..n], c);
      assert Voters(cache, c) == Voters(cache[..n], c) + if n in Voters(cache, c) then {n} else {};
    }
  }

  function Voters(cache: seq<Cached>, c: Lamport): set<nat> {
    set i: nat | i < |cache| && cache[i].reply.Versioned? && cache[i].reply.clock == c
  }

  lemma {:induction false} VotesOfTwo(cache: seq<Cached>, c: Lamport, d: Lamport)
    requires c != d
    ensures Votes(cache, c) + Votes(cache, d) <= |cache|
  {
    if cache != [] {
      VotesOfTwo(cache[..|cache| - 1], c, d);
    }
  }

  /** At most one clock can pass the test on the replies of `nMsgs` remotes. */
  lemma ConsensusIsUnique(cache: seq<Cached>, nMsgs: nat, c: Lamport, d: Lamport)
    requires |cache| <= nMsgs && Votes(cache, c) > nMsgs / 2 && Votes(cache, d) > nMsgs / 2
    ensures c == d
  {
    if c != d {
      VotesOfTwo(cache, c, d);
    }
  }

  /** Fewer replies than a majority needs carry no consensus; a single one does for a single
      remote. */
  lemma FewVotes(cache: seq<Cached>, nMsgs: nat)
    requires |cache| <= nMsgs / 2
    ensures !Consensus(cache, nMsgs)
  {
    forall c
      ensures Votes(cache, c) <= nMsgs / 2
    {
      VotesBound(cache, c);
    }
  }

  lemma OnlyVote(c: Cached)
    requires c.reply.Versioned?
    ensures Consensus([c], 1)
  {
    assert [c][..0] == [];
    assert Votes([c], c.reply.clock) == 1;
  }

  /** The numbers with which the gate of a query opens. */
  lemma OpeningCounts(cfg: Config, y: Ctx, r: ServerId)
    requires Shape(cfg, y) && y.kind.GetQuery? && !y.done && r in y.slots && y.slots[r].Answered?
    requires var x := Arrived(y, r); GateOpen(x.nResp, x.nMsgs)
    ensures var x := Arrived(y, r);
      && x.nMsgs >= 1 && |x.cache| == x.nResp == (if x.nMsgs == 1 then 1 else x.nMsgs / 2)
      && y.slots[r].reply.Versioned? && (x.nResp == 1 ==> x.cache == [Cached(r, y.slots[r].reply)])
  {
    hide Froms;
  }

  lemma FirstOpening(cfg: Config, y: Ctx, r: ServerId)
    requires Shape(cfg, y) && y.kind.GetQuery? && !y.done && r in y.slots && y.slots[r].Answered?
    requires var x := Arrived(y, r); GateOpen(x.nResp, x.nMsgs)
    ensures var x := Arrived(y, r);
      && x.nMsgs >= 1
      && x.nResp == (if x.nMsgs == 1 then 1 else x.nMsgs / 2)
      && (Consensus(x.cache, x.nMsgs) <==> x.nMsgs == 1)
  {
    hide Shape, Votes, Consensus;
    OpeningCounts(cfg, y, r);
    var x := Arrived(y, r);
    if x.nMsgs == 1 {
      OnlyVote(Cached(r, y.slots[r].reply));
    } else {
      FewVotes(x.cache, x.nMsgs);
    }
  }

  /** The gate first opens with exactly half of the remotes (rounded down), so with two or
      more remotes the test cannot succeed and a get writes back whenever it has a value to
      write; with a single remote it always succeeds and nothing is written back. */
  lemma WriteBackUnlessSingleRemote(cfg: Config, s: State, i: CtxId, r: ServerId)
    requires Inv(cfg, s) && Enabled(cfg, s, Continue(i, r)) && s.ctxs[i].kind.GetQuery? && !s.ctxs[i].done
    requires var x := Arrived(s.ctxs[i], r); GateOpen(x.nResp, x.nMsgs)
    ensures var x := Arrived(s.ctxs[i], r);
      var s' := Continued(cfg, s, i, r);
      && x.nResp == (if x.nMsgs == 1 then 1 else x.nMsgs / 2)
      && (Consensus(x.cache, x.nMsgs) <==> x.nMsgs == 1)
      && (|s'.ctxs| > |s.ctxs| <==> x.nMsgs >= 2 && |s'.ctxs[i].outcome.value| > 0)
      && (|s'.ctxs| > |s.ctxs| ==>
            |s'.ctxs| == |s.ctxs| + 1 && s'.ctxs[|s.ctxs|].kind.GetStore? && s'.ctxs[|s.ctxs|].op == i)
  {
    hide Newest, Froms, KeySpan, Consensus, Shape, Held, Decided;
    assert CtxOk(cfg, s, s.ctxs[i]);
    FirstOpening(cfg, s.ctxs[i], r);
    assert Continued(cfg, s, i, r) == RetValue(cfg, Opened(s, i, r), i);
  }
}
