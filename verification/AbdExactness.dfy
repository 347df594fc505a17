/** Exactly when the protocol keeps its promises, over all configurations and runs: for each
    promise, the condition under which no run breaks it, and otherwise a run that does. */
module AbdExactness {
  import opened Basics
  import opened Lamports
  import opened Store
  import opened Quorum
  import opened Abd
  import opened AbdInvariant
  import opened AbdHistory
  import opened AbdUniqueness
  import opened AbdReach
  import opened AbdTheorems
  import opened AbdRuns

  // ---------------------------------------------------------------- clocks that gets cannot miss

  /** A get on the key that has selected its clock and was not there in `s`. */
  predicate LaterGet(s: State, s': State, k: Key, b: CtxId) {
    |s.ctxs| <= b && IsGet(s', b) && HasClock(s', b) && s'.ctxs[b].key == k
  }

  /** However the run goes on, a get on the key that starts from now on selects at least `c`. */
  ghost predicate NeverMissed(cfg: Config, run: seq<State>, k: Key, c: Lamport)
    requires |run| > 0
  {
    forall run': seq<State>, b | IsRun(cfg, run') && run <= run' && LaterGet(Last(run), Last(run'), k, b) ::
      Leq(c, ClockOfOp(Last(run'), b))
  }

  /** The owners of the key that hold at least the clock. */
  function Holding(cfg: Config, s: State, k: Key, c: Lamport): set<ServerId> {
    set r | r in cfg.group(k) && r in s.servers && Leq(c, ClockAt(s, r, k))
  }

  lemma HeldIsSeen(cfg: Config, run: seq<State>, run': seq<State>, k: Key, c: Lamport, b: CtxId)
    requires ValidConfig(cfg) && IsRun(cfg, run) && IsRun(cfg, run') && run <= run'
    requires LaterGet(Last(run), Last(run'), k, b) || LaterPut(Last(run), Last(run'), k, b)
    requires |Holding(cfg, Last(run), k, c)| + Smallest(|cfg.group(k)|) > |cfg.group(k)|
    ensures Sees(cfg, Last(run'), b, c)
  {
    hide Next, Inv, Leq, Smallest, Sees;
    var i, j := |run| - 1, |run'| - 1;
    assert run'[i] == Last(run);
    var x := run'[j].ctxs[b];
    if Passing(x.outcome.quorum, cfg.group(k)) {
      PassingSize(x.outcome.quorum, cfg.group(k));
    }
    HeldClockIsSeen(cfg, run', i, j, Holding(cfg, Last(run), k, c), c, b);
  }

  /** Owners without the clock that can open the gate of a get among themselves. */
  lemma LackingQuorum(cfg: Config, s: State, k: Key, c: Lamport) returns (q: set<ServerId>)
    requires ValidConfig(cfg) && s.servers.Keys == cfg.servers
    requires |Holding(cfg, s, k, c)| + Smallest(|cfg.group(k)|) <= |cfg.group(k)|
    ensures q <= cfg.group(k) && |q| == Smallest(|cfg.group(k)|)
    ensures forall r | r in q :: r in s.servers && Less(ClockAt(s, r, k), c)
  {
    hide ClockAt;
    var g, h := cfg.group(k), Holding(cfg, s, k, c);
    UnionSize(h, g - h);
    assert h + (g - h) == g;
    q := Split(g - h, Smallest(|g|));
  }

  lemma LackingIsMissed(cfg: Config, run: seq<State>, k: Key, c: Lamport)
    requires ValidConfig(cfg) && IsRun(cfg, run) && Last(run).servers.Keys == cfg.servers
    requires forall id | id in cfg.group(k) && id in cfg.servers :: Last(run).servers[id].request < cfg.maxRequest
    requires |Holding(cfg, Last(run), k, c)| + Smallest(|cfg.group(k)|) <= |cfg.group(k)|
    ensures !NeverMissed(cfg, run, k, c)
  {
    hide Next, Newest, Holding, Asked;
    var s := Last(run);
    var q := LackingQuorum(cfg, s, k, c);
    assert |q| >= 2;
    var id :| id in q;
    var rs := Pick(cfg, s, k, id, q);
    var run' := Get(cfg, run, id, k, rs);
    AskedLess(s, id, k, rs, c);
    assert LaterGet(s, Last(run'), k, |s.ctxs|);
    assert !Leq(c, ClockOfOp(Last(run'), |s.ctxs|));
  }

  /** After any run in which the owners of the key may start operations, no later get can
      miss a clock if and only if its holders meet every set that passes the gate. */
  lemma NeverMissedExactly(cfg: Config, run: seq<State>, k: Key, c: Lamport)
    requires ValidConfig(cfg) && IsRun(cfg, run)
    requires forall id | id in cfg.group(k) && id in Last(run).servers :: Last(run).servers[id].request < cfg.maxRequest
    ensures NeverMissed(cfg, run, k, c) <==>
            |Holding(cfg, Last(run), k, c)| + Smallest(|cfg.group(k)|) > |cfg.group(k)|
  {
    hide ValidConfig, Next, Leq, Holding, Smallest, CtxOk;
    RunInv(cfg, run, |run| - 1);
    if |Holding(cfg, Last(run), k, c)| + Smallest(|cfg.group(k)|) > |cfg.group(k)| {
      forall run': seq<State>, b | IsRun(cfg, run') && run <= run' && LaterGet(Last(run), Last(run'), k, b)
        ensures Leq(c, ClockOfOp(Last(run'), b))
      {
        HeldIsSeen(cfg, run, run', k, c, b);
      }
    } else {
      LackingIsMissed(cfg, run, k, c);
    }
  }

  // ---------------------------------------------------------------- reported puts

  /** The put on the key has been reported. */
  predicate ReportedPut(s: State, k: Key, a: CtxId) {
    IsPut(s, a) && a in s.finished && s.ctxs[a].key == k
  }

  /** In every run a get that starts after a put was reported selects at least its clock. */
  ghost predicate GetsSeePuts(cfg: Config, k: Key) {
    forall run: seq<State>, run': seq<State>, a, b |
      IsRun(cfg, run) && IsRun(cfg, run') && run <= run' && ReportedPut(Last(run), k, a) &&
      LaterGet(Last(run), Last(run'), k, b) ::
        Leq(ClockOfOp(Last(run), a), ClockOfOp(Last(run'), b))
  }

  predicate LaterPut(s: State, s': State, k: Key, b: CtxId) {
    |s.ctxs| <= b && IsPut(s', b) && HasClock(s', b) && s'.ctxs[b].key == k
  }

  /** In every run a put that starts after another was reported has the larger clock, until
      2^32 clocks have been created for the key. */
  ghost predicate PutsSeePuts(cfg: Config, k: Key) {
    forall run: seq<State>, run': seq<State>, a, b |
      IsRun(cfg, run) && IsRun(cfg, run') && run <= run' && ReportedPut(Last(run), k, a) &&
      LaterPut(Last(run), Last(run'), k, b) && Issued(Last(run'), k) < TWO32 ::
        Less(ClockOfOp(Last(run), a), ClockOfOp(Last(run'), b))
  }

  lemma MajoritySees(cfg: Config, k: Key, run: seq<State>, run': seq<State>, a: CtxId, b: CtxId)
    requires ValidConfig(cfg) && MajorityGroup(cfg.group(k)) && IsRun(cfg, run) && IsRun(cfg, run') && run <= run'
    requires ReportedPut(Last(run), k, a)
    requires LaterGet(Last(run), Last(run'), k, b) || LaterPut(Last(run), Last(run'), k, b)
    ensures Sees(cfg, Last(run'), b, ClockOfOp(Last(run), a))
  {
    hide Next, Sees;
    assert run'[|run| - 1] == Last(run);
    CompletedPutIsSeen(cfg, run', |run| - 1, |run'| - 1, a, b);
  }

  /** A put of `id` completes within a smallest passing set, and the other owners know nothing
      of it: in an even group of four or more, one half of the owners. */
  lemma PutInHalf(cfg: Config, k: Key, half: set<ServerId>, id: ServerId) returns (run: seq<State>)
    requires ValidConfig(cfg) && cfg.maxRequest >= 1
    requires id in half && half <= cfg.group(k) && |half| == Smallest(|cfg.group(k)|)
    ensures IsRun(cfg, run)
    ensures var s := Last(run);
      && s.servers.Keys == cfg.servers && |s.ctxs| == 2
      && ReportedPut(s, k, 0) && ClockOfOp(s, 0) == Lamport(1, cfg.mid(id))
      && forall r | r in cfg.group(k) - half :: s.servers[r].request == 0 && ClockAt(s, r, k) == MIN
  {
    hide Next, Asked, MaxCount, PutNewer, Smallest, NewCtx, Choosable;
    FirstState(cfg);
    var s0 := Empty(cfg);
    assert forall r | r in cfg.servers :: ClockAt(s0, r, k) == MIN;
    var rs := Pick(cfg, s0, k, id, half);
    AskedCount(s0, id, k, rs, 0);
    run := Put(cfg, [s0], id, k, [], rs);
    var s1 := Last(run);
    NewIsReady(cfg, s0, s1, id, k, Entry(PutClock(cfg, s0, id, k, rs), []), rs);
    run := Finish(cfg, run, 1, rs);
  }

  lemma NewIsReady(cfg: Config, s: State, s1: State, id: ServerId, k: Key, e: Entry, rs: seq<ServerId>)
    requires Choosable(cfg, s, id, k, rs) && s1.servers.Keys == s.servers.Keys
    requires |s1.ctxs| == |s.ctxs| + 2 && s1.ctxs[|s.ctxs| + 1] == NewCtx(cfg, s, PutStore, id, k, e, |s.ctxs|)
    ensures Ready(s1, |s.ctxs| + 1, rs)
    ensures var x := s1.ctxs[|s.ctxs| + 1];
      && x.kind.PutStore? && !x.done && x.nResp == 0 && Opens(|rs|, x.nMsgs) && x.coord == id && x.op == |s.ctxs|
      && x.key == k && x.payload == e
  {
  }

  lemma Halves(g: set<ServerId>) returns (a: set<ServerId>, b: set<ServerId>)
    requires !MajorityGroup(g)
    ensures a <= g && b == g - a && |a| == |b| == Smallest(|g|)
  {
    a := Split(g, |g| / 2);
    b := g - a;
  }

  lemma HalfMissesGet(cfg: Config, k: Key)
    requires ValidConfig(cfg) && cfg.maxRequest >= 1 && !MajorityGroup(cfg.group(k))
    ensures !GetsSeePuts(cfg, k)
  {
    hide Next, Newest, Asked, Choosable, Smallest;
    var a, b := Halves(cfg.group(k));
    var id :| id in a;
    var run := PutInHalf(cfg, k, a, id);
    var s := Last(run);
    var id' :| id' in b;
    var rs := Pick(cfg, s, k, id', b);
    var run' := Get(cfg, run, id', k, rs);
    AskedLess(s, id', k, rs, Lamport(1, cfg.mid(id)));
    assert LaterGet(s, Last(run'), k, 2);
    assert !Leq(ClockOfOp(s, 0), ClockOfOp(Last(run'), 2));
  }

  lemma HalfMissesPut(cfg: Config, k: Key)
    requires ValidConfig(cfg) && cfg.maxRequest >= 1 && !MajorityGroup(cfg.group(k))
    ensures !PutsSeePuts(cfg, k)
  {
    hide Next, MaxCount, Asked, Count, PutNewer, NewCtx, Choosable, Began, Smallest;
    var a, b := Halves(cfg.group(k));
    var id :| id in a;
    var id' :| id' in b;
    if cfg.mid(id) < cfg.mid(id') {
      assert cfg.group(k) - b == a;
      a, b, id, id' := b, a, id', id;
    }
    var run := PutInHalf(cfg, k, a, id);
    var s := Last(run);
    var rs := Pick(cfg, s, k, id', b);
    AskedCount(s, id', k, rs, 0);
    var run' := Put(cfg, run, id', k, [], rs);
    SmallCount(Last(run').ctxs, Issues(k));
    assert LaterPut(s, Last(run'), k, 2);
    assert !Less(ClockOfOp(s, 0), ClockOfOp(Last(run'), 2));
  }

  lemma {:induction false} SmallCount(xs: seq<Ctx>, p: Ctx -> bool)
    ensures Count(xs, p) <= |xs|
  {
    if xs != [] {
      SmallCount(xs[..|xs| - 1], p);
    }
  }

  /** A reported put is never missed by later operations, in any run, if and only if the group
      of the key has an odd number of owners or at most two. The compiled mode SCALA always
      has three; without it every key is owned by all servers, and their number decides. */
  lemma ReportedPutsAreSeenExactly(cfg: Config, k: Key)
    requires ValidConfig(cfg) && cfg.maxRequest >= 1
    ensures GetsSeePuts(cfg, k) <==> MajorityGroup(cfg.group(k))
    ensures PutsSeePuts(cfg, k) <==> MajorityGroup(cfg.group(k))
  {
    hide Next, ValidConfig;
    if MajorityGroup(cfg.group(k)) {
      forall run: seq<State>, run': seq<State>, a, b |
        IsRun(cfg, run) && IsRun(cfg, run') && run <= run' && ReportedPut(Last(run), k, a) &&
        LaterGet(Last(run), Last(run'), k, b)
        ensures Leq(ClockOfOp(Last(run), a), ClockOfOp(Last(run'), b))
      {
        MajoritySees(cfg, k, run, run', a, b);
      }
      forall run: seq<State>, run': seq<State>, a, b |
        IsRun(cfg, run) && IsRun(cfg, run') && run <= run' && ReportedPut(Last(run), k, a) &&
        LaterPut(Last(run), Last(run'), k, b) && Issued(Last(run'), k) < TWO32
        ensures Less(ClockOfOp(Last(run), a), ClockOfOp(Last(run'), b))
      {
        MajoritySees(cfg, k, run, run', a, b);
      }
    } else {
      HalfMissesGet(cfg, k);
      HalfMissesPut(cfg, k);
    }
  }

  // ---------------------------------------------------------------- reported gets

  /** The get on the key has been reported. */
  predicate ReportedGet(s: State, k: Key, a: CtxId) {
    IsGet(s, a) && a in s.finished && s.ctxs[a].key == k
  }

  /** In every run a get that starts after another was reported selects at least its clock:
      the part of linearizability that write-backs are for. */
  ghost predicate GetsSeeGets(cfg: Config, k: Key) {
    forall run: seq<State>, run': seq<State>, a, b |
      IsRun(cfg, run) && IsRun(cfg, run') && run <= run' && ReportedGet(Last(run), k, a) &&
      LaterGet(Last(run), Last(run'), k, b) ::
        Leq(ClockOfOp(Last(run), a), ClockOfOp(Last(run'), b))
  }

  /** In every run a put that starts after a get was reported has the larger clock, until 2^32
      clocks have been created for the key. */
  ghost predicate PutsSeeGets(cfg: Config, k: Key) {
    forall run: seq<State>, run': seq<State>, a, b |
      IsRun(cfg, run) && IsRun(cfg, run') && run <= run' && ReportedGet(Last(run), k, a) &&
      LaterPut(Last(run), Last(run'), k, b) && Issued(Last(run'), k) < TWO32 ::
        Less(ClockOfOp(Last(run), a), ClockOfOp(Last(run'), b))
  }

  /** An owner of the key holds at least the clock that a get has selected. */
  lemma SelectedHolder(cfg: Config, run: seq<State>, k: Key, a: CtxId) returns (r: ServerId)
    requires ValidConfig(cfg) && IsRun(cfg, run) && ReportedGet(Last(run), k, a)
    ensures r in Holding(cfg, Last(run), k, ClockOfOp(Last(run), a))
  {
    hide Next, ClockAt, Leq, ValidConfig;
    var s := Last(run);
    RunLinked(cfg, run, |run| - 1);
    RunReached(cfg, run, |run| - 1);
    RunInv(cfg, run, |run| - 1);
    assert LinkedAt(s, a) && Reached(s, s.ctxs[a]) && CtxOk(cfg, s, s.ctxs[a]);
    r :| r in s.servers && (r == s.ctxs[a].coord || r in s.ctxs[a].slots) &&
         Leq(ClockOfOp(s, a), ClockAt(s, r, k));
  }

  lemma PairSeesGet(cfg: Config, k: Key, run: seq<State>, run': seq<State>, a: CtxId, b: CtxId)
    requires ValidConfig(cfg) && |cfg.group(k)| <= 2 && IsRun(cfg, run) && IsRun(cfg, run') && run <= run'
    requires ReportedGet(Last(run), k, a)
    requires LaterGet(Last(run), Last(run'), k, b) || LaterPut(Last(run), Last(run'), k, b)
    ensures Sees(cfg, Last(run'), b, ClockOfOp(Last(run), a))
  {
    hide Next, ValidConfig, Holding, Leq, Sees;
    var r := SelectedHolder(cfg, run, k, a);
    HeldIsSeen(cfg, run, run', k, ClockOfOp(Last(run), a), b);
  }

  /** A reader hears the writer, who has told nobody yet, and is reported. */
  lemma ReadAfterWrite(cfg: Config, k: Key, p: ServerId, id: ServerId) returns (run: seq<State>)
    requires ValidConfig(cfg) && cfg.maxRequest >= 1 && |cfg.group(k)| >= 2
    requires p in cfg.group(k) && id in cfg.group(k) && p != id
    ensures IsRun(cfg, run)
    ensures var s := Last(run);
      && s.servers.Keys == cfg.servers && |s.ctxs| <= 4
      && ReportedGet(s, k, 2) && Leq(Lamport(1, cfg.mid(p)), ClockOfOp(s, 2))
      && forall r | r in cfg.servers && r != p :: s.servers[r].request == 0 && ClockAt(s, r, k) == MIN
  {
    hide Next, Newest, Asked, MaxCount, Leq, GetBest, Smallest;
    var g := cfg.group(k);
    SmallestFits(|g|);
    run := WriterAlone(cfg, k, [], p);
    var s := Last(run);
    var q := Around(g - {p}, id, Smallest(|g|) - 1);
    var rs := Pick(cfg, s, k, id, q + {p});
    run := Get(cfg, run, id, k, rs);
    AskedAtLeast(s, id, k, rs, p);
  }

  /** Afterwards the reader hears only servers that know nothing. */
  lemma Elsewhere(cfg: Config, s: State, k: Key, p: ServerId, id: ServerId) returns (rs: seq<ServerId>)
    requires ValidConfig(cfg) && s.servers.Keys == cfg.servers && |cfg.group(k)| >= 3
    requires p in cfg.group(k) && id in cfg.group(k) && p != id
    ensures Choosable(cfg, s, id, k, rs) && p !in rs
  {
    var q := Around(cfg.group(k) - {p}, id, Smallest(|cfg.group(k)|));
    rs := Pick(cfg, s, k, id, q);
  }

  lemma SecondReaderMisses(cfg: Config, k: Key, p: ServerId, id: ServerId)
    requires ValidConfig(cfg) && cfg.maxRequest >= 1 && |cfg.group(k)| >= 3
    requires p in cfg.group(k) && id in cfg.group(k) && p != id
    ensures !GetsSeeGets(cfg, k)
  {
    hide Next, Newest, Asked, Less, Leq, GetBest;
    var run := ReadAfterWrite(cfg, k, p, id);
    var s := Last(run);
    var rs := Elsewhere(cfg, s, k, p, id);
    var run' := Get(cfg, run, id, k, rs);
    MinIsLess(cfg.mid(p));
    AskedLess(s, id, k, rs, Lamport(1, cfg.mid(p)));
    assert LaterGet(s, Last(run'), k, |s.ctxs|);
    LessThenNotLeq(ClockOfOp(Last(run'), |s.ctxs|), Lamport(1, cfg.mid(p)), ClockOfOp(s, 2));
  }

  lemma LaterWriterMisses(cfg: Config, k: Key, p: ServerId, id: ServerId)
    requires ValidConfig(cfg) && cfg.maxRequest >= 1 && |cfg.group(k)| >= 3
    requires p in cfg.group(k) && id in cfg.group(k) && p != id && cfg.mid(id) <= cfg.mid(p)
    ensures !PutsSeeGets(cfg, k)
  {
    hide Next, MaxCount, Asked, Count, PutNewer;
    var run := ReadAfterWrite(cfg, k, p, id);
    var s := Last(run);
    var rs := Elsewhere(cfg, s, k, p, id);
    AskedCount(s, id, k, rs, 0);
    var run' := Put(cfg, run, id, k, [], rs);
    SmallCount(Last(run').ctxs, Issues(k));
    assert LaterPut(s, Last(run'), k, |s.ctxs|);
    assert !Less(ClockOfOp(s, 2), ClockOfOp(Last(run'), |s.ctxs|));
  }

  lemma MinIsLess(mid: U32)
    ensures Less(MIN, Lamport(1, mid))
  {
  }

  lemma LessThenNotLeq(a: Lamport, b: Lamport, c: Lamport)
    requires Less(a, b) && Leq(b, c)
    ensures !Leq(c, a)
  {
  }

  /** A put that has chosen its clock and stored it at its coordinator only. */
  lemma WriterAlone(cfg: Config, k: Key, v: Bytes, p: ServerId) returns (run: seq<State>)
    requires ValidConfig(cfg) && cfg.maxRequest >= 1 && p in cfg.group(k) && |cfg.group(k)| >= 2
    ensures IsRun(cfg, run)
    ensures var s := Last(run);
      && s.servers.Keys == cfg.servers && |s.ctxs| == 2
      && s.servers[p].table == map[k := Entry(Lamport(1, cfg.mid(p)), v)]
      && forall r | r in cfg.servers && r != p :: s.servers[r].request == 0 && ClockAt(s, r, k) == MIN
  {
    hide Next, Asked, MaxCount;
    FirstState(cfg);
    var s0 := Empty(cfg);
    assert forall r | r in cfg.servers :: ClockAt(s0, r, k) == MIN;
    var q := Around(cfg.group(k), p, Smallest(|cfg.group(k)|));
    var rs := Pick(cfg, s0, k, p, q);
    AskedCount(s0, p, k, rs, 0);
    run := Put(cfg, [s0], p, k, v, rs);
  }

  /** Two owners, the one with the larger machine id first. */
  lemma TwoOwners(cfg: Config, k: Key) returns (p: ServerId, id: ServerId)
    requires |cfg.group(k)| >= 2
    ensures p in cfg.group(k) && id in cfg.group(k) && p != id && cfg.mid(id) <= cfg.mid(p)
  {
    p :| p in cfg.group(k);
    assert |cfg.group(k) - {p}| >= 1;
    id :| id in cfg.group(k) - {p};
    if cfg.mid(p) < cfg.mid(id) {
      p, id := id, p;
    }
  }

  /** A reported get is never missed by later operations, in any run, if and only if the key
      has at most two owners. */
  lemma ReportedGetsAreSeenExactly(cfg: Config, k: Key)
    requires ValidConfig(cfg) && cfg.maxRequest >= 1
    ensures GetsSeeGets(cfg, k) <==> |cfg.group(k)| <= 2
    ensures PutsSeeGets(cfg, k) <==> |cfg.group(k)| <= 2
  {
    hide Next, ValidConfig, Leq, Less;
    if |cfg.group(k)| <= 2 {
      forall run: seq<State>, run': seq<State>, a, b |
        IsRun(cfg, run) && IsRun(cfg, run') && run <= run' && ReportedGet(Last(run), k, a) &&
        LaterGet(Last(run), Last(run'), k, b)
        ensures Leq(ClockOfOp(Last(run), a), ClockOfOp(Last(run'), b))
      {
        PairSeesGet(cfg, k, run, run', a, b);
      }
      forall run: seq<State>, run': seq<State>, a, b |
        IsRun(cfg, run) && IsRun(cfg, run') && run <= run' && ReportedGet(Last(run), k, a) &&
        LaterPut(Last(run), Last(run'), k, b) && Issued(Last(run'), k) < TWO32
        ensures Less(ClockOfOp(Last(run), a), ClockOfOp(Last(run'), b))
      {
        PairSeesGet(cfg, k, run, run', a, b);
      }
    } else {
      var p, id := TwoOwners(cfg, k);
      SecondReaderMisses(cfg, k, p, id);
      LaterWriterMisses(cfg, k, p, id);
    }
  }

  // ---------------------------------------------------------------- machine ids

  /** Two puts of the state on the key have the same clock. */
  predicate Clash(s: State, k: Key, a: CtxId, b: CtxId) {
    && a != b && IsPut(s, a) && IsPut(s, b) && HasClock(s, a) && HasClock(s, b)
    && s.ctxs[a].key == k && s.ctxs[b].key == k && ClockOfOp(s, a) == ClockOfOp(s, b)
  }

  /** In every run the puts on the key have different clocks, up to the 2^32nd. */
  ghost predicate ClocksDiffer(cfg: Config, k: Key) {
    forall run: seq<State>, a, b | IsRun(cfg, run) && Issued(Last(run), k) <= TWO32 :: !Clash(Last(run), k, a, b)
  }

  /** A put's query on the key whose listed replies, and whose coordinator, know no clock. */
  ghost predicate Blank(s: State, i: CtxId, k: Key, rs: seq<ServerId>) {
    && i < |s.ctxs| && Replied(s.ctxs[i], rs) && s.ctxs[i].coord in s.servers
    && ClockAt(s, s.ctxs[i].coord, k) == MIN
    && s.ctxs[i].kind.PutQuery? && s.ctxs[i].key == k && !s.ctxs[i].done
    && s.ctxs[i].nResp == 0 && s.ctxs[i].cache == [] && Opens(|rs|, s.ctxs[i].nMsgs)
    && forall r | r in rs :: s.ctxs[i].slots[r] == Answered(TimeStamp(MIN))
  }

  /** Such a put picks the first clock of its coordinator. */
  lemma PassBlank(cfg: Config, run: seq<State>, i: CtxId, k: Key, rs: seq<ServerId>) returns (run': seq<State>)
    requires IsRun(cfg, run) && Blank(Last(run), i, k, rs)
    ensures IsRun(cfg, run')
    ensures var s, s' := Last(run), Last(run');
      && s'.servers.Keys == s.servers.Keys && |s'.ctxs| == |s.ctxs| + 1
      && (forall j | 0 <= j < |s.ctxs| && j != i :: s'.ctxs[j] == s.ctxs[j])
      && (forall r | r in s.servers && r != s.ctxs[i].coord :: s'.servers[r].table == s.servers[r].table)
      && IsPut(s', i) && HasClock(s', i) && s'.ctxs[i].key == k
      && ClockOfOp(s', i) == Lamport(1, cfg.mid(s.ctxs[i].coord))
      && var x := s'.ctxs[|s.ctxs|];
      x.kind.PutStore? && x.key == k && x.payload == Entry(ClockOfOp(s', i), s.ctxs[i].payload.value)
  {
    hide Next, MaxCount, PutNewer, Froms, Clocks;
    var s := Last(run);
    run' := Pass(cfg, run, i, rs);
    BlankCount(s.ctxs[i], rs);
  }

  lemma BlankCount(x: Ctx, rs: seq<ServerId>)
    requires Replied(x, rs) && x.cache == [] && forall r | r in rs :: x.slots[r] == Answered(TimeStamp(MIN))
    ensures MaxCount(0, Collected(x, rs).cache) == 0
  {
    hide MaxCount;
    var cache := Collected(x, rs).cache;
    MaxCountIsMax(0, cache);
    forall c | c in cache
      ensures c.reply == TimeStamp(MIN)
    {
      var j :| 0 <= j < |cache| && cache[j] == c;
      assert rs[j] in rs;
    }
  }

  /** Two owners start puts on a key that nobody has written, and both queries are answered
      before either goes on. */
  lemma TwoBlank(cfg: Config, k: Key, p: ServerId, q: ServerId, v: Bytes, w: Bytes)
    returns (run: seq<State>, rs: seq<ServerId>, rs': seq<ServerId>)
    requires ValidConfig(cfg) && cfg.maxRequest >= 1 && p in cfg.group(k) && q in cfg.group(k) && p != q
    ensures IsRun(cfg, run) && |Last(run).ctxs| == 2
    ensures Last(run).ctxs[0].coord == p && Last(run).ctxs[1].coord == q
    ensures Last(run).ctxs[0].payload.value == v && Last(run).ctxs[1].payload.value == w
    ensures Blank(Last(run), 0, k, rs) && Blank(Last(run), 1, k, rs')
  {
    hide Next, Served, Start, Smallest;
    var g := cfg.group(k);
    SubsetSize({p, q}, g);
    assert 1 <= Smallest(|g|) <= |g| by { SmallestFits(|g|); }
    var s0 := Empty(cfg);
    FirstState(cfg);
    var around := Around(g, p, Smallest(|g|));
    rs := Pick(cfg, s0, k, p, around);
    around := Around(g, q, Smallest(|g|));
    rs' := Pick(cfg, s0, k, q, around);
    run := [s0];
    StartBlank(cfg, s0, p, k, v, rs);
    Extend(cfg, run, StartPut(p, k, v));
    run := run + [Start(cfg, s0, p, PutQuery, k, Entry(MIN, v))];
    run := HandleAll(cfg, run, 0, rs);
    var s1 := Last(run);
    StartBlank(cfg, s1, q, k, w, rs');
    Extend(cfg, run, StartPut(q, k, w));
    run := run + [Start(cfg, s1, q, PutQuery, k, Entry(MIN, w))];
    run := HandleAll(cfg, run, 1, rs');
  }

  lemma SmallestFits(n: nat)
    requires n >= 2
    ensures 2 <= Smallest(n) <= n
  {
  }

  /** A put that starts where no store knows the key, and whose request has been answered. */
  lemma StartBlank(cfg: Config, s: State, id: ServerId, k: Key, v: Bytes, rs: seq<ServerId>)
    requires Choosable(cfg, s, id, k, rs) && forall r | r in s.servers :: ClockAt(s, r, k) == MIN
    ensures var s1 := Start(cfg, s, id, PutQuery, k, Entry(MIN, v));
      var n := |s.ctxs|;
      && Ready(s1, n, rs)
      && var s2 := Served(s1, n, rs);
      && Blank(s2, n, k, rs) && |s2.ctxs| == n + 1 && s2.ctxs[..n] == s.ctxs
      && s2.ctxs[n].coord == id && s2.ctxs[n].payload.value == v
      && s2.servers.Keys == s.servers.Keys
      && (forall r | r in s.servers :: ClockAt(s2, r, k) == MIN)
      && (forall r | r in s.servers && r != id :: s2.servers[r].request == s.servers[r].request)
  {
    ServedQuery(cfg, s, PutQuery, id, k, Entry(MIN, v), rs);
  }

  /** Owners with equal machine ids give one clock to two puts, with any two values. */
  lemma EqualIdsClash(cfg: Config, k: Key, p: ServerId, q: ServerId, v: Bytes, w: Bytes) returns (run: seq<State>)
    requires ValidConfig(cfg) && cfg.maxRequest >= 1 && p in cfg.group(k) && q in cfg.group(k) && p != q
    requires cfg.mid(p) == cfg.mid(q)
    ensures IsRun(cfg, run) && Issued(Last(run), k) <= TWO32 && Clash(Last(run), k, 0, 1)
    ensures Present(Last(run), k, Entry(Lamport(1, cfg.mid(p)), v))
    ensures Present(Last(run), k, Entry(Lamport(1, cfg.mid(p)), w))
  {
    hide Next, Count, Replied, Opens;
    var rs, rs';
    run, rs, rs' := TwoBlank(cfg, k, p, q, v, w);
    run := PassBlank(cfg, run, 0, k, rs);
    run := PassBlank(cfg, run, 1, k, rs');
    SmallCount(Last(run).ctxs, Issues(k));
    var s := Last(run);
    assert s.ctxs[2].payload == Entry(Lamport(1, cfg.mid(p)), v);
    assert s.ctxs[3].payload == Entry(Lamport(1, cfg.mid(p)), w);
  }

  /** Puts on a key never share a clock, in any run with at most 2^32 of them, if and only if
      the owners of the key have different machine ids. */
  lemma ClocksDifferExactly(cfg: Config, k: Key)
    requires ValidConfig(cfg) && cfg.maxRequest >= 1
    ensures ClocksDiffer(cfg, k) <==> DistinctIds(cfg, k)
  {
    hide Next, ValidConfig, Issued;
    if DistinctIds(cfg, k) {
      forall run: seq<State>, a, b | IsRun(cfg, run) && Issued(Last(run), k) <= TWO32
        ensures !Clash(Last(run), k, a, b)
      {
        if Clash(Last(run), k, a, b) {
          PutClocksDiffer(cfg, run, |run| - 1, a, b);
        }
      }
    } else {
      var p, q :| p in cfg.group(k) && q in cfg.group(k) && p != q && cfg.mid(p) == cfg.mid(q);
      var run := EqualIdsClash(cfg, k, p, q, [], []);
      assert Clash(Last(run), k, 0, 1);
    }
  }
}
