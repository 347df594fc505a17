/** Building runs: a round of messages with a chosen list of remotes. */
module AbdRuns {
  import opened Basics
  import opened Lamports
  import opened Store
  import opened Quorum
  import opened Abd
  import opened AbdInvariant

  function Last(run: seq<State>): State
    requires |run| > 0
  {
    run[|run| - 1]
  }

  function Empty(cfg: Config): State {
    State(map r | r in cfg.servers :: Server(map[], 0, 0, 0, 0, 0, 0, 0), [], [])
  }

  /** Servers can own the keys in any groups. */
  lemma ConfigExists(servers: set<ServerId>, group: Key -> set<ServerId>, mid: ServerId -> U32, maxRequest: nat)
    returns (cfg: Config)
    requires forall k :: group(k) <= servers
    ensures ValidConfig(cfg) && cfg.servers == servers && cfg.group == group && cfg.mid == mid
    ensures cfg.maxRequest == maxRequest
  {
    cfg := Config(servers, (s, k) => if s in group(k) then group(k) - {s} else {}, group, mid, maxRequest);
  }

  lemma Extend(cfg: Config, run: seq<State>, step: Step)
    requires IsRun(cfg, run) && Enabled(cfg, Last(run), step)
    ensures IsRun(cfg, run + [Apply(cfg, Last(run), step)])
  {
    var run' := run + [Apply(cfg, Last(run), step)];
    forall i | 0 < i < |run'|
      ensures Next(cfg, run'[i - 1], run'[i])
    {
      if i < |run| {
        assert Next(cfg, run[i - 1], run[i]);
      }
    }
  }

  /** Lists a set. */
  lemma {:induction false} Listing(q: set<ServerId>) returns (rs: seq<ServerId>)
    ensures Distinct(rs) && |rs| == |q| && forall r :: r in rs <==> r in q
    decreases |q|
  {
    if q == {} {
      rs := [];
    } else {
      var r :| r in q;
      var rest := Listing(q - {r});
      rs := rest + [r];
    }
  }

  // ---------------------------------------------------------------- the replicas answer

  predicate Ready(s: State, i: CtxId, rs: seq<ServerId>) {
    && i < |s.ctxs| && Distinct(rs)
    && forall r | r in rs :: r in s.servers && r in s.ctxs[i].slots && s.ctxs[i].slots[r].Requested?
  }

  /** The request of context `i` has been handled by the listed servers. */
  function Served(s: State, i: CtxId, rs: seq<ServerId>): State
    requires Ready(s, i, rs)
  {
    var x := s.ctxs[i];
    s.(servers := map r | r in s.servers ::
         var v := s.servers[r];
         if r in rs then v.(table := ServeTable(v.table, x.kind, x.key, x.payload)) else v,
       ctxs := s.ctxs[i := x.(slots := map r | r in x.slots ::
         if r in rs then Answered(ServeReply(s.servers[r].table, x.kind, x.key)) else x.slots[r])])
  }

  lemma ServedNext(s: State, i: CtxId, rs: seq<ServerId>, r: ServerId)
    requires Ready(s, i, rs + [r])
    ensures Ready(s, i, rs) && r !in rs
    ensures var s1 := Served(s, i, rs);
      && i < |s1.ctxs| && r in s1.ctxs[i].slots && s1.ctxs[i].slots[r].Requested? && r in s1.servers
      && Handled(s1, i, r) == Served(s, i, rs + [r])
  {
    hide ServeTable, ServeReply;
    var rs' := rs + [r];
    assert forall q | q in rs :: q in rs';
    assert forall j | 0 <= j < |rs| :: rs[j] == rs'[j] && rs'[j] != rs'[|rs|];
    var s1, s2 := Served(s, i, rs), Served(s, i, rs');
    assert r in rs';
    assert Handled(s1, i, r).servers == s2.servers;
    assert Handled(s1, i, r).ctxs[i].slots == s2.ctxs[i].slots;
  }

  lemma {:induction false} HandleAll(cfg: Config, run: seq<State>, i: CtxId, rs: seq<ServerId>)
    returns (run': seq<State>)
    requires IsRun(cfg, run) && Ready(Last(run), i, rs)
    ensures IsRun(cfg, run') && run <= run' && Last(run') == Served(Last(run), i, rs)
    decreases |rs|
  {
    hide Next, Served, Handled;
    var s := Last(run);
    if rs == [] {
      run' := run;
      ServedNone(s, i);
    } else {
      var n := |rs| - 1;
      var r := rs[n];
      assert rs == rs[..n] + [r];
      ServedNext(s, i, rs[..n], r);
      var before := HandleAll(cfg, run, i, rs[..n]);
      Extend(cfg, before, Handle(i, r));
      run' := before + [Handled(Last(before), i, r)];
    }
  }

  lemma ServedNone(s: State, i: CtxId)
    requires i < |s.ctxs|
    ensures Served(s, i, []) == s
  {
    assert Served(s, i, []).servers == s.servers;
    assert Served(s, i, []).ctxs[i].slots == s.ctxs[i].slots;
  }

  // ---------------------------------------------------------------- the coordinator goes on

  predicate Replied(x: Ctx, rs: seq<ServerId>) {
    Distinct(rs) && forall r | r in rs :: r in x.slots && x.slots[r].Answered?
  }

  function Replies(x: Ctx, rs: seq<ServerId>): (cache: seq<Cached>)
    requires Replied(x, rs)
    ensures |cache| == |rs|
  {
    seq(|rs|, j requires 0 <= j < |rs| => Cached(rs[j], x.slots[rs[j]].reply))
  }

  /** The replies of the listed servers have been cached and counted. */
  function Collected(x: Ctx, rs: seq<ServerId>): Ctx
    requires Replied(x, rs)
  {
    x.(slots := map r | r in x.slots :: if r in rs then Consumed else x.slots[r],
       nResp := x.nResp + |rs|,
       cache := x.cache + Replies(x, rs))
  }

  lemma CollectedNext(x: Ctx, rs: seq<ServerId>, r: ServerId)
    requires Replied(x, rs + [r])
    ensures Replied(x, rs) && r in Collected(x, rs).slots && Collected(x, rs).slots[r].Answered?
    ensures Arrived(Collected(x, rs), r) == Collected(x, rs + [r])
  {
    var rs' := rs + [r];
    assert forall q | q in rs :: q in rs';
    assert forall j | 0 <= j < |rs| :: rs[j] == rs'[j] && rs'[j] != rs'[|rs|];
    assert r in rs';
    assert Arrived(Collected(x, rs), r).slots == Collected(x, rs').slots;
    assert Replies(x, rs') == Replies(x, rs) + [Cached(r, x.slots[r].reply)];
  }

  lemma CollectedNone(x: Ctx)
    ensures Collected(x, []) == x
  {
    assert Collected(x, []).slots == x.slots;
  }

  lemma {:induction false} ContinueAll(cfg: Config, run: seq<State>, i: CtxId, rs: seq<ServerId>)
    returns (run': seq<State>)
    requires IsRun(cfg, run) && i < |Last(run).ctxs| && Replied(Last(run).ctxs[i], rs)
    requires var x := Last(run).ctxs[i];
      x.coord in Last(run).servers && (rs == [] || !GateOpen(x.nResp + |rs|, x.nMsgs))
    ensures IsRun(cfg, run') && run <= run'
    ensures Last(run') == Last(run).(ctxs := Last(run).ctxs[i := Collected(Last(run).ctxs[i], rs)])
    decreases |rs|
  {
    hide Next, Fire, Collected, Replied;
    var s := Last(run);
    var x := s.ctxs[i];
    if rs == [] {
      run' := run;
      CollectedNone(x);
    } else {
      var n := |rs| - 1;
      var r := rs[n];
      assert rs == rs[..n] + [r];
      CollectedNext(x, rs[..n], r);
      CollectedFields(x, rs[..n]);
      CollectedFields(x, rs);
      var before := ContinueAll(cfg, run, i, rs[..n]);
      Extend(cfg, before, Continue(i, r));
      run' := before + [Continued(cfg, Last(before), i, r)];
    }
  }

  lemma CollectedFields(x: Ctx, rs: seq<ServerId>)
    requires Replied(x, rs)
    ensures var y := Collected(x, rs);
      y.coord == x.coord && y.nResp == x.nResp + |rs| && y.nMsgs == x.nMsgs && y.done == x.done
  {
  }

  /** The state in which the continuation body runs after these replies. */
  function Gathered(s: State, i: CtxId, rs: seq<ServerId>): State
    requires i < |s.ctxs| && Replied(s.ctxs[i], rs)
  {
    s.(ctxs := s.ctxs[i := Collected(s.ctxs[i], rs).(done := true)])
  }

  lemma OpenedAfter(s: State, i: CtxId, rs: seq<ServerId>, r: ServerId)
    requires i < |s.ctxs| && Replied(s.ctxs[i], rs + [r])
    ensures var x := s.ctxs[i];
      && Replied(x, rs) && r in Collected(x, rs).slots && Collected(x, rs).slots[r].Answered?
      && Opened(s.(ctxs := s.ctxs[i := Collected(x, rs)]), i, r) == Gathered(s, i, rs + [r])
  {
    hide Collected, Replied;
    CollectedNext(s.ctxs[i], rs, r);
    CollectedFields(s.ctxs[i], rs);
  }

  lemma PassStep(cfg: Config, run: seq<State>, i: CtxId, r: ServerId) returns (run': seq<State>)
    requires IsRun(cfg, run) && Enabled(cfg, Last(run), Continue(i, r)) && !Last(run).ctxs[i].done
    requires var x := Last(run).ctxs[i]; GateOpen(x.nResp + 1, x.nMsgs)
    ensures IsRun(cfg, run') && run <= run' && Last(run') == Fire(cfg, Opened(Last(run), i, r), i)
  {
    hide Next, Fire;
    Extend(cfg, run, Continue(i, r));
    run' := run + [Continued(cfg, Last(run), i, r)];
  }

  /** The last of the listed replies opens the gate. */
  lemma Pass(cfg: Config, run: seq<State>, i: CtxId, rs: seq<ServerId>) returns (run': seq<State>)
    requires IsRun(cfg, run) && i < |Last(run).ctxs| && Replied(Last(run).ctxs[i], rs)
    requires var x := Last(run).ctxs[i];
      x.coord in Last(run).servers && !x.done && x.nResp == 0 && Opens(|rs|, x.nMsgs)
    ensures IsRun(cfg, run') && run <= run'
    ensures Last(run') == Fire(cfg, Gathered(Last(run), i, rs), i)
  {
    hide Next, Fire, Collected, Replied, Gathered, Opened;
    var s := Last(run);
    var x := s.ctxs[i];
    var n := |rs| - 1;
    var r := rs[n];
    assert rs == rs[..n] + [r];
    CollectedNext(x, rs[..n], r);
    CollectedFields(x, rs[..n]);
    OpenedAfter(s, i, rs[..n], r);
    var before := ContinueAll(cfg, run, i, rs[..n]);
    run' := PassStep(cfg, before, i, r);
  }

  // ---------------------------------------------------------------- a query

  /** The servers that a coordinator may hear for the gate to open on the last of them. */
  ghost predicate Choosable(cfg: Config, s: State, id: ServerId, k: Key, rs: seq<ServerId>) {
    && id in s.servers && Distinct(rs) && id !in rs
    && (forall r | r in rs :: r in cfg.remotes(id, k) && r in s.servers)
    && Opens(|rs|, |cfg.remotes(id, k)|)
  }

  function Asked(s: State, kind: Kind, k: Key, rs: seq<ServerId>): (cache: seq<Cached>)
    requires forall r | r in rs :: r in s.servers
    ensures |cache| == |rs|
  {
    seq(|rs|, j requires 0 <= j < |rs| => Cached(rs[j], ServeReply(s.servers[rs[j]].table, kind, k)))
  }

  /** A query that has heard the listed servers when its continuation body runs. */
  function Queried(cfg: Config, s: State, kind: Kind, id: ServerId, k: Key, e: Entry, rs: seq<ServerId>): State
    requires id in s.servers && forall r | r in rs :: r in s.servers
  {
    var x := NewCtx(cfg, s, kind, id, k, e, |s.ctxs|).(
      slots := map r | r in cfg.remotes(id, k) :: if r in rs then Consumed else Requested,
      nResp := |rs|, done := true, cache := Asked(s, kind, k, rs));
    s.(servers := s.servers[id := Began(s.servers[id])], ctxs := s.ctxs + [x])
  }

  /** The slots of a query that the listed servers have answered. */
  function AskedSlots(s: State, kind: Kind, k: Key, to: set<ServerId>, rs: seq<ServerId>): map<ServerId, Slot>
    requires forall r | r in rs :: r in s.servers
  {
    map r | r in to :: if r in rs then Answered(ServeReply(s.servers[r].table, kind, k)) else Requested
  }

  /** The listed servers have answered a query that has just started. */
  lemma ServedQuery(cfg: Config, s: State, kind: Kind, id: ServerId, k: Key, e: Entry, rs: seq<ServerId>)
    requires IsQuery(kind) && Choosable(cfg, s, id, k, rs)
    ensures var s1 := Start(cfg, s, id, kind, k, e);
      var n := |s.ctxs|;
      && Ready(s1, n, rs)
      && var s2 := Served(s1, n, rs);
      var x := NewCtx(cfg, s, kind, id, k, e, n);
      s2 == s.(servers := s.servers[id := Began(s.servers[id])],
               ctxs := s.ctxs + [x.(slots := AskedSlots(s, kind, k, cfg.remotes(id, k), rs))])
  {
    hide ServeReply;
    var s1 := Start(cfg, s, id, kind, k, e);
    assert |rs| > 0 && rs[0] in rs;
    var s2 := Served(s1, |s.ctxs|, rs);
    assert s2.servers == s1.servers;
    assert s2.ctxs[|s.ctxs|].slots == AskedSlots(s, kind, k, cfg.remotes(id, k), rs);
  }

  lemma GatheredQuery(cfg: Config, s: State, kind: Kind, id: ServerId, k: Key, e: Entry, rs: seq<ServerId>)
    requires IsQuery(kind) && Choosable(cfg, s, id, k, rs)
    ensures var s1 := Start(cfg, s, id, kind, k, e);
      var n := |s.ctxs|;
      && Ready(s1, n, rs) && |Served(s1, n, rs).ctxs| == n + 1 && Replied(Served(s1, n, rs).ctxs[n], rs)
      && Gathered(Served(s1, n, rs), n, rs) == Queried(cfg, s, kind, id, k, e, rs)
  {
    hide ServeReply, Served, Start, Clocks;
    ServedQuery(cfg, s, kind, id, k, e, rs);
    var s2 := Served(Start(cfg, s, id, kind, k, e), |s.ctxs|, rs);
    var x, y := s2.ctxs[|s.ctxs|], Queried(cfg, s, kind, id, k, e, rs).ctxs[|s.ctxs|];
    assert Replies(x, rs) == Asked(s, kind, k, rs);
    assert Collected(x, rs).slots == y.slots && Collected(x, rs).cache == y.cache;
  }

  lemma Query(cfg: Config, run: seq<State>, kind: Kind, id: ServerId, k: Key, e: Entry, rs: seq<ServerId>)
    returns (run': seq<State>)
    requires IsRun(cfg, run) && IsQuery(kind) && e.clock == MIN && (kind.GetQuery? ==> e.value == [])
    requires Choosable(cfg, Last(run), id, k, rs) && Last(run).servers[id].request < cfg.maxRequest
    ensures IsRun(cfg, run') && run <= run'
    ensures Last(run') == Fire(cfg, Queried(cfg, Last(run), kind, id, k, e, rs), |Last(run).ctxs|)
  {
    hide Next, Fire, Served, Gathered, Replied, Ready, Queried, Start;
    var s := Last(run);
    var n := |s.ctxs|;
    var step := if kind.PutQuery? then StartPut(id, k, e.value) else StartGet(id, k);
    var s1 := Start(cfg, s, id, kind, k, e);
    assert s1 == Apply(cfg, s, step);
    Extend(cfg, run, step);
    GatheredQuery(cfg, s, kind, id, k, e, rs);
    run' := HandleAll(cfg, run + [s1], n, rs);
    ServedQuery(cfg, s, kind, id, k, e, rs);
    run' := Pass(cfg, run', n, rs);
  }

  // ---------------------------------------------------------------- operations

  /** The clock that a put picks after hearing the listed servers. */
  function PutClock(cfg: Config, s: State, id: ServerId, k: Key, rs: seq<ServerId>): Lamport
    requires id in s.servers && forall r | r in rs :: r in s.servers
  {
    Lamport(Increment(MaxCount(ClockAt(s, id, k).count, Asked(s, PutQuery, k, rs))), cfg.mid(id))
  }

  /** A put up to the start of its second round. */
  lemma Put(cfg: Config, run: seq<State>, id: ServerId, k: Key, v: Bytes, rs: seq<ServerId>)
    returns (run': seq<State>)
    requires IsRun(cfg, run) && Choosable(cfg, Last(run), id, k, rs) && Last(run).servers[id].request < cfg.maxRequest
    ensures IsRun(cfg, run') && run <= run'
    ensures var s, s' := Last(run), Last(run');
      var n, c := |s.ctxs|, PutClock(cfg, s, id, k, rs);
      && s'.servers == s.servers[id := Began(s.servers[id]).(table := PutNewer(s.servers[id].table, k, Entry(c, v)))]
      && |s'.ctxs| == n + 2 && s'.ctxs[..n] == s.ctxs
      && s'.finished == s.finished
      && s'.ctxs[n].kind.PutQuery? && s'.ctxs[n].key == k && s'.ctxs[n].coord == id && s'.ctxs[n].done
      && s'.ctxs[n].outcome.clock == c
      && s'.ctxs[n + 1] == NewCtx(cfg, s, PutStore, id, k, Entry(c, v), n)
  {
    hide Next, Asked, MaxCount, PutNewer, Froms;
    var s := Last(run);
    run' := Query(cfg, run, PutQuery, id, k, Entry(MIN, v), rs);
    assert Clocks(Queried(cfg, s, PutQuery, id, k, Entry(MIN, v), rs), k) == Clocks(s, k);
  }

  function GetBest(s: State, id: ServerId, k: Key, rs: seq<ServerId>): Best
    requires id in s.servers && forall r | r in rs :: r in s.servers
  {
    Newest(Lookup(s.servers[id].table, k), k, Asked(s, GetQuery, k, rs))
  }

  /** A get up to its report. */
  lemma Get(cfg: Config, run: seq<State>, id: ServerId, k: Key, rs: seq<ServerId>) returns (run': seq<State>)
    requires IsRun(cfg, run) && Choosable(cfg, Last(run), id, k, rs) && Last(run).servers[id].request < cfg.maxRequest
    ensures IsRun(cfg, run') && run <= run'
    ensures var s, s' := Last(run), Last(run');
      var n, best := |s.ctxs|, GetBest(s, id, k, rs);
      && s'.servers.Keys == s.servers.Keys
      && (forall q | q in s.servers :: s'.servers[q].table == s.servers[q].table)
      && (forall q | q in s.servers :: s'.servers[q].request == s.servers[q].request)
      && n < |s'.ctxs| <= n + 2 && s'.ctxs[..n] == s.ctxs
      && s'.finished == s.finished + [n]
      && s'.ctxs[n].kind.GetQuery? && s'.ctxs[n].key == k && s'.ctxs[n].done
      && s'.ctxs[n].outcome.clock == best.clock
      && s'.ctxs[n].outcome.winner == best.winner && s'.ctxs[n].outcome.value == best.span
      && (!Consensus(Asked(s, GetQuery, k, rs), |cfg.remotes(id, k)|) && |best.span| > 0 ==>
            && |s'.ctxs| == n + 2
            && s'.ctxs[n + 1].kind.GetStore? && s'.ctxs[n + 1].key == k && s'.ctxs[n + 1].op == n
            && s'.ctxs[n + 1].payload == Entry(best.clock, best.span))
  {
    hide Next, Asked, Newest, Consensus, Froms, Clocks, Lookup, Start;
    run' := Query(cfg, run, GetQuery, id, k, Entry(MIN, []), rs);
  }

  /** The rest of a put: the listed servers store and acknowledge, and it is reported. */
  lemma Finish(cfg: Config, run: seq<State>, i: CtxId, rs: seq<ServerId>) returns (run': seq<State>)
    requires IsRun(cfg, run) && Ready(Last(run), i, rs)
    requires var x := Last(run).ctxs[i];
      && x.kind.PutStore? && !x.done && x.nResp == 0 && Opens(|rs|, x.nMsgs)
      && x.coord in Last(run).servers && x.coord !in rs
    ensures IsRun(cfg, run') && run <= run'
    ensures var s, s' := Last(run), Last(run');
      var x := s.ctxs[i];
      && s'.servers.Keys == s.servers.Keys
      && (forall r | r in s.servers && r !in rs :: s'.servers[r].table == s.servers[r].table)
      && (forall r | r in rs :: s'.servers[r].table == PutNewer(s.servers[r].table, x.key, x.payload))
      && (forall r | r in s.servers && r != x.coord :: s'.servers[r].request == s.servers[r].request)
      && s'.servers[x.coord].request == s.servers[x.coord].request - 1
      && |s'.ctxs| == |s.ctxs| && (forall j | 0 <= j < |s.ctxs| && j != i :: s'.ctxs[j] == s.ctxs[j])
      && s'.ctxs[i].kind == x.kind
      && s'.finished == s.finished + [x.op]
  {
    hide Next, PutNewer, Froms, Replies;
    var s := Last(run);
    run' := HandleAll(cfg, run, i, rs);
    var s1 := Served(s, i, rs);
    assert Replied(s1.ctxs[i], rs);
    run' := Pass(cfg, run', i, rs);
  }

  // ---------------------------------------------------------------- choosing a quorum

  lemma FirstState(cfg: Config)
    ensures IsRun(cfg, [Empty(cfg)])
  {
  }

  /** A coordinator may hear the rest of any smallest passing set that contains it. */
  lemma Pick(cfg: Config, s: State, k: Key, id: ServerId, q: set<ServerId>) returns (rs: seq<ServerId>)
    requires ValidConfig(cfg) && s.servers.Keys == cfg.servers
    requires id in q && q <= cfg.group(k) && |q| == Smallest(|cfg.group(k)|)
    ensures Choosable(cfg, s, id, k, rs) && |rs| == |q| - 1 && forall r :: r in rs <==> r in q && r != id
  {
    rs := Listing(q - {id});
    SubsetSize(q, cfg.group(k));
    PassingSize(q, cfg.group(k));
  }

  /** A set of the given size around a server. */
  lemma Around(g: set<ServerId>, id: ServerId, n: nat) returns (q: set<ServerId>)
    requires id in g && 1 <= n <= |g|
    ensures id in q && q <= g && |q| == n
  {
    var rest := Split(g - {id}, n - 1);
    q := rest + {id};
  }

  /** The counter that a put finds among clocks within a bound that one of them reaches. */
  lemma AskedCount(s: State, id: ServerId, k: Key, rs: seq<ServerId>, n: U32)
    requires id in s.servers && forall r | r in rs :: r in s.servers && ClockAt(s, r, k).count <= n
    requires ClockAt(s, id, k).count == n
    ensures MaxCount(ClockAt(s, id, k).count, Asked(s, PutQuery, k, rs)) == n
  {
    hide MaxCount;
    var cache := Asked(s, PutQuery, k, rs);
    MaxCountIsMax(n, cache);
    forall c | c in cache
      ensures !c.reply.Ack? && c.reply.clock.count <= n
    {
      var j :| 0 <= j < |cache| && cache[j] == c;
      assert rs[j] in rs;
    }
  }

  /** A get that hears only clocks below `c` selects one below `c`. */
  lemma AskedLess(s: State, id: ServerId, k: Key, rs: seq<ServerId>, c: Lamport)
    requires id in s.servers && forall r | r in rs :: r in s.servers && Less(ClockAt(s, r, k), c)
    requires Less(ClockAt(s, id, k), c)
    ensures Less(GetBest(s, id, k, rs).clock, c)
  {
    hide Newest, Less;
    var cache := Asked(s, GetQuery, k, rs);
    var local := Lookup(s.servers[id].table, k);
    var b := Newest(local, k, cache);
    NewestIsMax(local, k, cache);
    if !b.local {
      var d :| d in cache && d.reply == Versioned(b.winner.clock, b.winner.value);
      var j :| 0 <= j < |cache| && cache[j] == d;
      assert rs[j] in rs;
    }
  }

  /** A get that hears a server with the clock `c` selects at least `c`. */
  lemma AskedAtLeast(s: State, id: ServerId, k: Key, rs: seq<ServerId>, r: ServerId)
    requires id in s.servers && r in rs && forall q | q in rs :: q in s.servers
    ensures Leq(ClockAt(s, r, k), GetBest(s, id, k, rs).clock)
  {
    hide Newest, Leq;
    var cache := Asked(s, GetQuery, k, rs);
    NewestIsMax(Lookup(s.servers[id].table, k), k, cache);
    var j :| 0 <= j < |rs| && rs[j] == r;
    assert cache[j] in cache;
  }
}
