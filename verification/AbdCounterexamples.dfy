/** Runs that show where the guarantees about counters end: the 32-bit counter wraps. */
module AbdCounterexamples {
  import opened Basics
  import opened Lamports
  import opened Store
  import opened Quorum
  import opened Abd
  import opened AbdInvariant
  import opened AbdHistory
  import opened AbdUniqueness
  import opened AbdTheorems
  import opened AbdRuns
  import opened AbdExactness

  /** The server is idle and has the newest counter, `n`, among those it hears; `n` clocks have
      been created for the key. */
  ghost predicate Settled(cfg: Config, s: State, k: Key, id: ServerId, rs: seq<ServerId>, n: U32) {
    && s.servers.Keys == cfg.servers && Choosable(cfg, s, id, k, rs) && s.servers[id].request == 0
    && ClockAt(s, id, k).count == n && (forall r | r in rs :: ClockAt(s, r, k).count <= n)
  }

  /** One whole put of the server. */
  lemma OnePut(cfg: Config, run: seq<State>, k: Key, v: Bytes, id: ServerId, rs: seq<ServerId>, n: U32)
    returns (run': seq<State>)
    requires ValidConfig(cfg) && cfg.maxRequest >= 1 && IsRun(cfg, run) && Settled(cfg, Last(run), k, id, rs, n)
    ensures IsRun(cfg, run') && run <= run'
    ensures var s, s' := Last(run), Last(run');
      && |s'.ctxs| == |s.ctxs| + 2 && s'.ctxs[..|s.ctxs|] == s.ctxs
      && ReportedPut(s', k, |s.ctxs|) && HasClock(s', |s.ctxs|)
      && ClockOfOp(s', |s.ctxs|) == Lamport(Increment(n), cfg.mid(id))
      && Issued(s', k) == Issued(s, k) + 1
      && Settled(cfg, s', k, id, rs, if n + 1 < TWO32 then n + 1 else n)
  {
    hide Next, Asked, MaxCount, Issued, PutNewer, NewCtx, ClockOf, Opens, ValidConfig;
    var s := Last(run);
    var m := |s.ctxs|;
    AskedCount(s, id, k, rs, n);
    var e := Entry(PutClock(cfg, s, id, k, rs), v);
    run' := Put(cfg, run, id, k, v, rs);
    var s1 := Last(run');
    NewIsReady(cfg, s, s1, id, k, e, rs);
    run' := Finish(cfg, run', m + 1, rs);
    IssuedByPut(s, s1, Last(run'), k);
    CountsAfter(s.servers[id].table, k, e);
    forall r | r in rs
      ensures ClockAt(Last(run'), r, k).count <= if n + 1 < TWO32 then n + 1 else n
    {
      CountsAfter(s.servers[r].table, k, e);
    }
  }

  lemma CountsAfter(t: Table, k: Key, e: Entry)
    ensures ClockOf(PutNewer(t, k, e), k).count ==
            if ClockOf(t, k).count < e.clock.count then e.clock.count else ClockOf(t, k).count
  {
  }

  lemma IssuedByPut(s: State, s1: State, s2: State, k: Key)
    requires |s2.ctxs| == |s1.ctxs| == |s.ctxs| + 2 && s1.ctxs[..|s.ctxs|] == s.ctxs
    requires IsPut(s1, |s.ctxs|) && HasClock(s1, |s.ctxs|) && s1.ctxs[|s.ctxs|].key == k
    requires s1.ctxs[|s.ctxs| + 1].kind.PutStore? && s2.ctxs[|s.ctxs| + 1].kind.PutStore?
    requires forall j | 0 <= j < |s.ctxs| + 1 :: s2.ctxs[j] == s1.ctxs[j]
    ensures Issued(s2, k) == Issued(s, k) + 1
  {
    hide Count;
    var n := |s.ctxs|;
    assert s2.ctxs == s.ctxs + [s2.ctxs[n]] + [s2.ctxs[n + 1]];
    CountAppend(s.ctxs, s2.ctxs[n], Issues(k));
    CountAppend(s.ctxs + [s2.ctxs[n]], s2.ctxs[n + 1], Issues(k));
  }

  /** A server of any group of two or more completes `n` puts on the key, one after the other;
      the last of them has the clock with the counter `n`. */
  lemma {:induction false} ManyPuts(cfg: Config, k: Key, v: Bytes, id: ServerId, n: U32)
    returns (run: seq<State>, rs: seq<ServerId>)
    requires ValidConfig(cfg) && cfg.maxRequest >= 1 && id in cfg.group(k) && |cfg.group(k)| >= 2
    ensures IsRun(cfg, run) && Settled(cfg, Last(run), k, id, rs, n) && Issued(Last(run), k) == n
    ensures n > 0 ==>
      var a := |Last(run).ctxs| - 2;
      a >= 0 && ReportedPut(Last(run), k, a) && ClockOfOp(Last(run), a) == Lamport(n, cfg.mid(id))
  {
    hide Next, Choosable, Smallest, Issues;
    if n == 0 {
      var s := Empty(cfg);
      FirstState(cfg);
      SmallestFits(|cfg.group(k)|);
      var q := Around(cfg.group(k), id, Smallest(|cfg.group(k)|));
      rs := Pick(cfg, s, k, id, q);
      run := [s];
      assert forall r | r in cfg.servers :: ClockAt(s, r, k) == MIN;
      PickedExist(cfg, s, id, k, rs);
    } else {
      run, rs := ManyPuts(cfg, k, v, id, n - 1);
      run := OnePut(cfg, run, k, v, id, rs, n - 1);
    }
  }

  lemma PickedExist(cfg: Config, s: State, id: ServerId, k: Key, rs: seq<ServerId>)
    requires Choosable(cfg, s, id, k, rs)
    ensures id in s.servers && forall r | r in rs :: r in s.servers
  {
  }

  /** The counter wraps with the 2^32nd put: its clock is smaller than that of the put
      completed just before it started. With the next put a clock repeats: two puts of one
      run have the same clock, whatever the machine ids. */
  lemma CounterWraps(cfg: Config, k: Key, v: Bytes, id: ServerId)
    returns (run: seq<State>, run': seq<State>, run'': seq<State>, a: CtxId, b: CtxId, c: CtxId)
    requires ValidConfig(cfg) && cfg.maxRequest >= 1 && id in cfg.group(k) && |cfg.group(k)| >= 2
    ensures IsRun(cfg, run) && IsRun(cfg, run') && IsRun(cfg, run'') && run <= run' <= run''
    ensures ReportedPut(Last(run), k, a) && LaterPut(Last(run), Last(run'), k, b)
    ensures Issued(Last(run'), k) == TWO32 && Less(ClockOfOp(Last(run'), b), ClockOfOp(Last(run), a))
    ensures Issued(Last(run''), k) == TWO32 + 1 && Clash(Last(run''), k, b, c)
  {
    hide Next, Choosable, Issued;
    var rs;
    run, rs := ManyPuts(cfg, k, v, id, TWO32 - 1);
    run' := OnePut(cfg, run, k, v, id, rs, TWO32 - 1);
    run'' := OnePut(cfg, run', k, v, id, rs, TWO32 - 1);
    a, b, c := |Last(run).ctxs| - 2, |Last(run).ctxs|, |Last(run').ctxs|;
  }
}
