/** Exactly when a clock stands for one value, over all configurations and runs. */
module AbdAgreement {
  import opened Basics
  import opened Lamports
  import opened Store
  import opened Quorum
  import opened Abd
  import opened AbdInvariant
  import opened AbdProvenance
  import opened AbdUniqueness
  import opened AbdTheorems
  import opened AbdValues
  import opened AbdRuns
  import opened AbdExactness

  /** In every run with at most 2^32 clocks on the key, two of its entries with the same clock
      are equal, wherever they are stored or carried. */
  ghost predicate ValuesAgree(cfg: Config, k: Key) {
    forall run: seq<State>, e, e' |
      IsRun(cfg, run) && Issued(Last(run), k) <= TWO32 && Present(Last(run), k, e) && Present(Last(run), k, e') &&
      e.clock == e'.clock :: e == e'
  }

  // ---------------------------------------------------------------- at most two owners

  predicate NoWriteBack(s: State, k: Key) {
    forall i | 0 <= i < |s.ctxs| && s.ctxs[i].key == k :: !s.ctxs[i].kind.GetStore?
  }

  /** With a single remote the consensus test lets no get write back. */
  lemma NoWriteBackStep(cfg: Config, s: State, step: Step, k: Key)
    requires Inv(cfg, s) && Enabled(cfg, s, step) && NoWriteBack(s, k) && |cfg.group(k)| <= 2
    ensures NoWriteBack(Apply(cfg, s, step), k)
  {
    hide Newest, Consensus, MaxCount, PutNewer, Froms, Clocks, Shape, Held, Decided;
    if step.Continue? {
      var x := Arrived(s.ctxs[step.i], step.r);
      if x.kind.GetQuery? && GateOpen(x.nResp, x.nMsgs) && !x.done && x.key == k {
        WriteBackUnlessSingleRemote(cfg, s, step.i, step.r);
        assert CtxOk(cfg, s, s.ctxs[step.i]);
        FewRemotes(cfg, s.ctxs[step.i]);
      }
    }
  }

  lemma FewRemotes(cfg: Config, x: Ctx)
    requires Shape(cfg, x) && |cfg.group(x.key)| <= 2
    ensures x.nMsgs <= 1
  {
    assert x.slots.Keys == cfg.group(x.key) - {x.coord};
  }

  lemma {:induction false} NoWriteBackRun(cfg: Config, run: seq<State>, n: nat, k: Key)
    requires ValidConfig(cfg) && IsRun(cfg, run) && n < |run| && |cfg.group(k)| <= 2
    ensures NoWriteBack(run[n], k)
  {
    if n > 0 {
      hide Inv, NoWriteBack, Apply, Enabled;
      NoWriteBackRun(cfg, run, n - 1, k);
      RunInv(cfg, run, n - 1);
      var step := PickStep(cfg, run, n);
      NoWriteBackStep(cfg, run[n - 1], step, k);
    }
  }

  lemma PairAgrees(cfg: Config, run: seq<State>, k: Key, e: Entry, e': Entry)
    requires ValidConfig(cfg) && DistinctIds(cfg, k) && |cfg.group(k)| <= 2 && IsRun(cfg, run)
    requires Issued(Last(run), k) <= TWO32
    requires Present(Last(run), k, e) && Present(Last(run), k, e') && e.clock == e'.clock
    ensures e == e'
  {
    hide Next, ValidConfig, DistinctIds, Issued, Present;
    NoWriteBackRun(cfg, run, |run| - 1, k);
    assert Faithful(Last(run), k);
    EqualClocksEqualValues(cfg, run, |run| - 1, k, e, e');
  }

  // ---------------------------------------------------------------- three or more owners

  /** One reply is ahead of the reader, and copied into an empty buffer. */
  lemma {:induction false} OneNewer(local: Entry, k: Key, cache: seq<Cached>, c: Lamport, v: Bytes)
    requires Less(local.clock, c)
    requires forall d | d in cache ::
               d.reply.Versioned? && (d.reply == Versioned(c, v) || Leq(d.reply.clock, local.clock))
    ensures var b := Newest(local, k, cache);
      if exists d :: d in cache && d.reply == Versioned(c, v)
      then b.clock == c && b.winner == Entry(c, v) && b.span == Misread([], k, c, |v|)
      else b == Best(local.clock, local.value, [], local, true)
  {
    hide Misread, KeySpan, CopyReply;
    if cache != [] {
      var rest, last := cache[..|cache| - 1], cache[|cache| - 1];
      assert cache == rest + [last] && last in cache;
      OneNewer(local, k, rest, c, v);
      CopySpan([], k, c, v);
    }
  }

  /** What a reader without the key makes of the one entry it hears of. */
  lemma ReadRemote(s: State, id: ServerId, k: Key, rs: seq<ServerId>, p: ServerId, e: Entry)
    requires id in s.servers && p in rs && forall r | r in rs :: r in s.servers
    requires k in s.servers[p].table && s.servers[p].table[k] == e && Less(MIN, e.clock)
    requires ClockAt(s, id, k) == MIN && forall r | r in rs && r != p :: ClockAt(s, r, k) == MIN
    ensures var b := GetBest(s, id, k, rs);
      b.clock == e.clock && b.winner == e && b.span == Misread([], k, e.clock, |e.value|)
  {
    hide Misread, Newest;
    var cache := Asked(s, GetQuery, k, rs);
    forall d | d in cache
      ensures d.reply.Versioned? && (d.reply == Versioned(e.clock, e.value) || Leq(d.reply.clock, MIN))
    {
      var j :| 0 <= j < |cache| && cache[j] == d;
      assert rs[j] in rs;
    }
    var j :| 0 <= j < |rs| && rs[j] == p;
    assert cache[j] in cache && cache[j].reply == Versioned(e.clock, e.value);
    OneNewer(Lookup(s.servers[id].table, k), k, cache, e.clock, e.value);
  }

  /** A write-back that was read from a remote replica carries the key field, not the value:
      in every group of three or more, for every owner, key and value that is not exactly what
      the misread yields, a put of the owner and one get leave two values under one clock. */
  lemma ValuesMayDiverge(cfg: Config, k: Key, v: Bytes, p: ServerId)
    returns (run: seq<State>, e: Entry, e': Entry)
    requires ValidConfig(cfg) && cfg.maxRequest >= 1 && |cfg.group(k)| >= 3 && p in cfg.group(k)
    requires v != Misread([], k, Lamport(1, cfg.mid(p)), |k| + 8)
    ensures IsRun(cfg, run) && Issued(Last(run), k) <= TWO32
    ensures Present(Last(run), k, e) && Present(Last(run), k, e') && e.clock == e'.clock && e.value != e'.value
  {
    hide Next, Asked, Misread, Newest, Consensus, Smallest, GetBest;
    var g := cfg.group(k);
    run := WriterAlone(cfg, k, v, p);
    var s := Last(run);
    e := Entry(Lamport(1, cfg.mid(p)), v);
    assert |g - {p}| >= 2;
    var id :| id in g - {p};
    SmallestFits(|g|);
    var q := Around(g - {p}, id, Smallest(|g|) - 1);
    var rs := Pick(cfg, s, k, id, q + {p});
    ReadRemote(s, id, k, rs, p, e);
    assert cfg.remotes(id, k) == g - {id};
    FewVotes(Asked(s, GetQuery, k, rs), |cfg.remotes(id, k)|);
    run := Get(cfg, run, id, k, rs);
    e' := Last(run).ctxs[3].payload;
    SmallCount(Last(run).ctxs, Issues(k));
    assert Last(run).servers[p].table[k] == e;
  }

  /** A clock stands for one value, in every run with at most 2^32 clocks on the key, if and
      only if the key has at most two owners and they have different machine ids. */
  lemma ValuesAgreeExactly(cfg: Config, k: Key)
    requires ValidConfig(cfg) && cfg.maxRequest >= 1
    ensures ValuesAgree(cfg, k) <==> |cfg.group(k)| <= 2 && DistinctIds(cfg, k)
  {
    hide Next, ValidConfig, Issued, Present, Misread;
    if !DistinctIds(cfg, k) {
      var p, q :| p in cfg.group(k) && q in cfg.group(k) && p != q && cfg.mid(p) == cfg.mid(q);
      var run := EqualIdsClash(cfg, k, p, q, [], [0]);
    } else if |cfg.group(k)| <= 2 {
      forall run: seq<State>, e, e' |
        IsRun(cfg, run) && Issued(Last(run), k) <= TWO32 && Present(Last(run), k, e) && Present(Last(run), k, e') &&
        e.clock == e'.clock
        ensures e == e'
      {
        PairAgrees(cfg, run, k, e, e');
      }
    } else {
      var p :| p in cfg.group(k);
      var run, e, e' := ValuesMayDiverge(cfg, k, [], p);
    }
  }

  // ---------------------------------------------------------------- what gets report

  /** In every run every reported get has reported the value of the entry it selected. */
  ghost predicate ReportsRight(cfg: Config, k: Key) {
    forall run: seq<State>, a: CtxId | IsRun(cfg, run) && ReportedGet(Last(run), k, a) ::
      Last(run).ctxs[a].outcome.value == Last(run).ctxs[a].outcome.winner.value
  }

  /** A get that hears a writer, who has stored nothing but the empty value at home. */
  lemma ReadsWrong(cfg: Config, k: Key, p: ServerId, id: ServerId)
    requires ValidConfig(cfg) && cfg.maxRequest >= 1 && p in cfg.group(k) && id in cfg.group(k) && p != id
    requires |cfg.group(k)| >= 2
    ensures !ReportsRight(cfg, k)
  {
    hide Next, Asked, Misread, Newest, Consensus, Smallest, GetBest;
    var g := cfg.group(k);
    var run := WriterAlone(cfg, k, [], p);
    var s := Last(run);
    SmallestFits(|g|);
    var q := Around(g - {p}, id, Smallest(|g|) - 1);
    var rs := Pick(cfg, s, k, id, q + {p});
    ReadRemote(s, id, k, rs, p, Entry(Lamport(1, cfg.mid(p)), []));
    run := Get(cfg, run, id, k, rs);
    assert ReportedGet(Last(run), k, |s.ctxs|);
  }

  /** Gets report right values in all runs if and only if the key has a single owner or none,
      and so no get on it asks anybody. */
  lemma ReportsRightExactly(cfg: Config, k: Key)
    requires ValidConfig(cfg) && cfg.maxRequest >= 1
    ensures ReportsRight(cfg, k) <==> |cfg.group(k)| <= 1
  {
    hide Next, ValidConfig;
    if |cfg.group(k)| >= 2 {
      var p, id := TwoOwners(cfg, k);
      ReadsWrong(cfg, k, p, id);
    } else if run: seq<State>, a: CtxId :|
      IsRun(cfg, run) && ReportedGet(Last(run), k, a) &&
      Last(run).ctxs[a].outcome.value != Last(run).ctxs[a].outcome.winner.value
    {
      NobodyAsks(cfg, run, k, a);
    }
  }

  lemma NobodyAsks(cfg: Config, run: seq<State>, k: Key, a: CtxId)
    requires ValidConfig(cfg) && IsRun(cfg, run) && a < |Last(run).ctxs| && Last(run).ctxs[a].key == k
    ensures |cfg.group(k)| >= 2
  {
    hide Next, ValidConfig, Held, Decided;
    RunInv(cfg, run, |run| - 1);
    var x := Last(run).ctxs[a];
    assert CtxOk(cfg, Last(run), x);
    var r :| r in x.slots.Keys;
    SubsetSize({x.coord, r}, cfg.group(k));
  }
}
