/** Where clocks and values come from, over all runs: every clock was created by a put on
    that key and, as long as the write-backs on the key carry the value they read, every value
    was written by the put that created its clock. */
module AbdProvenance {
  import opened Lamports
  import opened Store
  import opened Quorum
  import opened Abd
  import opened AbdInvariant
  import opened AbdRegularity

  // ---------------------------------------------------------------- origin of an entry

  predicate IsCreator(x: Ctx, k: Key, c: Lamport) {
    x.kind.PutQuery? && x.done && x.key == k && x.outcome.clock == c
  }

  /** Every write-back on the key so far carries the entry that its get selected. */
  predicate Faithful(s: State, k: Key) {
    forall i | 0 <= i < |s.ctxs| && s.ctxs[i].kind.GetStore? && s.ctxs[i].key == k ::
      s.ctxs[i].payload == s.ctxs[i].outcome.winner
  }

  /** Some put on the key created the clock and, if its write-backs are faithful, wrote the value. */
  ghost predicate Known(s: State, k: Key, e: Entry) {
    exists j :: 0 <= j < |s.ctxs| && IsCreator(s.ctxs[j], k, e.clock) &&
                (Faithful(s, k) ==> s.ctxs[j].payload.value == e.value)
  }

  ghost predicate EntryKnown(s: State, k: Key, e: Entry) {
    e == Entry(MIN, []) || Known(s, k, e)
  }

  ghost predicate ClockKnown(s: State, k: Key, c: Lamport) {
    c == MIN || exists j :: 0 <= j < |s.ctxs| && IsCreator(s.ctxs[j], k, c)
  }

  ghost predicate ReplyKnown(s: State, k: Key, r: Reply) {
    match r
    case Ack => true
    case TimeStamp(c) => ClockKnown(s, k, c)
    case Versioned(c, v) => EntryKnown(s, k, Entry(c, v))
  }

  ghost predicate SourcedCtx(s: State, x: Ctx) {
    && (forall r | r in x.slots && x.slots[r].Answered? :: ReplyKnown(s, x.key, x.slots[r].reply))
    && (forall c | c in x.cache :: ReplyKnown(s, x.key, c.reply))
    && (!IsQuery(x.kind) ==> Known(s, x.key, x.payload))
    && (x.kind.GetQuery? && x.done ==>
          x.outcome.clock == x.outcome.winner.clock && EntryKnown(s, x.key, x.outcome.winner))
  }

  ghost predicate SourcedTables(s: State) {
    forall r, k | r in s.servers && k in s.servers[r].table :: Known(s, k, s.servers[r].table[k])
  }

  ghost predicate Sourced(s: State) {
    && SourcedTables(s)
    && forall i | 0 <= i < |s.ctxs| :: SourcedCtx(s, s.ctxs[i])
  }

  lemma KnownGrows(s: State, s': State, k: Key, e: Entry)
    requires Extends(s, s') && Known(s, k, e)
    ensures Known(s', k, e)
  {
  }

  lemma KnownClock(s: State, k: Key, e: Entry)
    requires EntryKnown(s, k, e)
    ensures ClockKnown(s, k, e.clock)
  {
  }

  lemma ReplyGrows(s: State, s': State, k: Key, r: Reply)
    requires Extends(s, s') && ReplyKnown(s, k, r)
    ensures ReplyKnown(s', k, r)
  {
  }

  lemma SourcedGrows(s: State, s': State, x: Ctx)
    requires Extends(s, s') && SourcedCtx(s, x)
    ensures SourcedCtx(s', x)
  {
  }

  lemma TablesGrow(s: State, s': State)
    requires Extends(s, s') && SourcedTables(s) && s'.servers.Keys == s.servers.Keys
    requires forall r | r in s.servers :: s'.servers[r].table == s.servers[r].table
    ensures SourcedTables(s')
  {
  }

  lemma TablesPut(s: State, s': State, id: ServerId, k: Key, e: Entry)
    requires Extends(s, s') && SourcedTables(s) && id in s.servers && s'.servers.Keys == s.servers.Keys
    requires forall r | r in s.servers && r != id :: s'.servers[r].table == s.servers[r].table
    requires s'.servers[id].table == PutNewer(s.servers[id].table, k, e) && Known(s', k, e)
    ensures SourcedTables(s')
  {
    forall r, k' | r in s'.servers && k' in s'.servers[r].table
      ensures Known(s', k', s'.servers[r].table[k'])
    {
      if k' in s.servers[r].table && s.servers[r].table[k'] == s'.servers[r].table[k'] {
        KnownGrows(s, s', k', s.servers[r].table[k']);
      }
    }
  }

  /** All contexts but `i` (and a new one) are as before. */
  lemma SourcedCompose(s: State, s': State, i: CtxId)
    requires Sourced(s) && Extends(s, s') && SourcedTables(s') && i <= |s.ctxs| && |s'.ctxs| <= |s.ctxs| + 1
    requires forall j | 0 <= j < |s.ctxs| && j != i :: s'.ctxs[j] == s.ctxs[j]
    requires i < |s'.ctxs| ==> SourcedCtx(s', s'.ctxs[i])
    requires |s'.ctxs| > |s.ctxs| ==> SourcedCtx(s', s'.ctxs[|s.ctxs|])
    ensures Sourced(s')
  {
    hide SourcedCtx, Extends, SourcedTables;
    forall j | 0 <= j < |s'.ctxs|
      ensures SourcedCtx(s', s'.ctxs[j])
    {
      if j < |s.ctxs| && j != i {
        SourcedGrows(s, s', s.ctxs[j]);
      }
    }
  }

  // ---------------------------------------------------------------- steps

  lemma SourcedStart(cfg: Config, s: State, id: ServerId, kind: Kind, k: Key, e: Entry)
    requires Sourced(s) && id in s.servers && IsQuery(kind)
    requires Extends(s, Start(cfg, s, id, kind, k, e))
    ensures Sourced(Start(cfg, s, id, kind, k, e))
  {
    var s' := Start(cfg, s, id, kind, k, e);
    TablesGrow(s, s');
    SourcedCompose(s, s', |s.ctxs|);
  }

  lemma LookupKnown(s: State, r: ServerId, k: Key)
    requires SourcedTables(s) && r in s.servers
    ensures EntryKnown(s, k, Lookup(s.servers[r].table, k))
    ensures ClockKnown(s, k, ClockOf(s.servers[r].table, k))
  {
  }

  lemma SourcedHandle(cfg: Config, s: State, i: CtxId, r: ServerId)
    requires Sourced(s) && Enabled(cfg, s, Handle(i, r)) && Extends(s, Handled(s, i, r))
    ensures Sourced(Handled(s, i, r))
  {
    hide Known, Extends, ClockKnown;
    var x := s.ctxs[i];
    var s' := Handled(s, i, r);
    var reply := ServeReply(s.servers[r].table, x.kind, x.key);
    LookupKnown(s, r, x.key);
    assert ReplyKnown(s, x.key, reply);
    ReplyGrows(s, s', x.key, reply);
    assert SourcedCtx(s, x);
    SourcedGrows(s, s', x);
    assert SourcedCtx(s', s'.ctxs[i]);
    if IsQuery(x.kind) {
      TablesGrow(s, s');
    } else {
      KnownGrows(s, s', x.key, x.payload);
      TablesPut(s, s', r, x.key, x.payload);
    }
    SourcedCompose(s, s', i);
  }

  lemma SourcedArrived(s: State, x: Ctx, r: ServerId)
    requires SourcedCtx(s, x) && r in x.slots && x.slots[r].Answered?
    ensures SourcedCtx(s, Arrived(x, r))
  {
  }

  lemma SourcedGetTime(cfg: Config, s: State, i: CtxId, r: ServerId)
    requires Sourced(s) && Enabled(cfg, s, Continue(i, r)) && s.ctxs[i].kind.PutQuery?
    requires Extends(s, GetTime(cfg, Opened(s, i, r), i))
    ensures Sourced(GetTime(cfg, Opened(s, i, r), i))
  {
    hide Extends, MaxCount, Froms;
    var s1 := Opened(s, i, r);
    var s' := GetTime(cfg, s1, i);
    var x' := s'.ctxs[i];
    var e := x'.outcome.winner;
    assert IsCreator(x', x'.key, e.clock) && x'.payload.value == e.value;
    assert Known(s', x'.key, e);
    TablesPut(s, s', x'.coord, x'.key, e);
    SourcedArrived(s, s.ctxs[i], r);
    SourcedGrows(s, s', Arrived(s.ctxs[i], r));
    assert SourcedCtx(s', x');
    assert SourcedCtx(s', s'.ctxs[|s.ctxs|]);
    SourcedCompose(s, s', i);
  }

  lemma SourcedAck(s: State, i: CtxId, r: ServerId)
    requires Sourced(s) && i < |s.ctxs| && r in s.ctxs[i].slots && s.ctxs[i].slots[r].Answered?
    requires s.ctxs[i].coord in s.servers && s.ctxs[i].kind.PutStore?
    requires Extends(s, AckPutTime(Opened(s, i, r), i))
    ensures Sourced(AckPutTime(Opened(s, i, r), i))
  {
    hide Extends, Froms, Known, ReplyKnown;
    var s' := AckPutTime(Opened(s, i, r), i);
    TablesGrow(s, s');
    SourcedArrived(s, s.ctxs[i], r);
    SourcedGrows(s, s', Arrived(s.ctxs[i], r));
    assert SourcedCtx(s', s'.ctxs[i]);
    SourcedCompose(s, s', i);
  }

  /** The entry a get selects is known, and so is the clock of what it writes back. */
  lemma WinnerKnown(s: State, k: Key, local: Entry, cache: seq<Cached>)
    requires EntryKnown(s, k, local)
    requires forall c | c in cache :: ReplyKnown(s, k, c.reply)
    ensures var b := Newest(local, k, cache);
      && b.clock == b.winner.clock
      && EntryKnown(s, k, b.winner)
      && (|b.span| > 0 ==> Known(s, k, b.winner))
  {
    NewestIsMax(local, k, cache);
    var b := Newest(local, k, cache);
    if !b.local {
      var c :| c in cache && c.reply == Versioned(b.winner.clock, b.winner.value);
      assert ReplyKnown(s, k, c.reply);
    }
  }

  lemma SourcedRetValue(cfg: Config, s: State, i: CtxId, r: ServerId)
    requires Sourced(s) && Enabled(cfg, s, Continue(i, r)) && s.ctxs[i].kind.GetQuery?
    requires Extends(s, RetValue(cfg, Opened(s, i, r), i))
    ensures Sourced(RetValue(cfg, Opened(s, i, r), i))
  {
    hide Extends, Newest, Consensus, Froms, ReplyKnown, Known, Clocks, Faithful;
    var s1 := Opened(s, i, r);
    var x := s1.ctxs[i];
    var s' := RetValue(cfg, s1, i);
    var local := Lookup(s.servers[x.coord].table, x.key);
    SourcedArrived(s, s.ctxs[i], r);
    LookupKnown(s, x.coord, x.key);
    WinnerKnown(s, x.key, local, x.cache);
    var b := Newest(local, x.key, x.cache);
    TablesGrow(s, s');
    SourcedGrows(s, s', Arrived(s.ctxs[i], r));
    if b.winner != Entry(MIN, []) {
      KnownGrows(s, s', x.key, b.winner);
    }
    assert SourcedCtx(s', s'.ctxs[i]);
    if |s'.ctxs| > |s.ctxs| {
      var y := s'.ctxs[|s.ctxs|];
      KnownGrows(s, s', x.key, b.winner);
      WriteBackKnown(s', |s.ctxs|, x.key, b.winner);
      assert SourcedCtx(s', y);
    }
    SourcedCompose(s, s', i);
  }

  lemma WriteBackKnown(s: State, i: CtxId, k: Key, winner: Entry)
    requires i < |s.ctxs| && s.ctxs[i].kind.GetStore? && s.ctxs[i].key == k && s.ctxs[i].outcome.winner == winner
    requires Known(s, k, winner) && s.ctxs[i].payload.clock == winner.clock
    ensures Known(s, k, s.ctxs[i].payload)
  {
  }

  lemma SourcedOpened(s: State, s': State, i: CtxId, r: ServerId)
    requires Sourced(s) && i < |s.ctxs| && r in s.ctxs[i].slots && s.ctxs[i].slots[r].Answered?
    requires Extends(s, s') && s'.servers == s.servers && |s'.ctxs| == |s.ctxs|
    requires forall j | 0 <= j < |s.ctxs| && j != i :: s'.ctxs[j] == s.ctxs[j]
    requires s'.ctxs[i] == Arrived(s.ctxs[i], r) ||
             (s.ctxs[i].kind.GetStore? && s'.ctxs[i] == Arrived(s.ctxs[i], r).(done := true))
    ensures Sourced(s')
  {
    hide Extends, Known, ReplyKnown;
    TablesGrow(s, s');
    SourcedArrived(s, s.ctxs[i], r);
    SourcedGrows(s, s', Arrived(s.ctxs[i], r));
    assert SourcedCtx(s', s'.ctxs[i]);
    SourcedCompose(s, s', i);
  }

  lemma SourcedContinue(cfg: Config, s: State, i: CtxId, r: ServerId)
    requires Sourced(s) && Enabled(cfg, s, Continue(i, r))
    ensures Sourced(Continued(cfg, s, i, r))
  {
    hide Sourced, Extends;
    ContinueExtends(cfg, s, i, r);
    var x := Arrived(s.ctxs[i], r);
    var s' := Continued(cfg, s, i, r);
    if !GateOpen(x.nResp, x.nMsgs) || x.done {
      SourcedOpened(s, s', i, r);
    } else {
      assert s' == Fire(cfg, Opened(s, i, r), i);
      match x.kind
      case PutQuery => SourcedGetTime(cfg, s, i, r);
      case PutStore => SourcedAck(s, i, r);
      case GetQuery => SourcedRetValue(cfg, s, i, r);
      case GetStore => SourcedOpened(s, s', i, r);
    }
  }

  lemma SourcedStep(cfg: Config, s: State, step: Step)
    requires Sourced(s) && Enabled(cfg, s, step)
    ensures Sourced(Apply(cfg, s, step))
  {
    hide Sourced, Extends;
    StepExtends(cfg, s, step);
    match step
    case StartPut(id, k, v) => SourcedStart(cfg, s, id, PutQuery, k, Entry(MIN, v));
    case StartGet(id, k) => SourcedStart(cfg, s, id, GetQuery, k, Entry(MIN, []));
    case Handle(i, r) => SourcedHandle(cfg, s, i, r);
    case Continue(i, r) => SourcedContinue(cfg, s, i, r);
  }

  lemma {:induction false} RunSourced(cfg: Config, run: seq<State>, n: nat)
    requires IsRun(cfg, run) && n < |run|
    ensures Sourced(run[n])
  {
    if n > 0 {
      RunSourced(cfg, run, n - 1);
      var step := PickStep(cfg, run, n);
      SourcedStep(cfg, run[n - 1], step);
    }
  }
}
