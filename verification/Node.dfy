/** The imperative face of one server: starting operations, the request handlers and the
    continuations of `ABD` (src/include/protocol/abd/protocol.h), with the loops of
    `reduce_resp`, proved to be the steps of the step machine. */
module Node {
  import opened Basics
  import opened Lamports
  import opened Store
  import opened Abd
  import opened AbdInvariant

  /** A message for the remotes of a key: the round it opens and what it carries. */
  datatype Message = Message(kind: Kind, payload: Entry)

  /** The fields of a `ReplicaContext` that its continuations read and update. */
  class Round {
    const kind: Kind
    const key: Key
    const payload: Entry
    const nMsgs: nat
    var nResp: nat
    var done: bool
    var cache: seq<Cached>

    /** This is the context of the step machine, without the slots and the history. */
    ghost predicate Is(x: Ctx)
      reads this
    {
      && x.kind == kind && x.key == key && x.payload == payload && x.nMsgs == nMsgs
      && x.nResp == nResp && x.done == done && x.cache == cache
    }

    constructor (kind: Kind, key: Key, payload: Entry, nMsgs: nat)
      ensures this.kind == kind && this.key == key && this.payload == payload && this.nMsgs == nMsgs
      ensures nResp == 0 && !done && cache == []
    {
      this.kind, this.key, this.payload, this.nMsgs := kind, key, payload, nMsgs;
      nResp, done, cache := 0, false, [];
    }
  }

  class Node {
    var table: Table
    var traces: int
    var puts: nat
    var gets: nat
    var skips: nat
    var request: int
    var acquired: nat
    var released: nat

    /** The server record of the step machine. */
    ghost function View(): Server
      reads this
    {
      Server(table, traces, puts, gets, skips, request, acquired, released)
    }

    constructor ()
      ensures View() == Server(map[], 0, 0, 0, 0, 0, 0, 0)
    {
      table, traces, puts, gets, skips, request, acquired, released := map[], 0, 0, 0, 0, 0, 0, 0;
    }

    /** `KV_store::get`. */
    method Get(k: Key) returns (e: Entry)
      ensures e == Lookup(table, k)
    {
      if k !in table {
        return Entry(MIN, []);
      }
      e := table[k];
    }

    /** `KV_store::put`, as one step. */
    method Put(k: Key, e: Entry) returns (installed: bool)
      modifies this`table
      ensures table == PutNewer(old(table), k, e)
      ensures installed <==> table != old(table)
    {
      if k !in table {
        table := table[k := e];
        assert k in table;
        return true;
      }
      installed := Less(table[k].clock, e.clock);
      if installed {
        table := table[k := e];
        assert table[k].clock == e.clock;
      }
    }

    // -------------------------------------------------------------- request handlers

    method HandleGetTimeStamp(k: Key) returns (reply: Reply)
      ensures reply == ServeReply(table, PutQuery, k)
    {
      var res := Get(k);
      reply := TimeStamp(res.clock);
    }

    method HandlePutReplica(k: Key, e: Entry) returns (reply: Reply)
      modifies this`table
      ensures table == ServeTable(old(table), PutStore, k, e)
      ensures reply == ServeReply(old(table), PutStore, k)
    {
      var _ := Put(k, e);
      reply := Ack;
    }

    method HandleGetValueTimeStamp(k: Key) returns (reply: Reply)
      ensures reply == ServeReply(table, GetQuery, k)
    {
      if k in table {
        reply := Versioned(table[k].clock, table[k].value);
      } else {
        reply := Versioned(MIN, []);
      }
    }

    // -------------------------------------------------------------- continuations

    method Begin()
      modifies this`traces, this`request, this`acquired
      ensures View() == Began(old(View()))
    {
      request, acquired := request + 1, acquired + 1;
      traces := traces + 1;
    }

    method End()
      modifies this`traces, this`request, this`released
      ensures View() == Ended(old(View()))
    {
      traces := traces - 1;
      request, released := request - 1, released + 1;
    }

    /** `reduce_resp` in the GetTime continuation. */
    method ReduceCount(init: U32, cache: seq<Cached>) returns (max: U32)
      ensures max == MaxCount(init, cache)
    {
      max := init;
      for i := 0 to |cache|
        invariant max == MaxCount(init, cache[..i])
      {
        assert cache[..i + 1][..i] == cache[..i];
        match cache[i].reply
        case Ack =>
        case TimeStamp(c) =>
          if !(max >= c.count) {
            max := c.count;
          }
        case Versioned(c, _) =>
          if !(max >= c.count) {
            max := c.count;
          }
      }
      assert cache[..|cache|] == cache;
    }

    /** `req_conts_impl<GetTime>`: `next` is the clock and value that PutReplica carries. */
    method GetTime(mid: U32, k: Key, value: Bytes, cache: seq<Cached>) returns (next: Entry)
      modifies this`table
      ensures next == Entry(Lamport(Increment(MaxCount(ClockOf(old(table), k).count, cache)), mid), value)
      ensures table == PutNewer(old(table), k, next)
    {
      var local := Get(k);
      var max := ReduceCount(local.clock.count, cache);
      next := Entry(Lamport((max + 1) % TWO32, mid), value);
      var _ := Put(k, next);
    }

    /** `req_conts_impl<AckPutTime>`. */
    method AckPutTime()
      modifies this`traces, this`request, this`released, this`puts
      ensures var v := Ended(old(View())); View() == v.(puts := v.puts + 1)
    {
      End();
      puts := puts + 1;
    }

    /** `reduce_resp` in the RetValue continuation, with the map of votes it fills. */
    method ReduceNewest(local: Entry, k: Key, cache: seq<Cached>)
      returns (clock: Lamport, span: Bytes, counts: map<Lamport, nat>)
      ensures clock == Newest(local, k, cache).clock && span == Newest(local, k, cache).span
      ensures forall c :: Votes(cache, c) == if c in counts then counts[c] else 0
    {
      clock, span, counts := local.clock, local.value, map[];
      var tmp: Bytes := [];
      for i := 0 to |cache|
        invariant var b := Newest(local, k, cache[..i]); clock == b.clock && span == b.span && tmp == b.tmp
        invariant forall c :: Votes(cache[..i], c) == if c in counts then counts[c] else 0
      {
        assert cache[..i + 1][..i] == cache[..i];
        var r := cache[i].reply;
        if r.Versioned? {
          counts := counts[r.clock := (if r.clock in counts then counts[r.clock] else 0) + 1];
          if Less(clock, r.clock) {
            tmp := CopyReply(tmp, k, r.clock, r.value);
            clock, span := r.clock, KeySpan(tmp, k);
          }
        }
      }
      assert cache[..|cache|] == cache;
    }

    /** The search of protocol.h:535-543. */
    method HasConsensus(cache: seq<Cached>, counts: map<Lamport, nat>, nMsgs: nat) returns (consens: bool)
      requires forall c :: Votes(cache, c) == if c in counts then counts[c] else 0
      ensures consens <==> Consensus(cache, nMsgs)
    {
      var todo := counts.Keys;
      consens := false;
      while todo != {}
        invariant todo <= counts.Keys && !consens
        invariant forall c | c in counts.Keys - todo :: counts[c] <= nMsgs / 2
        decreases |todo|
      {
        var c :| c in todo;
        if counts[c] > nMsgs / 2 {
          assert Votes(cache, c) > nMsgs / 2;
          return true;
        }
        todo := todo - {c};
      }
    }

    /** `req_conts_impl<RetValue>`: the reported span, and the entry to write back, if any. */
    method RetValue(k: Key, cache: seq<Cached>, nMsgs: nat) returns (span: Bytes, writeBack: Option<Entry>)
      modifies this`traces, this`request, this`released, this`gets
      ensures var v := Ended(old(View())); View() == v.(gets := v.gets + 1)
      ensures var b := Newest(Lookup(table, k), k, cache);
        && span == b.span
        && writeBack == if !Consensus(cache, nMsgs) && |b.span| > 0 then Some(Entry(b.clock, b.span)) else None
    {
      var local := Get(k);
      var clock, s, counts := ReduceNewest(local, k, cache);
      span := s;
      var consens := HasConsensus(cache, counts, nMsgs);
      writeBack := if !consens && |span| > 0 then Some(Entry(clock, span)) else None;
      End();
      gets := gets + 1;
    }

    // -------------------------------------------------------------- the steps of the machine

    /** `benchmark_put` and `benchmark_get` after `aquire`: whatever the other servers do, this
        is the step of the machine that starts an operation on this one. */
    method Launch(
      kind: Kind, k: Key, payload: Entry, remotes: set<ServerId>, ghost cfg: Config, ghost s: State, ghost id: ServerId)
      returns (round: Option<Round>)
      requires id in s.servers && s.servers[id] == View() && remotes == cfg.remotes(id, k)
      modifies this
      ensures var s' := Start(cfg, s, id, kind, k, payload);
        && s'.servers == s.servers[id := View()] && s'.finished == s.finished
        && (round.None? ==> s'.ctxs == s.ctxs)
        && (round.Some? ==> |s'.ctxs| == |s.ctxs| + 1 && s'.ctxs[..|s.ctxs|] == s.ctxs
                            && round.value.Is(s'.ctxs[|s.ctxs|]) && s'.ctxs[|s.ctxs|].slots.Keys == remotes)
    {
      Begin();
      if remotes == {} {
        End();
        skips := skips + 1;
        round := None;
      } else {
        var r := new Round(kind, k, payload, |remotes|);
        round := Some(r);
      }
    }

    /** The request handlers: this is the step of the machine in which this server handles the
        request of context `i`. */
    method Serve(
      kind: Kind, k: Key, payload: Entry, ghost cfg: Config, ghost s: State, ghost i: CtxId, ghost id: ServerId)
      returns (reply: Reply)
      requires Enabled(cfg, s, Handle(i, id)) && s.servers[id] == View()
      requires var x := s.ctxs[i]; x.kind == kind && x.key == k && x.payload == payload
      modifies this`table
      ensures Handled(s, i, id) ==
              s.(servers := s.servers[id := View()], ctxs := s.ctxs[i := WithReply(s.ctxs[i], id, reply)])
    {
      match kind
      case PutQuery => reply := HandleGetTimeStamp(k);
      case GetQuery => reply := HandleGetValueTimeStamp(k);
      case PutStore => reply := HandlePutReplica(k, payload);
      case GetStore => reply := HandlePutReplica(k, payload);
    }

    /** `req_conts_impl`: the body that the kind of the round calls for. It sends at most one
        message, and reports at most once: the value of a get, nothing for a put. */
    method Body(round: Round, mid: U32, ghost cfg: Config, ghost s: State, ghost i: CtxId)
      returns (send: Option<Message>, report: Option<Bytes>)
      requires i < |s.ctxs| && round.Is(s.ctxs[i]) && s.ctxs[i].coord in s.servers
      requires s.servers[s.ctxs[i].coord] == View() && cfg.mid(s.ctxs[i].coord) == mid
      modifies this
      ensures Stepped(cfg, s, i, Fire(cfg, s, i), View(), send, report) && round.Is(Fire(cfg, s, i).ctxs[i])
      ensures Fire(cfg, s, i).ctxs[i].slots == s.ctxs[i].slots
    {
      hide MaxCount, Newest, Consensus, PutNewer, Froms, Clocks;
      send, report := None, None;
      match round.kind
      case PutQuery =>
        var next := GetTime(mid, round.key, round.payload.value, round.cache);
        send := Some(Message(PutStore, next));
      case PutStore =>
        AckPutTime();
        report := Some([]);
      case GetQuery =>
        var span, writeBack := RetValue(round.key, round.cache, round.nMsgs);
        report := Some(span);
        if writeBack.Some? {
          send := Some(Message(GetStore, writeBack.value));
        }
      case GetStore =>
    }

    /** `req_conts`, from the cache to the body of the continuation: this is the step of the
        machine in which the coordinator of context `i` takes the reply of `from`. */
    method ReqConts(
      round: Round, from: ServerId, reply: Reply, mid: U32, ghost cfg: Config, ghost s: State, ghost i: CtxId)
      returns (send: Option<Message>, report: Option<Bytes>)
      requires Enabled(cfg, s, Continue(i, from)) && round.Is(s.ctxs[i]) && s.ctxs[i].slots[from] == Answered(reply)
      requires s.servers[s.ctxs[i].coord] == View() && cfg.mid(s.ctxs[i].coord) == mid
      modifies this, round
      ensures Stepped(cfg, s, i, Continued(cfg, s, i, from), View(), send, report)
      ensures round.Is(Continued(cfg, s, i, from).ctxs[i])
      ensures Continued(cfg, s, i, from).ctxs[i].slots == s.ctxs[i].slots[from := Consumed]
    {
      hide Fire;
      send, report := None, None;
      round.cache := round.cache + [Cached(from, reply)];
      round.nResp := round.nResp + 1;
      if 2 * round.nResp + 1 < round.nMsgs {
        return;
      }
      if round.done {
        return;
      }
      round.done := true;
      ghost var s1 := Opened(s, i, from);
      assert Continued(cfg, s, i, from) == Fire(cfg, s1, i);
      send, report := Body(round, mid, cfg, s1, i);
      assert Clocks(s1, s.ctxs[i].key) == Clocks(s, s.ctxs[i].key);
    }
  }

  /** The step from `s` to `s'` changed the coordinator of context `i` to `v`, the context
      itself, and nothing else but what is sent and reported: a new round with the message,
      and the operation at the end of the list of reports. */
  ghost predicate Stepped(
    cfg: Config, s: State, i: CtxId, s': State, v: Server, send: Option<Message>, report: Option<Bytes>)
    requires i < |s.ctxs|
  {
    var x := s.ctxs[i];
    && s'.servers == s.servers[x.coord := v]
    && |s'.ctxs| == |s.ctxs| + (if send.Some? then 1 else 0)
    && (forall j | 0 <= j < |s.ctxs| && j != i :: s'.ctxs[j] == s.ctxs[j])
    && (send.Some? ==>
          var y := s'.ctxs[|s.ctxs|];
          y == NewCtx(cfg, s, send.value.kind, x.coord, x.key, send.value.payload, i).(outcome := y.outcome))
    && s'.finished == s.finished + (if report.None? then [] else if x.kind.GetQuery? then [i] else [x.op])
    && (report.Some? && x.kind.GetQuery? ==> report.value == s'.ctxs[i].outcome.value)
  }
}
