/** The replication protocol (src/include/protocol/abd/protocol.h) as a step machine.

    Every server is a replica and a coordinator. A step is one pass of a request handler on
    a replica or of a continuation on a coordinator, which the event loop of a server runs
    to the end before it looks at the next message. eRPC delivers every request at most once
    and runs every continuation at most once; it may deliver late, in any order, or never. */
module Abd {
  import opened Basics
  import opened Lamports
  import opened Store
  import opened Quorum
  import opened Encoding

  type ServerId = nat

  /** Contexts are numbered in the order of their creation. */
  type CtxId = nat

  /** `remotes(s, k)` is the list `replicas[get_idx(k)]` of server `s`; it is empty when the
      group that owns `k` does not contain `s`. */
  datatype Config = Config(
    servers: set<ServerId>,
    remotes: (ServerId, Key) -> set<ServerId>,
    group: Key -> set<ServerId>,
    mid: ServerId -> U32,
    maxRequest: nat)

  /** What a context was created for: its request type together with its continuation. */
  datatype Kind =
    | PutQuery // GetTimeStamp / GetTime
    | PutStore // PutReplica / AckPutTime
    | GetQuery // GetValueTimeStamp / RetValue
    | GetStore // PutReplica / RetGetPutUpdate

  datatype Reply =
    | TimeStamp(clock: Lamport)
    | Versioned(clock: Lamport, value: Bytes)
    | Ack

  /** The life of one request and its response. */
  datatype Slot = Requested | Answered(reply: Reply) | Consumed

  datatype Cached = Cached(from: ServerId, reply: Reply)

  /** A `ReplicaContext`. The fields after `cache` are history: the clocks that the stores
      held when the context was created, and what its continuation decided when the gate
      opened. */
  datatype Ctx = Ctx(
    kind: Kind,
    coord: ServerId,
    key: Key,
    payload: Entry,
    slots: map<ServerId, Slot>,
    nMsgs: nat,
    nResp: nat,
    done: bool,
    cache: seq<Cached>,
    base: map<ServerId, Lamport>,
    op: CtxId,
    outcome: Outcome)

  /** `quorum` is the set of servers that had been heard when the gate opened, the
      coordinator included; `seen` is the largest counter a put found, `next` the context of
      its second round, `clock` the clock a put created or a get selected, `value` what the
      get reported, `winner` the entry with that clock. */
  datatype Outcome = Outcome(
    quorum: set<ServerId>, seen: U32, next: CtxId, clock: Lamport, winner: Entry, value: Bytes)

  const NOTHING: Outcome := Outcome({}, 0, 0, MIN, Entry(MIN, []), [])

  /** `traces` is `current_traces`; `request`, `acquired` and `released` are the rate
      limiter of the server (src/server.cpp:39-71). */
  datatype Server = Server(
    table: Table,
    traces: int,
    puts: nat,
    gets: nat,
    skips: nat,
    request: int,
    acquired: nat,
    released: nat)

  /** `finished` lists the operations whose `put_ret` or `get_ret` was called. */
  datatype State = State(servers: map<ServerId, Server>, ctxs: seq<Ctx>, finished: seq<CtxId>)

  // ---------------------------------------------------------------- replica side

  /** The request handlers GetTimeStamp, GetValueTimeStamp and PutReplica. */
  function ServeTable(t: Table, kind: Kind, k: Key, payload: Entry): Table {
    if kind.PutStore? || kind.GetStore? then PutNewer(t, k, payload) else t
  }

  function ServeReply(t: Table, kind: Kind, k: Key): Reply {
    match kind
    case PutQuery => TimeStamp(ClockOf(t, k))
    case GetQuery => Versioned(Lookup(t, k).clock, Lookup(t, k).value)
    case PutStore => Ack
    case GetStore => Ack
  }

  // ---------------------------------------------------------------- coordinator side

  /** The fold of the GetTime continuation; a reply shorter than a clock is skipped. */
  function MaxCount(init: U32, cache: seq<Cached>): U32 {
    if cache == [] then init
    else
      var prior := MaxCount(init, cache[..|cache| - 1]);
      match cache[|cache| - 1].reply
      case Ack => prior
      case TimeStamp(c) => if prior >= c.count then prior else c.count
      case Versioned(c, _) => if prior >= c.count then prior else c.count
  }

  /** The accumulator of the RetValue fold: the largest clock, the span that goes with it,
      the data part of the message buffer `tmp` the span may point into, and (history) the
      entry the clock was read from. */
  datatype Best = Best(clock: Lamport, span: Bytes, tmp: Bytes, winner: Entry, local: bool)

  /** memcpy over the beginning of a buffer. */
  function Overlay(tmp: Bytes, data: Bytes): Bytes {
    data + if |data| <= |tmp| then tmp[|data|..] else []
  }

  /** What protocol.h:527-528 leaves in `tmp` and the span it returns for a reply: the copy
      takes `get_size()` bytes of a message that starts with a header of sixteen bytes, so
      the last sixteen data bytes are missing, and the span is the key field. */
  function CopyReply(tmp: Bytes, k: Key, clock: Lamport, value: Bytes): Bytes {
    var data := k + ClockBytes(clock) + value;
    Overlay(tmp, if |data| <= 16 then [] else data[..|data| - 16])
  }

  function KeySpan(tmp: Bytes, k: Key): (span: Bytes)
    ensures |span| == |k| + 8
  {
    (tmp + Fill(0, |k| + 8))[..|k| + 8]
  }

  /** One step of the RetValue fold. */
  function Improve(best: Best, k: Key, r: Reply): Best {
    if r.Versioned? && Less(best.clock, r.clock) then
      var tmp := CopyReply(best.tmp, k, r.clock, r.value);
      Best(r.clock, KeySpan(tmp, k), tmp, Entry(r.clock, r.value), false)
    else best
  }

  function Newest(local: Entry, k: Key, cache: seq<Cached>): Best {
    if cache == [] then Best(local.clock, local.value, [], local, true)
    else Improve(Newest(local, k, cache[..|cache| - 1]), k, cache[|cache| - 1].reply)
  }

  /** How many cached replies carry a clock: the map `counts`. */
  function Votes(cache: seq<Cached>, c: Lamport): nat {
    if cache == [] then 0
    else Votes(cache[..|cache| - 1], c) +
         (var r := cache[|cache| - 1].reply; if r.Versioned? && r.clock == c then 1 else 0)
  }

  /** The test of protocol.h:537-543. */
  ghost predicate Consensus(cache: seq<Cached>, nMsgs: nat) {
    exists c :: Votes(cache, c) > nMsgs / 2
  }

  function Froms(cache: seq<Cached>): set<ServerId> {
    set c | c in cache :: c.from
  }

  // ---------------------------------------------------------------- steps

  datatype Step =
    | StartPut(s: ServerId, k: Key, v: Bytes)
    | StartGet(s: ServerId, k: Key)
    | Handle(i: CtxId, r: ServerId)
    | Continue(i: CtxId, r: ServerId)

  function Clocks(s: State, k: Key): map<ServerId, Lamport> {
    map r | r in s.servers :: ClockOf(s.servers[r].table, k)
  }

  /** `create_rep_context` followed by `send_and_encrypt_msg`. */
  function NewCtx(cfg: Config, s: State, kind: Kind, coord: ServerId, k: Key, payload: Entry, op: CtxId): Ctx {
    var remotes := cfg.remotes(coord, k);
    Ctx(kind, coord, k, payload, map r | r in remotes :: Requested, |remotes|, 0, false, [], Clocks(s, k), op, NOTHING)
  }

  predicate Enabled(cfg: Config, s: State, step: Step) {
    match step
    case StartPut(id, _, _) => id in s.servers && s.servers[id].request < cfg.maxRequest
    case StartGet(id, _) => id in s.servers && s.servers[id].request < cfg.maxRequest
    case Handle(i, r) =>
      i < |s.ctxs| && r in s.ctxs[i].slots && s.ctxs[i].slots[r].Requested? && r in s.servers
    case Continue(i, r) =>
      i < |s.ctxs| && r in s.ctxs[i].slots && s.ctxs[i].slots[r].Answered? && s.ctxs[i].coord in s.servers
  }

  /** `aquire` in the event loop and `increment_traces`. */
  function Began(v: Server): Server {
    v.(traces := v.traces + 1, request := v.request + 1, acquired := v.acquired + 1)
  }

  /** `decrement_traces` and `release`, which every way of finishing calls. */
  function Ended(v: Server): Server {
    v.(traces := v.traces - 1, request := v.request - 1, released := v.released + 1)
  }

  function Start(cfg: Config, s: State, id: ServerId, kind: Kind, k: Key, payload: Entry): State
    requires id in s.servers
  {
    var v := Began(s.servers[id]);
    if cfg.remotes(id, k) == {} then
      var v' := Ended(v);
      s.(servers := s.servers[id := v'.(skips := v'.skips + 1)])
    else
      s.(servers := s.servers[id := v], ctxs := s.ctxs + [NewCtx(cfg, s, kind, id, k, payload, |s.ctxs|)])
  }

  function Handled(s: State, i: CtxId, r: ServerId): State
    requires i < |s.ctxs| && r in s.servers
  {
    var x := s.ctxs[i];
    var v := s.servers[r];
    s.(servers := s.servers[r := v.(table := ServeTable(v.table, x.kind, x.key, x.payload))],
       ctxs := s.ctxs[i := x.(slots := x.slots[r := Answered(ServeReply(v.table, x.kind, x.key))])])
  }

  /** `add_to_cache` and the increment of `n_resp`. */
  function Arrived(x: Ctx, r: ServerId): Ctx
    requires r in x.slots && x.slots[r].Answered?
  {
    x.(slots := x.slots[r := Consumed], nResp := x.nResp + 1, cache := x.cache + [Cached(r, x.slots[r].reply)])
  }

  /** `req_conts_impl<GetTime>`: a new clock, a PutReplica round and the local put. */
  function GetTime(cfg: Config, s: State, i: CtxId): State
    requires i < |s.ctxs| && s.ctxs[i].coord in s.servers
  {
    var x := s.ctxs[i];
    var v := s.servers[x.coord];
    var seen := MaxCount(ClockOf(v.table, x.key).count, x.cache);
    var clock := Lamport(Increment(seen), cfg.mid(x.coord));
    var e := Entry(clock, x.payload.value);
    var x' := x.(outcome := Outcome(Froms(x.cache) + {x.coord}, seen, |s.ctxs|, clock, e, []));
    s.(servers := s.servers[x.coord := v.(table := PutNewer(v.table, x.key, e))],
       ctxs := s.ctxs[i := x'] + [NewCtx(cfg, s, PutStore, x.coord, x.key, e, i)])
  }

  /** `req_conts_impl<AckPutTime>`: the put is reported. */
  function AckPutTime(s: State, i: CtxId): State
    requires i < |s.ctxs| && s.ctxs[i].coord in s.servers
  {
    var x := s.ctxs[i];
    var v := Ended(s.servers[x.coord]);
    var x' := x.(outcome := NOTHING.(quorum := Froms(x.cache) + {x.coord}));
    s.(servers := s.servers[x.coord := v.(puts := v.puts + 1)],
       ctxs := s.ctxs[i := x'],
       finished := s.finished + [x.op])
  }

  /** `req_conts_impl<RetValue>`: the largest clock, perhaps a write-back, and the report. */
  ghost function RetValue(cfg: Config, s: State, i: CtxId): State
    requires i < |s.ctxs| && s.ctxs[i].coord in s.servers
  {
    var x := s.ctxs[i];
    var v := Ended(s.servers[x.coord]);
    var best := Newest(Lookup(v.table, x.key), x.key, x.cache);
    var x' := x.(outcome := Outcome(Froms(x.cache) + {x.coord}, 0, 0, best.clock, best.winner, best.span));
    var writeBack :=
      if !Consensus(x.cache, x.nMsgs) && |best.span| > 0
      then [NewCtx(cfg, s, GetStore, x.coord, x.key, Entry(best.clock, best.span), i).(outcome := x'.outcome)]
      else [];
    s.(servers := s.servers[x.coord := v.(gets := v.gets + 1)],
       ctxs := s.ctxs[i := x'] + writeBack,
       finished := s.finished + [i])
  }

  ghost function Fire(cfg: Config, s: State, i: CtxId): State
    requires i < |s.ctxs| && s.ctxs[i].coord in s.servers
  {
    match s.ctxs[i].kind
    case PutQuery => GetTime(cfg, s, i)
    case PutStore => AckPutTime(s, i)
    case GetQuery => RetValue(cfg, s, i)
    case GetStore => s
  }

  /** `req_conts`: cache the reply, count it, and go on at most once, when the gate opens. */
  ghost function Continued(cfg: Config, s: State, i: CtxId, r: ServerId): State
    requires Enabled(cfg, s, Continue(i, r))
  {
    var x := Arrived(s.ctxs[i], r);
    if !GateOpen(x.nResp, x.nMsgs) || x.done then s.(ctxs := s.ctxs[i := x])
    else Fire(cfg, s.(ctxs := s.ctxs[i := x.(done := true)]), i)
  }

  ghost function Apply(cfg: Config, s: State, step: Step): State
    requires Enabled(cfg, s, step)
  {
    match step
    case StartPut(id, k, v) => Start(cfg, s, id, PutQuery, k, Entry(MIN, v))
    case StartGet(id, k) => Start(cfg, s, id, GetQuery, k, Entry(MIN, []))
    case Handle(i, r) => Handled(s, i, r)
    case Continue(i, r) => Continued(cfg, s, i, r)
  }

  // ---------------------------------------------------------------- runs

  ghost predicate Init(cfg: Config, s: State) {
    && s.servers == (map r | r in cfg.servers :: Server(map[], 0, 0, 0, 0, 0, 0, 0))
    && s.ctxs == []
    && s.finished == []
  }

  ghost predicate Next(cfg: Config, s: State, s': State) {
    exists step :: Enabled(cfg, s, step) && s' == Apply(cfg, s, step)
  }

  ghost predicate IsRun(cfg: Config, run: seq<State>) {
    && |run| > 0
    && Init(cfg, run[0])
    && forall i | 0 < i < |run| :: Next(cfg, run[i - 1], run[i])
  }

  /** All servers agree on the owner group of every key. */
  ghost predicate ValidConfig(cfg: Config) {
    && (forall k :: cfg.group(k) <= cfg.servers)
    && (forall s, k | s in cfg.servers ::
         cfg.remotes(s, k) == if s in cfg.group(k) then cfg.group(k) - {s} else {})
  }

  /** The owners of the key have different machine ids. */
  predicate DistinctIds(cfg: Config, k: Key) {
    forall a, b | a in cfg.group(k) && b in cfg.group(k) && a != b :: cfg.mid(a) != cfg.mid(b)
  }
}
