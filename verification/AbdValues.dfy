/** The values that gets report and write back. The source reports the key field of a partly
    copied message when a remote reply wins (src/include/protocol/abd/protocol.h:526-529), so
    the value is right only under a condition, which is stated here exactly. */
module AbdValues {
  import opened Basics
  import opened Lamports
  import opened Store
  import opened Quorum
  import opened Encoding
  import opened Messages
  import opened Abd
  import opened AbdInvariant
  import opened AbdHistory
  import opened AbdProvenance
  import opened AbdUniqueness
  import opened AbdTheorems

  /** The key field of a buffer with the contents `tmp`, padded with zeros, over which all but
      the last sixteen bytes of the key, the clock and a value of `n` bytes have been copied. */
  function Misread(tmp: Bytes, k: Key, c: Lamport, n: nat): (span: Bytes)
    ensures |span| == |k| + 8
  {
    var field := k + ClockBytes(c);
    var copied := if |field| + n <= 16 then 0 else if n >= 16 then |field| else |field| + n - 16;
    field[..copied] + (tmp + Fill(0, |field|))[copied..|field|]
  }

  lemma CopySpan(tmp: Bytes, k: Key, c: Lamport, v: Bytes)
    ensures KeySpan(CopyReply(tmp, k, c, v), k) == Misread(tmp, k, c, |v|)
  {
    hide ClockBytes;
    var field := k + ClockBytes(c);
    var copy := if |field + v| <= 16 then [] else (field + v)[..|field + v| - 16];
    assert CopyReply(tmp, k, c, v) == Overlay(tmp, copy);
    var span := (Overlay(tmp, copy) + Fill(0, |field|))[..|field|];
    assert span == Misread(tmp, k, c, |v|);
  }

  /** No reply is newer than the local entry. */
  predicate LocalNewest(local: Entry, cache: seq<Cached>) {
    forall c | c in cache && c.reply.Versioned? :: Leq(c.reply.clock, local.clock)
  }

  /** The local entry wins exactly when no reply is newer. */
  lemma LocalWinsIff(local: Entry, k: Key, cache: seq<Cached>)
    ensures Newest(local, k, cache).local <==> LocalNewest(local, cache)
  {
    NewestIsMax(local, k, cache);
  }

  /** What the buffer held when the reply that wins in the end was copied into it: the remains
      of the replies that had been ahead before. */
  function LeftOver(local: Entry, k: Key, cache: seq<Cached>): Bytes {
    if cache == [] then []
    else
      var rest, r := cache[..|cache| - 1], cache[|cache| - 1].reply;
      var best := Newest(local, k, rest);
      if r.Versioned? && Less(best.clock, r.clock) then best.tmp else LeftOver(local, k, rest)
  }

  /** Reply `j` was newer than the local entry and all replies before it. */
  predicate Ahead(local: Entry, cache: seq<Cached>, j: nat) {
    && j < |cache| && cache[j].reply.Versioned? && Less(local.clock, cache[j].reply.clock)
    && forall i | 0 <= i < j && cache[i].reply.Versioned? :: Less(cache[i].reply.clock, cache[j].reply.clock)
  }

  /** What reply `j` puts into the buffer: all but the last sixteen bytes of its data. */
  function Copied(k: Key, cache: seq<Cached>, j: nat): Bytes
    requires j < |cache| && cache[j].reply.Versioned?
  {
    var data := k + ClockBytes(cache[j].reply.clock) + cache[j].reply.value;
    data[..if |data| <= 16 then 0 else |data| - 16]
  }

  /** It is the data part of the first `get_size()` bytes of the message that carried the
      reply: the size does not count the header, but the bytes start with it. */
  lemma CopiedFromMessage(k: Key, cache: seq<Cached>, j: nat)
    requires j < |cache| && cache[j].reply.Versioned?
    ensures var field, v := k + ClockBytes(cache[j].reply.clock), cache[j].reply.value;
      var copy := Image(field, v)[..|field| + |v|];
      Copied(k, cache, j) == if |copy| <= HEADER then [] else copy[HEADER..]
  {
    hide ClockBytes, ToBytes;
    var field, v := k + ClockBytes(cache[j].reply.clock), cache[j].reply.value;
    var m := Image(field, v);
    var n := |field| + |v|;
    assert m[HEADER..] == field + v;
    assert n > HEADER ==> m[..n][HEADER..] == m[HEADER..][..n - HEADER];
  }

  /** `tmp` holds in each place the byte of the last reply before `w` that was ahead when it
      came and reaches that far, and nothing beyond the longest of them. */
  ghost predicate Remains(local: Entry, k: Key, cache: seq<Cached>, w: nat, tmp: Bytes)
    requires w <= |cache|
  {
    && (forall j: nat | j < w && Ahead(local, cache, j) :: |Copied(k, cache, j)| <= |tmp|)
    && (forall x: nat | x < |tmp| :: ByteRemains(local, k, cache, w, x, tmp[x]))
  }

  ghost predicate ByteRemains(local: Entry, k: Key, cache: seq<Cached>, w: nat, x: nat, b: Byte)
    requires w <= |cache|
  {
    exists j: nat :: LastToReach(local, k, cache, w, x, j) && Copied(k, cache, j)[x] == b
  }

  predicate LastToReach(local: Entry, k: Key, cache: seq<Cached>, w: nat, x: nat, j: nat)
    requires w <= |cache|
  {
    && j < w && Ahead(local, cache, j) && x < |Copied(k, cache, j)|
    && forall i: nat | j < i < w && Ahead(local, cache, i) :: |Copied(k, cache, i)| <= x
  }

  lemma AheadIsNewest(local: Entry, k: Key, cache: seq<Cached>, n: nat)
    requires n < |cache|
    ensures Ahead(local, cache, n) <==>
            cache[n].reply.Versioned? && Less(Newest(local, k, cache[..n]).clock, cache[n].reply.clock)
  {
    NewestIsMax(local, k, cache[..n]);
    assert forall i | 0 <= i < n :: cache[..n][i] == cache[i] && cache[i] in cache[..n];
  }

  /** The buffer after the first `n` replies. */
  lemma {:induction false} BufferRemains(local: Entry, k: Key, cache: seq<Cached>, n: nat)
    requires n <= |cache|
    ensures Remains(local, k, cache, n, Newest(local, k, cache[..n]).tmp)
    decreases n
  {
    hide Copied, Ahead, CopyReply, KeySpan;
    if n > 0 {
      var before := cache[..n - 1];
      BufferRemains(local, k, cache, n - 1);
      assert cache[..n][..n - 1] == before && cache[..n][n - 1] == cache[n - 1];
      AheadIsNewest(local, k, cache, n - 1);
      var tmp := Newest(local, k, before).tmp;
      if Ahead(local, cache, n - 1) {
        CopyOverlays(tmp, k, cache, n - 1);
        OverlayRemains(local, k, cache, n, tmp);
      } else {
        SameRemains(local, k, cache, n, tmp);
      }
    }
  }

  lemma CopyOverlays(tmp: Bytes, k: Key, cache: seq<Cached>, j: nat)
    requires j < |cache| && cache[j].reply.Versioned?
    ensures CopyReply(tmp, k, cache[j].reply.clock, cache[j].reply.value) == Overlay(tmp, Copied(k, cache, j))
  {
    hide ClockBytes, Overlay;
  }

  lemma OverlayRemains(local: Entry, k: Key, cache: seq<Cached>, n: nat, tmp: Bytes)
    requires 0 < n <= |cache| && Ahead(local, cache, n - 1) && Remains(local, k, cache, n - 1, tmp)
    ensures Remains(local, k, cache, n, Overlay(tmp, Copied(k, cache, n - 1)))
  {
    hide Copied, Less;
    var copy := Copied(k, cache, n - 1);
    var tmp' := Overlay(tmp, copy);
    forall x: nat | x < |tmp'|
      ensures ByteRemains(local, k, cache, n, x, tmp'[x])
    {
      if x < |copy| {
        assert LastToReach(local, k, cache, n, x, n - 1);
      } else {
        assert ByteRemains(local, k, cache, n - 1, x, tmp[x]);
        var j: nat :| LastToReach(local, k, cache, n - 1, x, j) && Copied(k, cache, j)[x] == tmp[x];
        assert LastToReach(local, k, cache, n, x, j);
      }
    }
  }

  lemma SameRemains(local: Entry, k: Key, cache: seq<Cached>, n: nat, tmp: Bytes)
    requires 0 < n <= |cache| && !Ahead(local, cache, n - 1) && Remains(local, k, cache, n - 1, tmp)
    ensures Remains(local, k, cache, n, tmp)
  {
    hide Copied, Less;
    forall x: nat | x < |tmp|
      ensures ByteRemains(local, k, cache, n, x, tmp[x])
    {
      assert ByteRemains(local, k, cache, n - 1, x, tmp[x]);
      var j: nat :| LastToReach(local, k, cache, n - 1, x, j) && Copied(k, cache, j)[x] == tmp[x];
      assert LastToReach(local, k, cache, n, x, j);
    }
  }

  /** The winner is the last reply that was ahead, and what the buffer held before it came is
      what remains of those that had been ahead earlier. */
  lemma {:induction false} LeftOverRemains(local: Entry, k: Key, cache: seq<Cached>, n: nat) returns (w: nat)
    requires n <= |cache| && !Newest(local, k, cache[..n]).local
    ensures w < n && Ahead(local, cache, w) && forall i: nat | w < i < n :: !Ahead(local, cache, i)
    ensures var b := Newest(local, k, cache[..n]);
      cache[w].reply == Versioned(b.winner.clock, b.winner.value) &&
      Remains(local, k, cache, w, LeftOver(local, k, cache[..n]))
    decreases n
  {
    hide Ahead, Remains, CopyReply, KeySpan;
    var before := cache[..n - 1];
    assert cache[..n][..n - 1] == before && cache[..n][n - 1] == cache[n - 1];
    AheadIsNewest(local, k, cache, n - 1);
    if Ahead(local, cache, n - 1) {
      w := n - 1;
      BufferRemains(local, k, cache, n - 1);
    } else {
      w := LeftOverRemains(local, k, cache, n - 1);
    }
  }

  /** The span that goes with a remote winner, for any number of replies. */
  lemma {:induction false} RemoteSpan(local: Entry, k: Key, cache: seq<Cached>)
    ensures var b := Newest(local, k, cache);
      !b.local ==>
        b.clock == b.winner.clock && b.span == Misread(LeftOver(local, k, cache), k, b.clock, |b.winner.value|)
  {
    hide Misread, KeySpan, CopyReply;
    if cache != [] {
      var rest, r := cache[..|cache| - 1], cache[|cache| - 1].reply;
      RemoteSpan(local, k, rest);
      if r.Versioned? {
        CopySpan(Newest(local, k, rest).tmp, k, r.clock, r.value);
      }
    }
  }

  /** The span is the value of the winner exactly when the local entry wins or the value is
      what the misread of a value of that size yields. */
  lemma RightSpanIff(local: Entry, k: Key, cache: seq<Cached>)
    ensures var b := Newest(local, k, cache);
      b.span == b.winner.value <==>
        b.local || b.winner.value == Misread(LeftOver(local, k, cache), k, b.clock, |k| + 8)
  {
    hide Newest, Misread, LeftOver;
    NewestIsMax(local, k, cache);
    RemoteSpan(local, k, cache);
  }

  /** For keys of eight bytes or more that is the key field itself, whatever else was heard. */
  lemma MisreadCases(tmp: Bytes, k: Key, c: Lamport)
    ensures |k| >= 8 ==> Misread(tmp, k, c, |k| + 8) == k + ClockBytes(c)
  {
  }

  /** A single reply finds the buffer empty. */
  lemma OneReply(local: Entry, k: Key, r: Cached)
    ensures LeftOver(local, k, [r]) == []
  {
    assert [r][..0] == [];
  }

  /** The reply that opens the gate of a get in a group of three is the only one. */
  lemma OnlyReply(cfg: Config, x: Ctx, r: ServerId)
    requires Shape(cfg, x) && r in x.slots && x.slots[r].Answered? && x.kind.GetQuery? && !x.done
    ensures x.slots[r].reply.Versioned?
    ensures x.nMsgs == 2 ==> Arrived(x, r).cache == [Cached(r, x.slots[r].reply)]
  {
  }

  /** What the continuation of a get leaves as its outcome. */
  lemma GetOutcome(cfg: Config, s: State, i: CtxId, r: ServerId)
    requires Enabled(cfg, s, Continue(i, r)) && s.ctxs[i].kind.GetQuery? && !s.ctxs[i].done
    requires var x := Arrived(s.ctxs[i], r); GateOpen(x.nResp, x.nMsgs)
    ensures var x := Arrived(s.ctxs[i], r);
      var s' := Continued(cfg, s, i, r);
      var b := Newest(Lookup(s.servers[x.coord].table, x.key), x.key, x.cache);
      && i < |s'.ctxs|
      && var o := s'.ctxs[i].outcome; o.clock == b.clock && o.winner == b.winner && o.value == b.span
  {
    hide Newest, Froms, Consensus, NewCtx;
    assert Continued(cfg, s, i, r) == RetValue(cfg, Opened(s, i, r), i);
  }

  /** When the gate of a get opens, the value it reports is that of the entry it selected
      exactly if the local entry is newest, and so selected, or the value happens to be what
      the misread yields: for keys of eight bytes or more the key field, and in groups of three
      that of an empty buffer. */
  lemma ReportedValue(cfg: Config, s: State, i: CtxId, r: ServerId)
    requires Inv(cfg, s) && Enabled(cfg, s, Continue(i, r)) && s.ctxs[i].kind.GetQuery? && !s.ctxs[i].done
    requires var x := Arrived(s.ctxs[i], r); GateOpen(x.nResp, x.nMsgs)
    ensures var x := Arrived(s.ctxs[i], r);
      var o := Continued(cfg, s, i, r).ctxs[i].outcome;
      var local := Lookup(s.servers[x.coord].table, x.key);
      var held := LeftOver(local, x.key, x.cache);
      && (LocalNewest(local, x.cache) ==> o.winner == local && o.value == local.value)
      && (o.value == o.winner.value <==>
            LocalNewest(local, x.cache) || o.winner.value == Misread(held, x.key, o.clock, |x.key| + 8))
      && (|x.key| >= 8 ==> Misread(held, x.key, o.clock, |x.key| + 8) == x.key + ClockBytes(o.clock))
      && (x.nMsgs == 2 ==> held == [])
  {
    hide Newest, Misread, Continued, Shape, Held, Decided, Leq, ClockBytes, LocalNewest, LeftOver;
    var x := Arrived(s.ctxs[i], r);
    var local := Lookup(s.servers[x.coord].table, x.key);
    assert CtxOk(cfg, s, s.ctxs[i]);
    OnlyReply(cfg, s.ctxs[i], r);
    LocalWinsIff(local, x.key, x.cache);
    NewestIsMax(local, x.key, x.cache);
    RightSpanIff(local, x.key, x.cache);
    GetOutcome(cfg, s, i, r);
    MisreadCases(LeftOver(local, x.key, x.cache), x.key, Newest(local, x.key, x.cache).clock);
    OneReply(local, x.key, Cached(r, s.ctxs[i].slots[r].reply));
  }

  /** A get keeps the write-backs of a key faithful exactly if it is on another key, writes
      nothing back, or reported the value of the entry it selected. */
  lemma GetStaysFaithful(cfg: Config, s: State, i: CtxId, k: Key)
    requires i < |s.ctxs| && s.ctxs[i].coord in s.servers && s.ctxs[i].kind.GetQuery?
    ensures var s' := RetValue(cfg, s, i);
      var o := s'.ctxs[i].outcome;
      Faithful(s', k) <==>
        Faithful(s, k) && (s.ctxs[i].key == k && |s'.ctxs| > |s.ctxs| ==> o.value == o.winner.value)
  {
    hide Newest, Froms, Consensus, Faithful;
    var x := s.ctxs[i];
    var s' := RetValue(cfg, s, i);
    NewestIsMax(Lookup(s.servers[x.coord].table, x.key), x.key, x.cache);
    FaithfulExtended(s, s', i, k);
  }

  /** Faithfulness depends on the write-backs alone. */
  lemma FaithfulExtended(s: State, s': State, i: CtxId, k: Key)
    requires i < |s.ctxs| <= |s'.ctxs| <= |s.ctxs| + 1
    requires forall j | 0 <= j < |s.ctxs| && j != i :: s'.ctxs[j] == s.ctxs[j]
    requires !s.ctxs[i].kind.GetStore? && !s'.ctxs[i].kind.GetStore?
    ensures Faithful(s', k) <==>
            Faithful(s, k) && (|s'.ctxs| > |s.ctxs| ==>
              var w := s'.ctxs[|s.ctxs|]; w.kind.GetStore? && w.key == k ==> w.payload == w.outcome.winner)
  {
  }

  /** A get of a run whose write-backs on the key were faithful, and whose own report is right,
      returns the value that the put which created its clock was given, or nothing with the
      minimal clock. */
  lemma ReportedValueWasPut(cfg: Config, run: seq<State>, n: nat, b: CtxId)
    requires IsRun(cfg, run) && n < |run| && IsGet(run[n], b) && HasClock(run[n], b)
    requires Faithful(run[n], run[n].ctxs[b].key)
    requires run[n].ctxs[b].outcome.value == run[n].ctxs[b].outcome.winner.value
    ensures Known(run[n], run[n].ctxs[b].key, Entry(ClockOfOp(run[n], b), run[n].ctxs[b].outcome.value))
            || (ClockOfOp(run[n], b) == MIN && run[n].ctxs[b].outcome.value == [])
  {
    RunSourced(cfg, run, n);
    assert SourcedCtx(run[n], run[n].ctxs[b]);
  }

  /** A key on which no get has started, whatever is read elsewhere, has one entry for each
      clock, in stores and messages. */
  lemma PutRunsAgree(cfg: Config, run: seq<State>, n: nat, k: Key, e: Entry, e': Entry)
    requires ValidConfig(cfg) && DistinctIds(cfg, k) && IsRun(cfg, run) && n < |run|
    requires Issued(run[n], k) <= TWO32
    requires forall a | 0 <= a < |run[n].ctxs| && IsGet(run[n], a) :: run[n].ctxs[a].key != k
    requires Present(run[n], k, e) && Present(run[n], k, e') && e.clock == e'.clock
    ensures e == e'
  {
    hide Present, Issued, IsRun, ValidConfig, DistinctIds;
    RunLinked(cfg, run, n);
    forall w | 0 <= w < |run[n].ctxs| && run[n].ctxs[w].kind.GetStore?
      ensures run[n].ctxs[w].key != k
    {
      assert LinkedAt(run[n], w);
      assert IsGet(run[n], run[n].ctxs[w].op);
    }
    EqualClocksEqualValues(cfg, run, n, k, e, e');
  }
}
