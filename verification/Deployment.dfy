/** The replica groups that the servers of a deployment compute independently: when they form
    a valid configuration of the protocol, in which every key is owned by the same three
    servers on every machine. */
module Deployment {
  import opened Basics
  import opened Encoding
  import opened Store
  import opened Quorum
  import opened Triples
  import opened Groups
  import Abd
  import AbdTheorems

  /** What every server has computed at start-up. */
  datatype Startup = Startup(infos: seq<seq<nat>>, tmps: seq<seq<int>>, choices: seq<seq<Choice>>)

  /** Each of at least three servers has sorted the addresses as it spells them and run the
      triple loops. */
  ghost predicate Started(c: Cluster, u: Startup) {
    && Addressed(c) && |c.uris| >= 3
    && Views(c, u.infos, u.tmps) && |u.choices| == |c.uris|
    && forall s | 0 <= s < |c.uris| :: Describes(u.tmps[s], u.choices[s], All(|u.tmps[s]|))
  }

  /** The order of servers that server `s` has computed. */
  ghost function OrderOf(c: Cluster, u: Startup, s: nat): seq<nat>
    requires Started(c, u) && s < |c.uris|
  {
    assert View(c, s, u.infos[s], u.tmps[s]);
    Names(s, u.infos[s], u.tmps[s])
  }

  /** `replicas[get_idx(key)]` on server `s`. */
  function RemotesAt(u: Startup, s: nat, k: Key): set<nat>
    requires |u.choices| == |u.infos|
  {
    if s < |u.choices| && |u.choices[s]| > 0 then
      var r := u.choices[s][GetIdx(k, |u.choices[s]|)];
      if r.us && 0 <= r.a < |u.infos[s]| && 0 <= r.b < |u.infos[s]|
      then Elements(Remotes(r, u.infos[s])) else {}
    else {}
  }

  /** There are groups if and only if there are three servers; without groups `get_idx` would
      divide by zero. */
  lemma SomeTriples(n: nat)
    ensures |All(n)| > 0 <==> n >= 3
  {
    OuterSpec(n, n);
    assert forall x | 0 <= x < |All(n)| :: All(n)[x] in All(n);
    if n >= 3 {
      assert Triple(0, 1, 2) in All(n);
    }
  }

  /** The triple of positions that a key selects. */
  function TripleOf(n: nat, k: Key): (t: Triple)
    requires n >= 3
    ensures t.i < t.j < t.k < n
  {
    SomeTriples(n);
    OuterSpec(n, n);
    var ts := All(n);
    assert ts[GetIdx(k, |ts|)] in ts;
    ts[GetIdx(k, |ts|)]
  }

  /** The owners of a key under an order of the servers. */
  function Owners(order: seq<nat>, k: Key): set<nat>
    requires |order| >= 3
  {
    Members(order, TripleOf(|order|, k))
  }

  /** What a server contacts follows from its own order: the two others if it finds itself
      among the owners of the key, and nobody otherwise. */
  lemma RemotesFollowOrder(c: Cluster, u: Startup, s: nat, k: Key)
    requires Started(c, u) && s < |c.uris|
    ensures |OrderOf(c, u, s)| == |c.uris|
    ensures var owners := Owners(OrderOf(c, u, s), k);
      && |owners| == 3 && owners <= Elements(OrderOf(c, u, s))
      && RemotesAt(u, s, k) == if s in owners then owners - {s} else {}
  {
    hide View, All, Choose, GetIdx;
    var infos, tmp, res := u.infos[s], u.tmps[s], u.choices[s];
    assert View(c, s, infos, tmp);
    NamesLength(c, s, infos, tmp);
    SomeTriples(|c.uris|);
    var t := TripleOf(|c.uris|, k);
    ChoiceNamesTheOthers(c, s, infos, tmp, t);
    assert res[GetIdx(k, |res|)] == Choose(tmp, t);
  }

  // ---------------------------------------------------------------- when the groups agree

  /** All servers act on the groups `g`: each contacts the others of its groups, and nobody for
      the keys of other groups. */
  ghost predicate AgreeOn(c: Cluster, u: Startup, g: Key -> set<nat>)
    requires |u.choices| == |u.infos|
  {
    forall s: nat, k: Key | s < |c.uris| :: ActsOn(u, s, k, g(k))
  }

  predicate ActsOn(u: Startup, s: nat, k: Key, group: set<nat>)
    requires |u.choices| == |u.infos|
  {
    |group| == 3 && RemotesAt(u, s, k) == if s in group then group - {s} else {}
  }

  ghost predicate GroupsAgree(c: Cluster, u: Startup)
    requires |u.choices| == |u.infos|
  {
    exists g :: AgreeOn(c, u, g)
  }

  /** With three servers, or with consistent names, the owners are the same on every server. */
  lemma SameOwners(c: Cluster, u: Startup, s: nat, k: Key)
    requires Started(c, u) && (|c.uris| == 3 || Consistent(c)) && s < |c.uris|
    ensures |OrderOf(c, u, 0)| == |c.uris| == |OrderOf(c, u, s)|
    ensures Owners(OrderOf(c, u, s), k) == Owners(OrderOf(c, u, 0), k)
  {
    hide View, Consistent, Names;
    assert View(c, 0, u.infos[0], u.tmps[0]) && View(c, s, u.infos[s], u.tmps[s]);
    NamesLength(c, 0, u.infos[0], u.tmps[0]);
    NamesLength(c, s, u.infos[s], u.tmps[s]);
    if |c.uris| == 3 {
      OwnersOfThree(OrderOf(c, u, 0), k);
      OwnersOfThree(OrderOf(c, u, s), k);
    } else {
      ViewsAgreeExactly(c, u.infos, u.tmps);
      assert OrderOf(c, u, s) == OrderOf(c, u, 0);
    }
  }

  lemma OwnersOfThree(order: seq<nat>, k: Key)
    requires |order| == 3 && forall x: nat :: x in order <==> x < 3
    ensures Owners(order, k) == {0, 1, 2}
  {
    assert order == [order[0], order[1], order[2]];
    assert 0 in order && 1 in order && 2 in order;
    assert order[0] in order && order[1] in order && order[2] in order;
  }

  /** The groups as the first server sees them. */
  ghost function GroupsOf(c: Cluster, u: Startup): Key -> set<nat>
    requires Started(c, u)
  {
    RemotesFollowOrder(c, u, 0, []);
    var order := OrderOf(c, u, 0);
    (k: Key) => Owners(order, k)
  }

  lemma GroupAt(c: Cluster, u: Startup, s: nat, k: Key)
    requires Started(c, u) && (|c.uris| == 3 || Consistent(c)) && s < |c.uris|
    ensures ActsOn(u, s, k, GroupsOf(c, u)(k))
  {
    hide Consistent, RemotesAt, View;
    SameOwners(c, u, s, k);
    RemotesFollowOrder(c, u, s, k);
  }

  lemma AgreeingGroups(c: Cluster, u: Startup)
    requires Started(c, u) && (|c.uris| == 3 || Consistent(c))
    ensures AgreeOn(c, u, GroupsOf(c, u))
  {
    hide Consistent, ActsOn, View, GroupsOf;
    forall s: nat, k: Key | s < |c.uris|
      ensures ActsOn(u, s, k, GroupsOf(c, u)(k))
    {
      GroupAt(c, u, s, k);
    }
  }

  lemma AllSpec(n: nat)
    ensures forall t :: t in All(n) <==> t.i < t.j < t.k < n
  {
    OuterSpec(n, n);
  }

  lemma KeyOfIndex(x: nat, n: nat)
    requires x < n <= Range(8)
    ensures GetIdx(ToBytes(x, 8), n) == x
  {
    hide Range, GetIdx, ToBytes, LittleEndian;
    GetIdxReads([], x, n);
    assert [] + ToBytes(x, 8) == ToBytes(x, 8);
  }

  /** A key for any triple. */
  lemma KeyFor(n: nat, t: Triple) returns (k: Key)
    requires t.i < t.j < t.k < n && |All(n)| <= Range(8)
    ensures TripleOf(n, k) == t
  {
    hide Range, GetIdx, All, ToBytes;
    AllSpec(n);
    var x :| 0 <= x < |All(n)| && All(n)[x] == t;
    k := ToBytes(x, 8);
    KeyOfIndex(x, |All(n)|);
  }

  function Three(order: seq<nat>, p: nat, q: nat, r: nat): set<nat>
    requires p < |order| && q < |order| && r < |order|
  {
    {order[p], order[q], order[r]}
  }

  lemma Sorted3(order: seq<nat>, p: nat, q: nat, r: nat) returns (t: Triple)
    requires p < |order| && q < |order| && r < |order| && p != q && q != r && p != r
    ensures t.i < t.j < t.k < |order|
    ensures {t.i, t.j, t.k} == {p, q, r}
  {
    var a, b, d := Min(p, Min(q, r)), Max(p, Max(q, r)), p + q + r;
    t := Triple(a, d - a - b, b);
  }

  /** Servers that agree on groups agree on every triple in which both find themselves. */
  lemma SharedTriple(c: Cluster, u: Startup, g: Key -> set<nat>, s: nat, s': nat, p: nat, q: nat, r: nat)
    requires Started(c, u) && AgreeOn(c, u, g) && |All(|c.uris|)| <= Range(8)
    requires s < |c.uris| && s' < |c.uris| && p < |c.uris| && q < |c.uris| && r < |c.uris| && p != q && q != r && p != r
    ensures |OrderOf(c, u, s)| == |c.uris| == |OrderOf(c, u, s')|
    ensures var a, b := Three(OrderOf(c, u, s), p, q, r), Three(OrderOf(c, u, s'), p, q, r);
      s in a && s' in b ==> a == b
  {
    hide View, Describes, OrderOf, RemotesAt, TripleOf, Range;
    RemotesFollowOrder(c, u, s, []);
    RemotesFollowOrder(c, u, s', []);
    var t := Sorted3(OrderOf(c, u, s), p, q, r);
    var k := KeyFor(|c.uris|, t);
    RemotesFollowOrder(c, u, s, k);
    RemotesFollowOrder(c, u, s', k);
    SameThree(OrderOf(c, u, s), t, p, q, r);
    SameThree(OrderOf(c, u, s'), t, p, q, r);
    assert ActsOn(u, s, k, g(k)) && ActsOn(u, s', k, g(k));
    FromRemotes(Owners(OrderOf(c, u, s), k), g(k), s);
    FromRemotes(Owners(OrderOf(c, u, s'), k), g(k), s');
  }

  lemma SameThree(order: seq<nat>, t: Triple, p: nat, q: nat, r: nat)
    requires p < |order| && q < |order| && r < |order| && p != q && q != r && p != r
    requires t.i < t.j < t.k < |order| && {t.i, t.j, t.k} == {p, q, r}
    ensures Members(order, t) == Three(order, p, q, r)
  {
    assert p in {t.i, t.j, t.k} && q in {t.i, t.j, t.k} && r in {t.i, t.j, t.k};
    assert t.i in {p, q, r} && t.j in {p, q, r} && t.k in {p, q, r};
  }

  /** The remotes of a member tell the group. */
  lemma FromRemotes(a: set<nat>, g: set<nat>, s: nat)
    requires |a| == |g| == 3 && (if s in a then a - {s} else {}) == (if s in g then g - {s} else {})
    ensures s in a ==> a == g
  {
    if s in a {
      assert |a - {s}| == 2;
      assert a == a - {s} + {s};
      assert s in g ==> g == g - {s} + {s};
    }
  }

  /** With four or more servers, agreeing on groups fixes the positions of all servers. */
  lemma SameOrder(c: Cluster, u: Startup, g: Key -> set<nat>, s: nat, s': nat)
    requires Started(c, u) && AgreeOn(c, u, g) && |All(|c.uris|)| <= Range(8) && |c.uris| >= 4
    requires s < |c.uris| && s' < |c.uris| && s != s'
    ensures OrderOf(c, u, s) == OrderOf(c, u, s')
  {
    hide View, Names, AgreeOn, Range;
    var n := |c.uris|;
    assert View(c, s, u.infos[s], u.tmps[s]) && View(c, s', u.infos[s'], u.tmps[s']);
    NamesLength(c, s, u.infos[s], u.tmps[s]);
    NamesLength(c, s', u.infos[s'], u.tmps[s']);
    var a, b := OrderOf(c, u, s), OrderOf(c, u, s');
    assert s in a && s' in b;
    var i :| 0 <= i < n && a[i] == s;
    var i' :| 0 <= i' < n && b[i'] == s';
    hide OrderOf, Started;
    if i == i' {
      var p, q, r := Others(n, i);
      SharedTriple(c, u, g, s, s', i, p, q);
      SharedTriple(c, u, g, s, s', i, p, r);
      SharedTriple(c, u, g, s, s', i, q, r);
      assert false;
    }
    forall j | 0 <= j < n && j != i && j != i'
      ensures Three(a, i, i', j) == Three(b, i, i', j)
    {
      SharedTriple(c, u, g, s, s', i, i', j);
    }
    Positions(a, b, i, i');
  }

  lemma Others(n: nat, i: nat) returns (p: nat, q: nat, r: nat)
    requires n >= 4 && i < n
    ensures p < n && q < n && r < n && i != p && i != q && i != r && p != q && p != r && q != r
  {
    p := if i == 0 then 1 else 0;
    q := if i <= 1 then 2 else 1;
    r := if i <= 2 then 3 else 2;
  }

  lemma TwoMore(i: nat, i': nat) returns (j: nat, j': nat)
    requires i != i'
    ensures j < 4 && j' < 4 && j != j' && j != i && j != i' && j' != i && j' != i'
  {
    j := if i != 0 && i' != 0 then 0 else if i != 1 && i' != 1 then 1 else 2;
    j' := if i != 3 && i' != 3 then 3 else if i != 2 && i' != 2 then 2 else 1;
  }

  lemma Positions(a: seq<nat>, b: seq<nat>, i: nat, i': nat)
    requires |a| == |b| >= 4 && Distinct(a) && Distinct(b) && i < |a| && i' < |a| && i != i' && a[i] != b[i']
    requires forall j | 0 <= j < |a| && j != i && j != i' :: Three(a, i, i', j) == Three(b, i, i', j)
    ensures a == b
  {
    var j, j' := TwoMore(i, i');
    assert Three(a, i, i', j) == Three(b, i, i', j) && Three(a, i, i', j') == Three(b, i, i', j');
    assert b[i'] in Three(b, i, i', j) && b[i'] in Three(b, i, i', j');
    assert a[i] in Three(a, i, i', j) && a[i] in Three(a, i, i', j');
    assert a[i'] == b[i'] && a[i] == b[i];
    forall x | 0 <= x < |a|
      ensures a[x] == b[x]
    {
      if x != i && x != i' {
        assert a[x] in Three(b, i, i', x);
      }
    }
  }

  /** The servers act on the same groups if and only if there are three of them, which leaves
      one triple, or their names are consistent. The number of groups fits a `size_t`. */
  lemma GroupsAgreeExactly(c: Cluster, u: Startup)
    requires Started(c, u) && |All(|c.uris|)| <= Range(8)
    ensures GroupsAgree(c, u) <==> |c.uris| == 3 || Consistent(c)
  {
    hide Consistent, RemotesAt, Range;
    if |c.uris| == 3 || Consistent(c) {
      AgreeingGroups(c, u);
    } else if g :| AgreeOn(c, u, g) {
      forall x, y | 0 <= x < |c.uris| && 0 <= y < |c.uris|
        ensures Names(x, u.infos[x], u.tmps[x]) == Names(y, u.infos[y], u.tmps[y])
      {
        if x != y {
          SameOrder(c, u, g, x, y);
        }
      }
      ViewsAgreeExactly(c, u.infos, u.tmps);
    }
  }

  // ---------------------------------------------------------------- deployments exist

  /** Three or more servers that spell each other differently can all start. */
  lemma StartupExists(c: Cluster) returns (u: Startup)
    requires Addressed(c) && Spellable(c) && |c.uris| >= 3
    ensures Started(c, u)
  {
    hide View, Spellable;
    var infos, tmps := AllViews(c, |c.uris|);
    var choices := AllChoices(tmps);
    u := Startup(infos, tmps, choices);
  }

  lemma {:induction false} AllChoices(tmps: seq<seq<int>>) returns (choices: seq<seq<Choice>>)
    ensures |choices| == |tmps|
    ensures forall s | 0 <= s < |tmps| :: Describes(tmps[s], choices[s], All(|tmps[s]|))
  {
    hide Describes, All;
    if tmps == [] {
      choices := [];
    } else {
      var n := |tmps| - 1;
      choices := AllChoices(tmps[..n]);
      var res := ChoicesExist(tmps[n]);
      choices := choices + [res];
    }
  }

  lemma ChoicesExist(tmp: seq<int>) returns (res: seq<Choice>)
    ensures Describes(tmp, res, All(|tmp|))
  {
    hide All;
    var ts := All(|tmp|);
    AllSpec(|tmp|);
    assert forall x | 0 <= x < |ts| :: ts[x] in ts;
    res := seq(|ts|, x requires 0 <= x < |ts| => Choose(tmp, ts[x]));
  }

  /** Four or more servers with inconsistent names do start, and then act on different groups. */
  lemma InconsistentDisagree(c: Cluster) returns (u: Startup)
    requires Addressed(c) && Spellable(c) && |c.uris| >= 4 && !Consistent(c) && |All(|c.uris|)| <= Range(8)
    ensures Started(c, u) && !GroupsAgree(c, u)
  {
    hide Spellable, Consistent, Range;
    u := StartupExists(c);
    GroupsAgreeExactly(c, u);
  }

  /** In particular when the port of one server extends that of another on the same host. */
  lemma PortPrefixDisagrees(c: Cluster) returns (u: Startup)
    requires Addressed(c) && Ports(c) && |c.uris| >= 4 && !PrefixFree(c) && |All(|c.uris|)| <= Range(8)
    ensures Started(c, u) && !GroupsAgree(c, u)
  {
    hide Ports, Consistent, PrefixFree, Spellable, Range;
    PortsSpellable(c);
    ConsistentIffPrefixFree(c);
    u := InconsistentDisagree(c);
  }

  /** There is such a deployment: the ports of its four servers are 1, 10, 2 and 3. */
  lemma PortsOneAndTen() returns (c: Cluster, u: Startup)
    ensures Started(c, u) && !GroupsAgree(c, u)
  {
    hide Ports, PrefixFree, Range, All, Started, GroupsAgree;
    c := FourServers();
    FourTriples();
    u := PortPrefixDisagrees(c);
  }

  lemma FourServers() returns (c: Cluster)
    ensures Addressed(c) && Ports(c) && |c.uris| == 4 && !PrefixFree(c)
  {
    var suffix: seq<Byte> := [58, 49];
    c := Cluster([[49], [49, 48], [50], [51]], [suffix, suffix, suffix, suffix]);
    assert c.uris[0] < c.uris[1] && c.uris[0][0] == c.uris[1][0] == 49 && c.uris[2][0] == 50 && c.uris[3][0] == 51;
  }

  lemma FourTriples()
    ensures |All(4)| <= Range(8)
  {
    OuterSize(4, 4);
    assert Range(1) == 256;
  }

  // ---------------------------------------------------------------- the configuration

  /** The configuration of the protocol that the servers have set up. */
  ghost function ConfigOf(c: Cluster, u: Startup, mid: nat -> U32, maxRequest: nat): Abd.Config
    requires Started(c, u)
  {
    Abd.Config(Elements(OrderOf(c, u, 0)), (s: nat, k: Key) => RemotesAt(u, s, k), GroupsOf(c, u), mid, maxRequest)
  }

  /** The groups that the servers compute on their own form a valid configuration in which
      every key has an owner group of three, so that everything proved about majority groups
      applies to it. */
  lemma GroupsFormConfig(c: Cluster, u: Startup, mid: nat -> U32, maxRequest: nat)
    requires Started(c, u) && (|c.uris| == 3 || Consistent(c))
    ensures var cfg := ConfigOf(c, u, mid, maxRequest);
      Abd.ValidConfig(cfg) && forall k :: |cfg.group(k)| == 3 && MajorityGroup(cfg.group(k))
  {
    hide Consistent, RemotesAt, Owners, View;
    var cfg := ConfigOf(c, u, mid, maxRequest);
    AgreeingGroups(c, u);
    assert View(c, 0, u.infos[0], u.tmps[0]);
    NamesLength(c, 0, u.infos[0], u.tmps[0]);
    forall k
      ensures cfg.group(k) <= cfg.servers && |cfg.group(k)| == 3
    {
      RemotesFollowOrder(c, u, 0, k);
    }
    forall s, k | s in cfg.servers
      ensures cfg.remotes(s, k) == if s in cfg.group(k) then cfg.group(k) - {s} else {}
    {
      assert ActsOn(u, s, k, cfg.group(k));
    }
  }

  /** End to end: on servers that computed their groups independently, a put that has
      completed is seen by every operation on its key that starts later, on any machine. */
  lemma DeployedPutIsSeen(c: Cluster, u: Startup, mid: nat -> U32, maxRequest: nat,
                          run: seq<Abd.State>, i: nat, j: nat, a: Abd.CtxId, b: Abd.CtxId)
    requires Started(c, u) && (|c.uris| == 3 || Consistent(c))
    requires Abd.IsRun(ConfigOf(c, u, mid, maxRequest), run) && i <= j < |run|
    requires AbdTheorems.IsPut(run[i], a) && a in run[i].finished
    requires |run[i].ctxs| <= b && AbdTheorems.HasClock(run[j], b) && run[j].ctxs[b].key == run[i].ctxs[a].key
    ensures AbdTheorems.Sees(ConfigOf(c, u, mid, maxRequest), run[j], b, AbdTheorems.ClockOfOp(run[i], a))
  {
    hide AbdTheorems.Sees, Abd.IsRun, Abd.ValidConfig, Started, Consistent;
    GroupsFormConfig(c, u, mid, maxRequest);
    AbdTheorems.CompletedPutIsSeen(ConfigOf(c, u, mid, maxRequest), run, i, j, a, b);
  }
}
