/** Which servers own a key: every server sorts the addresses it knows, enumerates triples
    and picks one by the key (src/server.cpp:569-617, src/include/protocol/abd/protocol.h:152-162
    and 225-240). A server lists itself by `ip:port` but the others by `ip:port:threads`. */
module Groups {
  import opened Basics
  import opened Encoding
  import opened Triples

  // ---------------------------------------------------------------- string order

  /** `std::string::compare(...) < 0`. */
  predicate Lex(a: Bytes, b: Bytes) {
    if b == [] then false
    else if a == [] then true
    else if a[0] != b[0] then a[0] < b[0]
    else Lex(a[1..], b[1..])
  }

  /** It is the order of the bytes at the first difference; a proper prefix comes first. */
  lemma {:induction false} LexIsByteOrder(a: Bytes, b: Bytes)
    ensures Lex(a, b) <==> a < b || exists i: nat :: FirstDifference(a, b, i) && a[i] < b[i]
    decreases |a|
  {
    if a == [] || b == [] {
    } else if a[0] != b[0] {
      assert FirstDifference(a, b, 0);
      assert forall i: nat | FirstDifference(a, b, i) && i > 0 :: a[..i][0] == b[..i][0];
    } else {
      LexIsByteOrder(a[1..], b[1..]);
      assert a == [a[0]] + a[1..] && b == [b[0]] + b[1..];
      forall i: nat | FirstDifference(a[1..], b[1..], i)
        ensures FirstDifference(a, b, i + 1)
      {
        assert a[..i + 1] == [a[0]] + a[1..][..i] && b[..i + 1] == [b[0]] + b[1..][..i];
      }
      forall i: nat | FirstDifference(a, b, i)
        ensures i > 0 && FirstDifference(a[1..], b[1..], i - 1)
      {
        assert i > 0;
        assert a[1..][..i - 1] == a[..i][1..] && b[1..][..i - 1] == b[..i][1..];
      }
    }
  }

  predicate FirstDifference(a: Bytes, b: Bytes, i: nat) {
    i < |a| && i < |b| && a[..i] == b[..i] && a[i] != b[i]
  }

  predicate Comparable(a: Bytes, b: Bytes) {
    !(a <= b) && !(b <= a)
  }

  /** Two strings that are not prefixes of each other compare alike, whatever follows them. */
  lemma {:induction false} LexIgnoresSuffix(a: Bytes, b: Bytes, x: Bytes, y: Bytes)
    requires Comparable(a, b)
    ensures Lex(a + x, b + y) == Lex(a, b)
    ensures Lex(a, b) != Lex(b, a)
    decreases |a|
  {
    if a[0] == b[0] {
      assert a == [a[0]] + a[1..] && b == [b[0]] + b[1..];
      assert Comparable(a[1..], b[1..]);
      assert (a + x)[1..] == a[1..] + x && (b + y)[1..] == b[1..] + y;
      LexIgnoresSuffix(a[1..], b[1..], x, y);
    }
  }

  lemma {:induction false} LexTransitive(a: Bytes, b: Bytes, c: Bytes)
    requires Lex(a, b) && Lex(b, c)
    ensures Lex(a, c)
    decreases |a|
  {
    if a != [] && a[0] == b[0] && b[0] == c[0] {
      LexTransitive(a[1..], b[1..], c[1..]);
    }
  }

  lemma {:induction false} LexAsymmetric(a: Bytes, b: Bytes)
    requires Lex(a, b)
    ensures !Lex(b, a)
    decreases |a|
  {
    if a != [] && a[0] == b[0] {
      LexAsymmetric(a[1..], b[1..]);
    }
  }

  lemma {:induction false} LexExtends(a: Bytes, b: Bytes, x: Bytes)
    requires Lex(a, b)
    ensures Lex(a, b + x)
    decreases |a|
  {
    if a != [] && a[0] == b[0] {
      assert (b + x)[1..] == b[1..] + x;
      LexExtends(a[1..], b[1..], x);
    }
  }

  lemma {:induction false} LexCommonPrefix(u: Bytes, a: Bytes, b: Bytes)
    ensures Lex(u + a, u + b) == Lex(a, b)
  {
    if u == [] {
      assert u + a == a && u + b == b;
    } else {
      assert (u + a)[1..] == u[1..] + a && (u + b)[1..] == u[1..] + b;
      LexCommonPrefix(u[1..], a, b);
    }
  }

  // ---------------------------------------------------------------- the servers of a deployment

  /** Server `x` is reachable at `uris[x]`; the others write `uris[x] + suffixes[x]`. */
  datatype Cluster = Cluster(uris: seq<Bytes>, suffixes: seq<Bytes>)

  /** No two servers have the same address. */
  ghost predicate Addressed(c: Cluster) {
    && |c.suffixes| == |c.uris|
    && forall x, y | 0 <= x < y < |c.uris| :: c.uris[x] != c.uris[y]
  }

  /** Where one address extends another, the suffix of the shorter comes before the extension. */
  ghost predicate Consistent(c: Cluster)
    requires |c.suffixes| == |c.uris|
  {
    forall x, y | 0 <= x < |c.uris| && 0 <= y < |c.uris| && c.uris[x] < c.uris[y] ::
      Lex(c.suffixes[x], c.uris[y][|c.uris[x]|..])
  }

  ghost predicate WellNamed(c: Cluster) {
    Addressed(c) && Consistent(c)
  }

  ghost predicate PrefixFree(c: Cluster) {
    forall x, y | 0 <= x < |c.uris| && 0 <= y < |c.uris| :: !(c.uris[x] < c.uris[y])
  }

  /** Addresses as the configuration writes them: a suffix starts with a colon, and an address
      can extend another one only by more digits of the port. */
  ghost predicate Ports(c: Cluster)
    requires |c.suffixes| == |c.uris|
  {
    && (forall x | 0 <= x < |c.uris| :: c.suffixes[x] != [] && c.suffixes[x][0] == 58)
    && forall x, y | 0 <= x < |c.uris| && 0 <= y < |c.uris| && c.uris[x] < c.uris[y] ::
         48 <= c.uris[y][|c.uris[x]|] <= 57
  }

  /** For these, consistent names are prefix-free names. */
  lemma ConsistentIffPrefixFree(c: Cluster)
    requires |c.suffixes| == |c.uris| && Ports(c)
    ensures Consistent(c) <==> PrefixFree(c)
  {
    if x, y :| 0 <= x < |c.uris| && 0 <= y < |c.uris| && c.uris[x] < c.uris[y] {
      assert !Lex(c.suffixes[x], c.uris[y][|c.uris[x]|..]);
    }
  }

  /** How server `s` spells server `x`. */
  function Spelled(c: Cluster, s: nat, x: nat): Bytes
    requires |c.suffixes| == |c.uris| && x < |c.uris|
  {
    if x == s then c.uris[x] else c.uris[x] + c.suffixes[x]
  }

  /** How the two servers of a pair of which one extends the other are ordered by anybody:
      alike if the pair is consistent; and server `y` orders them as `x` does only then. */
  lemma SpelledPrefix(c: Cluster, s: nat, x: nat, y: nat)
    requires |c.suffixes| == |c.uris| && x < |c.uris| && y < |c.uris| && c.uris[x] < c.uris[y]
    ensures Lex(c.uris[x], c.uris[y])
    ensures s == x || Lex(c.suffixes[x], c.uris[y][|c.uris[x]|..]) ==> Lex(Spelled(c, s, x), Spelled(c, s, y))
    ensures s == y ==>
      (Lex(Spelled(c, s, x), Spelled(c, s, y)) <==> Lex(c.suffixes[x], c.uris[y][|c.uris[x]|..]))
  {
    var u, t := c.uris[x], c.uris[y][|c.uris[x]|..];
    var a, b := if s == x then [] else c.suffixes[x], if s == y then [] else c.suffixes[y];
    assert c.uris[y] == u + t && u + [] == u && (u + t) + b == u + (t + b);
    LexCommonPrefix(u, [], t);
    LexCommonPrefix(u, a, t + b);
    assert t + [] == t;
    if s != x && Lex(a, t) {
      LexExtends(a, t, b);
    }
  }

  lemma SpellingDoesNotMatter(c: Cluster, s: nat, x: nat, y: nat)
    requires WellNamed(c) && x < |c.uris| && y < |c.uris| && x != y
    ensures Lex(Spelled(c, s, x), Spelled(c, s, y)) <==> Lex(c.uris[x], c.uris[y])
  {
    hide Lex;
    var a, b := c.uris[x], c.uris[y];
    if a < b {
      SpelledPrefix(c, s, x, y);
    } else if b < a {
      SpelledPrefix(c, s, y, x);
      LexAsymmetric(b, a);
      LexAsymmetric(Spelled(c, s, y), Spelled(c, s, x));
    } else {
      assert Comparable(a, b);
      assert a + [] == a && b + [] == b;
      LexIgnoresSuffix(a, b, if x == s then [] else c.suffixes[x], if y == s then [] else c.suffixes[y]);
    }
  }

  /** The listed servers, in strictly increasing order of their spelling by `s`: what
      `std::sort` leaves. */
  ghost predicate SortedFor(c: Cluster, s: nat, xs: seq<nat>)
    requires |c.suffixes| == |c.uris|
  {
    && (forall i | 0 <= i < |xs| :: xs[i] < |c.uris|)
    && forall i, j | 0 <= i < j < |xs| :: Lex(Spelled(c, s, xs[i]), Spelled(c, s, xs[j]))
  }

  /** Sorted by the bare addresses. */
  ghost predicate Sorted(c: Cluster, xs: seq<nat>) {
    && (forall i | 0 <= i < |xs| :: xs[i] < |c.uris|)
    && forall i, j | 0 <= i < j < |xs| :: Lex(c.uris[xs[i]], c.uris[xs[j]])
  }

  lemma SortedForIsSorted(c: Cluster, s: nat, xs: seq<nat>)
    requires WellNamed(c) && SortedFor(c, s, xs)
    ensures Sorted(c, xs)
  {
    forall i, j | 0 <= i < j < |xs|
      ensures Lex(c.uris[xs[i]], c.uris[xs[j]])
    {
      assert Lex(Spelled(c, s, xs[i]), Spelled(c, s, xs[j]));
      if xs[i] == xs[j] {
        LexIrreflexive(Spelled(c, s, xs[i]));
      } else {
        SpellingDoesNotMatter(c, s, xs[i], xs[j]);
      }
    }
  }

  lemma {:induction false} LexIrreflexive(a: Bytes)
    ensures !Lex(a, a)
  {
    if a != [] {
      LexIrreflexive(a[1..]);
    }
  }

  /** Sorting has one result: sorted lists of the same servers are equal. */
  lemma {:induction false} SortedUnique(c: Cluster, xs: seq<nat>, ys: seq<nat>)
    requires Sorted(c, xs) && Sorted(c, ys)
    requires forall x :: x in xs <==> x in ys
    ensures xs == ys
    decreases |xs|
  {
    if xs != [] {
      assert xs[0] in xs;
      var q :| 0 <= q < |ys| && ys[q] == xs[0];
      assert ys[0] in ys;
      var p :| 0 <= p < |xs| && xs[p] == ys[0];
      if xs[0] != ys[0] {
        assert Lex(c.uris[xs[0]], c.uris[xs[p]]) && Lex(c.uris[ys[0]], c.uris[ys[q]]);
        LexTransitive(c.uris[xs[0]], c.uris[ys[0]], c.uris[xs[0]]);
        LexIrreflexive(c.uris[xs[0]]);
        assert false;
      }
      SortedTail(c, xs);
      SortedTail(c, ys);
      forall x
        ensures x in xs[1..] <==> x in ys[1..]
      {
      }
      SortedUnique(c, xs[1..], ys[1..]);
    }
  }

  lemma SortedTail(c: Cluster, xs: seq<nat>)
    requires Sorted(c, xs) && xs != []
    ensures Sorted(c, xs[1..]) && xs[0] !in xs[1..]
    ensures forall x :: x in xs <==> x == xs[0] || x in xs[1..]
  {
    LexIrreflexive(c.uris[xs[0]]);
    assert xs == [xs[0]] + xs[1..];
    forall i | 0 <= i < |xs[1..]|
      ensures xs[1..][i] != xs[0]
    {
      assert Lex(c.uris[xs[0]], c.uris[xs[i + 1]]);
    }
  }

  // ---------------------------------------------------------------- the view of one server

  /** The server behind an index of `tmp`: -1 is this server, anything else is a position in
      the sorted list of the others. */
  function NameOf(s: nat, infos: seq<nat>, v: int): nat
    requires -1 <= v < |infos|
  {
    if v == -1 then s else infos[v]
  }

  function Names(s: nat, infos: seq<nat>, tmp: seq<int>): (names: seq<nat>)
    requires forall i | 0 <= i < |tmp| :: -1 <= tmp[i] < |infos|
    ensures |names| == |tmp|
  {
    seq(|tmp|, i requires 0 <= i < |tmp| => NameOf(s, infos, tmp[i]))
  }

  /** What server `s` has after both sorts: `infos` are the others, `tmp` all servers. */
  ghost predicate View(c: Cluster, s: nat, infos: seq<nat>, tmp: seq<int>)
    requires |c.suffixes| == |c.uris|
  {
    && s < |c.uris|
    && SortedFor(c, s, infos)
    && (forall x: nat :: x in infos <==> x < |c.uris| && x != s)
    && (forall i | 0 <= i < |tmp| :: -1 <= tmp[i] < |infos|)
    && (forall v | -1 <= v < |infos| :: v in tmp)
    && SortedFor(c, s, Names(s, infos, tmp))
  }

  ghost predicate Everyone(c: Cluster, order: seq<nat>) {
    Sorted(c, order) && forall x: nat :: x in order <==> x < |c.uris|
  }

  lemma NamesEverybody(c: Cluster, s: nat, infos: seq<nat>, tmp: seq<int>, x: nat)
    requires |c.suffixes| == |c.uris| && View(c, s, infos, tmp)
    ensures x in Names(s, infos, tmp) <==> x < |c.uris|
  {
    var names := Names(s, infos, tmp);
    if x < |c.uris| {
      var v := -1;
      if x != s {
        assert x in infos;
        v :| 0 <= v < |infos| && infos[v] == x;
      }
      assert v in tmp;
      var i :| 0 <= i < |tmp| && tmp[i] == v;
      assert names[i] == x;
    }
    if x in names {
      var i :| 0 <= i < |names| && names[i] == x;
      assert tmp[i] != -1 ==> infos[tmp[i]] in infos;
    }
  }

  /** Every server ends up with the servers in the order of their bare addresses. */
  lemma ViewIsSorted(c: Cluster, s: nat, infos: seq<nat>, tmp: seq<int>)
    requires WellNamed(c) && View(c, s, infos, tmp)
    ensures Everyone(c, Names(s, infos, tmp))
  {
    hide Sorted, SortedFor;
    SortedForIsSorted(c, s, Names(s, infos, tmp));
    forall x: nat
      ensures x in Names(s, infos, tmp) <==> x < |c.uris|
    {
      NamesEverybody(c, s, infos, tmp, x);
    }
  }

  /** All servers end up with the same order of servers. */
  lemma ViewsAgree(c: Cluster, s: nat, infos: seq<nat>, tmp: seq<int>, order: seq<nat>)
    requires WellNamed(c) && View(c, s, infos, tmp) && Everyone(c, order)
    ensures Names(s, infos, tmp) == order
  {
    ViewIsSorted(c, s, infos, tmp);
    SortedUnique(c, Names(s, infos, tmp), order);
  }

  // ---------------------------------------------------------------- every server has a view

  /** No server spells two servers alike. */
  ghost predicate Spellable(c: Cluster)
    requires |c.suffixes| == |c.uris|
  {
    forall s: nat, x: nat, y: nat | s < |c.uris| && x < y < |c.uris| :: Spelled(c, s, x) != Spelled(c, s, y)
  }

  lemma {:induction false} LexTotal(a: Bytes, b: Bytes)
    requires a != b
    ensures Lex(a, b) || Lex(b, a)
    decreases |a|
  {
    if a != [] && b != [] && a[0] == b[0] {
      assert a == [a[0]] + a[1..] && b == [b[0]] + b[1..];
      LexTotal(a[1..], b[1..]);
    }
  }

  /** A set of servers has one that comes first. */
  lemma {:induction false} Least(c: Cluster, s: nat, q: set<nat>) returns (m: nat)
    requires |c.suffixes| == |c.uris| && Spellable(c) && s < |c.uris| && q != {} && forall x | x in q :: x < |c.uris|
    ensures m in q && forall x | x in q && x != m :: Lex(Spelled(c, s, m), Spelled(c, s, x))
    decreases |q|
  {
    hide Lex, Spelled;
    m :| m in q;
    if q != {m} {
      assert q - {m} != {};
      var n := Least(c, s, q - {m});
      LexTotal(Spelled(c, s, m), Spelled(c, s, n));
      if Lex(Spelled(c, s, m), Spelled(c, s, n)) {
        forall x | x in q && x != m && x != n
          ensures Lex(Spelled(c, s, m), Spelled(c, s, x))
        {
          LexTransitive(Spelled(c, s, m), Spelled(c, s, n), Spelled(c, s, x));
        }
      } else {
        m := n;
      }
    }
  }

  /** Any servers can be sorted by anybody's spelling. */
  lemma {:induction false} SortExists(c: Cluster, s: nat, q: set<nat>) returns (xs: seq<nat>)
    requires |c.suffixes| == |c.uris| && Spellable(c) && s < |c.uris| && forall x | x in q :: x < |c.uris|
    ensures SortedFor(c, s, xs) && forall x: nat :: x in xs <==> x in q
    decreases |q|
  {
    hide Lex, Spelled;
    if q == {} {
      xs := [];
    } else {
      var m := Least(c, s, q);
      var rest := SortExists(c, s, q - {m});
      xs := [m] + rest;
      assert forall j | 0 <= j < |rest| :: rest[j] in rest;
    }
  }

  /** The index list `tmp` for a sorted list of all servers. */
  lemma IndexList(s: nat, infos: seq<nat>, names: seq<nat>) returns (tmp: seq<int>)
    requires s !in infos && forall x: nat :: x in names <==> x in infos || x == s
    requires Distinct(infos)
    ensures forall i | 0 <= i < |tmp| :: -1 <= tmp[i] < |infos|
    ensures Names(s, infos, tmp) == names
    ensures forall v | -1 <= v < |infos| :: v in tmp
  {
    tmp := [];
    for n := 0 to |names|
      invariant |tmp| == n && forall i | 0 <= i < n :: -1 <= tmp[i] < |infos| && NameOf(s, infos, tmp[i]) == names[i]
    {
      var v := -1;
      assert names[n] in names;
      if names[n] != s {
        v :| 0 <= v < |infos| && infos[v] == names[n];
      }
      tmp := tmp + [v];
    }
    forall v | -1 <= v < |infos|
      ensures v in tmp
    {
      var x := NameOf(s, infos, v);
      assert v != -1 ==> infos[v] in infos;
      assert x in names;
      var i :| 0 <= i < |names| && names[i] == x;
      assert NameOf(s, infos, tmp[i]) == NameOf(s, infos, v);
      assert tmp[i] != -1 ==> infos[tmp[i]] in infos;
      assert tmp[i] == v;
    }
  }

  /** Every server of a cluster can do both sorts. */
  lemma ViewExists(c: Cluster, s: nat) returns (infos: seq<nat>, tmp: seq<int>)
    requires |c.suffixes| == |c.uris| && Spellable(c) && s < |c.uris|
    ensures View(c, s, infos, tmp)
  {
    hide SortedFor, Spellable;
    infos := SortExists(c, s, UpTo(|c.uris|) - {s});
    var names := SortExists(c, s, UpTo(|c.uris|));
    NamesDistinct(c, s, infos);
    tmp := IndexList(s, infos, names);
  }

  /** What every server of the cluster has after both sorts. */
  ghost predicate Views(c: Cluster, infos: seq<seq<nat>>, tmps: seq<seq<int>>)
    requires |c.suffixes| == |c.uris|
  {
    |infos| == |tmps| == |c.uris| && forall s | 0 <= s < |c.uris| :: View(c, s, infos[s], tmps[s])
  }

  /** All servers can do both sorts, with a definite result, exactly if nobody spells two
      servers alike. */
  lemma ViewsExistExactly(c: Cluster)
    requires |c.suffixes| == |c.uris|
    ensures (exists infos, tmps :: Views(c, infos, tmps)) <==> Spellable(c)
  {
    hide View, Spellable;
    if Spellable(c) {
      var infos, tmps := AllViews(c, |c.uris|);
      assert Views(c, infos, tmps);
    } else if infos, tmps :| Views(c, infos, tmps) {
      ViewsSpell(c, infos, tmps);
    }
  }

  lemma {:induction false} AllViews(c: Cluster, n: nat) returns (infos: seq<seq<nat>>, tmps: seq<seq<int>>)
    requires |c.suffixes| == |c.uris| && Spellable(c) && n <= |c.uris|
    ensures |infos| == |tmps| == n && forall s | 0 <= s < n :: View(c, s, infos[s], tmps[s])
  {
    hide View, Spellable;
    if n == 0 {
      infos, tmps := [], [];
    } else {
      infos, tmps := AllViews(c, n - 1);
      var info, tmp := ViewExists(c, n - 1);
      infos, tmps := infos + [info], tmps + [tmp];
    }
  }

  lemma ViewsSpell(c: Cluster, infos: seq<seq<nat>>, tmps: seq<seq<int>>)
    requires |c.suffixes| == |c.uris| && Views(c, infos, tmps)
    ensures Spellable(c)
  {
    hide Spelled;
    forall s: nat, x: nat, y: nat | s < |c.uris| && x < y < |c.uris|
      ensures Spelled(c, s, x) != Spelled(c, s, y)
    {
      assert View(c, s, infos[s], tmps[s]);
      var names := Names(s, infos[s], tmps[s]);
      NamesEverybody(c, s, infos[s], tmps[s], x);
      NamesEverybody(c, s, infos[s], tmps[s], y);
      var i :| 0 <= i < |names| && names[i] == x;
      var j :| 0 <= j < |names| && names[j] == y;
      LexIrreflexive(Spelled(c, s, x));
      assert i < j || j < i;
    }
  }

  /** Consistent names are spelled differently. */
  lemma ConsistentSpellable(c: Cluster)
    requires WellNamed(c)
    ensures Spellable(c)
  {
    hide Spelled, Consistent, Lex;
    forall s: nat, x: nat, y: nat | s < |c.uris| && x < y < |c.uris|
      ensures Spelled(c, s, x) != Spelled(c, s, y)
    {
      SpellingDoesNotMatter(c, s, x, y);
      SpellingDoesNotMatter(c, s, y, x);
      LexTotal(c.uris[x], c.uris[y]);
      LexIrreflexive(Spelled(c, s, x));
    }
  }

  /** And so are addresses as the configuration writes them, consistent or not. */
  lemma PortsSpellable(c: Cluster)
    requires Addressed(c) && Ports(c)
    ensures Spellable(c)
  {
    forall s: nat, x: nat, y: nat | s < |c.uris| && x < y < |c.uris|
      ensures Spelled(c, s, x) != Spelled(c, s, y)
    {
      if c.uris[x] < c.uris[y] {
        ExtensionSpelled(c, s, x, y);
      } else if c.uris[y] < c.uris[x] {
        ExtensionSpelled(c, s, y, x);
      } else {
        var a, b := c.uris[x], c.uris[y];
        assert a + [] == a && b + [] == b;
        var p, q := if x == s then [] else c.suffixes[x], if y == s then [] else c.suffixes[y];
        assert Comparable(a, b) && Spelled(c, s, x) == a + p && Spelled(c, s, y) == b + q;
        LexIgnoresSuffix(a, b, p, q);
        LexIgnoresSuffix(b, a, q, p);
        LexIrreflexive(a + p);
      }
    }
  }

  lemma ExtensionSpelled(c: Cluster, s: nat, x: nat, y: nat)
    requires Addressed(c) && Ports(c) && x < |c.uris| && y < |c.uris| && c.uris[x] < c.uris[y]
    ensures Spelled(c, s, x) != Spelled(c, s, y)
  {
    var n := |c.uris[x]|;
    assert Spelled(c, s, y)[n] == c.uris[y][n];
    if x != s {
      assert Spelled(c, s, x)[n] == c.suffixes[x][0];
    }
  }

  ghost predicate AllAgree(c: Cluster, infos: seq<seq<nat>>, tmps: seq<seq<int>>)
    requires |c.suffixes| == |c.uris| && Views(c, infos, tmps)
  {
    forall x, y | 0 <= x < |c.uris| && 0 <= y < |c.uris| :: Names(x, infos[x], tmps[x]) == Names(y, infos[y], tmps[y])
  }

  /** If the two servers of a pair agree on the order of all, the pair is consistent. */
  lemma AgreeingPair(c: Cluster, infos: seq<seq<nat>>, tmps: seq<seq<int>>, x: nat, y: nat)
    requires |c.suffixes| == |c.uris| && Views(c, infos, tmps) && x < |c.uris| && y < |c.uris| && c.uris[x] < c.uris[y]
    requires Names(x, infos[x], tmps[x]) == Names(y, infos[y], tmps[y])
    ensures Lex(c.suffixes[x], c.uris[y][|c.uris[x]|..])
  {
    hide Lex;
    var names := Names(x, infos[x], tmps[x]);
    assert View(c, x, infos[x], tmps[x]) && View(c, y, infos[y], tmps[y]);
    NamesEverybody(c, x, infos[x], tmps[x], x);
    NamesEverybody(c, x, infos[x], tmps[x], y);
    var i :| 0 <= i < |names| && names[i] == x;
    var j :| 0 <= j < |names| && names[j] == y;
    SpelledPrefix(c, x, x, y);
    SpelledPrefix(c, y, x, y);
    if j < i {
      LexAsymmetric(Spelled(c, x, x), Spelled(c, x, y));
    }
  }

  /** The servers of a cluster, which sort the addresses independently and each in its own
      spelling, all arrive at the same order if and only if the names are consistent. */
  lemma ViewsAgreeExactly(c: Cluster, infos: seq<seq<nat>>, tmps: seq<seq<int>>)
    requires Addressed(c) && Views(c, infos, tmps)
    ensures AllAgree(c, infos, tmps) <==> Consistent(c)
  {
    hide Lex, Sorted, SortedFor;
    if Consistent(c) {
      forall x, y | 0 <= x < |c.uris| && 0 <= y < |c.uris|
        ensures Names(x, infos[x], tmps[x]) == Names(y, infos[y], tmps[y])
      {
        ViewIsSorted(c, y, infos[y], tmps[y]);
        ViewsAgree(c, x, infos[x], tmps[x], Names(y, infos[y], tmps[y]));
      }
    } else {
      var x, y :| 0 <= x < |c.uris| && 0 <= y < |c.uris| && c.uris[x] < c.uris[y] &&
                  !Lex(c.suffixes[x], c.uris[y][|c.uris[x]|..]);
      if AllAgree(c, infos, tmps) {
        AgreeingPair(c, infos, tmps, x, y);
      }
    }
  }

  /** The servers of a triple of positions. */
  function Members(order: seq<nat>, t: Triple): set<nat>
    requires t.i < |order| && t.j < |order| && t.k < |order|
  {
    {order[t.i], order[t.j], order[t.k]}
  }

  /** An entry of the result names the two other servers of its triple if this server is one
      of the three, and otherwise is unmarked and names the first two; its indices are ordered
      and in range, and its remotes are in the order of their spelling. */
  lemma ChoiceNamesTheOthers(c: Cluster, s: nat, infos: seq<nat>, tmp: seq<int>, t: Triple)
    requires |c.suffixes| == |c.uris| && View(c, s, infos, tmp) && t.i < t.j < t.k < |tmp|
    ensures var r, members := Choose(tmp, t), Members(Names(s, infos, tmp), t);
      && |members| == 3
      && (r.us <==> s in members)
      && 0 <= r.a < r.b < |infos|
      && {infos[r.a], infos[r.b]} ==
         (if r.us then members - {s} else {Names(s, infos, tmp)[t.i], Names(s, infos, tmp)[t.j]})
      && (r.us ==> SortedFor(c, s, Remotes(r, infos)))
  {
    hide Spelled, Lex;
    var names := Names(s, infos, tmp);
    NamesDistinct(c, s, names);
    assert tmp[t.i] in tmp && tmp[t.j] in tmp && tmp[t.k] in tmp;
    var a, b, d := names[t.i], names[t.j], names[t.k];
    assert a == NameOf(s, infos, tmp[t.i]) && b == NameOf(s, infos, tmp[t.j]) && d == NameOf(s, infos, tmp[t.k]);
    assert forall v | 0 <= v < |infos| :: infos[v] in infos;
  }

  lemma NamesDistinct(c: Cluster, s: nat, xs: seq<nat>)
    requires |c.suffixes| == |c.uris| && SortedFor(c, s, xs)
    ensures Distinct(xs)
  {
    forall i, j | 0 <= i < j < |xs|
      ensures xs[i] != xs[j]
    {
      LexIrreflexive(Spelled(c, s, xs[i]));
    }
  }

  function Elements(xs: seq<nat>): set<nat> {
    set x | x in xs
  }

  lemma {:induction false} DistinctSize(xs: seq<nat>)
    requires Distinct(xs)
    ensures |Elements(xs)| == |xs|
  {
    if xs != [] {
      var n := |xs| - 1;
      DistinctSize(xs[..n]);
      assert xs == xs[..n] + [xs[n]];
      assert Elements(xs) == Elements(xs[..n]) + {xs[n]};
    }
  }

  /** A list of all numbers below `n` without repeats has `n` elements. */
  lemma DistinctLength(xs: seq<nat>, n: nat)
    requires Distinct(xs) && forall x: nat :: x in xs <==> x < n
    ensures |xs| == n
  {
    DistinctSize(xs);
    assert Elements(xs) == UpTo(n);
  }

  /** Every server's list has each server once. */
  lemma NamesLength(c: Cluster, s: nat, infos: seq<nat>, tmp: seq<int>)
    requires |c.suffixes| == |c.uris| && View(c, s, infos, tmp)
    ensures var names := Names(s, infos, tmp);
      |names| == |c.uris| && Distinct(names) && forall x: nat :: x in names <==> x < |c.uris|
  {
    hide SortedFor;
    var names := Names(s, infos, tmp);
    NamesDistinct(c, s, names);
    forall x: nat
      ensures x in names <==> x < |c.uris|
    {
      NamesEverybody(c, s, infos, tmp, x);
    }
    DistinctLength(names, |c.uris|);
  }

  // ---------------------------------------------------------------- from keys to groups

  /** `get_idx`. For the empty key the source reads a byte that is not part of it; the model
      takes index zero. */
  function GetIdx(key: Bytes, n: nat): (idx: nat)
    requires n > 0
    ensures idx < n
  {
    if |key| >= 8 then LittleEndian(key[|key| - 8..]) % n
    else if |key| >= 4 then LittleEndian(key[|key| - 4..]) % n
    else if |key| >= 2 then LittleEndian(key[|key| - 2..]) % n
    else LittleEndian(key) % n
  }

  /** The bytes that decide: the last eight of a key, read as a number, for shorter keys the
      last four or two, or the only one. So keys that end alike have the same owners, and
      every group has keys. */
  lemma GetIdxReads(p: Bytes, x: nat, n: nat)
    requires n > 0
    ensures x < Range(8) ==> GetIdx(p + ToBytes(x, 8), n) == x % n
    ensures x < Range(4) && |p| < 4 ==> GetIdx(p + ToBytes(x, 4), n) == x % n
    ensures x < Range(2) && |p| < 2 ==> GetIdx(p + ToBytes(x, 2), n) == x % n
    ensures x < Range(1) ==> GetIdx(ToBytes(x, 1), n) == x % n
  {
    hide ToBytes, LittleEndian, Range;
    GetIdxTail(p, x, 8);
    GetIdxTail(p, x, 4);
    GetIdxTail(p, x, 2);
    GetIdxTail([], x, 1);
  }

  lemma GetIdxTail(p: Bytes, x: nat, size: nat)
    ensures (p + ToBytes(x, size))[|p + ToBytes(x, size)| - size..] == ToBytes(x, size)
    ensures x < Range(size) ==> LittleEndian(ToBytes(x, size)) == x
  {
    if x < Range(size) {
      BytesRoundTrip(x, size);
    }
  }

  /** `replica_ordering`: the remotes of every group, none where this server is not a member. */
  method ReplicaOrdering(choices: seq<Choice>, infos: seq<nat>) returns (replicas: seq<seq<nat>>)
    requires forall x | 0 <= x < |choices| && choices[x].us ::
               0 <= choices[x].a < |infos| && 0 <= choices[x].b < |infos|
    ensures |replicas| == |choices|
    ensures forall x | 0 <= x < |choices| :: replicas[x] == Remotes(choices[x], infos)
  {
    replicas := [];
    for x := 0 to |choices|
      invariant |replicas| == x
      invariant forall y | 0 <= y < x :: replicas[y] == Remotes(choices[y], infos)
    {
      var r := choices[x];
      if r.us {
        replicas := replicas + [[infos[r.a], infos[r.b]]];
      } else {
        replicas := replicas + [[]];
      }
    }
  }

  function Remotes(r: Choice, infos: seq<nat>): seq<nat>
    requires r.us ==> 0 <= r.a < |infos| && 0 <= r.b < |infos|
  {
    if r.us then [infos[r.a], infos[r.b]] else []
  }
}
