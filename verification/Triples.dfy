/** The triple loops of `permutations` (src/server.cpp:589-612). */
module Triples {
  import opened Basics

  datatype Triple = Triple(i: nat, j: nat, k: nat)

  /** What one pass of the innermost loop pushes: whether this server (index -1) is in the
      triple, and the smaller and the larger index of the two others. */
  datatype Choice = Choice(us: bool, a: int, b: int)

  function Min(a: int, b: int): int {
    if b < a then b else a
  }

  function Max(a: int, b: int): int {
    if a < b then b else a
  }

  function Pick(a: int, b: int, c: int): Choice {
    if a == -1 then Choice(true, Min(b, c), Max(b, c))
    else if b == -1 then Choice(true, Min(a, c), Max(a, c))
    else if c == -1 then Choice(true, Min(a, b), Max(a, b))
    else Choice(false, Min(a, b), Max(a, b))
  }

  // ---------------------------------------------------------------- the order of enumeration

  /** The triples that start with i, j and end below `hi`. */
  function Inner(i: nat, j: nat, hi: nat): seq<Triple> {
    if hi <= j + 1 then [] else Inner(i, j, hi - 1) + [Triple(i, j, hi - 1)]
  }

  /** The triples below `n` that start with i and whose second position is below `hi`. */
  function Middle(i: nat, hi: nat, n: nat): seq<Triple> {
    if hi <= i + 1 then [] else Middle(i, hi - 1, n) + Inner(i, hi - 1, n)
  }

  /** The triples below `n` whose first position is below `hi`. */
  function Outer(hi: nat, n: nat): seq<Triple> {
    if hi == 0 then [] else Outer(hi - 1, n) + Middle(hi - 1, n, n)
  }

  function All(n: nat): seq<Triple> {
    Outer(n, n)
  }

  predicate Before(s: Triple, t: Triple) {
    s.i < t.i || (s.i == t.i && (s.j < t.j || (s.j == t.j && s.k < t.k)))
  }

  predicate Increasing(ts: seq<Triple>) {
    forall x, y | 0 <= x < y < |ts| :: Before(ts[x], ts[y])
  }

  lemma {:induction false} InnerSpec(i: nat, j: nat, hi: nat)
    ensures Increasing(Inner(i, j, hi))
    ensures forall t :: t in Inner(i, j, hi) <==> t.i == i && t.j == j && j < t.k < hi
  {
    if hi > j + 1 {
      InnerSpec(i, j, hi - 1);
      Joined(Inner(i, j, hi - 1), [Triple(i, j, hi - 1)]);
      forall t
        ensures t in Inner(i, j, hi) <==> t.i == i && t.j == j && j < t.k < hi
      {
        assert t in Inner(i, j, hi) <==> t in Inner(i, j, hi - 1) || t == Triple(i, j, hi - 1);
      }
    }
  }

  lemma {:induction false} MiddleSpec(i: nat, hi: nat, n: nat)
    ensures Increasing(Middle(i, hi, n))
    ensures forall t :: t in Middle(i, hi, n) <==> t.i == i && i < t.j < hi && t.j < t.k < n
  {
    if hi > i + 1 {
      MiddleSpec(i, hi - 1, n);
      InnerSpec(i, hi - 1, n);
      Joined(Middle(i, hi - 1, n), Inner(i, hi - 1, n));
    }
  }

  lemma Joined(a: seq<Triple>, b: seq<Triple>)
    requires Increasing(a) && Increasing(b)
    requires forall s, t | s in a && t in b :: Before(s, t)
    ensures Increasing(a + b)
  {
  }

  lemma {:induction false} OuterSpec(hi: nat, n: nat)
    ensures Increasing(Outer(hi, n))
    ensures forall t :: t in Outer(hi, n) <==> t.i < hi && t.i < t.j < t.k < n
  {
    if hi > 0 {
      OuterSpec(hi - 1, n);
      MiddleSpec(hi - 1, n, n);
      Joined(Outer(hi - 1, n), Middle(hi - 1, n, n));
    }
  }

  // ---------------------------------------------------------------- how many

  lemma {:induction false} InnerSize(i: nat, j: nat, hi: nat)
    ensures |Inner(i, j, hi)| == if hi <= j + 1 then 0 else hi - j - 1
  {
    if hi > j + 1 {
      InnerSize(i, j, hi - 1);
    }
  }

  lemma {:induction false} MiddleSize(i: nat, hi: nat, n: nat)
    requires i < hi <= n
    ensures 2 * |Middle(i, hi, n)| == (hi - i - 1) * (2 * n - 2 - i - hi)
  {
    if hi > i + 1 {
      MiddleSize(i, hi - 1, n);
      InnerSize(i, hi - 1, n);
      assert (hi - i - 1) * (2 * n - 2 - i - hi) == (hi - i - 2) * (2 * n - 1 - i - hi) + 2 * (n - hi);
    }
  }

  lemma {:induction false} OuterSize(hi: nat, n: nat)
    requires hi <= n
    ensures 6 * |Outer(hi, n)| == n * (n - 1) * (n - 2) - (n - hi) * (n - hi - 1) * (n - hi - 2)
  {
    if hi > 0 {
      OuterSize(hi - 1, n);
      MiddleSize(hi - 1, n, n);
      var a := n - hi;
      assert 2 * |Middle(hi - 1, n, n)| == a * (a - 1);
      Cubes(a);
    }
  }

  lemma Cubes(a: int)
    ensures (a + 1) * a * (a - 1) - a * (a - 1) * (a - 2) == 3 * (a * (a - 1))
  {
  }

  // ---------------------------------------------------------------- how many contain a position

  predicate Has(t: Triple, p: nat) {
    t.i == p || t.j == p || t.k == p
  }

  function Containing(ts: seq<Triple>, p: nat): nat {
    if ts == [] then 0 else Containing(ts[..|ts| - 1], p) + if Has(ts[|ts| - 1], p) then 1 else 0
  }

  lemma {:induction false} ContainingConcat(a: seq<Triple>, b: seq<Triple>, p: nat)
    ensures Containing(a + b, p) == Containing(a, p) + Containing(b, p)
  {
    if b == [] {
      assert a + b == a;
    } else {
      assert (a + b)[..|a + b| - 1] == a + b[..|b| - 1];
      ContainingConcat(a, b[..|b| - 1], p);
    }
  }

  lemma {:induction false} InnerContaining(i: nat, j: nat, hi: nat, p: nat)
    requires i < j < hi
    ensures Containing(Inner(i, j, hi), p) ==
            if p == i || p == j then hi - j - 1 else if j < p < hi then 1 else 0
  {
    if hi > j + 1 {
      InnerContaining(i, j, hi - 1, p);
      assert Inner(i, j, hi)[..|Inner(i, j, hi)| - 1] == Inner(i, j, hi - 1);
    }
  }

  lemma MiddleStep(i: nat, hi: nat, n: nat, p: nat)
    requires i + 1 < hi <= n && p < n
    ensures Containing(Middle(i, hi, n), p) == Containing(Middle(i, hi - 1, n), p) +
            if p == i || p == hi - 1 then n - hi else if hi <= p then 1 else 0
    ensures |Middle(i, hi, n)| == |Middle(i, hi - 1, n)| + n - hi
  {
    hide Containing, Inner;
    InnerContaining(i, hi - 1, n, p);
    InnerSize(i, hi - 1, n);
    ContainingConcat(Middle(i, hi - 1, n), Inner(i, hi - 1, n), p);
  }

  lemma OuterStep(hi: nat, n: nat, p: nat)
    requires 0 < hi
    ensures Containing(Outer(hi, n), p) == Containing(Outer(hi - 1, n), p) + Containing(Middle(hi - 1, n, n), p)
  {
    hide Containing, Middle;
    ContainingConcat(Outer(hi - 1, n), Middle(hi - 1, n, n), p);
  }

  lemma {:induction false} MiddleContaining(i: nat, hi: nat, n: nat, p: nat)
    requires i < hi <= n && p < n
    ensures p < i ==> Containing(Middle(i, hi, n), p) == 0
    ensures p == i ==> Containing(Middle(i, hi, n), p) == |Middle(i, hi, n)|
    ensures i < p && hi <= p ==> Containing(Middle(i, hi, n), p) == hi - i - 1
    ensures i < p < hi ==> Containing(Middle(i, hi, n), p) == n - i - 2
  {
    hide Containing, Inner, Middle;
    if hi == i + 1 {
      MiddleNone(i, n, p);
    } else {
      MiddleContaining(i, hi - 1, n, p);
      MiddleStep(i, hi, n, p);
    }
  }

  lemma MiddleNone(i: nat, n: nat, p: nat)
    ensures |Middle(i, i + 1, n)| == Containing(Middle(i, i + 1, n), p) == 0
  {
  }

  /** The number of triples below `n` that contain a position and start before both it and
      `hi`. */
  function Rows(hi: nat, n: nat): int {
    if hi == 0 then 0 else Rows(hi - 1, n) + n - hi - 1
  }

  lemma {:induction false} OuterBefore(hi: nat, n: nat, p: nat)
    requires hi <= p < n
    ensures Containing(Outer(hi, n), p) == Rows(hi, n)
  {
    hide Containing, Middle, Outer;
    if hi == 0 {
      OuterNone(n, p);
    } else {
      OuterBefore(hi - 1, n, p);
      MiddleContaining(hi - 1, n, n, p);
      OuterStep(hi, n, p);
    }
  }

  lemma OuterNone(n: nat, p: nat)
    ensures Containing(Outer(0, n), p) == 0
  {
  }

  lemma {:induction false} OuterContaining(hi: nat, n: nat, p: nat)
    requires p < hi <= n
    ensures Containing(Outer(hi, n), p) == Rows(p, n) + |Middle(p, n, n)|
  {
    hide Containing, Middle, Outer, Rows;
    MiddleContaining(hi - 1, n, n, p);
    OuterStep(hi, n, p);
    if hi == p + 1 {
      OuterBefore(p, n, p);
    } else {
      OuterContaining(hi - 1, n, p);
    }
  }

  lemma {:induction false} RowsSum(hi: nat, n: nat)
    ensures 2 * Rows(hi, n) == hi * (2 * n - 3 - hi)
  {
    if hi > 0 {
      RowsSum(hi - 1, n);
      RowSum(hi, n);
    }
  }

  lemma RowSum(hi: int, n: int)
    ensures hi * (2 * n - 3 - hi) == (hi - 1) * (2 * n - 2 - hi) + 2 * (n - hi - 1)
  {
  }

  lemma LastRow(p: int, n: int)
    ensures p * (2 * n - 3 - p) + (n - p - 1) * (n - p - 2) == (n - 1) * (n - 2)
    ensures (n - p - 1) * (2 * n - 2 - p - n) == (n - p - 1) * (n - p - 2)
  {
  }

  /** `permutations` emits every triple of positions once, in lexicographic order,
      n(n-1)(n-2)/6 in all, and (n-1)(n-2)/2 of them contain any given position. */
  lemma AllTriples(n: nat, p: nat)
    requires p < n
    ensures Increasing(All(n))
    ensures forall t :: t in All(n) <==> t.i < t.j < t.k < n
    ensures 6 * |All(n)| == n * (n - 1) * (n - 2)
    ensures 2 * Containing(All(n), p) == (n - 1) * (n - 2)
  {
    OuterSpec(n, n);
    OuterSize(n, n);
    OuterContaining(n, n, p);
    RowsSum(p, n);
    MiddleSize(p, n, n);
    LastRow(p, n);
  }

  // ---------------------------------------------------------------- the loops

  function Choose(tmp: seq<int>, t: Triple): Choice
    requires t.i < |tmp| && t.j < |tmp| && t.k < |tmp|
  {
    Pick(tmp[t.i], tmp[t.j], tmp[t.k])
  }

  /** The result so far describes the listed triples, in their order. */
  predicate Describes(tmp: seq<int>, res: seq<Choice>, ts: seq<Triple>) {
    && |res| == |ts|
    && forall x | 0 <= x < |ts| ::
         ts[x].i < |tmp| && ts[x].j < |tmp| && ts[x].k < |tmp| && res[x] == Choose(tmp, ts[x])
  }

  /** The loop over k. */
  method InnerLoop(tmp: seq<int>, i: nat, j: nat, res0: seq<Choice>, ghost ts: seq<Triple>) returns (res: seq<Choice>)
    requires i < j < |tmp| && Describes(tmp, res0, ts)
    ensures Describes(tmp, res, ts + Inner(i, j, |tmp|))
  {
    res := res0;
    assert ts + Inner(i, j, j + 1) == ts;
    for k := j + 1 to |tmp|
      invariant Describes(tmp, res, ts + Inner(i, j, k))
    {
      var a, b, c := tmp[i], tmp[j], tmp[k];
      assert ts + Inner(i, j, k + 1) == ts + Inner(i, j, k) + [Triple(i, j, k)];
      if a == -1 {
        res := res + [Choice(true, Min(b, c), Max(b, c))];
        continue;
      }
      if b == -1 {
        res := res + [Choice(true, Min(a, c), Max(a, c))];
        continue;
      }
      if c == -1 {
        res := res + [Choice(true, Min(a, b), Max(a, b))];
        continue;
      }
      res := res + [Choice(false, Min(a, b), Max(a, b))];
    }
  }

  /** The loop over j. */
  method MiddleLoop(tmp: seq<int>, i: nat, res0: seq<Choice>, ghost ts: seq<Triple>) returns (res: seq<Choice>)
    requires i < |tmp| && Describes(tmp, res0, ts)
    ensures Describes(tmp, res, ts + Middle(i, |tmp|, |tmp|))
  {
    res := res0;
    var n := |tmp|;
    assert ts + Middle(i, i + 1, n) == ts;
    for j := i + 1 to n
      invariant Describes(tmp, res, ts + Middle(i, j, n))
    {
      res := InnerLoop(tmp, i, j, res, ts + Middle(i, j, n));
      assert ts + Middle(i, j, n) + Inner(i, j, n) == ts + Middle(i, j + 1, n);
    }
  }

  /** `permutations`, from the sorted list of indices on. */
  method Permutations(tmp: seq<int>) returns (res: seq<Choice>)
    ensures Describes(tmp, res, All(|tmp|))
  {
    res := [];
    for i := 0 to |tmp|
      invariant Describes(tmp, res, Outer(i, |tmp|))
    {
      res := MiddleLoop(tmp, i, res, Outer(i, |tmp|));
    }
  }

  // ---------------------------------------------------------------- the marked entries

  function Marked(res: seq<Choice>): nat {
    if res == [] then 0 else Marked(res[..|res| - 1]) + if res[|res| - 1].us then 1 else 0
  }

  lemma {:induction false} MarkedContaining(tmp: seq<int>, res: seq<Choice>, ts: seq<Triple>, p: nat)
    requires Distinct(tmp) && Describes(tmp, res, ts) && p < |tmp| && tmp[p] == -1
    ensures Marked(res) == Containing(ts, p)
  {
    if ts != [] {
      var n := |ts| - 1;
      MarkedContaining(tmp, res[..n], ts[..n], p);
      assert res[n] == Choose(tmp, ts[n]);
    }
  }

  /** The position determines the marked entry: equal pairs of indices, equal triples. */
  lemma MarkedOnce(tmp: seq<int>, s: Triple, t: Triple)
    requires Distinct(tmp) && s.i < s.j < s.k < |tmp| && t.i < t.j < t.k < |tmp|
    requires Choose(tmp, s).us && Choose(tmp, s) == Choose(tmp, t)
    ensures s == t
  {
  }

  /** The result of `permutations` for n servers: n(n-1)(n-2)/6 entries, (n-1)(n-2)/2 of them
      marked, and no marked entry twice. */
  lemma {:induction false} PermutationsCount(tmp: seq<int>, res: seq<Choice>, p: nat)
    requires Distinct(tmp) && p < |tmp| && tmp[p] == -1 && Describes(tmp, res, All(|tmp|))
    ensures var n := |tmp|; 6 * |res| == n * (n - 1) * (n - 2) && 2 * Marked(res) == (n - 1) * (n - 2)
    ensures forall x, y | 0 <= x < y < |res| && res[x].us :: res[x] != res[y]
  {
    hide All, Marked, Containing;
    var ts := All(|tmp|);
    AllTriples(|tmp|, p);
    MarkedContaining(tmp, res, ts, p);
    forall x, y | 0 <= x < y < |res| && res[x].us
      ensures res[x] != res[y]
    {
      assert ts[x] in ts && ts[y] in ts && Before(ts[x], ts[y]);
      if res[x] == res[y] {
        MarkedOnce(tmp, ts[x], ts[y]);
      }
    }
  }
}
