/** The response gate of `ABD::req_conts` (src/include/protocol/abd/protocol.h:426-442)
    read as a condition on sets of servers. */
module Quorum {

  /** The test of protocol.h:436: with `nResp` answers out of `nMsgs` requests the
      continuation goes on. */
  predicate GateOpen(nResp: nat, nMsgs: nat) {
    !(2 * nResp + 1 < nMsgs)
  }

  /** A set of servers that lets a coordinator of the group `g` go on: the coordinator
      itself and the remotes that answered, at least one of them because the gate is only
      evaluated when an answer arrives. */
  predicate Passing<T(==)>(q: set<T>, g: set<T>) {
    q <= g && |q| >= 2 && GateOpen(|q| - 1, |g| - 1)
  }

  /** Group sizes for which the gate asks for a real majority. */
  predicate MajorityGroup<T>(g: set<T>) {
    |g| % 2 == 1 || |g| <= 2
  }

  lemma UnionSize<T>(a: set<T>, b: set<T>)
    requires a !! b
    ensures |a + b| == |a| + |b|
  {
  }

  lemma SubsetSize<T>(a: set<T>, b: set<T>)
    requires a <= b
    ensures |a| <= |b|
  {
    UnionSize(a, b - a);
    assert a + (b - a) == b;
  }

  /** Pigeonhole: two subsets whose sizes add up to more than the whole meet. */
  lemma Meet<T>(a: set<T>, b: set<T>, g: set<T>) returns (x: T)
    requires a <= g && b <= g && |a| + |b| > |g|
    ensures x in a && x in b
  {
    if a !! b {
      UnionSize(a, b);
      SubsetSize(a + b, g);
      assert false;
    }
    x :| x in a && x in b;
  }

  lemma PassingMeet<T>(a: set<T>, b: set<T>, g: set<T>) returns (x: T)
    requires Passing(a, g) && Passing(b, g) && MajorityGroup(g)
    ensures x in a && x in b
  {
    x := Meet(a, b, g);
  }

  /** Splits a set in two parts of chosen sizes. */
  lemma Split<T>(g: set<T>, n: nat) returns (a: set<T>)
    requires n <= |g|
    ensures a <= g && |a| == n && |g - a| == |g| - n
  {
    if n == 0 {
      a := {};
      assert g - a == g;
    } else {
      var x :| x in g;
      var b := Split(g - {x}, n - 1);
      a := b + {x};
      UnionSize(b, {x});
      UnionSize(g - {x}, {x});
      assert (g - {x}) + {x} == g && g - a == (g - {x}) - b;
    }
  }

  /** The gate makes any two coordinators share a server exactly for the odd group sizes
      (and the degenerate groups of at most two): for every even size of four or more there
      are two disjoint sets that both pass. */
  lemma GateIntersectionIffMajority<T>(g: set<T>)
    ensures (forall a, b | Passing(a, g) && Passing(b, g) :: a * b != {}) <==> MajorityGroup(g)
  {
    if MajorityGroup(g) {
      forall a, b | Passing(a, g) && Passing(b, g)
        ensures a * b != {}
      {
        var x := PassingMeet(a, b, g);
        assert x in a * b;
      }
    } else {
      var a := Split(g, |g| / 2);
      var b := g - a;
      assert Passing(a, g) && Passing(b, g) && a * b == {};
    }
  }

  /** The size of the smallest sets that pass the gate of a group of `n`. */
  function Smallest(n: nat): nat {
    if n <= 4 then 2 else (n + 1) / 2
  }

  /** The answer number `nResp` is the first one that finds the gate open. */
  predicate Opens(nResp: nat, nMsgs: nat) {
    nResp >= 1 && GateOpen(nResp, nMsgs) && (nResp == 1 || !GateOpen(nResp - 1, nMsgs))
  }

  /** Passing sets are the subsets of at least the smallest size, and the coordinator of a
      smallest one goes on when it has heard all the others. */
  lemma PassingSize<T>(q: set<T>, g: set<T>)
    requires q <= g
    ensures Passing(q, g) <==> |q| >= Smallest(|g|)
    ensures |g| >= 2 && |q| == Smallest(|g|) ==> Opens(|q| - 1, |g| - 1)
  {
  }
}
