/** The Zipf sampler (src/generate_traces.cpp:92-124) over exact real numbers: the table of
    cumulative probabilities and the binary search for a draw. */
module Zipf {
  import opened Basics

  /** The weights are given for 1, ..., n - 1, where n is the number of keys. */
  predicate Weights(w: seq<real>) {
    |w| >= 2 && forall i | 1 <= i < |w| :: w[i] > 0.0
  }

  function Total(w: seq<real>, i: nat): real
    requires i < |w|
  {
    if i == 0 then 0.0 else Total(w, i - 1) + w[i]
  }

  lemma {:induction false} TotalPositive(w: seq<real>, i: nat)
    requires Weights(w) && 1 <= i < |w|
    ensures Total(w, i) > 0.0
  {
    if i > 1 {
      TotalPositive(w, i - 1);
    }
  }

  /** A cumulative distribution: it starts at zero, increases strictly and ends at one. */
  predicate Cumulative(sums: seq<real>) {
    && |sums| >= 2 && sums[0] == 0.0 && sums[|sums| - 1] == 1.0
    && forall i, j | 0 <= i < j < |sums| :: sums[i] < sums[j]
  }

  lemma {:induction false} StepsIncrease(sums: seq<real>, i: nat, j: nat)
    requires forall x | 0 < x < |sums| :: sums[x - 1] < sums[x]
    requires i < j < |sums|
    ensures sums[i] < sums[j]
  {
    if i < j - 1 {
      StepsIncrease(sums, i, j - 1);
    }
  }

  function Times(a: real, b: real): real {
    a * b
  }

  lemma Distributes(c: real, t: real, w: real)
    ensures Times(c, t) + Times(c, w) == Times(c, t + w) && Times(c, 0.0) == 0.0
  {
  }

  lemma Scaled(c: real, total: real, w: real)
    requires total > 0.0 && c == 1.0 / total && w > 0.0
    ensures Times(c, w) > 0.0 && Times(Times(c, w), total) == w && Times(c, total) == 1.0
  {
  }

  /** The two loops that fill `sum_probs`: a cumulative distribution in which the probability
      of i is its share of the total weight. The last slot of the array, number n, is never
      written; the result has no such slot. */
  method Table(w: seq<real>) returns (sums: seq<real>)
    requires Weights(w)
    ensures |sums| == |w| && Cumulative(sums)
    ensures forall i | 1 <= i < |w| :: Times(sums[i] - sums[i - 1], Total(w, |w| - 1)) == w[i]
  {
    hide Times;
    var n := |w|;
    var total := 0.0;
    for i := 1 to n
      invariant total == Total(w, i - 1)
    {
      total := total + w[i];
    }
    TotalPositive(w, n - 1);
    var c := 1.0 / total;
    Scaled(c, total, 1.0);
    Distributes(c, 0.0, 0.0);
    sums := [0.0];
    for i := 1 to n
      invariant |sums| == i && sums[0] == 0.0 && sums[i - 1] == Times(c, Total(w, i - 1))
      invariant forall x | 0 < x < i :: sums[x - 1] < sums[x] && Times(sums[x] - sums[x - 1], total) == w[x]
    {
      Scaled(c, total, w[i]);
      Distributes(c, Total(w, i - 1), w[i]);
      sums := sums + [sums[i - 1] + Times(c, w[i])];
      assert sums[i] - sums[i - 1] == Times(c, w[i]);
    }
    forall i, j | 0 <= i < j < |sums|
      ensures sums[i] < sums[j]
    {
      StepsIncrease(sums, i, j);
    }
  }

  /** The binary search. `None` stands for leaving the loop with `zip_value` unset. */
  method Search(sums: seq<real>, z: real) returns (zipValue: Option<nat>)
    requires Cumulative(sums) && 0.0 <= z <= 1.0
    ensures zipValue.Some? <==> z > 0.0
    ensures zipValue.Some? ==> 1 <= zipValue.value < |sums| && sums[zipValue.value - 1] < z <= sums[zipValue.value]
  {
    var n := |sums|;
    var low, high := 1, n;
    while low <= high
      invariant 1 <= low <= n && 0 <= high <= n
      invariant z > 0.0 ==> sums[low - 1] < z && (high < n ==> z <= sums[high])
      invariant z == 0.0 ==> low == 1
      decreases high + 1 - low
    {
      var mid := (low + high) / 2;
      if sums[mid] >= z && sums[mid - 1] < z {
        return Some(mid);
      }
      if sums[mid] >= z {
        high := mid - 1;
        continue;
      }
      low := mid + 1;
    }
    zipValue := None;
  }

  /** The index a draw falls on is unique, so the search samples the distribution. */
  lemma DrawIsUnique(sums: seq<real>, z: real, i: nat, j: nat)
    requires Cumulative(sums) && 1 <= i < |sums| && 1 <= j < |sums|
    requires sums[i - 1] < z <= sums[i] && sums[j - 1] < z <= sums[j]
    ensures i == j
  {
  }
}
