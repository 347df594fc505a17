/** Logical clocks (src/include/protocol/abd/lamport.h): a 32-bit counter and a 32-bit
    machine id, compared through their packing into one 64-bit integer. */
module Lamports {
  import opened Basics

  datatype Lamport = Lamport(count: U32, mid: U32)

  const MIN: Lamport := Lamport(0, 0)

  /** The 64-bit integer that every comparison operator of the class goes through. */
  function ToInt(l: Lamport): int {
    l.count * TWO32 + l.mid
  }

  function FromInt(i: int): Lamport
    requires 0 <= i < TWO32 * TWO32
  {
    Lamport(i / TWO32, i % TWO32)
  }

  predicate Less(a: Lamport, b: Lamport) {
    ToInt(a) < ToInt(b)
  }

  predicate Leq(a: Lamport, b: Lamport) {
    ToInt(a) <= ToInt(b)
  }

  /** `max + 1` on the 32-bit counter, wrap-around included. */
  function Increment(count: U32): U32 {
    (count + 1) % TWO32
  }

  /** The packed comparison is the lexicographic one on (count, machine id), it is a total
      order whose equality is equality of clocks, and unpacking undoes packing. */
  lemma PackedOrder(a: Lamport, b: Lamport)
    ensures Less(a, b) <==> a.count < b.count || (a.count == b.count && a.mid < b.mid)
    ensures Less(a, b) || Less(b, a) || a == b
    ensures Leq(a, b) && Leq(b, a) ==> a == b
    ensures 0 <= ToInt(a) < TWO32 * TWO32 && FromInt(ToInt(a)) == a
    ensures Leq(MIN, a)
  {
  }
}
