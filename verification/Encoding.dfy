/** Unsigned integers in memory, least significant byte first. */
module Encoding {
  import opened Basics
  import opened Lamports

  function LittleEndian(b: Bytes): nat {
    if b == [] then 0 else b[0] + 256 * LittleEndian(b[1..])
  }

  function ToBytes(x: nat, n: nat): (b: Bytes)
    ensures |b| == n
    decreases n
  {
    if n == 0 then [] else [x % 256] + ToBytes(x / 256, n - 1)
  }

  /** The number of values of `n` bytes. */
  function Range(n: nat): nat {
    if n == 0 then 1 else 256 * Range(n - 1)
  }

  lemma {:induction false} BytesRoundTrip(x: nat, n: nat)
    requires x < Range(n)
    ensures LittleEndian(ToBytes(x, n)) == x
    decreases n
  {
    if n > 0 {
      BytesRoundTrip(x / 256, n - 1);
      assert ToBytes(x, n)[1..] == ToBytes(x / 256, n - 1);
    }
  }

  /** The eight bytes of a clock. */
  function ClockBytes(l: Lamport): (b: Bytes)
    ensures |b| == 8
  {
    ToBytes(l.count, 4) + ToBytes(l.mid, 4)
  }

  lemma ClockRoundTrip(l: Lamport)
    ensures var b := ClockBytes(l); LittleEndian(b[..4]) == l.count && LittleEndian(b[4..]) == l.mid
  {
    assert Range(4) == TWO32 by {
      assert Range(2) == 65536;
    }
    BytesRoundTrip(l.count, 4);
    BytesRoundTrip(l.mid, 4);
    assert ClockBytes(l)[..4] == ToBytes(l.count, 4) && ClockBytes(l)[4..] == ToBytes(l.mid, 4);
  }
}
