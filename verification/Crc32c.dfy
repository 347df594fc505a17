/** CRC-32C (src/include/crypt/crc32.h): three interleaved streams, joined with tables that
    advance a register over a block of zeros, against the bit-serial definition of the
    checksum in section 12.1 of RFC 3720. */
module Crc32c {
  import opened Basics

  /** The reflected polynomial, `CRC32::poly`, and the two block sizes. */
  const POLY: bv32 := 0x82f63b78
  const LONG: nat := 8192
  const SHORT: nat := 256

  function Xor(a: bv32, b: bv32): bv32 {
    a ^ b
  }

  function Half(r: bv32): bv32 {
    r >> 1
  }

  predicate Odd(r: bv32) {
    r & 1 == 1
  }

  // ---------------------------------------------------------------- the serial definition

  /** Shift the register and subtract the polynomial when a one falls out. */
  function Shift(r: bv32): bv32 {
    if Odd(r) then Xor(Half(r), POLY) else Half(r)
  }

  function BitStep(r: bv32, bit: bool): bv32 {
    Shift(if bit then Xor(r, 1) else r)
  }

  function BitFold(r: bv32, bits: seq<bool>): bv32
    decreases |bits|
  {
    if bits == [] then r else BitFold(BitStep(r, bits[0]), bits[1..])
  }

  /** The bits of a byte, the least significant one first. */
  function Bits(b: bv8): (bits: seq<bool>)
    ensures |bits| == 8
  {
    [b & 1 != 0, b & 2 != 0, b & 4 != 0, b & 8 != 0, b & 16 != 0, b & 32 != 0, b & 64 != 0, b & 128 != 0]
  }

  function MessageBits(m: seq<bv8>): seq<bool> {
    if m == [] then [] else Bits(m[0]) + MessageBits(m[1..])
  }

  /** The register after a message. On one byte this is the instruction `crc32b`, on the eight
      bytes of a quadword in memory order the instruction `crc32q`. */
  function Serial(r: bv32, m: seq<bv8>): bv32 {
    BitFold(r, MessageBits(m))
  }

  /** The checksum of a message, continued from the checksum of what precedes it. */
  function Crc(crc: bv32, m: seq<bv8>): bv32 {
    Xor(Serial(Xor(crc, 0xffffffff), m), 0xffffffff)
  }

  // ---------------------------------------------------------------- bits

  lemma AssocBits(a: bv32, b: bv32, c: bv32)
    ensures (a ^ b) ^ c == a ^ (b ^ c)
  {
  }

  lemma XorAssoc(a: bv32, b: bv32, c: bv32)
    ensures Xor(Xor(a, b), c) == Xor(a, Xor(b, c))
  {
    AssocBits(a, b, c);
  }

  lemma XorCommutes(a: bv32, b: bv32)
    ensures Xor(a, b) == Xor(b, a)
  {
  }

  lemma XorZero(a: bv32)
    ensures Xor(a, 0) == a && Xor(a, a) == 0
  {
  }

  lemma XorTwice(a: bv32, b: bv32)
    ensures Xor(Xor(a, b), b) == a
  {
    hide Xor;
    XorAssoc(a, b, b);
    XorZero(b);
    XorZero(a);
  }

  lemma XorSwap(a: bv32, b: bv32, p: bv32)
    ensures Xor(Xor(a, p), Xor(b, p)) == Xor(a, b)
    ensures Xor(Xor(a, p), b) == Xor(Xor(a, b), p)
    ensures Xor(a, Xor(b, p)) == Xor(Xor(a, b), p)
  {
    hide Xor;
    XorAssoc(a, b, p);
    XorAssoc(a, p, b);
    XorCommutes(b, p);
    XorTwice(Xor(a, b), p);
    XorAssoc(Xor(a, p), b, p);
  }

  lemma HalfXor(a: bv32, b: bv32)
    ensures Half(Xor(a, b)) == Xor(Half(a), Half(b))
  {
  }

  lemma OddXor(a: bv32, b: bv32)
    ensures Odd(Xor(a, b)) <==> Odd(a) != Odd(b)
  {
  }

  // ---------------------------------------------------------------- linearity

  /** The register shifted over `n` zero bits. */
  function Shifts(r: bv32, n: nat): bv32
    decreases n
  {
    if n == 0 then r else Shifts(Shift(r), n - 1)
  }

  lemma ShiftLinear(a: bv32, b: bv32)
    ensures Shift(Xor(a, b)) == Xor(Shift(a), Shift(b))
  {
    hide Half, Odd, Xor;
    HalfXor(a, b);
    OddXor(a, b);
    XorSwap(Half(a), Half(b), POLY);
  }

  lemma {:induction false} ShiftsLinear(a: bv32, b: bv32, n: nat)
    ensures Shifts(Xor(a, b), n) == Xor(Shifts(a, n), Shifts(b, n))
    decreases n
  {
    hide Shift, Xor;
    if n > 0 {
      ShiftLinear(a, b);
      ShiftsLinear(Shift(a), Shift(b), n - 1);
    }
  }

  /** A difference in the register is carried through a message independently of it. */
  lemma {:induction false} FoldLinear(r: bv32, d: bv32, bits: seq<bool>)
    ensures BitFold(Xor(r, d), bits) == Xor(BitFold(r, bits), Shifts(d, |bits|))
    decreases |bits|
  {
    hide Shift, Xor;
    if bits != [] {
      XorSwap(r, d, 1);
      ShiftLinear(if bits[0] then Xor(r, 1) else r, d);
      assert BitStep(Xor(r, d), bits[0]) == Xor(BitStep(r, bits[0]), Shift(d));
      FoldLinear(BitStep(r, bits[0]), Shift(d), bits[1..]);
    }
  }

  lemma {:induction false} FoldConcat(r: bv32, a: seq<bool>, b: seq<bool>)
    ensures BitFold(r, a + b) == BitFold(BitFold(r, a), b)
    decreases |a|
  {
    if a == [] {
      assert a + b == b;
    } else {
      assert (a + b)[1..] == a[1..] + b;
      FoldConcat(BitStep(r, a[0]), a[1..], b);
    }
  }

  lemma {:induction false} BitsConcat(a: seq<bv8>, b: seq<bv8>)
    ensures MessageBits(a + b) == MessageBits(a) + MessageBits(b)
  {
    hide Bits;
    if a == [] {
      assert a + b == b;
    } else {
      assert (a + b)[1..] == a[1..] + b;
      BitsConcat(a[1..], b);
    }
  }

  lemma {:induction false} BitsLength(m: seq<bv8>)
    ensures |MessageBits(m)| == 8 * |m|
  {
    hide Bits;
    if m != [] {
      BitsLength(m[1..]);
    }
  }

  lemma SerialConcat(r: bv32, a: seq<bv8>, b: seq<bv8>)
    ensures Serial(r, a + b) == Serial(Serial(r, a), b)
  {
    BitsConcat(a, b);
    FoldConcat(r, MessageBits(a), MessageBits(b));
  }

  /** The register after a message is that of the message alone, plus the initial register
      advanced over as many zero bits. */
  lemma SerialLinear(r: bv32, m: seq<bv8>)
    ensures Serial(r, m) == Xor(Shifts(r, 8 * |m|), Serial(0, m))
  {
    hide Xor, Shifts, BitFold, MessageBits;
    XorCommutes(0, r);
    XorZero(r);
    FoldLinear(0, r, MessageBits(m));
    BitsLength(m);
    XorCommutes(Serial(0, m), Shifts(r, 8 * |m|));
  }

  lemma SerialZeros(r: bv32, n: nat)
    ensures Serial(0, Fill(0, n)) == 0
    ensures Serial(r, Fill(0, n)) == Shifts(r, 8 * n)
  {
    ZeroStays(n);
    SerialLinear(r, Fill(0, n));
    XorZero(Shifts(r, 8 * n));
  }

  lemma {:induction false} ZeroStays(n: nat)
    ensures Serial(0, Fill(0, n)) == 0
  {
    if n == 0 {
      assert Fill<bv8>(0, n) == [];
      SerialEmpty(0);
    } else {
      ZeroStays(n - 1);
      assert Fill<bv8>(0, n) == [0] + Fill(0, n - 1);
      SerialConcat(0, [0], Fill(0, n - 1));
      ZeroByte();
    }
  }

  lemma ZeroByte()
    ensures Serial(0, [0]) == 0
  {
    var bits := MessageBits([0]);
    assert bits == [false, false, false, false, false, false, false, false];
    ZeroBits(bits);
  }

  lemma {:induction false} ZeroBits(bits: seq<bool>)
    requires forall i | 0 <= i < |bits| :: !bits[i]
    ensures BitFold(0, bits) == 0
    decreases |bits|
  {
    if bits != [] {
      assert BitStep(0, false) == 0;
      ZeroBits(bits[1..]);
    }
  }

  // ---------------------------------------------------------------- the zero-shift tables

  type Table = seq<seq<bv32>>

  /** A byte in position `k` of the register. */
  function Place(b: bv8, k: nat): bv32 {
    if k == 0 then b as bv32
    else if k == 1 then (b as bv32) << 8
    else if k == 2 then (b as bv32) << 16
    else (b as bv32) << 24
  }

  function ByteAt(crc: bv32, k: nat): bv8 {
    if k == 0 then (crc & 0xff) as bv8
    else if k == 1 then ((crc >> 8) & 0xff) as bv8
    else if k == 2 then ((crc >> 16) & 0xff) as bv8
    else (crc >> 24) as bv8
  }

  /** What the tables `l` and `s` hold: the register with one byte set, advanced over `size`
      zero bytes. */
  ghost predicate IsTable(z: Table, size: nat) {
    && |z| == 4
    && (forall k | 0 <= k < 4 :: |z[k]| == 256)
    && forall k, b: bv8 | 0 <= k < 4 :: z[k][b as nat] == Serial(Place(b, k), Fill(0, size))
  }

  /** There is such a table for every size. */
  lemma TableExists(size: nat) returns (z: Table)
    ensures IsTable(z, size)
  {
    z := seq(4, k requires 0 <= k < 4 =>
      seq(256, b requires 0 <= b < 256 => Serial(Place(b as bv8, k), Fill(0, size))));
  }

  /** `CRC32::shift`. */
  function ShiftTable(z: Table, crc: bv32): bv32
    requires |z| == 4 && forall k | 0 <= k < 4 :: |z[k]| == 256
  {
    var z01 := Xor(z[0][ByteAt(crc, 0) as nat], z[1][ByteAt(crc, 1) as nat]);
    Xor(Xor(z01, z[2][ByteAt(crc, 2) as nat]), z[3][ByteAt(crc, 3) as nat])
  }

  function Mask(c: bv32, k: nat): bv32 {
    if k == 0 then c & 0xff
    else if k == 1 then ((c >> 8) & 0xff) << 8
    else if k == 2 then ((c >> 16) & 0xff) << 16
    else (c >> 24) << 24
  }

  lemma MaskBits(c: bv32)
    ensures c == (((c & 0xff) ^ (((c >> 8) & 0xff) << 8)) ^ (((c >> 16) & 0xff) << 16)) ^ ((c >> 24) << 24)
  {
  }

  lemma SplitMasks(c: bv32)
    ensures c == Xor(Xor(Xor(Mask(c, 0), Mask(c, 1)), Mask(c, 2)), Mask(c, 3))
  {
    MaskBits(c);
  }

  lemma LowByte(c: bv32)
    ensures ((c & 0xff) as bv8) as bv32 == c & 0xff
  {
  }

  lemma HighByte(c: bv32)
    ensures ((c >> 24) as bv8) as bv32 == c >> 24
  {
  }

  lemma PlaceOfByte(c: bv32, k: nat)
    requires k < 4
    ensures Place(ByteAt(c, k), k) == Mask(c, k)
  {
    if k == 0 {
      LowByte(c);
    } else if k == 1 {
      LowByte(c >> 8);
    } else if k == 2 {
      LowByte(c >> 16);
    } else {
      HighByte(c);
    }
  }

  lemma SplitBytes(c: bv32)
    ensures c == Xor(Xor(Xor(Place(ByteAt(c, 0), 0), Place(ByteAt(c, 1), 1)), Place(ByteAt(c, 2), 2)),
                     Place(ByteAt(c, 3), 3))
  {
    hide Place, ByteAt, Mask, Xor;
    PlaceOfByte(c, 0);
    PlaceOfByte(c, 1);
    PlaceOfByte(c, 2);
    PlaceOfByte(c, 3);
    SplitMasks(c);
  }

  /** Four table lookups advance any register over a block of zeros. */
  lemma ShiftTableAdvances(z: Table, size: nat, crc: bv32)
    requires IsTable(z, size)
    ensures ShiftTable(z, crc) == Shifts(crc, 8 * size)
  {
    hide Xor, Place, ByteAt, Shifts, Serial;
    var b0, b1 := Place(ByteAt(crc, 0), 0), Place(ByteAt(crc, 1), 1);
    var b2, b3 := Place(ByteAt(crc, 2), 2), Place(ByteAt(crc, 3), 3);
    var n := 8 * size;
    SerialZeros(b0, size);
    SerialZeros(b1, size);
    SerialZeros(b2, size);
    SerialZeros(b3, size);
    ShiftsLinear(b0, b1, n);
    ShiftsLinear(Xor(b0, b1), b2, n);
    ShiftsLinear(Xor(Xor(b0, b1), b2), b3, n);
    SplitBytes(crc);
  }

  /** Joining two streams: the table advances the first over the length of the second. */
  lemma Join(z: Table, size: nat, r: bv32, b: seq<bv8>)
    requires IsTable(z, size) && |b| == size
    ensures Xor(ShiftTable(z, r), Serial(0, b)) == Serial(r, b)
  {
    hide Xor, Shifts, Serial, ShiftTable;
    ShiftTableAdvances(z, size, r);
    SerialLinear(r, b);
  }

  // ---------------------------------------------------------------- the loops

  /** `test_first_align` (when `first`) and `test_last_align`. */
  predicate Test(first: bool, addr: nat, next: nat, len: nat) {
    len != 0 && (first ==> (addr + next) % 8 != 0)
  }

  lemma SerialExtend(r: bv32, buf: seq<bv8>, a: nat, b: nat, c: nat)
    requires a <= b <= c <= |buf|
    ensures Serial(r, buf[a..c]) == Serial(Serial(r, buf[a..b]), buf[b..c])
  {
    assert buf[a..c] == buf[a..b] + buf[b..c];
    SerialConcat(r, buf[a..b], buf[b..c]);
  }

  /** `crc_unaligned`: one byte at a time while the test holds. */
  method CrcUnaligned(first: bool, addr: nat, crc: bv32, buf: seq<bv8>, start: nat, size: nat)
    returns (crc0: bv32, next: nat, len: nat)
    requires start + size == |buf|
    ensures start <= next && next + len == |buf| && !Test(first, addr, next, len)
    ensures crc0 == Serial(crc, buf[start..next])
  {
    hide Serial;
    crc0, next, len := crc, start, size;
    SerialEmpty(crc);
    assert buf[start..start] == [];
    while Test(first, addr, next, len)
      invariant start <= next && next + len == |buf|
      invariant crc0 == Serial(crc, buf[start..next])
      decreases len
    {
      SerialExtend(crc, buf, start, next, next + 1);
      crc0 := Serial(crc0, buf[next..next + 1]);
      next, len := next + 1, len - 1;
    }
  }

  lemma SerialEmpty(r: bv32)
    ensures Serial(r, []) == r
  {
  }

  /** The three interleaved streams of one block of `crc_aligned`. */
  method Streams(size: nat, crc: bv32, buf: seq<bv8>, start: nat) returns (crc0: bv32, crc1: bv32, crc2: bv32)
    requires 0 < size && size % 8 == 0 && start + 3 * size <= |buf|
    ensures crc0 == Serial(crc, buf[start..start + size])
    ensures crc1 == Serial(0, buf[start + size..start + 2 * size])
    ensures crc2 == Serial(0, buf[start + 2 * size..start + 3 * size])
  {
    hide Serial;
    crc0, crc1, crc2 := crc, 0, 0;
    var next, end := start, start + size;
    SerialEmpty(crc);
    SerialEmpty(0);
    assert buf[start..start] == [] && buf[end..end] == [] && buf[end + size..end + size] == [];
    while next < end
      invariant start <= next <= end && (end - next) % 8 == 0
      invariant crc0 == Serial(crc, buf[start..next])
      invariant crc1 == Serial(0, buf[end..next + size])
      invariant crc2 == Serial(0, buf[end + size..next + 2 * size])
    {
      SerialExtend(crc, buf, start, next, next + 8);
      SerialExtend(0, buf, end, next + size, next + size + 8);
      SerialExtend(0, buf, end + size, next + 2 * size, next + 2 * size + 8);
      crc0 := Serial(crc0, buf[next..next + 8]);
      crc1 := Serial(crc1, buf[next + size..next + size + 8]);
      crc2 := Serial(crc2, buf[next + 2 * size..next + 2 * size + 8]);
      next := next + 8;
    }
  }

  /** One block of `crc_aligned`: the streams are joined by the table. */
  method Block(size: nat, mat: Table, crc: bv32, buf: seq<bv8>, start: nat) returns (crc0: bv32)
    requires 0 < size && size % 8 == 0 && IsTable(mat, size) && start + 3 * size <= |buf|
    ensures crc0 == Serial(crc, buf[start..start + 3 * size])
  {
    hide Serial, Xor, ShiftTable;
    var a, b, c := start + size, start + 2 * size, start + 3 * size;
    var r, crc1, crc2 := Streams(size, crc, buf, start);
    Join(mat, size, r, buf[a..b]);
    crc0 := Xor(ShiftTable(mat, r), crc1);
    Join(mat, size, crc0, buf[b..c]);
    crc0 := Xor(ShiftTable(mat, crc0), crc2);
    SerialExtend(crc, buf, start, a, b);
    SerialExtend(crc, buf, start, b, c);
  }

  /** `crc_aligned<SIZE>`. */
  method CrcAligned(size: nat, mat: Table, crc: bv32, buf: seq<bv8>, start: nat, total: nat)
    returns (crc0: bv32, next: nat, len: nat)
    requires 0 < size && size % 8 == 0 && IsTable(mat, size) && start + total == |buf|
    ensures start <= next && next + len == |buf| && len < 3 * size
    ensures crc0 == Serial(crc, buf[start..next])
  {
    hide Serial, IsTable;
    crc0, next, len := crc, start, total;
    SerialEmpty(crc);
    assert buf[start..start] == [];
    while len >= size * 3
      invariant start <= next && next + len == |buf|
      invariant crc0 == Serial(crc, buf[start..next])
    {
      SerialExtend(crc, buf, start, next, next + 3 * size);
      crc0 := Block(size, mat, crc0, buf, next);
      next, len := next + 3 * size, len - 3 * size;
    }
  }

  /** `CRC32::checksum`: for every buffer, address, length and starting value, the result is
      the serial checksum, given tables that hold what their name says. */
  method Checksum(l: Table, s: Table, addr: nat, crc: bv32, buf: seq<bv8>) returns (res: bv32)
    requires IsTable(l, LONG) && IsTable(s, SHORT)
    ensures res == Crc(crc, buf)
  {
    hide Serial, Xor, IsTable;
    var init := Xor(crc, 0xffffffff);
    var crc0, next, len := CrcUnaligned(true, addr, init, buf, 0, |buf|);
    var p := next;
    crc0, next, len := CrcAligned(LONG, l, crc0, buf, next, len);
    SerialExtend(init, buf, 0, p, next);
    p := next;
    crc0, next, len := CrcAligned(SHORT, s, crc0, buf, next, len);
    SerialExtend(init, buf, 0, p, next);
    var end := next + (len - len % 8);
    while next < end
      invariant next <= end <= |buf| && (end - next) % 8 == 0
      invariant crc0 == Serial(init, buf[0..next])
    {
      SerialExtend(init, buf, 0, next, next + 8);
      crc0 := Serial(crc0, buf[next..next + 8]);
      next := next + 8;
    }
    len := len % 8;
    p := next;
    crc0, next, len := CrcUnaligned(false, addr, crc0, buf, next, len);
    SerialExtend(init, buf, 0, p, next);
    assert buf[0..next] == buf;
    res := Xor(crc0, 0xffffffff);
  }

  /** Checksumming a concatenation is chaining the checksums of its parts. */
  lemma CrcChains(crc: bv32, a: seq<bv8>, b: seq<bv8>)
    ensures Crc(crc, a + b) == Crc(Crc(crc, a), b)
  {
    hide Serial, Xor;
    SerialConcat(Xor(crc, 0xffffffff), a, b);
    XorTwice(Serial(Xor(crc, 0xffffffff), a), 0xffffffff);
  }
}
