/** What the checksum is: the remainder of the message in the division of polynomials over
    {0, 1} by the generator of CRC-32C (section 12.1 of RFC 3720). Polynomials are lists of
    coefficients, the highest one first. */
module CrcRemainder {
  import opened Basics
  import opened Crc32c

  // ---------------------------------------------------------------- division of polynomials

  type Poly = seq<bool>

  /** The powers in the generator 0x11EDC6F41. */
  const POWERS: set<int> := {32, 28, 27, 26, 25, 23, 22, 20, 19, 18, 14, 13, 11, 10, 9, 8, 6, 0}

  function Generator(): (g: Poly)
    ensures |g| == 33 && g[0]
  {
    seq(33, i requires 0 <= i < 33 => 32 - i in POWERS)
  }

  function Zero(n: nat): (p: Poly)
    ensures |p| == n
  {
    Fill(false, n)
  }

  /** Sum and difference. */
  function Plus(a: Poly, b: Poly): (p: Poly)
    requires |a| == |b|
    ensures |p| == |a|
  {
    seq(|a|, i requires 0 <= i < |a| => a[i] != b[i])
  }

  /** One row of a product in school form: `t`, and `g` on top of its highest places if `c`. */
  function Shifted(c: bool, g: Poly, t: Poly): (p: Poly)
    requires |g| == 33 && |t| >= 32
    ensures |p| == |t| + 1
  {
    if c then Plus(g + Zero(|t| - 32), [false] + t) else [false] + t
  }

  /** The product with the generator. */
  function Times(q: Poly): (p: Poly)
    ensures |p| == |q| + 32
  {
    if q == [] then Zero(32) else Shifted(q[0], Generator(), Times(q[1..]))
  }

  /** `p` is `q` times the generator plus a remainder of degree less than 32. */
  predicate Divides(p: Poly, q: Poly, r: Poly) {
    |r| == 32 && |p| == |q| + 32 && p == Plus(Times(q), Zero(|q|) + r)
  }

  /** Long division. */
  function Remainder(p: Poly): (r: Poly)
    requires |p| >= 32
    ensures |r| == 32
    decreases |p|
  {
    if |p| == 32 then p else Remainder(Next(p))
  }

  /** The leading term goes away, with the generator if it is not zero. */
  function Next(p: Poly): (r: Poly)
    requires |p| > 32
    ensures |r| == |p| - 1
  {
    (if p[0] then Plus(p[..33], Generator()) + p[33..] else p)[1..]
  }

  lemma NextAt(p: Poly, i: nat)
    requires |p| > 32 && i < |p| - 1
    ensures Next(p)[i] == (p[i + 1] != (p[0] && i < 32 && Generator()[i + 1]))
  {
    hide Generator;
  }

  lemma TimesAt(q: Poly, i: nat)
    requires q != [] && i < |q| + 32
    ensures Times(q)[i] == ((i > 0 && Times(q[1..])[i - 1]) != (q[0] && i < 33 && Generator()[i]))
  {
    hide *;
    TimesStep(q);
    ShiftedSum(q[0], Generator(), Times(q[1..]), i);
  }

  lemma ShiftedSum(c: bool, g: Poly, t: Poly, i: nat)
    requires |g| == 33 && |t| >= 32 && i <= |t|
    ensures Shifted(c, g, t)[i] == ((i > 0 && t[i - 1]) != (c && i < 33 && g[i]))
  {
    hide Zero, Plus;
    ZeroAt(|t| - 32);
    var high, low := g + Zero(|t| - 32), [false] + t;
    assert high[i] == (i < 33 && g[i]);
    PlusAt(high, low, i);
  }

  lemma PlusAt(a: Poly, b: Poly, i: nat)
    requires |a| == |b| && i < |a|
    ensures Plus(a, b)[i] == (a[i] != b[i])
  {
  }

  lemma ZeroAt(n: nat)
    ensures forall i | 0 <= i < n :: !Zero(n)[i]
  {
  }

  lemma TimesStep(q: Poly)
    requires q != []
    ensures Times(q) == Shifted(q[0], Generator(), Times(q[1..]))
  {
  }

  /** Long division does divide. */
  lemma {:induction false} RemainderDivides(p: Poly) returns (q: Poly)
    requires |p| >= 32
    ensures Divides(p, q, Remainder(p))
    decreases |p|
  {
    hide Generator, Times, Next;
    if |p| == 32 {
      q := [];
      TimesNothing();
      assert p == Plus(Zero(32), Zero(0) + p);
    } else {
      var rest := RemainderDivides(Next(p));
      q := [p[0]] + rest;
      var r := Remainder(p);
      assert q[1..] == rest;
      forall i | 0 <= i < |p|
        ensures p[i] == Plus(Times(q), Zero(|q|) + r)[i]
      {
        TimesAt(q, i);
        if i > 0 {
          NextAt(p, i - 1);
          assert Next(p)[i - 1] == (Times(rest)[i - 1] != (Zero(|rest|) + r)[i - 1]);
        }
      }
    }
  }

  lemma TimesNothing()
    ensures Times([]) == Zero(32)
  {
  }

  /** A polynomial has one remainder. */
  lemma {:induction false} RemainderIsUnique(p: Poly, q: Poly, r: Poly, q': Poly, r': Poly)
    requires Divides(p, q, r) && Divides(p, q', r')
    ensures q == q' && r == r'
    decreases |q|
  {
    hide Generator, Times;
    if q == [] {
      TimesNothing();
      assert forall i | 0 <= i < 32 :: p[i] == r[i] && p[i] == r'[i];
    } else {
      LeadingTerm(p, q, r);
      LeadingTerm(p, q', r');
      RemainderIsUnique(Next(p), q[1..], r, q'[1..], r');
      assert q == [q[0]] + q[1..] && q' == [q'[0]] + q'[1..];
    }
  }

  lemma LeadingTerm(p: Poly, q: Poly, r: Poly)
    requires Divides(p, q, r) && q != []
    ensures p[0] == q[0] && Divides(Next(p), q[1..], r)
  {
    hide Generator, Times, Next;
    TimesAt(q, 0);
    var sum := Plus(Times(q[1..]), Zero(|q| - 1) + r);
    forall i | 0 <= i < |p| - 1
      ensures Next(p)[i] == sum[i]
    {
      NextAt(p, i);
      TimesAt(q, i + 1);
    }
    assert Next(p) == sum;
  }

  // ---------------------------------------------------------------- registers

  /** The bits of a register, the lowest one first: in the reflected representation the lowest
      bit belongs to the highest power. */
  function Register(r: bv32, n: nat): (p: Poly)
    ensures |p| == n
    decreases n
  {
    if n == 0 then [] else [Odd(r)] + Register(Half(r), n - 1)
  }

  lemma {:induction false} RegisterXor(a: bv32, b: bv32, n: nat)
    ensures Register(Xor(a, b), n) == Plus(Register(a, n), Register(b, n))
    decreases n
  {
    hide Xor, Half, Odd;
    if n > 0 {
      OddXor(a, b);
      HalfXor(a, b);
      RegisterXor(Half(a), Half(b), n - 1);
    }
  }

  function Halves(r: bv32, n: nat): bv32
    decreases n
  {
    if n == 0 then r else Halves(Half(r), n - 1)
  }

  lemma {:induction false} RegisterEnd(r: bv32, n: nat)
    ensures Register(r, n + 1) == Register(r, n) + [Odd(Halves(r, n))]
    decreases n
  {
    hide Half, Odd;
    if n > 0 {
      RegisterEnd(Half(r), n - 1);
    }
  }

  function Down(r: bv32): bv32 {
    r >> 8
  }

  lemma EightHalves(r: bv32)
    ensures Half(Half(Half(Half(Half(Half(Half(Half(r)))))))) == Down(r)
  {
  }

  lemma {:induction false} HalvesOne(r: bv32, n: nat)
    requires n > 0
    ensures Halves(r, n) == Halves(Half(r), n - 1)
  {
  }

  lemma HalvesByEight(r: bv32, n: nat)
    requires n >= 8
    ensures Halves(r, n) == Halves(Down(r), n - 8)
  {
    hide Half, Halves, Down;
    EightHalves(r);
    HalvesOne(r, n);
    HalvesOne(Half(r), n - 1);
    HalvesOne(Half(Half(r)), n - 2);
    HalvesOne(Half(Half(Half(r))), n - 3);
    HalvesOne(Half(Half(Half(Half(r)))), n - 4);
    HalvesOne(Half(Half(Half(Half(Half(r))))), n - 5);
    HalvesOne(Half(Half(Half(Half(Half(Half(r)))))), n - 6);
    HalvesOne(Half(Half(Half(Half(Half(Half(Half(r))))))), n - 7);
  }

  lemma AllShiftedOut(r: bv32)
    ensures Down(Down(Down(Down(r)))) == 0
  {
  }

  lemma NoHalves(r: bv32)
    ensures Halves(r, 0) == r
  {
  }

  lemma NothingLeft(r: bv32)
    ensures Halves(r, 32) == 0
  {
    hide Halves, Down;
    NoHalves(0);
    HalvesByEight(r, 32);
    HalvesByEight(Down(r), 24);
    HalvesByEight(Down(Down(r)), 16);
    HalvesByEight(Down(Down(Down(r))), 8);
    AllShiftedOut(r);
  }

  /** Halving moves every bit to the next higher power. */
  lemma RegisterHalf(r: bv32)
    ensures Register(Half(r), 32) == Register(r, 32)[1..] + [false]
  {
    hide Half, Halves;
    RegisterEnd(r, 32);
    NothingLeft(r);
    assert Register(r, 33)[1..] == Register(Half(r), 32);
    assert Register(r, 32 + 1) == Register(r, 32) + [false];
  }

  /** The lowest eight bits of a register, the lowest one first. */
  function LowByte(r: bv32): Poly {
    [r & 1 != 0, r & 2 != 0, r & 4 != 0, r & 8 != 0, r & 16 != 0, r & 32 != 0, r & 64 != 0, r & 128 != 0]
  }

  lemma LowBits(r: bv32)
    ensures var r4 := Half(Half(Half(Half(r))));
      LowByte(r) == [Odd(r), Odd(Half(r)), Odd(Half(Half(r))), Odd(Half(Half(Half(r)))),
                     Odd(r4), Odd(Half(r4)), Odd(Half(Half(r4))), Odd(Half(Half(Half(r4))))]
  {
  }

  lemma RegisterTwo(r: bv32, n: nat)
    requires n >= 2
    ensures Register(r, n) == [Odd(r), Odd(Half(r))] + Register(Half(Half(r)), n - 2)
  {
    hide Half, Odd;
  }

  lemma RegisterFour(r: bv32, n: nat)
    requires n >= 4
    ensures Register(r, n) == [Odd(r), Odd(Half(r)), Odd(Half(Half(r))), Odd(Half(Half(Half(r))))] +
                              Register(Half(Half(Half(Half(r)))), n - 4)
  {
    hide Half, Odd, Register;
    RegisterTwo(r, n);
    RegisterTwo(Half(Half(r)), n - 2);
  }

  lemma RegisterByte(r: bv32, n: nat)
    requires n >= 8
    ensures Register(r, n) == LowByte(r) + Register(Down(r), n - 8)
  {
    hide Half, Odd, Register, LowByte, Down;
    RegisterFour(r, n);
    RegisterFour(Half(Half(Half(Half(r)))), n - 4);
    LowBits(r);
    EightHalves(r);
  }

  lemma RegisterBytes(r: bv32)
    ensures Register(r, 32) == LowByte(r) + LowByte(Down(r)) + LowByte(Down(Down(r))) + LowByte(Down(Down(Down(r))))
  {
    hide LowByte, Down, Register;
    RegisterByte(r, 32);
    RegisterByte(Down(r), 24);
    RegisterByte(Down(Down(r)), 16);
    RegisterByte(Down(Down(Down(r))), 8);
    assert Register(Down(Down(Down(Down(r)))), 0) == [];
  }

  /** The four bytes of the reflected constant. */
  lemma PolyBytes()
    ensures LowByte(POLY) == [false, false, false, true, true, true, true, false]
    ensures LowByte(Down(POLY)) == [true, true, false, true, true, true, false, false]
    ensures LowByte(Down(Down(POLY))) == [false, true, true, false, true, true, true, true]
    ensures LowByte(Down(Down(Down(POLY)))) == [false, true, false, false, false, false, false, true]
  {
  }

  /** The reflected constant is the generator without its highest term. */
  lemma PolyIsGenerator()
    ensures Register(POLY, 32) == Generator()[1..]
  {
    hide LowByte, Down, Register;
    RegisterBytes(POLY);
    PolyBytes();
  }

  // ---------------------------------------------------------------- the register divides

  /** The register over the highest places, and the bits followed by 32 zeros. */
  function Dividend(r: bv32, bits: seq<bool>): (p: Poly)
    ensures |p| == |bits| + 32
  {
    Plus(Register(r, 32) + Zero(|bits|), bits + Zero(32))
  }

  lemma ShiftAt(r: bv32, i: nat)
    requires i < 32
    ensures Register(Shift(r), 32)[i] == ((i < 31 && Register(r, 32)[i + 1]) != (Odd(r) && Generator()[i + 1]))
  {
    hide Half, Odd, Xor, Generator, Register;
    RegisterHalf(r);
    PolyIsGenerator();
    RegisterXor(Half(r), POLY, 32);
  }

  lemma LowestFirst(r: bv32)
    ensures Register(r, 32)[0] == Odd(r)
  {
  }

  lemma FlipLowest(r: bv32)
    ensures Half(Xor(r, 1)) == Half(r) && Odd(Xor(r, 1)) == !Odd(r)
  {
  }

  /** Only the lowest bit of the register meets the next bit of the message. */
  lemma StepAt(r: bv32, bit: bool, i: nat)
    requires i < 32
    ensures Register(BitStep(r, bit), 32)[i] ==
            ((i < 31 && Register(r, 32)[i + 1]) != ((Odd(r) != bit) && Generator()[i + 1]))
  {
    hide Shift, Generator, Half, Odd, Xor;
    if bit {
      ShiftAt(Xor(r, 1), i);
      FlipLowest(r);
      SameAbove(Xor(r, 1), r);
    } else {
      ShiftAt(r, i);
    }
  }

  lemma SameAbove(a: bv32, b: bv32)
    requires Half(a) == Half(b)
    ensures Register(a, 32)[1..] == Register(b, 32)[1..]
  {
    hide Half;
  }

  lemma DividendAt(r: bv32, bits: seq<bool>, i: nat)
    requires i < |bits| + 32
    ensures Dividend(r, bits)[i] == ((i < 32 && Register(r, 32)[i]) != (i < |bits| && bits[i]))
  {
    hide Register;
  }

  /** One step of the register is one row of the long division. */
  lemma StepDivides(r: bv32, bits: seq<bool>)
    requires bits != []
    ensures Next(Dividend(r, bits)) == Dividend(BitStep(r, bits[0]), bits[1..])
  {
    hide Register, Generator, Dividend, Next, BitStep, Odd;
    var p, p' := Dividend(r, bits), Dividend(BitStep(r, bits[0]), bits[1..]);
    DividendAt(r, bits, 0);
    LowestFirst(r);
    forall i | 0 <= i < |p'|
      ensures Next(p)[i] == p'[i]
    {
      NextAt(p, i);
      DividendAt(r, bits, i + 1);
      DividendAt(BitStep(r, bits[0]), bits[1..], i);
      if i < 32 {
        StepAt(r, bits[0], i);
      }
    }
    assert Next(p) == p';
  }

  /** Running the register over a message is long division. */
  lemma {:induction false} FoldDivides(r: bv32, bits: seq<bool>)
    ensures Register(BitFold(r, bits), 32) == Remainder(Dividend(r, bits))
    decreases |bits|
  {
    hide Register, Next, BitStep;
    if bits == [] {
      assert Dividend(r, bits) == Register(r, 32);
    } else {
      StepDivides(r, bits);
      FoldDivides(BitStep(r, bits[0]), bits[1..]);
    }
  }

  // ---------------------------------------------------------------- the checksum

  function Ones(n: nat): (p: Poly)
    ensures |p| == n
  {
    Fill(true, n)
  }

  lemma AllOnes()
    ensures Register(0xffffffff, 32) == Ones(32)
  {
    hide Register;
    RegisterBytes(0xffffffff);
  }

  /** The lowest bit of a byte is transmitted first. */
  lemma BitsOfByte(b: bv8)
    ensures b == Weighted(Bits(b))
  {
  }

  function Weighted(bits: seq<bool>): bv8
    requires |bits| == 8
  {
    (if bits[0] then 1 else 0) + (if bits[1] then 2 else 0) + (if bits[2] then 4 else 0) + (if bits[3] then 8 else 0) +
    (if bits[4] then 16 else 0) + (if bits[5] then 32 else 0) +
    (if bits[6] then 64 else 0) + (if bits[7] then 128 else 0)
  }

  /** The bits of byte `i` of a message. */
  lemma {:induction false} BitsOfMessage(m: seq<bv8>, i: nat)
    requires i < |m|
    ensures |MessageBits(m)| == 8 * |m| && m[i] == Weighted(MessageBits(m)[8 * i..8 * i + 8])
  {
    hide Bits, Weighted;
    BitsLength(m);
    if i == 0 {
      BitsOfByte(m[0]);
      assert MessageBits(m)[0..8] == Bits(m[0]);
    } else {
      BitsOfMessage(m[1..], i - 1);
      assert MessageBits(m)[8 * i..8 * i + 8] == MessageBits(m[1..])[8 * (i - 1)..8 * (i - 1) + 8];
    }
  }

  /** The checksum of a message: its bits followed by 32 zeros, with the first 32 bits
      inverted, are divided by the generator, and the remainder is inverted. The highest
      coefficient is the lowest bit of the result. */
  lemma ChecksumIsRemainder(m: seq<bv8>) returns (q: Poly, r: Poly)
    ensures Divides(Plus(MessageBits(m) + Zero(32), Ones(32) + Zero(|MessageBits(m)|)), q, r)
    ensures Register(Crc(0, m), 32) == Plus(r, Ones(32))
  {
    hide Register, Serial, Xor, Remainder, Times, MessageBits, BitFold;
    var bits := MessageBits(m);
    var p := Plus(bits + Zero(32), Ones(32) + Zero(|bits|));
    StartOnes();
    AllOnes();
    FoldDivides(0xffffffff, bits);
    assert p == Dividend(0xffffffff, bits);
    r := Remainder(p);
    q := RemainderDivides(p);
    SerialIsFold(0xffffffff, m);
    RegisterXor(Serial(0xffffffff, m), 0xffffffff, 32);
  }

  lemma StartOnes()
    ensures Xor(0, 0xffffffff) == 0xffffffff
  {
  }

  lemma SerialIsFold(r: bv32, m: seq<bv8>)
    ensures Serial(r, m) == BitFold(r, MessageBits(m))
  {
  }

  // ---------------------------------------------------------------- a test vector

  /** A register and the eight bits of a byte, one after the other. */
  function Eight(r: bv32, b: seq<bool>): bv32
    requires |b| == 8
  {
    var r4 := BitStep(BitStep(BitStep(BitStep(r, b[0]), b[1]), b[2]), b[3]);
    BitStep(BitStep(BitStep(BitStep(r4, b[4]), b[5]), b[6]), b[7])
  }

  lemma FoldTwo(r: bv32, bits: seq<bool>)
    requires |bits| >= 2
    ensures BitFold(r, bits) == BitFold(BitStep(BitStep(r, bits[0]), bits[1]), bits[2..])
  {
    hide BitStep;
    assert bits[1..][1..] == bits[2..];
  }

  lemma FoldEight(r: bv32, bits: seq<bool>)
    requires |bits| >= 8
    ensures BitFold(r, bits) == BitFold(Eight(r, bits[..8]), bits[8..])
  {
    hide BitStep, BitFold;
    FoldTwo(r, bits);
    var r2 := BitStep(BitStep(r, bits[0]), bits[1]);
    FoldTwo(r2, bits[2..]);
    assert bits[2..][2..] == bits[4..];
    var r4 := BitStep(BitStep(r2, bits[2]), bits[3]);
    FoldTwo(r4, bits[4..]);
    assert bits[4..][2..] == bits[6..];
    var r6 := BitStep(BitStep(r4, bits[4]), bits[5]);
    FoldTwo(r6, bits[6..]);
    assert bits[6..][2..] == bits[8..];
  }

  lemma SerialByte(r: bv32, b: bv8, m: seq<bv8>)
    ensures Serial(r, [b] + m) == Serial(Eight(r, Bits(b)), m)
  {
    hide BitFold, Bits, Eight;
    assert ([b] + m)[1..] == m;
    FoldEight(r, MessageBits([b] + m));
    assert MessageBits([b] + m)[..8] == Bits(b) && MessageBits([b] + m)[8..] == MessageBits(m);
  }

  function Chars(): seq<bv8> {
    [0x31, 0x32, 0x33, 0x34, 0x35, 0x36, 0x37, 0x38, 0x39]
  }

  /** The registers after each character. */
  lemma Rounds()
    ensures Eight(0xffffffff, Bits(0x31)) == 0x6f0a661c
    ensures Eight(0x6f0a661c, Bits(0x32)) == 0x8caa3b9f
    ensures Eight(0x8caa3b9f, Bits(0x33)) == 0xef84d04d
    ensures Eight(0xef84d04d, Bits(0x34)) == 0x09c50b11
    ensures Eight(0x09c50b11, Bits(0x35)) == 0xe72edcca
    ensures Eight(0xe72edcca, Bits(0x36)) == 0xbeca8e79
    ensures Eight(0xbeca8e79, Bits(0x37)) == 0xedbd6815
    ensures Eight(0xedbd6815, Bits(0x38)) == 0x9f787f65
    ensures Eight(0x9f787f65, Bits(0x39)) == 0x1cf96d7c
  {
  }

  /** The checksum of the nine characters 123456789. */
  lemma CheckValue()
    ensures Crc(0, Chars()) == 0xe3069283
  {
    hide Serial, Eight, Bits;
    Rounds();
    var t9: seq<bv8> := [];
    var t8 := [0x39] + t9;
    var t7 := [0x38] + t8;
    var t6 := [0x37] + t7;
    var t5 := [0x36] + t6;
    var t4 := [0x35] + t5;
    var t3 := [0x34] + t4;
    var t2 := [0x33] + t3;
    var t1 := [0x32] + t2;
    var t0 := [0x31] + t1;
    SerialByte(0xffffffff, 0x31, t1);
    SerialByte(0x6f0a661c, 0x32, t2);
    SerialByte(0x8caa3b9f, 0x33, t3);
    SerialByte(0xef84d04d, 0x34, t4);
    SerialByte(0x09c50b11, 0x35, t5);
    SerialByte(0xe72edcca, 0x36, t6);
    SerialByte(0xbeca8e79, 0x37, t7);
    SerialByte(0xedbd6815, 0x38, t8);
    SerialByte(0x9f787f65, 0x39, t9);
    SerialEmpty(0x1cf96d7c);
    assert t0 == Chars();
  }
}
