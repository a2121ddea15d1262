/** CRC-32 of section 8.1.1.6.2 of ITU-T V.42, and the bitwise loop that computes it. */
module Crc32 {
  import opened Bytes
  import opened Gf2

  const POLY: uint32 := 0xEDB8_8320

  /** x^32+x^26+x^23+x^22+x^16+x^12+x^11+x^10+x^8+x^7+x^5+x^4+x^2+x+1. */
  predicate HasTerm(degree: int) {
    || degree == 32 || degree == 26 || degree == 23 || degree == 22 || degree == 16
    || degree == 12 || degree == 11 || degree == 10 || degree == 8 || degree == 7
    || degree == 5 || degree == 4 || degree == 2 || degree == 1 || degree == 0
  }

  function Generator(): (g: Poly)
    ensures |g| == 33 && g[0] && g[32]
  {
    seq(33, i => HasTerm(32 - i))
  }

  /** The reflected reading of a register: its low bit is the coefficient of x^31. */
  function Coefficients(c: uint32): (p: Poly)
    ensures |p| == 32 && forall i | 0 <= i < 32 :: p[i] == BitAt(c, i)
  {
    seq(32, i requires 0 <= i < 32 => BitAt(c, i))
  }

  function ByteBits(b: byte): (p: Poly)
    ensures |p| == 8 && forall i | 0 <= i < 8 :: p[i] == BitAt(b, i)
  {
    seq(8, i requires 0 <= i < 8 => BitAt(b, i))
  }

  /** The message polynomial: each octet low bit first, the first bit in the highest degree. */
  function MessageBits(data: seq<byte>): (p: Poly)
    ensures |p| == 8 * |data|
  {
    if data == [] then [] else MessageBits(data[..|data| - 1]) + ByteBits(data[|data| - 1])
  }

  /** crc is the complement of the reflected remainder of M(x)*x^32 + x^k*(x^31+...+1), for the k-bit message M. */
  ghost predicate IsCrc32(data: seq<byte>, crc: uint32) {
    exists q: Poly :: HasQuotient(data, crc, q)
  }

  ghost predicate HasQuotient(data: seq<byte>, crc: uint32, q: Poly) {
    IsDivision(Dividend(Ones(32), MessageBits(data)), Generator(), q, Coefficients(Not32(crc)))
  }

  // ---- words as polynomials ----

  lemma CoefficientsXor(a: uint32, b: uint32)
    ensures BitXor(a, b) < 0x1_0000_0000
    ensures Coefficients(BitXor(a, b)) == Xor(Coefficients(a), Coefficients(b))
  {
    Pow2Of32();
    BitXorBound(a, b, 32);
    forall i | 0 <= i < 32
      ensures BitAt(BitXor(a, b), i) == (BitAt(a, i) != BitAt(b, i))
    {
      BitXorBits(a, b, i);
    }
  }

  lemma CoefficientsDetermine(a: uint32, b: uint32)
    requires Coefficients(a) == Coefficients(b)
    ensures a == b
  {
    Pow2Of32();
    assert forall i | 0 <= i < 32 :: BitAt(a, i) == Coefficients(a)[i] == BitAt(b, i);
    BitsDetermine(a, b, 32);
  }

  lemma OnesWord()
    ensures Coefficients(0xFFFF_FFFF) == Ones(32)
  {
    Pow2Of32();
    forall i | 0 <= i < 32
      ensures BitAt(0xFFFF_FFFF, i)
    {
      AllOnes(32, i);
    }
  }

  lemma GeneratorWord()
    ensures Generator() == [true] + Coefficients(POLY)
  {
    forall i: nat | i < 32
      ensures BitAt(POLY, i) == HasTerm(31 - i)
    {
      if i < 8 {
        GeneratorOctet0(i);
      } else if i < 16 {
        EightBitsUp(POLY, i - 8);
        GeneratorOctet1(i - 8);
      } else if i < 24 {
        EightBitsUp(POLY, i - 8);
        EightBitsUp(0xED_B883, i - 16);
        GeneratorOctet2(i - 16);
      } else {
        EightBitsUp(POLY, i - 8);
        EightBitsUp(0xED_B883, i - 16);
        EightBitsUp(0xEDB8, i - 24);
        GeneratorOctet3(i - 24);
      }
    }
  }

  lemma GeneratorOctet0(i: nat)
    requires i < 8
    ensures BitAt(POLY, i) == HasTerm(31 - i)
  {
    LowEightBits(POLY);
  }

  lemma GeneratorOctet1(i: nat)
    requires i < 8
    ensures BitAt(0xED_B883, i) == HasTerm(23 - i)
  {
    LowEightBits(0xED_B883);
  }

  lemma GeneratorOctet2(i: nat)
    requires i < 8
    ensures BitAt(0xEDB8, i) == HasTerm(15 - i)
  {
    LowEightBits(0xEDB8);
  }

  lemma GeneratorOctet3(i: nat)
    requires i < 8
    ensures BitAt(0xED, i) == HasTerm(7 - i)
  {
    LowEightBits(0xED);
  }

  // ---- the register of the loop ----

  /** One iteration of the inner loop: shift right, and subtract the generator if a one fell out. */
  function Step(c: uint32): (c': uint32)
    ensures c' == (if c % 2 == 1 then BitXor(c / 2, POLY) else c / 2)
  {
    Pow2Of32();
    BitXorBound(c / 2, POLY, 32);
    if c % 2 == 1 then BitXor(c / 2, POLY) else c / 2
  }

  lemma StepShifts(c: uint32)
    ensures Coefficients(Step(c)) == Shift(Coefficients(c), Generator(), false)
  {
    GeneratorWord();
    Pow2Of32();
    HighBits(c / 2, 31);
    var half := Coefficients(c / 2);
    assert half == Coefficients(c)[1..] + [false] by {
      forall i | 0 <= i < 31
        ensures half[i] == Coefficients(c)[i + 1]
      {
        BitAtNext(c, i);
      }
    }
    CoefficientsXor(c / 2, POLY);
    assert Generator()[1..] == Coefficients(POLY);
    assert Coefficients(c)[0] == (c % 2 == 1);
  }

  lemma ByteWord(b: byte)
    ensures Coefficients(b) == ByteBits(b) + Zeros(24)
  {
    forall i | 8 <= i < 32
      ensures !BitAt(b, i)
    {
      HighBits8(b, i);
    }
  }

  lemma {:induction false} HighBits8(b: byte, i: nat)
    requires 8 <= i
    ensures !BitAt(b, i)
  {
    if i == 8 {
      Pow2Of32();
      HighBits(b, 8);
    } else {
      BitAtNext(b, i - 1);
      HighBits8(b / 2, i - 1);
    }
  }

  /** Bits waiting in the low end of the register enter one by one as it shifts. */
  lemma ShiftTakesWaitingBit(r: Poly, g: Poly, waiting: Poly)
    requires 0 < |waiting| <= |r| == |g| - 1
    ensures Shift(Xor(r, waiting + Zeros(|r| - |waiting|)), g, false)
         == Xor(Shift(r, g, waiting[0]), waiting[1..] + Zeros(|r| - |waiting| + 1))
  {}

  lemma RunSnoc(r: Poly, g: Poly, bits: Poly, j: nat)
    requires 0 < |r| == |g| - 1 && j < |bits|
    ensures Run(r, g, bits[..j + 1]) == Shift(Run(r, g, bits[..j]), g, bits[j])
  {
    assert bits[..j + 1][..j] == bits[..j];
  }

  /** The register after j shifts of an octet that was xored in whole. */
  lemma WaitingBitsStep(c: uint32, r: Poly, bits: Poly, j: nat)
    requires |r| == 32 && |bits| == 8 && j < 8
    requires Coefficients(c) == Xor(Run(r, Generator(), bits[..j]), bits[j..] + Zeros(24 + j))
    ensures Coefficients(Step(c)) == Xor(Run(r, Generator(), bits[..j + 1]), bits[j + 1..] + Zeros(25 + j))
  {
    StepShifts(c);
    RunSnoc(r, Generator(), bits, j);
    ShiftTakesWaitingBit(Run(r, Generator(), bits[..j]), Generator(), bits[j..]);
    assert bits[j..][1..] == bits[j + 1..];
  }

  lemma MessageBitsStep(data: seq<byte>, i: nat, r: Poly)
    requires i < |data| && |r| == 32
    ensures Run(r, Generator(), MessageBits(data[..i + 1]))
         == Run(Run(r, Generator(), MessageBits(data[..i])), Generator(), ByteBits(data[i]))
  {
    assert data[..i + 1][..i] == data[..i];
    RunConcat(r, Generator(), MessageBits(data[..i]), ByteBits(data[i]));
  }

  // ---- the code as a function of the message ----

  /** A register that holds the remainder is the complement of the code. */
  lemma RegisterIsCrc32(data: seq<byte>, crc: uint32)
    requires Coefficients(Not32(crc)) == Run(Ones(32), Generator(), MessageBits(data))
    ensures IsCrc32(data, crc)
  {
    RunDivides(Ones(32), Generator(), MessageBits(data));
    assert HasQuotient(data, crc, Quotient(Ones(32), Generator(), MessageBits(data)));
  }

  /** There is exactly one such code: the division determines it. */
  lemma Crc32IsUnique(data: seq<byte>, c: uint32, d: uint32)
    requires IsCrc32(data, c) && IsCrc32(data, d)
    ensures c == d
  {
    var p :| HasQuotient(data, c, p);
    var q :| HasQuotient(data, d, q);
    DivisionIsUnique(Dividend(Ones(32), MessageBits(data)), Generator(), p, Coefficients(Not32(c)), q,
      Coefficients(Not32(d)));
    CoefficientsDetermine(Not32(c), Not32(d));
  }

  lemma {:induction false} WordOfBits(p: Poly) returns (c: nat)
    ensures c < Pow2(|p|)
    ensures forall i: nat | i < |p| :: BitAt(c, i) == p[i]
  {
    if p == [] {
      c := 0;
    } else {
      var high := WordOfBits(p[1..]);
      c := 2 * high + if p[0] then 1 else 0;
      assert c / 2 == high && (c % 2 == 1) == p[0];
      forall i: nat | i < |p|
        ensures BitAt(c, i) == p[i]
      {
        if i > 0 { assert BitAt(high, i - 1) == p[1..][i - 1]; }
      }
    }
  }

  lemma Crc32Exists(data: seq<byte>) returns (crc: uint32)
    ensures IsCrc32(data, crc)
  {
    var r := Run(Ones(32), Generator(), MessageBits(data));
    var c := WordOfBits(r);
    Pow2Of32();
    crc := Not32(c);
    assert Coefficients(c) == r;
    RegisterIsCrc32(data, crc);
  }

  ghost function Crc32Of(data: seq<byte>): (crc: uint32)
    ensures IsCrc32(data, crc)
  {
    assert exists c: uint32 :: IsCrc32(data, c) by { var c := Crc32Exists(data); }
    var c: uint32 :| IsCrc32(data, c);
    c
  }

  lemma Crc32Register(data: seq<byte>)
    ensures Coefficients(Not32(Crc32Of(data))) == Run(Ones(32), Generator(), MessageBits(data))
  {
    var crc := Crc32Of(data);
    var q :| HasQuotient(data, crc, q);
    var bits := MessageBits(data);
    RunDivides(Ones(32), Generator(), bits);
    DivisionIsUnique(Dividend(Ones(32), bits), Generator(), q, Coefficients(Not32(crc)),
      Quotient(Ones(32), Generator(), bits), Run(Ones(32), Generator(), bits));
  }

  /** The loop: an octet is xored into the low end of the register, then shifted through it. */
  method ComputeCrc32(data: seq<byte>) returns (result: uint32)
    ensures IsCrc32(data, result)
    ensures result == Crc32Of(data)
  {
    var crc: uint32 := 0xFFFF_FFFF;
    OnesWord();
    var i := 0;
    while i < |data|
      invariant 0 <= i <= |data|
      invariant Coefficients(crc) == Run(Ones(32), Generator(), MessageBits(data[..i]))
    {
      ghost var r, bits := Coefficients(crc), ByteBits(data[i]);
      CoefficientsXor(crc, data[i]);
      ByteWord(data[i]);
      crc := BitXor(crc, data[i]);
      var j := 0;
      assert bits[0..] == bits;
      while j < 8
        invariant 0 <= j <= 8
        invariant Coefficients(crc) == Xor(Run(r, Generator(), bits[..j]), bits[j..] + Zeros(24 + j))
      {
        WaitingBitsStep(crc, r, bits, j);
        var mask := Negate32(BitAnd(crc, 1));
        MaskSelects(crc, mask);
        crc := BitXor(crc / 2, BitAnd(POLY, mask));
        j := j + 1;
      }
      assert Coefficients(crc) == Run(r, Generator(), bits) by {
        assert bits[..8] == bits;
      }
      MessageBitsStep(data, i, Ones(32));
      i := i + 1;
    }
    assert data[..|data|] == data;
    result := Not32(crc);
    RegisterIsCrc32(data, result);
    Crc32IsUnique(data, result, Crc32Of(data));
  }

  lemma MaskSelects(crc: uint32, mask: uint32)
    requires mask == Negate32(BitAnd(crc, 1))
    ensures BitXor(crc / 2, BitAnd(POLY, mask)) == Step(crc)
  {
    LowBitAnd(crc);
    Pow2Of32();
    if crc % 2 == 1 {
      BitAndOnes(POLY, 32);
    } else {
      BitAndZero(POLY);
      BitXorZero(crc / 2);
    }
  }

  // ---- what the code detects ----

  lemma {:induction false} MessageBitAt(data: seq<byte>, n: nat, i: nat)
    requires n < |data| && i < 8
    ensures MessageBits(data)[8 * n + i] == BitAt(data[n], i)
  {
    var last := |data| - 1;
    if n < last { MessageBitAt(data[..last], n, i); }
  }

  /** Two messages of one length that differ, but only inside 32 consecutive bits, have different codes. */
  lemma BurstDetected(a: seq<byte>, b: seq<byte>, start: nat)
    requires |a| == |b| && a != b
    requires forall k | 0 <= k < 8 * |a| && MessageBits(a)[k] != MessageBits(b)[k] :: start <= k < start + 32
    ensures Crc32Of(a) != Crc32Of(b)
  {
    MessageBitsDiffer(a, b);
    BurstChangesRemainder(Ones(32), Generator(), MessageBits(a), MessageBits(b), start);
    Crc32Register(a);
    Crc32Register(b);
  }

  lemma OctetsDiffer(x: byte, y: byte) returns (i: nat)
    requires x != y
    ensures i < 8 && BitAt(x, i) != BitAt(y, i)
  {
    Pow2Of32();
    i := 0;
    while BitAt(x, i) == BitAt(y, i)
      invariant i < 8
      invariant forall j: nat | j < i :: BitAt(x, j) == BitAt(y, j)
      decreases 8 - i
    {
      if i == 7 { BitsDetermine(x, y, 8); }
      i := i + 1;
    }
  }

  lemma MessageBitsDiffer(a: seq<byte>, b: seq<byte>)
    requires |a| == |b| && a != b
    ensures MessageBits(a) != MessageBits(b)
  {
    var n :| 0 <= n < |a| && a[n] != b[n];
    var i := OctetsDiffer(a[n], b[n]);
    MessageBitAt(a, n, i);
    MessageBitAt(b, n, i);
  }

  /** Two strings of one length that differ, but only inside four consecutive octets, have different codes. */
  lemma OctetBurstDetected(before: seq<byte>, x: seq<byte>, y: seq<byte>, after: seq<byte>)
    requires |x| == |y| <= 4 && x != y
    ensures Crc32Of(before + x + after) != Crc32Of(before + y + after)
  {
    var a, b := before + x + after, before + y + after;
    assert a[|before|..|before| + |x|] == x && b[|before|..|before| + |x|] == y;
    forall k | 0 <= k < 8 * |a| && MessageBits(a)[k] != MessageBits(b)[k]
      ensures 8 * |before| <= k < 8 * |before| + 32
    {
      MessageBitAt(a, k / 8, k % 8);
      MessageBitAt(b, k / 8, k % 8);
      assert a[k / 8] != b[k / 8];
    }
    BurstDetected(a, b, 8 * |before|);
  }

  function XorBytes(a: seq<byte>, b: seq<byte>): (c: seq<byte>)
    requires |a| == |b|
    ensures |c| == |a|
  {
    if a == [] then []
    else
      var n := |a| - 1;
      Pow2Of32();
      BitXorBound(a[n], b[n], 8);
      XorBytes(a[..n], b[..n]) + [BitXor(a[n], b[n])]
  }

  lemma {:induction false} MessageBitsXor(a: seq<byte>, b: seq<byte>)
    requires |a| == |b|
    ensures MessageBits(XorBytes(a, b)) == Xor(MessageBits(a), MessageBits(b))
  {
    if a != [] {
      var n := |a| - 1;
      MessageBitsXor(a[..n], b[..n]);
      var c := XorBytes(a, b);
      assert c[..n] == XorBytes(a[..n], b[..n]);
      forall i | 0 <= i < 8
        ensures ByteBits(c[n])[i] == (ByteBits(a[n])[i] != ByteBits(b[n])[i])
      {
        BitXorBits(a[n], b[n], i);
      }
      var high, low := Xor(MessageBits(a[..n]), MessageBits(b[..n])), ByteBits(c[n]);
      assert high + low == Xor(MessageBits(a), MessageBits(b));
    }
  }

  lemma Coefficients32Not(c: uint32)
    ensures Coefficients(Not32(c)) == Xor(Coefficients(c), Ones(32))
  {
    Pow2Of32();
    forall i | 0 <= i < 32
      ensures BitAt(Not32(c), i) == !BitAt(c, i)
    {
      ComplementBits(c, 32, i);
    }
  }

  /** The code is affine: over three messages of one length it commutes with exclusive or. */
  lemma Crc32IsAffine(a: seq<byte>, b: seq<byte>, c: seq<byte>)
    requires |a| == |b| == |c|
    ensures Crc32Of(XorBytes(XorBytes(a, b), c)) == BitXor(BitXor(Crc32Of(a), Crc32Of(b)), Crc32Of(c))
  {
    var d := XorBytes(XorBytes(a, b), c);
    MessageBitsXor(a, b);
    MessageBitsXor(XorBytes(a, b), c);
    var ones, g := Ones(32), Generator();
    RunIsLinear(ones, ones, g, MessageBits(a), MessageBits(b));
    RunIsLinear(Xor(ones, ones), ones, g, Xor(MessageBits(a), MessageBits(b)), MessageBits(c));
    assert Xor(Xor(ones, ones), ones) == ones;
    Crc32Register(a);
    Crc32Register(b);
    Crc32Register(c);
    Crc32Register(d);
    var A, B, C, D := Crc32Of(a), Crc32Of(b), Crc32Of(c), Crc32Of(d);
    CoefficientsXor(A, B);
    CoefficientsXor(BitXor(A, B), C);
    Coefficients32Not(A);
    Coefficients32Not(B);
    Coefficients32Not(C);
    Coefficients32Not(D);
    ComplementsCancel(Coefficients(A), Coefficients(B), Coefficients(C), Coefficients(D));
    CoefficientsDetermine(D, BitXor(BitXor(A, B), C));
  }

  lemma ComplementsCancel(a: Poly, b: Poly, c: Poly, d: Poly)
    requires |a| == |b| == |c| == |d| == 32
    requires Xor(d, Ones(32)) == Xor(Xor(Xor(a, Ones(32)), Xor(b, Ones(32))), Xor(c, Ones(32)))
    ensures d == Xor(Xor(a, b), c)
  {
    forall i | 0 <= i < 32
      ensures d[i] == Xor(Xor(a, b), c)[i]
    {
      assert Xor(d, Ones(32))[i] == !d[i];
      assert Xor(Xor(Xor(a, Ones(32)), Xor(b, Ones(32))), Xor(c, Ones(32)))[i] == ((!a[i] != !b[i]) != !c[i]);
    }
  }
}
