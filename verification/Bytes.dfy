/** Octets, machine words, and the growing byte vector that the encoders append to. */
module Bytes {
  type byte = x: int | 0 <= x < 0x100
  type uint16 = x: int | 0 <= x < 0x1_0000
  type uint32 = x: int | 0 <= x < 0x1_0000_0000

  datatype Option<+T> = None | Some(value: T)

  // ---- bitwise operators on unsigned words ----

  /** a ^ b, digit by digit. */
  function BitXor(a: nat, b: nat): (c: nat) {
    if a == 0 && b == 0 then 0
    else 2 * BitXor(a / 2, b / 2) + (a + b) % 2
  }

  /** a & b, digit by digit. */
  function BitAnd(a: nat, b: nat): (c: nat)
    ensures c <= a && c <= b
  {
    if a == 0 || b == 0 then 0
    else 2 * BitAnd(a / 2, b / 2) + a % 2 * (b % 2)
  }

  /** ~a on 32 bits. */
  function Not32(a: uint32): uint32 {
    0xFFFF_FFFF - a
  }

  /** -a modulo 2^32. */
  function Negate32(a: uint32): uint32 {
    if a == 0 then 0 else 0x1_0000_0000 - a
  }

  function Pow2(n: nat): (p: nat)
    ensures p > 0
  {
    if n == 0 then 1 else 2 * Pow2(n - 1)
  }

  predicate BitAt(a: nat, i: nat) {
    if i == 0 then a % 2 == 1 else BitAt(a / 2, i - 1)
  }

  lemma BitXorHalves(a: nat, b: nat)
    ensures BitXor(a, b) % 2 == (a + b) % 2 && BitXor(a, b) / 2 == BitXor(a / 2, b / 2)
  {
    if a > 0 || b > 0 {
      var high, low := BitXor(a / 2, b / 2), (a + b) % 2;
      assert (2 * high + low) / 2 == high && (2 * high + low) % 2 == low;
    }
  }

  lemma ParityOfSum(a: nat, b: nat)
    ensures ((a + b) % 2 == 1) == ((a % 2 == 1) != (b % 2 == 1))
  {}

  lemma {:induction false} BitXorBits(a: nat, b: nat, i: nat)
    ensures BitAt(BitXor(a, b), i) == (BitAt(a, i) != BitAt(b, i))
  {
    if i == 0 {
      BitXorHalves(a, b);
      ParityOfSum(a, b);
    } else {
      var c := BitXor(a, b);
      assert c / 2 == BitXor(a / 2, b / 2) by { BitXorHalves(a, b); }
      BitXorBits(a / 2, b / 2, i - 1);
    }
  }

  lemma {:induction false} ZeroBits(i: nat)
    ensures !BitAt(0, i)
  {
    if i > 0 { ZeroBits(i - 1); }
  }

  lemma {:induction false} BitXorBound(a: nat, b: nat, n: nat)
    requires a < Pow2(n) && b < Pow2(n)
    ensures BitXor(a, b) < Pow2(n)
  {
    if n > 0 { BitXorBound(a / 2, b / 2, n - 1); }
  }

  lemma {:induction false} HighBits(a: nat, n: nat)
    requires a < Pow2(n)
    ensures !BitAt(a, n)
  {
    if n > 0 { HighBits(a / 2, n - 1); }
  }

  lemma {:induction false} BitsDetermine(a: nat, b: nat, n: nat)
    requires a < Pow2(n) && b < Pow2(n)
    requires forall i | 0 <= i < n :: BitAt(a, i) == BitAt(b, i)
    ensures a == b
  {
    if n > 0 {
      assert BitAt(a, 0) == BitAt(b, 0);
      forall i: nat | i < n - 1
        ensures BitAt(a / 2, i) == BitAt(b / 2, i)
      {
        assert BitAt(a, i + 1) == BitAt(b, i + 1);
      }
      BitsDetermine(a / 2, b / 2, n - 1);
    }
  }

  lemma {:induction false} AllOnes(n: nat, i: nat)
    ensures BitAt(Pow2(n) - 1, i) == (i < n)
  {
    if n == 0 {
      ZeroBits(i);
    } else if i > 0 {
      assert (Pow2(n) - 1) / 2 == Pow2(n - 1) - 1;
      AllOnes(n - 1, i - 1);
    }
  }

  lemma {:induction false} ComplementBits(a: nat, n: nat, i: nat)
    requires a < Pow2(n) && i < n
    ensures BitAt(Pow2(n) - 1 - a, i) == !BitAt(a, i)
  {
    var p := Pow2(n - 1);
    var complement := 2 * p - 1 - a;
    assert complement / 2 == p - 1 - a / 2 && (complement % 2 == 1) == (a % 2 == 0);
    if i > 0 { ComplementBits(a / 2, n - 1, i - 1); }
  }

  lemma {:induction false} BitAndZero(a: nat)
    ensures BitAnd(a, 0) == 0
  {}

  lemma {:induction false} BitAndOnes(a: nat, n: nat)
    requires a < Pow2(n)
    ensures BitAnd(a, Pow2(n) - 1) == a
  {
    if n > 0 && a > 0 {
      var ones := Pow2(n) - 1;
      assert ones / 2 == Pow2(n - 1) - 1 && ones % 2 == 1;
      BitAndOnes(a / 2, n - 1);
      assert BitAnd(a, ones) == 2 * (a / 2) + a % 2;
    }
  }

  lemma LowBitAnd(a: nat)
    ensures BitAnd(a, 1) == a % 2
  {
    if a > 0 { assert BitAnd(a / 2, 0) == 0; }
  }

  lemma {:induction false} BitXorZero(a: nat)
    ensures BitXor(a, 0) == a
  {
    if a > 0 { BitXorZero(a / 2); }
  }

  lemma BitAtNext(a: nat, i: nat)
    ensures BitAt(a, i + 1) == BitAt(a / 2, i)
  {}

  lemma LowFourBits(a: nat)
    ensures BitAt(a, 0) == (a % 2 == 1) && BitAt(a, 1) == (a / 2 % 2 == 1)
    ensures BitAt(a, 2) == (a / 4 % 2 == 1) && BitAt(a, 3) == (a / 8 % 2 == 1)
  {
    BitAtNext(a, 0);
    BitAtNext(a, 1);
    BitAtNext(a, 2);
    BitAtNext(a / 2, 0);
    BitAtNext(a / 2, 1);
    BitAtNext(a / 2 / 2, 0);
    assert a / 2 / 2 == a / 4 && a / 2 / 2 / 2 == a / 8;
  }

  lemma LowEightBits(a: nat)
    ensures BitAt(a, 0) == (a % 2 == 1) && BitAt(a, 1) == (a / 2 % 2 == 1)
    ensures BitAt(a, 2) == (a / 4 % 2 == 1) && BitAt(a, 3) == (a / 8 % 2 == 1)
    ensures BitAt(a, 4) == (a / 16 % 2 == 1) && BitAt(a, 5) == (a / 16 / 2 % 2 == 1)
    ensures BitAt(a, 6) == (a / 16 / 4 % 2 == 1) && BitAt(a, 7) == (a / 16 / 8 % 2 == 1)
  {
    LowFourBits(a);
    LowFourBits(a / 16);
    FourBitsUp(a, 0);
    FourBitsUp(a, 1);
    FourBitsUp(a, 2);
    FourBitsUp(a, 3);
  }

  lemma FourBitsUp(a: nat, i: nat)
    ensures BitAt(a, i + 4) == BitAt(a / 16, i)
  {
    BitAtNext(a, i + 3);
    BitAtNext(a / 2, i + 2);
    BitAtNext(a / 2 / 2, i + 1);
    BitAtNext(a / 2 / 2 / 2, i);
    assert a / 2 / 2 / 2 / 2 == a / 16;
  }

  lemma EightBitsUp(a: nat, i: nat)
    ensures BitAt(a, i + 8) == BitAt(a / 256, i)
  {
    FourBitsUp(a, i + 4);
    FourBitsUp(a / 16, i);
    assert a / 16 / 16 == a / 256;
  }

  lemma Pow2Of32()
    ensures Pow2(32) == 0x1_0000_0000 && Pow2(8) == 0x100
  {
    assert Pow2(4) == 0x10;
    assert Pow2(8) == 0x100;
    assert Pow2(12) == 0x1000;
    assert Pow2(16) == 0x1_0000;
    assert Pow2(20) == 0x10_0000;
    assert Pow2(24) == 0x100_0000;
    assert Pow2(28) == 0x1000_0000;
  }

  // ---- big-endian words ----

  function U16BE(v: uint16): (b: seq<byte>)
    ensures |b| == 2
  {
    [v / 0x100, v % 0x100]
  }

  function ReadU16BE(hi: byte, lo: byte): uint16 {
    hi * 0x100 + lo
  }

  /** static_cast<uint16_t>: a length keeps its low sixteen bits only. */
  function Truncate16(n: nat): uint16 {
    n % 0x1_0000
  }

  lemma Truncate16Exact(n: nat)
    ensures Truncate16(n) <= n
    ensures Truncate16(n) == n <==> n <= 0xFFFF
  {}

  lemma U16ReadBack(v: uint16)
    ensures ReadU16BE(U16BE(v)[0], U16BE(v)[1]) == v
  {}

  lemma U16RoundTrip(hi: byte, lo: byte)
    ensures U16BE(ReadU16BE(hi, lo)) == [hi, lo]
  {}

  function U32BE(v: uint32): (b: seq<byte>)
    ensures |b| == 4
  {
    [v / 0x100_0000, v / 0x1_0000 % 0x100, v / 0x100 % 0x100, v % 0x100]
  }

  lemma U32Value(v: uint32)
    ensures var b: seq<int> := U32BE(v); v == 0x100_0000 * b[0] + 0x1_0000 * b[1] + 0x100 * b[2] + b[3]
  {
    assert v / 0x100_0000 == v / 0x100 / 0x100 / 0x100;
    assert v / 0x1_0000 == v / 0x100 / 0x100;
  }

  lemma U32IsInjective(v: uint32, w: uint32)
    requires U32BE(v) == U32BE(w)
    ensures v == w
  {
    U32Value(v);
    U32Value(w);
  }

  class ByteVector {
    var data: seq<byte>

    constructor ()
      ensures data == []
    {
      data := [];
    }

    method PushBack(b: byte)
      modifies this
      ensures data == old(data) + [b]
    {
      data := data + [b];
    }

    method Append(bytes: seq<byte>)
      modifies this
      ensures data == old(data) + bytes
    {
      data := data + bytes;
    }

    method WriteU16BE(v: uint16)
      modifies this
      ensures data == old(data) + U16BE(v)
    {
      PushBack(v / 0x100);
      PushBack(v % 0x100);
    }

    method WriteU32BE(v: uint32)
      modifies this
      ensures data == old(data) + U32BE(v)
    {
      PushBack(v / 0x100_0000);
      PushBack(v / 0x1_0000 % 0x100);
      PushBack(v / 0x100 % 0x100);
      PushBack(v % 0x100);
    }
  }
}
