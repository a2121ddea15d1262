/** Polynomials over GF(2): carry-less arithmetic, division with remainder, and the
    shift register that computes a remainder one message bit at a time. */
module Gf2 {
  /** Coefficients, the highest degree first. */
  type Poly = seq<bool>

  function Zeros(n: nat): (p: Poly)
    ensures |p| == n && forall i | 0 <= i < n :: !p[i]
  {
    seq(n, i => false)
  }

  function Ones(n: nat): (p: Poly)
    ensures |p| == n && forall i | 0 <= i < n :: p[i]
  {
    seq(n, i => true)
  }

  function Xor(a: Poly, b: Poly): (p: Poly)
    requires |a| == |b|
    ensures |p| == |a| && forall i {:trigger p[i]} | 0 <= i < |a| :: p[i] == (a[i] != b[i])
  {
    seq(|a|, i requires 0 <= i < |a| => a[i] != b[i])
  }

  /** The carry-less product, by shift and add: one shifted copy of g per set coefficient of q. */
  function Mul(q: Poly, g: Poly): (p: Poly)
    requires |g| > 0
    ensures |p| == |q| + |g| - 1
  {
    if q == [] then Zeros(|g| - 1)
    else
      var n := |q| - 1;
      Xor(Mul(q[..n], g) + [false], Zeros(n) + (if q[n] then g else Zeros(|g|)))
  }

  /** dividend == q * g + r over GF(2), with deg r < deg g. */
  ghost predicate IsDivision(dividend: Poly, g: Poly, q: Poly, r: Poly) {
    && |g| > 0
    && |r| == |g| - 1
    && |dividend| == |q| + |r|
    && dividend == Xor(Mul(q, g), Zeros(|q|) + r)
  }

  /** The parity of the products q[i] * g[k - i] for i < n. */
  ghost function Convolution(q: Poly, g: Poly, k: int, n: nat): bool
    requires n <= |q|
  {
    if n == 0 then false
    else Convolution(q, g, k, n - 1) != (q[n - 1] && 0 <= k - (n - 1) < |g| && g[k - (n - 1)])
  }

  lemma {:induction false} ConvolutionOfPrefix(q: Poly, q': Poly, g: Poly, k: int, n: nat)
    requires n <= |q| && n <= |q'| && q[..n] == q'[..n]
    ensures Convolution(q, g, k, n) == Convolution(q', g, k, n)
  {
    if n > 0 {
      assert q[n - 1] == q[..n][n - 1] == q'[n - 1];
      assert q[..n - 1] == q[..n][..n - 1] == q'[..n - 1];
      ConvolutionOfPrefix(q, q', g, k, n - 1);
    }
  }

  lemma {:induction false} ConvolutionPastEnd(q: Poly, g: Poly, k: int, n: nat)
    requires n <= |q| && n - 1 + |g| <= k
    ensures !Convolution(q, g, k, n)
  {
    if n > 0 { ConvolutionPastEnd(q, g, k, n - 1); }
  }

  /** Shift-and-add computes the convolution of the coefficients. */
  lemma {:induction false} MulIsConvolution(q: Poly, g: Poly, k: nat)
    requires |g| > 0 && k < |q| + |g| - 1
    ensures Mul(q, g)[k] == Convolution(q, g, k, |q|)
  {
    if q != [] {
      var n := |q| - 1;
      ConvolutionOfPrefix(q, q[..n], g, k, n);
      if k < n + |g| - 1 {
        MulIsConvolution(q[..n], g, k);
      } else {
        ConvolutionPastEnd(q[..n], g, k, n);
      }
    }
  }

  lemma {:induction false} MulDistributes(p: Poly, q: Poly, g: Poly)
    requires |p| == |q| && |g| > 0
    ensures Mul(Xor(p, q), g) == Xor(Mul(p, g), Mul(q, g))
  {
    if p != [] {
      var n := |p| - 1;
      MulDistributes(p[..n], q[..n], g);
      assert Xor(p, q)[..n] == Xor(p[..n], q[..n]);
      TermsDistribute(Mul(p[..n], g), Mul(q[..n], g), n, g, p[n], q[n]);
    }
  }

  lemma TermsDistribute(a: Poly, b: Poly, n: nat, g: Poly, x: bool, y: bool)
    requires |g| > 0 && |a| == |b| == n + |g| - 1
    ensures
      var zero := Zeros(|g|);
      Xor(Xor(a, b) + [false], Zeros(n) + (if x != y then g else zero))
      == Xor(Xor(a + [false], Zeros(n) + (if x then g else zero)), Xor(b + [false], Zeros(n) + (if y then g else zero)))
  {}

  /** A product by a monic g keeps the leading coefficient of q in its place. */
  lemma {:induction false} MulLeading(q: Poly, g: Poly, i: nat)
    requires |g| > 0 && g[0] && i < |q| && q[i]
    requires forall j | 0 <= j < i :: !q[j]
    ensures Mul(q, g)[i]
  {
    var n := |q| - 1;
    if i < n {
      MulLeading(q[..n], g, i);
    } else {
      MulOfZeros(q[..n], g);
    }
  }

  lemma {:induction false} MulOfZeros(q: Poly, g: Poly)
    requires |g| > 0 && forall j | 0 <= j < |q| :: !q[j]
    ensures Mul(q, g) == Zeros(|q| + |g| - 1)
  {
    if q != [] { MulOfZeros(q[..|q| - 1], g); }
  }

  /** Division by a monic polynomial has one quotient and one remainder. */
  lemma DivisionIsUnique(dividend: Poly, g: Poly, q: Poly, r: Poly, q': Poly, r': Poly)
    requires IsDivision(dividend, g, q, r) && IsDivision(dividend, g, q', r')
    requires g[0]
    ensures q == q' && r == r'
  {
    QuotientIsUnique(dividend, g, q, r, q', r');
    XorCancels(Mul(q, g), |q|, r, r');
  }

  lemma XorCancels(product: Poly, n: nat, r: Poly, r': Poly)
    requires |r| == |r'| && |product| == n + |r|
    requires Xor(product, Zeros(n) + r) == Xor(product, Zeros(n) + r')
    ensures r == r'
  {
    forall k | 0 <= k < |r|
      ensures r[k] == r'[k]
    {
      assert Xor(product, Zeros(n) + r)[n + k] == (product[n + k] != r[k]);
      assert Xor(product, Zeros(n) + r')[n + k] == (product[n + k] != r'[k]);
    }
  }

  lemma QuotientIsUnique(dividend: Poly, g: Poly, q: Poly, r: Poly, q': Poly, r': Poly)
    requires IsDivision(dividend, g, q, r) && IsDivision(dividend, g, q', r')
    requires g[0]
    ensures q == q'
  {
    var d := Xor(q, q');
    if i :| 0 <= i < |q| && d[i] {
      var first := FirstSet(d, i);
      assert dividend[first] == Mul(q, g)[first] == Mul(q', g)[first];
      MulLeading(d, g, first);
      MulDistributes(q, q', g);
      assert false;
    }
    forall k | 0 <= k < |q|
      ensures q[k] == q'[k]
    {
      assert !d[k];
    }
  }

  lemma FirstSet(d: Poly, i: nat) returns (first: nat)
    requires i < |d| && d[i]
    ensures first <= i && d[first] && forall j | 0 <= j < first :: !d[j]
  {
    first := 0;
    while !d[first]
      invariant first <= i && forall j | 0 <= j < first :: !d[j]
      decreases i - first
    {
      first := first + 1;
    }
  }

  /** One clock of the shift register: r*x + bit*x^deg(g), reduced by g. */
  function Shift(r: Poly, g: Poly, bit: bool): (r': Poly)
    requires 0 < |r| == |g| - 1
    ensures |r'| == |r|
  {
    var shifted := r[1..] + [false];
    if r[0] != bit then Xor(shifted, g[1..]) else shifted
  }

  /** The register after all of bits, the highest-degree bit first. */
  function Run(r: Poly, g: Poly, bits: Poly): (r': Poly)
    requires 0 < |r| == |g| - 1
    ensures |r'| == |r|
  {
    if bits == [] then r
    else Shift(Run(r, g, bits[..|bits| - 1]), g, bits[|bits| - 1])
  }

  /** The quotient that the register shifts out along the way. */
  ghost function Quotient(r: Poly, g: Poly, bits: Poly): (q: Poly)
    requires 0 < |r| == |g| - 1
    ensures |q| == |bits|
  {
    if bits == [] then []
    else
      var n := |bits| - 1;
      Quotient(r, g, bits[..n]) + [Run(r, g, bits[..n])[0] != bits[n]]
  }

  /** What a register started at r divides: bits * x^deg(g) plus r * x^|bits|. */
  ghost function Dividend(r: Poly, bits: Poly): Poly {
    Xor(bits + Zeros(|r|), r + Zeros(|bits|))
  }

  /** The register holds the remainder of the division by a monic g. */
  lemma {:induction false} RunDivides(r: Poly, g: Poly, bits: Poly)
    requires 0 < |r| == |g| - 1 && g[0]
    ensures IsDivision(Dividend(r, bits), g, Quotient(r, g, bits), Run(r, g, bits))
  {
    if bits == [] {
      RunDividesBase(r, g);
    } else {
      RunDivides(r, g, bits[..|bits| - 1]);
      RunDividesStep(r, g, bits);
    }
  }

  lemma RunDividesBase(r: Poly, g: Poly)
    requires 0 < |r| == |g| - 1
    ensures IsDivision(Dividend(r, []), g, Quotient(r, g, []), Run(r, g, []))
  {
    assert Dividend(r, []) == r;
    assert Xor(Mul([], g), Zeros(0) + r) == r;
  }

  lemma RunDividesStep(r: Poly, g: Poly, bits: Poly)
    requires 0 < |r| == |g| - 1 && g[0] && bits != []
    requires var p := bits[..|bits| - 1]; IsDivision(Dividend(r, p), g, Quotient(r, g, p), Run(r, g, p))
    ensures IsDivision(Dividend(r, bits), g, Quotient(r, g, bits), Run(r, g, bits))
  {
    var n := |bits| - 1;
    var prefix, bit := bits[..n], bits[n];
    DivisionStep(Dividend(r, prefix), g, Quotient(r, g, prefix), Run(r, g, prefix), bit);
    DividendStep(r, bits);
  }

  lemma DividendStep(r: Poly, bits: Poly)
    requires bits != []
    ensures
      var n := |bits| - 1;
      Dividend(r, bits) == Xor(Dividend(r, bits[..n]) + [false], Zeros(n) + [bits[n]] + Zeros(|r|))
  {
    assert bits == bits[..|bits| - 1] + [bits[|bits| - 1]];
  }

  lemma MulSnoc(q: Poly, bit: bool, g: Poly)
    requires |g| > 0
    ensures Mul(q + [bit], g) == Xor(Mul(q, g) + [false], Zeros(|q|) + (if bit then g else Zeros(|g|)))
  {
    assert (q + [bit])[..|q|] == q;
  }

  /** Appending one message bit multiplies by x: one more step of long division. */
  lemma DivisionStep(d: Poly, g: Poly, q: Poly, r: Poly, bit: bool)
    requires IsDivision(d, g, q, r) && |r| > 0 && g[0]
    ensures IsDivision(Xor(d + [false], Zeros(|q|) + [bit] + Zeros(|r|)), g, q + [r[0] != bit], Shift(r, g, bit))
  {
    MulSnoc(q, r[0] != bit, g);
    ReduceOneDegree(d, g, Mul(q, g), |q|, r, bit);
  }

  /** The step of long division on its own: subtract g where the leading coefficient is set. */
  lemma ReduceOneDegree(d: Poly, g: Poly, product: Poly, n: nat, r: Poly, bit: bool)
    requires 0 < |r| == |g| - 1 && g[0]
    requires |product| == n + |r| && d == Xor(product, Zeros(n) + r)
    ensures
      var term := if r[0] != bit then g else Zeros(|g|);
      Xor(d + [false], Zeros(n) + [bit] + Zeros(|r|))
      == Xor(Xor(product + [false], Zeros(n) + term), Zeros(n + 1) + Shift(r, g, bit))
  {
    var term := if r[0] != bit then g else Zeros(|g|);
    var left := Xor(d + [false], Zeros(n) + [bit] + Zeros(|r|));
    var right := Xor(Xor(product + [false], Zeros(n) + term), Zeros(n + 1) + Shift(r, g, bit));
    forall i | 0 <= i < |left|
      ensures left[i] == right[i]
    {
      if i > n {
        assert (Zeros(n + 1) + Shift(r, g, bit))[i] == Shift(r, g, bit)[i - n - 1];
        assert (Zeros(n) + term)[i] == term[i - n];
        if i < |d| { assert d[i] == (product[i] != r[i - n]); }
      }
    }
  }

  lemma {:induction false} RunConcat(r: Poly, g: Poly, a: Poly, b: Poly)
    requires 0 < |r| == |g| - 1
    ensures Run(r, g, a + b) == Run(Run(r, g, a), g, b)
  {
    if b == [] {
      assert a + b == a;
    } else {
      var n := |b| - 1;
      assert (a + b)[..|a + b| - 1] == a + b[..n];
      RunConcat(r, g, a, b[..n]);
    }
  }

  lemma ShiftIsLinear(r: Poly, s: Poly, g: Poly, x: bool, y: bool)
    requires 0 < |r| == |s| == |g| - 1
    ensures Shift(Xor(r, s), g, x != y) == Xor(Shift(r, g, x), Shift(s, g, y))
  {}

  /** The register is linear in its start and its input together. */
  lemma {:induction false} RunIsLinear(r: Poly, s: Poly, g: Poly, a: Poly, b: Poly)
    requires 0 < |r| == |s| == |g| - 1 && |a| == |b|
    ensures Run(Xor(r, s), g, Xor(a, b)) == Xor(Run(r, g, a), Run(s, g, b))
  {
    if a != [] {
      var n := |a| - 1;
      RunIsLinear(r, s, g, a[..n], b[..n]);
      assert Xor(a, b)[..n] == Xor(a[..n], b[..n]);
      ShiftIsLinear(Run(r, g, a[..n]), Run(s, g, b[..n]), g, a[n], b[n]);
    }
  }

  /** With a nonzero constant term one clock loses nothing: equal results had registers that differ
      exactly where the incoming bits do, namely in the leading coefficient. */
  lemma ShiftIsInjective(r: Poly, s: Poly, g: Poly, x: bool, y: bool)
    requires 0 < |r| == |s| == |g| - 1 && g[|g| - 1]
    requires Shift(r, g, x) == Shift(s, g, y)
    ensures (r[0] != x) == (s[0] != y)
    ensures r[1..] == s[1..]
  {
    var n := |r|;
    var r', s' := Shift(r, g, x), Shift(s, g, y);
    assert r'[n - 1] == (r[0] != x) && s'[n - 1] == (s[0] != y);
    forall i | 1 <= i < n
      ensures r[i] == s[i]
    {
      assert r'[i - 1] == s'[i - 1];
    }
  }

  /** The same input leads different registers to different registers. */
  lemma {:induction false} RunIsInjective(r: Poly, s: Poly, g: Poly, bits: Poly)
    requires 0 < |r| == |s| == |g| - 1 && g[|g| - 1]
    requires Run(r, g, bits) == Run(s, g, bits)
    ensures r == s
  {
    if bits != [] {
      var n := |bits| - 1;
      var r', s' := Run(r, g, bits[..n]), Run(s, g, bits[..n]);
      ShiftIsInjective(r', s', g, bits[n], bits[n]);
      assert r' == [r'[0]] + r'[1..] && s' == [s'[0]] + s'[1..];
      RunIsInjective(r, s, g, bits[..n]);
    }
  }

  lemma {:induction false} RunFirst(r: Poly, g: Poly, bits: Poly)
    requires 0 < |r| == |g| - 1 && bits != []
    ensures Run(r, g, bits) == Run(Shift(r, g, bits[0]), g, bits[1..])
  {
    var n := |bits| - 1;
    if n > 0 {
      RunFirst(r, g, bits[..n]);
      assert bits[..n][1..] == bits[1..][..n - 1];
    } else {
      assert bits[..0] == [] && bits[1..] == [];
    }
  }

  /** r and s differ in their leading coefficients exactly where x and y do, and nowhere else. */
  ghost predicate DifferAs(r: Poly, s: Poly, x: Poly, y: Poly)
    requires |x| == |y| <= |r| == |s|
  {
    forall i | 0 <= i < |r| :: (r[i] != s[i]) == (i < |x| && x[i] != y[i])
  }

  /** Equal results after at most deg(g) bits: the registers differed exactly where the bits do. */
  lemma {:induction false} DifferencesMatch(r: Poly, s: Poly, g: Poly, x: Poly, y: Poly)
    requires 0 < |r| == |s| == |g| - 1 && g[|g| - 1]
    requires |x| == |y| <= |r| && Run(r, g, x) == Run(s, g, y)
    ensures DifferAs(r, s, x, y)
    decreases |x|
  {
    if x != [] {
      RunFirst(r, g, x);
      RunFirst(s, g, y);
      DifferencesMatch(Shift(r, g, x[0]), Shift(s, g, y[0]), g, x[1..], y[1..]);
      DifferencesShiftBack(r, s, g, x, y);
    }
  }

  lemma DifferencesShiftBack(r: Poly, s: Poly, g: Poly, x: Poly, y: Poly)
    requires 0 < |r| == |s| == |g| - 1 && g[|g| - 1]
    requires 0 < |x| == |y| <= |r|
    requires DifferAs(Shift(r, g, x[0]), Shift(s, g, y[0]), x[1..], y[1..])
    ensures DifferAs(r, s, x, y)
  {
    var r', s' := Shift(r, g, x[0]), Shift(s, g, y[0]);
    assert r'[|r| - 1] == s'[|r| - 1];
    forall i | 0 <= i < |r|
      ensures (r[i] != s[i]) == (i < |x| && x[i] != y[i])
    {
      if i > 0 {
        assert (r[i] != s[i]) == (r'[i - 1] != s'[i - 1]);
      }
    }
  }

  lemma WindowIsInjective(r: Poly, g: Poly, x: Poly, y: Poly, after: Poly)
    requires 0 < |r| == |g| - 1 && g[|g| - 1]
    requires |x| == |y| <= |r| && x != y
    ensures Run(Run(r, g, x), g, after) != Run(Run(r, g, y), g, after)
  {
    if Run(Run(r, g, x), g, after) == Run(Run(r, g, y), g, after) {
      RunIsInjective(Run(r, g, x), Run(r, g, y), g, after);
      DifferencesMatch(r, r, g, x, y);
      assert false;
    }
  }

  lemma RunConcat3(r: Poly, g: Poly, a: Poly, b: Poly, c: Poly)
    requires 0 < |r| == |g| - 1
    ensures Run(r, g, a + b + c) == Run(Run(Run(r, g, a), g, b), g, c)
  {
    RunConcat(r, g, a + b, c);
    RunConcat(r, g, a, b);
  }

  lemma SplitBurst(r: Poly, g: Poly, before: Poly, x: Poly, y: Poly, after: Poly)
    requires 0 < |r| == |g| - 1 && g[|g| - 1]
    requires |x| == |y| <= |r| && x != y
    ensures Run(r, g, before + x + after) != Run(r, g, before + y + after)
  {
    RunConcat3(r, g, before, x, after);
    RunConcat3(r, g, before, y, after);
    WindowIsInjective(Run(r, g, before), g, x, y, after);
  }

  lemma CommonEnds(a: Poly, b: Poly, start: nat, stop: nat)
    requires |a| == |b| && a != b && start <= stop <= |a|
    requires forall i | 0 <= i < |a| && a[i] != b[i] :: start <= i < stop
    ensures a == a[..start] + a[start..stop] + a[stop..]
    ensures b == a[..start] + b[start..stop] + a[stop..]
    ensures a[start..stop] != b[start..stop]
  {
    assert a[..start] == b[..start] && a[stop..] == b[stop..];
  }

  /** Two inputs that differ only inside a window of deg(g) bits leave different remainders. */
  lemma BurstChangesRemainder(r: Poly, g: Poly, a: Poly, b: Poly, start: nat)
    requires 0 < |r| == |g| - 1 && g[|g| - 1]
    requires |a| == |b| && a != b
    requires forall i | 0 <= i < |a| && a[i] != b[i] :: start <= i < start + |r|
    ensures Run(r, g, a) != Run(r, g, b)
  {
    var i :| 0 <= i < |a| && a[i] != b[i];
    var stop := if start + |r| <= |a| then start + |r| else |a|;
    CommonEnds(a, b, start, stop);
    SplitBurst(r, g, a[..start], a[start..stop], b[start..stop], a[stop..]);
  }
}
