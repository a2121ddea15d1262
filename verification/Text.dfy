/** Strings: searching for a character, and decimal numerals as std::to_string writes them. */
module Text {
  /** The index of the first c, or the length when there is none. */
  function Find(s: string, c: char): (i: nat)
    ensures i <= |s| && c !in s[..i]
    ensures i < |s| ==> s[i] == c
    ensures c in s <==> i < |s|
  {
    FindFrom(s, c, 0)
  }

  function FindFrom(s: string, c: char, start: nat): (i: nat)
    requires start <= |s|
    ensures start <= i <= |s| && (i < |s| ==> s[i] == c)
    ensures forall k | start <= k < i :: s[k] != c
    decreases |s| - start
  {
    if start == |s| || s[start] == c then start else FindFrom(s, c, start + 1)
  }

  lemma FindIsFirst(s: string, c: char, i: nat)
    requires i <= |s| && c !in s[..i] && (i < |s| ==> s[i] == c)
    ensures Find(s, c) == i
  {
    var k := Find(s, c);
    if k < i {
      InPrefix(s, k, i);
    } else if i < k {
      InPrefix(s, i, k);
    }
  }

  lemma InPrefix(s: string, i: int, j: int)
    requires 0 <= i < j <= |s|
    ensures s[i] in s[..j]
  {
    assert s[..j][i] == s[i];
  }

  /** Cutting at the first separator. */
  lemma Cut(first: string, c: char, rest: string)
    requires c !in first
    ensures var s := first + [c] + rest;
      Find(s, c) == |first| && s[..|first|] == first && s[|first| + 1..] == rest
  {
    var s := first + [c] + rest;
    assert s[..|first|] == first;
    FindIsFirst(s, c, |first|);
  }

  function Digit(d: nat): (c: char)
    requires d < 10
    ensures '0' <= c <= '9'
  {
    "0123456789"[d]
  }

  function Numeral(n: nat): (s: string)
    ensures |s| > 0
    ensures forall i | 0 <= i < |s| :: '0' <= s[i] <= '9'
  {
    if n < 10 then [Digit(n)] else Numeral(n / 10) + [Digit(n % 10)]
  }

  function ToString(n: int): (s: string)
    ensures |s| > 0
    ensures forall i | 0 <= i < |s| :: '0' <= s[i] <= '9' || s[i] == '-'
  {
    if n < 0 then "-" + Numeral(-n) else Numeral(n)
  }

  lemma NumeralEnds(n: nat)
    ensures var s := Numeral(n);
      && s[|s| - 1] == Digit(n % 10)
      && (|s| == 1 <==> n < 10)
      && (n >= 10 ==> s[..|s| - 1] == Numeral(n / 10))
  {}

  lemma DigitIsInjective(d: nat, e: nat)
    requires d < 10 && e < 10 && Digit(d) == Digit(e)
    ensures d == e
  {}

  lemma {:induction false} NumeralIsInjective(m: nat, n: nat)
    requires Numeral(m) == Numeral(n)
    ensures m == n
  {
    NumeralEnds(m);
    NumeralEnds(n);
    DigitIsInjective(m % 10, n % 10);
    if m >= 10 { NumeralIsInjective(m / 10, n / 10); }
  }

  /** Different numbers have different decimal forms. */
  lemma ToStringIsInjective(m: int, n: int)
    requires ToString(m) == ToString(n)
    ensures m == n
  {
    if m < 0 && n < 0 {
      AfterSign(Numeral(-m));
      AfterSign(Numeral(-n));
      NumeralIsInjective(-m, -n);
    } else if m >= 0 && n >= 0 {
      NumeralIsInjective(m, n);
    } else {
      SignsDiffer(if m < 0 then m else n, if m < 0 then n else m);
    }
  }

  lemma AfterSign(s: string)
    ensures ("-" + s)[1..] == s
  {}

  lemma SignsDiffer(m: int, n: int)
    requires m < 0 <= n
    ensures ToString(m)[0] != ToString(n)[0]
  {
    assert '0' <= Numeral(n)[0];
  }

  /** The number a decimal numeral stands for. */
  function Value(s: string): int {
    if s == "" then 0 else 10 * Value(s[..|s| - 1]) + (s[|s| - 1] as int - '0' as int)
  }

  lemma {:induction false} NumeralValue(n: nat)
    ensures Value(Numeral(n)) == n
  {
    NumeralEnds(n);
    var s := Numeral(n);
    assert Digit(n % 10) as int - '0' as int == n % 10;
    if n >= 10 {
      NumeralValue(n / 10);
    } else {
      assert s[..|s| - 1] == "";
    }
  }

  /** The text of a number is its numeral, after a minus sign if it is negative. */
  lemma ToStringValue(n: int)
    ensures n >= 0 ==> Value(ToString(n)) == n
    ensures n < 0 ==> ToString(n)[0] == '-' && Value(ToString(n)[1..]) == -n
  {
    if n < 0 { NumeralValue(-n); AfterSign(Numeral(-n)); } else { NumeralValue(n); }
  }
}
