/**
 Decimal digit strings: the value PHP reads from a run of digits (leading
 zeros allowed) and the canonical rendering PHP gives a non-negative integer.
 */
module Decimal {

  predicate IsDigit(c: char) {
    '0' <= c <= '9'
  }

  predicate IsDigits(d: string) {
    forall k :: 0 <= k < |d| ==> IsDigit(d[k])
  }

  function DigitValue(c: char): (v: nat)
    requires IsDigit(c)
    ensures v < 10
  {
    c as int - '0' as int
  }

  function DigitChar(v: nat): (c: char)
    requires v < 10
    ensures IsDigit(c) && DigitValue(c) == v
  {
    ('0' as int + v) as char
  }

  /** The number a digit run denotes, read most significant digit first. */
  function Value(d: string): nat
    requires IsDigits(d)
    decreases |d|
  {
    if d == [] then 0 else Value(d[..|d| - 1]) * 10 + DigitValue(d[|d| - 1])
  }

  /** A digit run with no superfluous leading zero. */
  predicate IsCanonical(d: string) {
    IsDigits(d) && |d| >= 1 && (d[0] == '0' ==> |d| == 1)
  }

  /** The decimal rendering of `n`, as PHP converts an integer to a string. */
  function FromNat(n: nat): (d: string)
    ensures IsDigits(d) && |d| >= 1
    decreases n
  {
    if n < 10 then [DigitChar(n)] else FromNat(n / 10) + [DigitChar(n % 10)]
  }

  /** Reading back a rendered number gives the number. */
  lemma {:induction false} ValueOfFromNat(n: nat)
    ensures Value(FromNat(n)) == n
    decreases n
  {
    if n >= 10 {
      var d := FromNat(n);
      assert d[..|d| - 1] == FromNat(n / 10);
      ValueOfFromNat(n / 10);
    }
  }

  /** The rendering never has a superfluous leading zero. */
  lemma {:induction false} FromNatIsCanonical(n: nat)
    ensures IsCanonical(FromNat(n))
    decreases n
  {
    if n >= 10 {
      FromNatIsCanonical(n / 10);
      assert FromNat(n)[0] == FromNat(n / 10)[0];
    }
  }

  /** A canonical run whose first digit is not zero denotes a positive number. */
  lemma {:induction false} CanonicalValuePositive(d: string)
    requires IsCanonical(d) && d[0] != '0'
    ensures Value(d) >= 1
    decreases |d|
  {
    if |d| > 1 {
      var p := d[..|d| - 1];
      assert p[0] == d[0];
      CanonicalValuePositive(p);
    }
  }

  /** Rendering the value of a canonical run gives the run back. */
  lemma {:induction false} FromNatOfValue(d: string)
    requires IsCanonical(d)
    ensures FromNat(Value(d)) == d
    decreases |d|
  {
    if |d| > 1 {
      var p := d[..|d| - 1];
      assert p[0] == d[0];
      assert p[0] != '0';
      CanonicalValuePositive(p);
      FromNatOfValue(p);
      var n := Value(d);
      assert n / 10 == Value(p) && n % 10 == DigitValue(d[|d| - 1]);
      assert DigitChar(n % 10) == d[|d| - 1];
      assert d == p + [d[|d| - 1]];
    }
  }

  /** Leading zeros do not change the value: "007" denotes 7. */
  lemma {:induction false} ValueIgnoresLeadingZero(d: string)
    requires IsDigits(d)
    ensures IsDigits("0" + d) && Value("0" + d) == Value(d)
    decreases |d|
  {
    var z := "0" + d;
    assert IsDigits(z) by {
      forall k | 0 <= k < |z| ensures IsDigit(z[k]) {
        if k > 0 { assert z[k] == d[k - 1]; }
      }
    }
    if d != [] {
      var p := d[..|d| - 1];
      assert z[..|z| - 1] == "0" + p;
      assert z[|z| - 1] == d[|d| - 1];
      ValueIgnoresLeadingZero(p);
    }
  }

  /** Distinct numbers have distinct renderings. */
  lemma FromNatInjective(a: nat, b: nat)
    requires FromNat(a) == FromNat(b)
    ensures a == b
  {
    ValueOfFromNat(a);
    ValueOfFromNat(b);
  }
}
