/** The JavaScript number built-ins the forecasting rules rely on, over the
    reals: `Math.round`, `Number.prototype.toFixed(2)` read back by
    `parseFloat`, `Math.pow` with a natural exponent, and the decimal
    rendering of a natural number in a template literal. */
module JsMath {

  /** `Math.round`: the nearest integer, halves rounded towards +infinity. */
  function Round(x: real): (r: int)
    ensures x - 0.5 < r as real <= x + 0.5
  {
    (x + 0.5).Floor
  }

  lemma RoundMonotone(x: real, y: real)
    requires x <= y
    ensures Round(x) <= Round(y)
  {
  }

  /** `toFixed(2)` of a non-negative number: the nearest multiple of 1/100,
      the larger one on a tie. */
  function RoundHalfUp2(x: real): (r: real)
    ensures x - 0.005 < r <= x + 0.005
    ensures (r * 100.0).Floor as real == r * 100.0
  {
    var k := (x * 100.0 + 0.5).Floor;
    assert k as real <= x * 100.0 + 0.5 < k as real + 1.0;
    assert k as real / 100.0 * 100.0 == k as real;
    k as real / 100.0
  }

  /** `parseFloat(x.toFixed(2))`. ECMAScript's toFixed rounds the magnitude
      and then puts the sign back, so a tie on a negative number goes away
      from zero. */
  function ToFixed2(x: real): (r: real)
    ensures x >= 0.0 ==> x - 0.005 < r <= x + 0.005
    ensures x < 0.0 ==> x - 0.005 <= r < x + 0.005
    ensures (r * 100.0).Floor as real == r * 100.0
  {
    if x < 0.0 then
      var p := RoundHalfUp2(-x);
      NegatedHundredths(p);
      -p
    else
      RoundHalfUp2(x)
  }

  /** The negation of a whole number of hundredths is one too. */
  lemma NegatedHundredths(p: real)
    requires (p * 100.0).Floor as real == p * 100.0
    ensures ((-p) * 100.0).Floor as real == (-p) * 100.0
  {
    var k := (p * 100.0).Floor;
    assert (-p) * 100.0 == (-k) as real;
  }

  /** The rounding is symmetric around zero. */
  lemma ToFixed2Odd(x: real)
    ensures ToFixed2(-x) == -ToFixed2(x)
  {
  }

  /** A number that already has two decimals is left as it is. */
  lemma ToFixed2OfHundredths(k: int)
    ensures ToFixed2(k as real / 100.0) == k as real / 100.0
  {
    var x := k as real / 100.0;
    if x < 0.0 {
      assert (-x * 100.0 + 0.5).Floor == -k;
    } else {
      assert (x * 100.0 + 0.5).Floor == k;
    }
  }

  /** Rounding a value that is already rounded to two decimals changes nothing. */
  lemma ToFixed2Idempotent(x: real)
    ensures ToFixed2(ToFixed2(x)) == ToFixed2(x)
  {
    var r := ToFixed2(x);
    var k := (r * 100.0).Floor;
    assert r == k as real / 100.0;
    ToFixed2OfHundredths(k);
  }

  /** `Math.pow(b, n)` for a natural exponent. */
  function Pow(b: real, n: nat): (p: real)
    ensures n == 0 ==> p == 1.0
    ensures b == 1.0 ==> p == 1.0
    ensures b >= 0.0 ==> p >= 0.0
    ensures b >= 1.0 ==> p >= 1.0
  {
    if n == 0 then 1.0
    else
      var q := Pow(b, n - 1);
      assert b >= 1.0 ==> b * q - q == (b - 1.0) * q >= 0.0;
      b * q
  }

  /** One more step of `Math.pow` multiplies by the base. */
  lemma PowSucc(b: real, n: nat)
    ensures Pow(b, n + 1) == b * Pow(b, n)
  {
  }

  lemma {:induction false} PowAdd(b: real, m: nat, n: nat)
    ensures Pow(b, m + n) == Pow(b, m) * Pow(b, n)
  {
    if m > 0 {
      PowAdd(b, m - 1, n);
      assert Pow(b, m + n) == b * Pow(b, m - 1 + n);
    }
  }

  lemma ScaleMonotone(a: real, x: real, y: real)
    requires a >= 0.0 && x <= y
    ensures a * x <= a * y
  {
    assert a * y - a * x == a * (y - x);
  }

  /** One more factor of at least 1 never makes the power smaller. */
  lemma PowStep(b: real, n: nat)
    requires b >= 1.0 && n > 0
    ensures Pow(b, n - 1) <= Pow(b, n)
  {
    var q := Pow(b, n - 1);
    var p := Pow(b, n);
    assert p == b * q;
    var d := b - 1.0;
    assert d * q >= 0.0;
    assert p - q == d * q;
  }

  lemma {:induction false} PowGrowsWithExponent(b: real, m: nat, n: nat)
    requires b >= 1.0 && m <= n
    ensures Pow(b, m) <= Pow(b, n)
  {
    if m < n {
      PowGrowsWithExponent(b, m, n - 1);
      PowStep(b, n);
    }
  }

  function DigitChar(d: nat): (c: char)
    requires d < 10
    ensures '0' <= c <= '9'
    ensures c as int - '0' as int == d
  {
    "0123456789"[d]
  }

  /** The number a string of decimal digits stands for, read left to right. */
  function DigitsValue(s: string): nat
  {
    if |s| == 0 then 0
    else
      var c := s[|s| - 1];
      DigitsValue(s[..|s| - 1]) * 10 + (if '0' <= c <= '9' then c as int - '0' as int else 0)
  }

  /** The decimal digits of `n`, as `${n}` renders a natural number. */
  function NatToString(n: nat): (s: string)
    ensures |s| > 0
    ensures forall k :: 0 <= k < |s| ==> '0' <= s[k] <= '9'
    ensures n > 0 ==> s[0] != '0'
  {
    if n < 10 then [DigitChar(n)] else NatToString(n / 10) + [DigitChar(n % 10)]
  }

  /** The rendered digits stand for n. */
  lemma {:induction false} NatToStringValue(n: nat)
    ensures DigitsValue(NatToString(n)) == n
  {
    var s := NatToString(n);
    if n < 10 {
      assert s[..0] == [];
    } else {
      assert s[..|s| - 1] == NatToString(n / 10);
      NatToStringValue(n / 10);
    }
  }
}
