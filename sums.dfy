/** Sums over a list, folded from the left as `Array.prototype.reduce`
    with a start value of 0 does. */
module Sums {

  function Sum<T>(s: seq<T>, f: T -> real): (r: real)
    ensures |s| == 0 ==> r == 0.0
  {
    if |s| == 0 then 0.0 else Sum(s[..|s| - 1], f) + f(s[|s| - 1])
  }

  lemma SumSnoc<T>(s: seq<T>, x: T, f: T -> real)
    ensures Sum(s + [x], f) == Sum(s, f) + f(x)
  {
    assert (s + [x])[..|s|] == s;
  }

  lemma {:induction false} SumConcat<T>(a: seq<T>, b: seq<T>, f: T -> real)
    ensures Sum(a + b, f) == Sum(a, f) + Sum(b, f)
  {
    if |b| > 0 {
      var b' := b[..|b| - 1];
      assert a + b == (a + b') + [b[|b| - 1]];
      SumSnoc(a + b', b[|b| - 1], f);
      SumConcat(a, b', f);
      assert b == b' + [b[|b| - 1]];
      SumSnoc(b', b[|b| - 1], f);
    } else {
      assert a + b == a;
    }
  }

  lemma SumSingleton<T>(x: T, f: T -> real)
    ensures Sum([x], f) == f(x)
  {
    SumSnoc([], x, f);
  }

  /** The sum does not depend on the order of the list. */
  lemma {:induction false} SumPermutation<T>(a: seq<T>, b: seq<T>, f: T -> real)
    requires multiset(a) == multiset(b)
    ensures Sum(a, f) == Sum(b, f)
  {
    if |a| == 0 {
      assert |b| == |multiset(b)| == 0;
    } else {
      var x := a[|a| - 1];
      var a' := a[..|a| - 1];
      assert a == a' + [x];
      assert x in multiset(b);
      var j :| 0 <= j < |b| && b[j] == x;
      var b' := b[..j] + b[j + 1..];
      assert b == b[..j] + [x] + b[j + 1..];
      assert multiset(b') == multiset(b) - multiset{x};
      assert multiset(a') == multiset(a) - multiset{x};
      SumPermutation(a', b', f);
      SumConcat(b[..j] + [x], b[j + 1..], f);
      SumSnoc(b[..j], x, f);
      SumConcat(b[..j], b[j + 1..], f);
      SumSnoc(a', x, f);
    }
  }

  /** A sum of zero terms is zero. */
  lemma {:induction false} SumOfZeros<T>(s: seq<T>, f: T -> real)
    requires forall k :: 0 <= k < |s| ==> f(s[k]) == 0.0
    ensures Sum(s, f) == 0.0
  {
    if |s| > 0 {
      SumOfZeros(s[..|s| - 1], f);
    }
  }

  /** Non-negative terms have a non-negative sum. */
  lemma {:induction false} SumNonNegative<T>(s: seq<T>, f: T -> real)
    ensures (forall k :: 0 <= k < |s| ==> f(s[k]) >= 0.0) ==> Sum(s, f) >= 0.0
  {
    if |s| > 0 {
      var front := s[..|s| - 1];
      SumNonNegative(front, f);
      assert forall k :: 0 <= k < |front| ==> front[k] == s[k];
    }
  }
}
