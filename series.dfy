/** Finite sums, means and integer powers over `real`, the arithmetic that the
    accumulator loops of the course code compute with `double`. */
module Series {

  /** The sum of `s`, accumulated left to right as every loop in the code does. */
  function Sum(s: seq<real>): real
    decreases |s|
  {
    if |s| == 0 then 0.0 else Sum(s[..|s| - 1]) + s[|s| - 1]
  }

  /** The arithmetic mean of a non-empty sequence. */
  function Mean(s: seq<real>): real
    requires |s| >= 1
  {
    Sum(s) / |s| as real
  }

  /** Every element multiplied by `c`. */
  function Scale(c: real, s: seq<real>): seq<real>
  {
    seq(|s|, i requires 0 <= i < |s| => c * s[i])
  }

  /** Every element increased by `c`. */
  function Shift(c: real, s: seq<real>): seq<real>
  {
    seq(|s|, i requires 0 <= i < |s| => s[i] + c)
  }

  /** `b` raised to a natural power, by repeated multiplication. A power of a
      non-zero base is non-zero and a power of a positive base is positive. */
  function Pow(b: real, e: nat): (r: real)
    ensures b != 0.0 ==> r != 0.0
    ensures b > 0.0 ==> r > 0.0
  {
    if e == 0 then 1.0 else Pow(b, e - 1) * b
  }

  /** `b` raised to an integer power; a negative exponent gives the reciprocal,
      as `pow` does for a whole-valued negative exponent. */
  function IntPow(b: real, e: int): (r: real)
    requires e >= 0 || b != 0.0
    ensures (e == 0 || b != 0.0) ==> r != 0.0
    ensures b > 0.0 ==> r > 0.0
  {
    if e >= 0 then Pow(b, e) else 1.0 / Pow(b, -e)
  }

  lemma SumSingle(a: real)
    ensures Sum([a]) == a
  {
    assert [a][..0] == [];
  }

  lemma SumAppend(s: seq<real>, a: real)
    ensures Sum(s + [a]) == Sum(s) + a
  {
    assert (s + [a])[..|s|] == s;
  }

  lemma {:induction false} SumPrepend(a: real, s: seq<real>)
    ensures Sum([a] + s) == a + Sum(s)
  {
    if |s| == 0 {
      assert [a] + s == [a];
      assert [a][..0] == [];
    } else {
      var t := [a] + s;
      assert t[..|t| - 1] == [a] + s[..|s| - 1];
      SumPrepend(a, s[..|s| - 1]);
    }
  }

  /** A sum is bounded by the count times any lower and upper bound of its terms. */
  lemma {:induction false} SumBounds(s: seq<real>, lo: real, hi: real)
    requires forall i :: 0 <= i < |s| ==> lo <= s[i] <= hi
    ensures |s| as real * lo <= Sum(s) <= |s| as real * hi
  {
    if |s| > 0 {
      var p := s[..|s| - 1];
      assert forall i :: 0 <= i < |p| ==> p[i] == s[i];
      SumBounds(p, lo, hi);
      assert Sum(s) == Sum(p) + s[|s| - 1];
      assert |s| as real * lo == |p| as real * lo + lo;
      assert |s| as real * hi == |p| as real * hi + hi;
    }
  }

  lemma {:induction false} SumNonNegative(s: seq<real>)
    requires forall i :: 0 <= i < |s| ==> s[i] >= 0.0
    ensures Sum(s) >= 0.0
  {
    if |s| > 0 {
      var p := s[..|s| - 1];
      assert forall i :: 0 <= i < |p| ==> p[i] == s[i];
      SumNonNegative(p);
    }
  }

  lemma {:induction false} SumPositive(s: seq<real>)
    requires |s| >= 1
    requires forall i :: 0 <= i < |s| ==> s[i] > 0.0
    ensures Sum(s) > 0.0
  {
    var p := s[..|s| - 1];
    assert forall i :: 0 <= i < |p| ==> p[i] == s[i];
    if |p| == 0 {
      assert Sum(p) == 0.0;
    } else {
      SumPositive(p);
    }
  }

  /** A sum of `n` copies of `c` is `n * c`. */
  lemma SumConstant(s: seq<real>, c: real)
    requires forall i :: 0 <= i < |s| ==> s[i] == c
    ensures Sum(s) == |s| as real * c
  {
    SumBounds(s, c, c);
  }

  lemma {:induction false} SumScale(c: real, s: seq<real>)
    ensures Sum(Scale(c, s)) == c * Sum(s)
  {
    if |s| > 0 {
      var p := s[..|s| - 1];
      assert forall k :: 0 <= k < |p| ==> Scale(c, s)[..|s| - 1][k] == Scale(c, p)[k];
      assert Scale(c, s)[..|s| - 1] == Scale(c, p);
      SumScale(c, p);
    }
  }

  lemma {:induction false} SumShift(c: real, s: seq<real>)
    ensures Sum(Shift(c, s)) == Sum(s) + |s| as real * c
  {
    if |s| > 0 {
      var p := s[..|s| - 1];
      assert Shift(c, s)[..|s| - 1] == Shift(c, p);
      SumShift(c, p);
    }
  }

  /** Prefix sums of a sequence of non-negative terms do not decrease. */
  lemma {:induction false} SumPrefixMonotone(s: seq<real>, i: nat, j: nat)
    requires i <= j <= |s|
    requires forall k :: 0 <= k < |s| ==> s[k] >= 0.0
    ensures Sum(s[..i]) <= Sum(s[..j])
  {
    if i < j {
      SumPrefixMonotone(s, i, j - 1);
      assert s[..j][..j - 1] == s[..j - 1];
    }
  }

  lemma {:induction false} PowOne(e: nat)
    ensures Pow(1.0, e) == 1.0
  {
    if e > 0 {
      PowOne(e - 1);
    }
  }

  lemma IntPowOne(e: int)
    ensures IntPow(1.0, e) == 1.0
  {
    if e >= 0 {
      PowOne(e);
    } else {
      PowOne(-e);
    }
  }

  /** The mean lies between any lower and upper bound of the elements. */
  lemma MeanBounds(s: seq<real>, lo: real, hi: real)
    requires |s| >= 1
    requires forall i :: 0 <= i < |s| ==> lo <= s[i] <= hi
    ensures lo <= Mean(s) <= hi
  {
    SumBounds(s, lo, hi);
    DivAtLeast(Sum(s), |s| as real, lo);
    DivAtMost(Sum(s), |s| as real, hi);
  }

  lemma DivAtLeast(a: real, n: real, lo: real)
    requires n > 0.0 && a >= n * lo
    ensures a / n >= lo
  {
    assert a / n - lo == (a - n * lo) / n;
  }

  lemma DivAtMost(a: real, n: real, hi: real)
    requires n > 0.0 && a <= n * hi
    ensures a / n <= hi
  {
    assert hi - a / n == (n * hi - a) / n;
  }

  lemma DivScale(a: real, c: real, p: real)
    requires p != 0.0
    ensures (a * c) / p == a * (c / p)
  {
  }

  lemma DivShift(a: real, c: real, p: real)
    requires p != 0.0
    ensures (a + p * c) / p == a / p + c
  {
  }
}
