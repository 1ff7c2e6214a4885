/** The exponentially weighted moving average of solutions/getEWMA.cpp. */
module ExponentialMovingAverage {
  import opened Series

  /** One smoothing step: weight `alpha` on the observation and `1 - alpha` on
      the previous average. */
  function Blend(alpha: real, observation: real, previous: real): real
  {
    alpha * observation + (1.0 - alpha) * previous
  }

  /** Entry `i` of the smoothed series, which has one entry more than the input:
      entry 0 is the first observation and each later entry blends the previous
      observation with the previous entry. */
  function EwmaAt(x: seq<real>, alpha: real, i: nat): real
    requires |x| >= 1 && i <= |x|
  {
    if i == 0 then x[0] else Blend(alpha, x[i - 1], EwmaAt(x, alpha, i - 1))
  }

  /** `getEWMA`: fills each cell from its predecessor; the input must be non-empty
      because its first element is read unconditionally. */
  method GetEWMA(x: array<real>, alpha: real) returns (ewma: array<real>)
    requires x.Length >= 1
    ensures fresh(ewma)
    ensures ewma.Length == x.Length + 1
    ensures forall i :: 0 <= i <= x.Length ==> ewma[i] == EwmaAt(x[..], alpha, i)
  {
    ghost var xs := x[..];
    ewma := new real[x.Length + 1];
    ewma[0] := x[0];
    var i := 1;
    while i < ewma.Length
      invariant 1 <= i <= ewma.Length
      invariant x[..] == xs
      invariant forall j :: 0 <= j < i ==> ewma[j] == EwmaAt(xs, alpha, j)
    {
      ewma[i] := Blend(alpha, x[i - 1], ewma[i - 1]);
      assert ewma[i] == EwmaAt(xs, alpha, i);
      assert x[..] == xs;
      i := i + 1;
    }
  }

  /** The second entry is again the first observation, for every smoothing factor. */
  lemma EwmaSecond(x: seq<real>, alpha: real)
    requires |x| >= 1
    ensures EwmaAt(x, alpha, 1) == x[0]
  {
    assert alpha * x[0] + (1.0 - alpha) * x[0] == x[0];
  }

  /** With `alpha == 0` the series never leaves the first observation. */
  lemma {:induction false} EwmaAlphaZero(x: seq<real>, i: nat)
    requires |x| >= 1 && i <= |x|
    ensures EwmaAt(x, 0.0, i) == x[0]
  {
    if i > 0 {
      EwmaAlphaZero(x, i - 1);
    }
  }

  /** With `alpha == 1` each entry after the first is the previous observation. */
  lemma EwmaAlphaOne(x: seq<real>, i: nat)
    requires |x| >= 1 && 1 <= i <= |x|
    ensures EwmaAt(x, 1.0, i) == x[i - 1]
  {
  }

  /** For `0 <= alpha <= 1` every entry is a convex combination of observations,
      so it stays within any bounds of the input. */
  lemma {:induction false} EwmaBounds(x: seq<real>, alpha: real, i: nat, lo: real, hi: real)
    requires |x| >= 1 && i <= |x|
    requires 0.0 <= alpha <= 1.0
    requires forall j :: 0 <= j < |x| ==> lo <= x[j] <= hi
    ensures lo <= EwmaAt(x, alpha, i) <= hi
  {
    if i > 0 {
      EwmaBounds(x, alpha, i - 1, lo, hi);
      var e := EwmaAt(x, alpha, i - 1);
      ConvexBetween(alpha, x[i - 1], e, lo, hi);
    }
  }

  lemma ConvexBetween(alpha: real, a: real, b: real, lo: real, hi: real)
    requires 0.0 <= alpha <= 1.0
    requires lo <= a <= hi && lo <= b <= hi
    ensures lo <= alpha * a + (1.0 - alpha) * b <= hi
  {
    assert alpha * (a - lo) >= 0.0;
    assert (1.0 - alpha) * (b - lo) >= 0.0;
    assert alpha * (hi - a) >= 0.0;
    assert (1.0 - alpha) * (hi - b) >= 0.0;
  }
}
