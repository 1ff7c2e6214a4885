/** The sample statistics of progs/prog2/getVecMean.cpp and
    progs/prog2/getVecStdDev.cpp. Both take their vector by value. */
module VecStatistics {
  import opened Series
  import opened Elementary

  /** `getVecMean`: the sum accumulated in one pass, divided by the count. An
      empty vector would divide zero by zero, so the vector must be non-empty. */
  method GetVecMean(thisVec: seq<real>) returns (mean: real)
    requires |thisVec| >= 1
    ensures mean == Mean(thisVec)
  {
    var runningSum := 0.0;
    var thisSize := |thisVec|;
    var i := 0;
    while i < thisSize
      invariant 0 <= i <= thisSize
      invariant runningSum == Sum(thisVec[..i])
    {
      assert thisVec[..i + 1][..i] == thisVec[..i];
      runningSum := runningSum + thisVec[i];
      i := i + 1;
    }
    assert thisVec[..thisSize] == thisVec;
    mean := runningSum / thisSize as real;
  }

  function Square(d: real): real
  {
    d * d
  }

  lemma SquareNonNegative(d: real)
    ensures Square(d) >= 0.0
  {
    if d < 0.0 {
      assert Square(d) == (-d) * (-d);
    }
  }

  /** The sum of squared deviations of the elements from `m`. */
  function SumSquaredDeviations(s: seq<real>, m: real): real
    decreases |s|
  {
    if |s| == 0 then 0.0 else SumSquaredDeviations(s[..|s| - 1], m) + Square(s[|s| - 1] - m)
  }

  /** The Bessel-corrected sample variance: squared deviations from the mean over
      `n - 1`. A single element divides by zero; an empty vector never computes
      a mean and gives `0 / -1`, which is zero. */
  function Variance(s: seq<real>): real
    requires |s| != 1
  {
    if |s| == 0 then 0.0 else SumSquaredDeviations(s, Mean(s)) / (|s| - 1) as real
  }

  /** `getVecStdDev`: re-computes the mean on every iteration, then takes the
      square root of the corrected variance. */
  method GetVecStdDev(thisVec: seq<real>, math: CMath) returns (stdDev: real)
    requires |thisVec| != 1
    ensures stdDev == Sqrt(math, Variance(thisVec))
    ensures SqrtLaw(math) ==> stdDev >= 0.0 && stdDev * stdDev == Variance(thisVec)
  {
    var runningSum := 0.0;
    var thisSize := |thisVec|;
    var i := 0;
    while i < thisSize
      invariant 0 <= i <= thisSize
      invariant thisSize >= 1 ==> runningSum == SumSquaredDeviations(thisVec[..i], Mean(thisVec))
      invariant thisSize == 0 ==> runningSum == 0.0
    {
      var mean := GetVecMean(thisVec);
      assert thisVec[..i + 1][..i] == thisVec[..i];
      runningSum := runningSum + Square(thisVec[i] - mean);
      i := i + 1;
    }
    if thisSize >= 1 {
      assert thisVec[..thisSize] == thisVec;
    }
    stdDev := Sqrt(math, runningSum / (thisSize - 1) as real);
    VarianceNonNegative(thisVec);
  }

  lemma {:induction false} SumSquaredDeviationsNonNegative(s: seq<real>, m: real)
    ensures SumSquaredDeviations(s, m) >= 0.0
  {
    if |s| > 0 {
      SumSquaredDeviationsNonNegative(s[..|s| - 1], m);
      SquareNonNegative(s[|s| - 1] - m);
    }
  }

  /** The variance is never negative. */
  lemma VarianceNonNegative(s: seq<real>)
    requires |s| != 1
    ensures Variance(s) >= 0.0
  {
    if |s| >= 2 {
      SumSquaredDeviationsNonNegative(s, Mean(s));
    }
  }

  /** A constant vector has zero variance. */
  lemma VarianceConstant(s: seq<real>, c: real)
    requires |s| != 1
    requires forall i :: 0 <= i < |s| ==> s[i] == c
    ensures Variance(s) == 0.0
  {
    if |s| >= 2 {
      MeanConstant(s, c);
      SumSquaredDeviationsAtConstant(s, c);
    }
  }

  lemma {:induction false} SumSquaredDeviationsAtConstant(s: seq<real>, c: real)
    requires forall i :: 0 <= i < |s| ==> s[i] == c
    ensures SumSquaredDeviations(s, c) == 0.0
  {
    if |s| > 0 {
      SumSquaredDeviationsAtConstant(s[..|s| - 1], c);
    }
  }

  /** Adding a constant to every element leaves the variance unchanged. */
  lemma VarianceShift(s: seq<real>, c: real)
    requires |s| != 1
    ensures Variance(Shift(c, s)) == Variance(s)
  {
    if |s| >= 2 {
      MeanShift(s, c);
      SumSquaredDeviationsShift(s, c, Mean(s));
    }
  }

  lemma {:induction false} SumSquaredDeviationsShift(s: seq<real>, c: real, m: real)
    ensures SumSquaredDeviations(Shift(c, s), m + c) == SumSquaredDeviations(s, m)
  {
    if |s| > 0 {
      var p := s[..|s| - 1];
      assert Shift(c, s)[..|s| - 1] == Shift(c, p);
      SumSquaredDeviationsShift(p, c, m);
    }
  }

  /** A constant vector has that constant as its mean. */
  lemma MeanConstant(s: seq<real>, c: real)
    requires |s| >= 1
    requires forall i :: 0 <= i < |s| ==> s[i] == c
    ensures Mean(s) == c
  {
    MeanBounds(s, c, c);
  }

  /** Scaling every element scales the mean. */
  lemma MeanScale(s: seq<real>, c: real)
    requires |s| >= 1
    ensures Mean(Scale(c, s)) == c * Mean(s)
  {
    SumScale(c, s);
  }

  /** Shifting every element shifts the mean. */
  lemma MeanShift(s: seq<real>, c: real)
    requires |s| >= 1
    ensures Mean(Shift(c, s)) == Mean(s) + c
  {
    SumShift(c, s);
    var n := |s| as real;
    assert Sum(Shift(c, s)) == Sum(s) + n * c;
    DivShift(Sum(s), c, n);
  }
}
