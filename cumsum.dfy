/** The running-sum vector of functions/getCumSum.cpp. */
module CumSum {
  import opened Series

  /** Entry `i` is the sum of the first `i + 1` inputs. */
  function CumSum(x: seq<real>): (r: seq<real>)
    ensures |r| == |x|
  {
    seq(|x|, i requires 0 <= i < |x| => Sum(x[..i + 1]))
  }

  /** First differences: the first entry, then each entry minus its predecessor. */
  function Differences(r: seq<real>): (d: seq<real>)
    ensures |d| == |r|
  {
    seq(|r|, i requires 0 <= i < |r| => if i == 0 then r[0] else r[i] - r[i - 1])
  }

  /** `getCumSum`: one accumulator carried through a single pass; the input
      vector is only read. */
  method GetCumSum(x: array<real>) returns (result: array<real>)
    ensures fresh(result)
    ensures result[..] == CumSum(x[..])
  {
    var acc := 0.0;
    result := new real[x.Length];
    var i := 0;
    while i < x.Length
      invariant 0 <= i <= x.Length
      invariant acc == Sum(x[..i])
      invariant forall j :: 0 <= j < i ==> result[j] == Sum(x[..j + 1])
    {
      assert x[..i + 1][..i] == x[..i];
      acc := acc + x[i];
      result[i] := acc;
      i := i + 1;
    }
  }

  /** The first entry is the first input and every later entry adds exactly one
      input to its predecessor. */
  lemma CumSumStep(x: seq<real>, i: nat)
    requires i < |x|
    ensures CumSum(x)[i] == (if i == 0 then x[0] else CumSum(x)[i - 1] + x[i])
  {
    assert x[..i + 1][..i] == x[..i];
    if i == 0 {
      assert x[..1][..0] == [];
      assert Sum(x[..1]) == Sum(x[..1][..0]) + x[0];
    }
  }

  /** The last entry is the total of the input. */
  lemma CumSumLast(x: seq<real>)
    requires |x| >= 1
    ensures CumSum(x)[|x| - 1] == Sum(x)
  {
    assert x[..|x|] == x;
  }

  /** Differencing undoes the running sum... */
  lemma DifferencesOfCumSum(x: seq<real>)
    ensures Differences(CumSum(x)) == x
  {
    forall i | 0 <= i < |x|
      ensures Differences(CumSum(x))[i] == x[i]
    {
      CumSumStep(x, i);
    }
  }

  /** ...and the running sum undoes differencing. */
  lemma {:induction false} CumSumOfDifferences(r: seq<real>)
    ensures CumSum(Differences(r)) == r
  {
    var d := Differences(r);
    forall i | 0 <= i < |r|
      ensures CumSum(d)[i] == r[i]
    {
      CumSumOfDifferencesAt(r, i);
    }
  }

  lemma {:induction false} CumSumOfDifferencesAt(r: seq<real>, i: nat)
    requires i < |r|
    ensures CumSum(Differences(r))[i] == r[i]
  {
    CumSumStep(Differences(r), i);
    if i > 0 {
      CumSumOfDifferencesAt(r, i - 1);
    }
  }

  /** With non-negative inputs the running sum never decreases. */
  lemma CumSumMonotone(x: seq<real>, i: nat, j: nat)
    requires i <= j < |x|
    requires forall k :: 0 <= k < |x| ==> x[k] >= 0.0
    ensures CumSum(x)[i] <= CumSum(x)[j]
  {
    SumPrefixMonotone(x, i + 1, j + 1);
  }
}
