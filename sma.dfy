/** The trailing simple moving average of solutions/getSMA.cpp. */
module SimpleMovingAverage {
  import opened Series

  /** How many inputs end at index `i`'s window: `i + 1` while the window would
      reach past the start of the input, `k` afterwards. For `k >= 1` this is
      `min(i + 1, k)`. */
  function Threshold(i: nat, k: int): (t: int)
    ensures k >= 1 ==> 1 <= t <= i + 1 && t <= k && (t == i + 1 || t == k)
    ensures k <= 0 ==> t == k
  {
    if i < k then i + 1 else k
  }

  /** The sum of the `j` inputs ending at index `i`. */
  function WindowSum(x: seq<real>, i: nat, j: nat): real
    requires j <= i + 1 <= |x|
  {
    Sum(x[i - j + 1 .. i + 1])
  }

  /** The empty window sums to zero. */
  lemma WindowSumEmpty(x: seq<real>, i: nat)
    requires i + 1 <= |x|
    ensures WindowSum(x, i, 0) == 0.0
  {
    assert x[i + 1 .. i + 1] == [];
  }

  /** Widening a window by one reaches one input further back. */
  lemma WindowSumStep(x: seq<real>, i: nat, j: nat)
    requires j < i + 1 <= |x|
    ensures WindowSum(x, i, j + 1) == x[i - j] + WindowSum(x, i, j)
  {
    assert x[i - j .. i + 1] == [x[i - j]] + x[i - j + 1 .. i + 1];
    SumPrepend(x[i - j], x[i - j + 1 .. i + 1]);
  }

  /** Entry `i` of the moving average: the mean of the `Threshold(i, k)` inputs
      ending at `i`. A negative `k` leaves the window empty and the entry is
      `0 / k`, which is zero. */
  function SmaAt(x: seq<real>, k: int, i: nat): real
    requires i < |x| && k != 0
  {
    var t := Threshold(i, k);
    if t > 0 then WindowSum(x, i, t) / t as real else 0.0
  }

  /** `getSMA`'s inner loop: the sum of the `threshold` inputs ending at `i`,
      added from `x[i]` backwards; nothing is added when `threshold <= 0`. */
  method SumWindow(x: array<real>, i: int, threshold: int) returns (runningSum: real)
    requires 0 <= i < x.Length && threshold <= i + 1
    ensures threshold > 0 ==> runningSum == WindowSum(x[..], i, threshold)
    ensures threshold <= 0 ==> runningSum == 0.0
  {
    runningSum := 0.0;
    WindowSumEmpty(x[..], i);
    var j := 0;
    while j < threshold
      invariant 0 <= j <= (if threshold > 0 then threshold else 0)
      invariant runningSum == WindowSum(x[..], i, j)
    {
      WindowSumStep(x[..], i, j);
      runningSum := runningSum + x[i - j];
      j := j + 1;
    }
  }

  /** `getSMA`'s outer loop body for index `i`: choose the window length, sum
      the window, divide. */
  method SmaEntry(x: array<real>, k: int, i: int) returns (entry: real)
    requires 0 <= i < x.Length && k != 0
    ensures entry == SmaAt(x[..], k, i)
  {
    var threshold;
    if i < k {
      threshold := i + 1;
    } else {
      threshold := k;
    }
    assert threshold == Threshold(i, k);
    var runningSum := SumWindow(x, i, threshold);
    EntryIsSmaAt(x[..], k, i, threshold, runningSum);
    entry := runningSum / threshold as real;
  }

  /** `getSMA`: the outer loop runs from the last index down to 0, and the inner
      loop re-sums the window from scratch for every index. */
  method GetSMA(x: array<real>, k: int) returns (result: array<real>)
    requires k != 0
    ensures fresh(result)
    ensures result.Length == x.Length
    ensures forall i :: 0 <= i < x.Length ==> result[i] == SmaAt(x[..], k, i)
  {
    ghost var xs := x[..];
    result := new real[x.Length];
    var i := x.Length - 1;
    while i >= 0
      invariant -1 <= i < x.Length
      invariant x[..] == xs
      invariant forall j :: i < j < x.Length ==> result[j] == SmaAt(xs, k, j)
    {
      var entry := SmaEntry(x, k, i);
      result[i] := entry;
      i := i - 1;
    }
  }

  /** The inner loop's sum over the window, divided by the window length, is
      the entry `SmaAt` specifies. */
  lemma EntryIsSmaAt(xs: seq<real>, k: int, i: nat, threshold: int, runningSum: real)
    requires i < |xs| && k != 0 && threshold == Threshold(i, k)
    requires threshold > 0 ==> runningSum == WindowSum(xs, i, threshold)
    requires threshold <= 0 ==> runningSum == 0.0
    ensures runningSum / threshold as real == SmaAt(xs, k, i)
  {
  }

  /** Every entry is the mean of its window. */
  lemma SmaIsWindowMean(x: seq<real>, k: int, i: nat)
    requires i < |x| && k >= 1
    ensures var t := Threshold(i, k);
            SmaAt(x, k, i) == Mean(x[i - t + 1 .. i + 1])
  {
  }

  /** A window of one reproduces the input. */
  lemma SmaWindowOne(x: seq<real>, i: nat)
    requires i < |x|
    ensures SmaAt(x, 1, i) == x[i]
  {
    assert x[i .. i + 1] == [x[i]];
    SumSingle(x[i]);
  }

  /** The first entry is the first input, whatever the window. */
  lemma SmaFirst(x: seq<real>, k: int)
    requires |x| >= 1 && k >= 1
    ensures SmaAt(x, k, 0) == x[0]
  {
    assert x[0 .. 1] == [x[0]];
    SumSingle(x[0]);
  }

  /** If every input lies in `[lo, hi]`, so does every entry. */
  lemma SmaBounds(x: seq<real>, k: int, i: nat, lo: real, hi: real)
    requires i < |x| && k >= 1
    requires forall j :: 0 <= j < |x| ==> lo <= x[j] <= hi
    ensures lo <= SmaAt(x, k, i) <= hi
  {
    var t := Threshold(i, k);
    var w := x[i - t + 1 .. i + 1];
    assert forall j :: 0 <= j < |w| ==> w[j] == x[i - t + 1 + j];
    MeanBounds(w, lo, hi);
  }

  /** A constant input gives the same constant output. */
  lemma SmaConstant(x: seq<real>, k: int, i: nat, c: real)
    requires i < |x| && k >= 1
    requires forall j :: 0 <= j < |x| ==> x[j] == c
    ensures SmaAt(x, k, i) == c
  {
    SmaBounds(x, k, i, c, c);
  }

  /** A negative window length gives zero everywhere. */
  lemma SmaNegativeWindow(x: seq<real>, k: int, i: nat)
    requires i < |x| && k < 0
    ensures SmaAt(x, k, i) == 0.0
  {
  }
}
