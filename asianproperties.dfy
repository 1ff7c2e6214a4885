/** What the Asian option model promises: non-negative payoffs and prices,
    put-call parity replication by replication, positive paths, the closed
    form of the accumulated shock, and the pricer codes of `operator()`. */
module AsianProperties {
  import opened Series
  import opened Elementary
  import opened Gaussian
  import opened AsianOptions

  /** A call pays `summary - strike` more than the put on the same summary. */
  lemma PayoffParity(summary: real, strike: real)
    ensures Payoff(Call, summary, strike) - Payoff(Put, summary, strike) == summary - strike
  {
  }

  /** A call's payoff does not fall as the summary rises; a put's does not rise. */
  lemma PayoffMonotone(s1: real, s2: real, strike: real)
    requires s1 <= s2
    ensures Payoff(Call, s1, strike) <= Payoff(Call, s2, strike)
    ensures Payoff(Put, s1, strike) >= Payoff(Put, s2, strike)
  {
  }

  lemma {:induction false} RollingSumNonNegative(m: CMath, g: nat -> real, p: OptionParams, mode: Mode, start: nat, reps: nat)
    requires p.nInt >= 1
    ensures RollingSum(m, g, p, mode, start, reps) >= 0.0
  {
    if reps > 0 {
      RollingSumNonNegative(m, g, p, mode, start, reps - 1);
    }
  }

  /** With a positive `exp` every one of the four prices is non-negative. */
  lemma AsianPriceNonNegative(m: CMath, g: nat -> real, p: OptionParams, mode: Mode, start: nat, nReps: int)
    requires p.nInt >= 1 && nReps != 0
    requires ExpPositive(m)
    ensures AsianPrice(m, g, p, mode, start, nReps) >= 0.0
  {
    var d := Discount(m, p.r, p.expiry);
    var t := RollingSum(m, g, p, mode, start, Replications(nReps));
    assert d > 0.0;
    if nReps > 0 {
      RollingSumNonNegative(m, g, p, mode, start, nReps);
      assert d * t >= 0.0;
    } else {
      assert t == 0.0;
    }
  }

  /** A negative replication count runs no replication and prices at zero. */
  lemma NegativeReplications(m: CMath, g: nat -> real, p: OptionParams, mode: Mode, start: nat, nReps: int)
    requires p.nInt >= 1 && nReps < 0
    ensures AsianPrice(m, g, p, mode, start, nReps) == 0.0
  {
  }

  /** The summaries of the first `reps` replications, summed. */
  function SummarySum(m: CMath, g: nat -> real, p: OptionParams, average: Average, start: nat, reps: nat): real
    requires p.nInt >= 1
  {
    if reps == 0 then 0.0
    else SummarySum(m, g, p, average, start, reps - 1)
           + Summary(m, average, GeneratedPath(m, g, p, ReplicationStart(p, start, reps - 1)))
  }

  /** `reps` strikes, summed: the strikes the puts add back. */
  function Strikes(reps: nat, strike: real): (total: real)
    ensures total == reps as real * strike
  {
    if reps == 0 then 0.0 else Strikes(reps - 1, strike) + strike
  }

  /** Put-call parity over the same replications: the call's rolling sum
      exceeds the put's by the summed summaries less `reps` strikes. */
  lemma {:induction false} RollingSumParity(m: CMath, g: nat -> real, p: OptionParams, average: Average, start: nat, reps: nat)
    requires p.nInt >= 1
    ensures RollingSum(m, g, p, Mode(average, Call), start, reps) - RollingSum(m, g, p, Mode(average, Put), start, reps)
            == SummarySum(m, g, p, average, start, reps) - Strikes(reps, p.strike)
  {
    if reps > 0 {
      RollingSumParity(m, g, p, average, start, reps - 1);
      var s := Summary(m, average, GeneratedPath(m, g, p, ReplicationStart(p, start, reps - 1)));
      PayoffParity(s, p.strike);
    }
  }

  /** Put-call parity of the prices: on the same draws, call minus put is the
      discounted mean, over the replications, of summary minus strike. */
  lemma AsianParity(m: CMath, g: nat -> real, p: OptionParams, average: Average, start: nat, nReps: nat)
    requires p.nInt >= 1 && nReps >= 1
    ensures AsianPrice(m, g, p, Mode(average, Call), start, nReps) - AsianPrice(m, g, p, Mode(average, Put), start, nReps)
            == DiscountedMean(Discount(m, p.r, p.expiry),
                              SummarySum(m, g, p, average, start, nReps) - Strikes(nReps, p.strike), nReps)
  {
    var d := Discount(m, p.r, p.expiry);
    var c := RollingSum(m, g, p, Mode(average, Call), start, nReps);
    var q := RollingSum(m, g, p, Mode(average, Put), start, nReps);
    assert Replications(nReps) == nReps;
    RollingSumParity(m, g, p, average, start, nReps);
    DiscountedMeanDifference(d, c, q, nReps);
  }

  lemma DiscountedMeanDifference(d: real, c: real, q: real, nReps: int)
    requires nReps != 0
    ensures DiscountedMean(d, c, nReps) - DiscountedMean(d, q, nReps) == DiscountedMean(d, c - q, nReps)
  {
    var n := nReps as real;
    assert d * c / n - d * q / n == d * (c - q) / n;
  }

  /** Closed form of the accumulated shock: `count` drifts plus the scaled sum
      of the draws. */
  lemma {:induction false} CumShocksClosedForm(m: CMath, g: nat -> real, p: OptionParams, start: nat, count: nat)
    requires p.nInt >= 1
    ensures CumShocks(m, g, p, start, count)
            == count as real * Drift(p.r, p.vol, p.expiry, p.nInt)
               + ShockScale(m, p.vol, p.expiry, p.nInt) * DrawSum(g, start, count)
  {
    if count > 0 {
      CumShocksClosedForm(m, g, p, start, count - 1);
      var d := Drift(p.r, p.vol, p.expiry, p.nInt);
      var k := ShockScale(m, p.vol, p.expiry, p.nInt);
      var z := Draw(g, start + count - 1);
      var s := DrawSum(g, start, count - 1);
      calc {
        CumShocks(m, g, p, start, count);
        (count - 1) as real * d + k * s + (d + k * z);
        count as real * d + k * (s + z);
      }
    }
  }

  /** With zero volatility the draws do not matter: entry `i` is the spot grown
      by `i + 1` drifts of `r T / nInt`. */
  lemma ZeroVolatilityPath(m: CMath, g: nat -> real, p: OptionParams, start: nat, i: nat)
    requires p.nInt >= 1 && p.vol == 0.0
    ensures PathEntry(m, g, p, start, i) == p.spot * Exp(m, (i + 1) as real * (p.r * p.expiry / p.nInt as real))
  {
    CumShocksClosedForm(m, g, p, start, i + 1);
    assert ShockScale(m, p.vol, p.expiry, p.nInt) == 0.0;
    assert Drift(p.r, p.vol, p.expiry, p.nInt) == p.r * p.expiry / p.nInt as real;
    assert CumShocks(m, g, p, start, i + 1) == (i + 1) as real * (p.r * p.expiry / p.nInt as real);
  }

  /** A positive spot and a positive `exp` give a positive path. */
  lemma PathPositive(m: CMath, g: nat -> real, p: OptionParams, start: nat)
    requires p.nInt >= 1 && p.spot > 0.0
    requires ExpPositive(m)
    ensures forall i :: 0 <= i < p.nInt ==> GeneratedPath(m, g, p, start)[i] > 0.0
  {
    forall i | 0 <= i < p.nInt
      ensures GeneratedPath(m, g, p, start)[i] > 0.0
    {
      var e := Exp(m, CumShocks(m, g, p, start, i + 1));
      assert e > 0.0;
      GeneratedPathEntry(m, g, p, start, i);
    }
  }

  /** Both averages of a positive path are positive. */
  lemma SummaryPositive(m: CMath, average: Average, path: seq<real>)
    requires |path| >= 1
    requires forall i :: 0 <= i < |path| ==> path[i] > 0.0
    requires ExpPositive(m)
    ensures Summary(m, average, path) > 0.0
  {
    if average == Arithmetic {
      SumPositive(path);
    }
  }

  /** On a flat path both averages return the level. */
  lemma FlatPathSummary(m: CMath, average: Average, path: seq<real>, c: real)
    requires |path| >= 1 && c > 0.0
    requires forall i :: 0 <= i < |path| ==> path[i] == c
    requires ExpLog(m)
    ensures Summary(m, average, path) == c
  {
    if average == Arithmetic {
      MeanBounds(path, c, c);
    } else {
      FlatGeometricMean(m, path, c);
    }
  }

  /** The logarithms of a flat path are flat, so `exp` of their mean is the level. */
  lemma FlatGeometricMean(m: CMath, path: seq<real>, c: real)
    requires |path| >= 1 && c > 0.0
    requires forall i :: 0 <= i < |path| ==> path[i] == c
    requires ExpLog(m)
    ensures GeometricMean(m, path) == c
  {
    var logs := Logs(m, path);
    MeanBounds(logs, Log(m, c), Log(m, c));
    assert Mean(logs) == Log(m, c);
  }

  /** Every pricer code is recognised and decodes to its pricer. */
  lemma CodeRoundTrip(mode: Mode)
    ensures ModeOf(CodeOf(mode).0, CodeOf(mode).1) == Some(mode)
  {
  }

  /** A recognised code pair is exactly the code of the pricer it selects;
      only the four pairs are recognised. */
  lemma ModeOfOnlyCodes(char1: char, char2: char)
    ensures ModeOf(char1, char2).Some? ==> CodeOf(ModeOf(char1, char2).value) == (char1, char2)
    ensures ModeOf(char1, char2).Some? <==> (char1 == 'A' || char1 == 'G') && (char2 == 'C' || char2 == 'P')
  {
  }
}
