/** The European call pricer of progs/prog1/runSimpleMonteCarlo1.cpp: one
    terminal spot per Gaussian draw, the floored payoffs summed, the mean
    discounted. */
module SimpleMonteCarlo {
  import opened Series
  import opened Elementary
  import opened Gaussian
  import opened AsianOptions

  /** The log-variance of the terminal spot, `vol^2 T`. */
  function TotalVariance(vol: real, expiry: real): real
  {
    vol * vol * expiry
  }

  /** The spot moved forward by the risk-neutral drift with the Ito correction,
      `spot * exp(r T - vol^2 T / 2)`; the same for every path. */
  function MovedSpot(m: CMath, spot: real, r: real, vol: real, expiry: real): real
  {
    spot * Exp(m, r * expiry + -0.5 * TotalVariance(vol, expiry))
  }

  /** `sqrt(vol^2 T)`, the factor each draw is scaled by. */
  function RootVariance(m: CMath, vol: real, expiry: real): real
  {
    Sqrt(m, TotalVariance(vol, expiry))
  }

  /** The terminal spot a draw `z` simulates. */
  function SimulatedSpot(m: CMath, movedSpot: real, rootVariance: real, z: real): real
  {
    movedSpot * Exp(m, rootVariance * z)
  }

  /** The floored payoffs of the first `count` paths, whose draws start at
      position `start`. */
  function PayoffSum(m: CMath, g: nat -> real, start: nat, count: nat,
                     movedSpot: real, rootVariance: real, strike: real): real
  {
    if count == 0 then 0.0
    else PayoffSum(m, g, start, count - 1, movedSpot, rootVariance, strike)
           + Payoff(Call, SimulatedSpot(m, movedSpot, rootVariance, Draw(g, start + count - 1)), strike)
  }

  /** The discounted sample mean of the floored payoffs of `numberOfPaths` paths. */
  function EuropeanCallEstimate(m: CMath, g: nat -> real, start: nat, expiry: real, strike: real,
                                spot: real, vol: real, r: real, numberOfPaths: nat): real
    requires numberOfPaths >= 1
  {
    var total := PayoffSum(m, g, start, numberOfPaths, MovedSpot(m, spot, r, vol, expiry),
                           RootVariance(m, vol, expiry), strike);
    MeanTimes(total, numberOfPaths, Discount(m, r, expiry))
  }

  /** `total / count * factor`, the last two lines of the pricer. */
  function MeanTimes(total: real, count: nat, factor: real): real
    requires count >= 1
  {
    total / count as real * factor
  }

  /** `runSimpleMonteCarlo1`: one draw per path; a payoff is added only when
      it is positive. */
  method RunSimpleMonteCarlo1(expiry: real, strike: real, spot: real, vol: real, r: real,
                              numberOfPaths: nat, math: CMath, rng: GaussianSource) returns (mean: real)
    requires numberOfPaths >= 1
    modifies rng
    ensures rng.used == old(rng.used) + numberOfPaths
    ensures mean == EuropeanCallEstimate(math, rng.draws, old(rng.used), expiry, strike, spot, vol, r, numberOfPaths)
  {
    ghost var start := rng.used;
    var variance := TotalVariance(vol, expiry);
    var rootVariance := Sqrt(math, variance);
    var itoCorrection := -0.5 * variance;
    var movedSpot := spot * Exp(math, r * expiry + itoCorrection);
    assert movedSpot == MovedSpot(math, spot, r, vol, expiry);
    var thisSpot := 0.0;
    var runningSum := 0.0;
    var i := 0;
    while i < numberOfPaths
      invariant 0 <= i <= numberOfPaths
      invariant rng.used == start + i
      invariant runningSum == PayoffSum(math, rng.draws, start, i, movedSpot, rootVariance, strike)
    {
      var thisGaussian := rng.Next();
      thisSpot := SimulatedSpot(math, movedSpot, rootVariance, thisGaussian);
      var thisPayoff := thisSpot - strike;
      if thisPayoff > 0.0 {
        runningSum := runningSum + thisPayoff;
      }
      i := i + 1;
    }
    mean := runningSum / numberOfPaths as real;
    mean := mean * Exp(math, -r * expiry);
    assert mean == MeanTimes(runningSum, numberOfPaths, Discount(math, r, expiry));
  }

  lemma {:induction false} PayoffSumNonNegative(m: CMath, g: nat -> real, start: nat, count: nat,
                                                movedSpot: real, rootVariance: real, strike: real)
    ensures PayoffSum(m, g, start, count, movedSpot, rootVariance, strike) >= 0.0
  {
    if count > 0 {
      PayoffSumNonNegative(m, g, start, count - 1, movedSpot, rootVariance, strike);
    }
  }

  /** With a positive `exp` the estimate is non-negative. */
  lemma EstimateNonNegative(m: CMath, g: nat -> real, start: nat, expiry: real, strike: real,
                            spot: real, vol: real, r: real, numberOfPaths: nat)
    requires numberOfPaths >= 1
    requires ExpPositive(m)
    ensures EuropeanCallEstimate(m, g, start, expiry, strike, spot, vol, r, numberOfPaths) >= 0.0
  {
    var total := PayoffSum(m, g, start, numberOfPaths, MovedSpot(m, spot, r, vol, expiry),
                           RootVariance(m, vol, expiry), strike);
    PayoffSumNonNegative(m, g, start, numberOfPaths, MovedSpot(m, spot, r, vol, expiry),
                         RootVariance(m, vol, expiry), strike);
    var d := Discount(m, r, expiry);
    assert d > 0.0;
    assert total / numberOfPaths as real >= 0.0;
    assert MeanTimes(total, numberOfPaths, d) >= 0.0;
  }

  /** No simulated spot above the strike: no payoff is ever added. */
  lemma {:induction false} PayoffSumOutOfMoney(m: CMath, g: nat -> real, start: nat, count: nat,
                                               movedSpot: real, rootVariance: real, strike: real)
    requires forall k :: start <= k < start + count ==>
               SimulatedSpot(m, movedSpot, rootVariance, Draw(g, k)) <= strike
    ensures PayoffSum(m, g, start, count, movedSpot, rootVariance, strike) == 0.0
  {
    if count > 0 {
      PayoffSumOutOfMoney(m, g, start, count - 1, movedSpot, rootVariance, strike);
      assert SimulatedSpot(m, movedSpot, rootVariance, Draw(g, start + count - 1)) <= strike;
    }
  }

  /** If the strike is at least every simulated spot, the estimate is zero. */
  lemma EstimateOutOfMoney(m: CMath, g: nat -> real, start: nat, expiry: real, strike: real,
                           spot: real, vol: real, r: real, numberOfPaths: nat)
    requires numberOfPaths >= 1
    requires forall k :: start <= k < start + numberOfPaths ==>
               SimulatedSpot(m, MovedSpot(m, spot, r, vol, expiry), RootVariance(m, vol, expiry), Draw(g, k)) <= strike
    ensures EuropeanCallEstimate(m, g, start, expiry, strike, spot, vol, r, numberOfPaths) == 0.0
  {
    PayoffSumOutOfMoney(m, g, start, numberOfPaths, MovedSpot(m, spot, r, vol, expiry),
                        RootVariance(m, vol, expiry), strike);
  }

  /** A one-step Asian path ends where the European pricer's simulated spot
      does, for the same draw: with one time step both compute
      `spot * exp(r T - vol^2 T / 2 + vol sqrt(T) z)`. */
  lemma OneStepPathIsTerminalSpot(m: CMath, g: nat -> real, start: nat, strike: real,
                                  spot: real, vol: real, r: real, expiry: real)
    requires ExpAdditive(m) && SqrtLaw(m)
    requires vol >= 0.0 && expiry >= 0.0
    ensures PathEntry(m, g, OptionParams(1, strike, spot, vol, r, expiry), start, 0)
            == SimulatedSpot(m, MovedSpot(m, spot, r, vol, expiry), RootVariance(m, vol, expiry), Draw(g, start))
  {
    var a := r * expiry + -0.5 * TotalVariance(vol, expiry);
    var b := RootVariance(m, vol, expiry) * Draw(g, start);
    OneStepEntry(m, g, start, strike, spot, vol, r, expiry, a, b);
    OneStepSimulated(m, g, start, spot, vol, r, expiry, a, b);
    assert ExpOfSum(m, a, b) == Exp(m, a) * Exp(m, b);
    Associate(spot, Exp(m, a), Exp(m, b), ExpOfSum(m, a, b));
  }

  /** The one-step path's entry is the spot grown by `exp(a + b)`. */
  lemma OneStepEntry(m: CMath, g: nat -> real, start: nat, strike: real,
                     spot: real, vol: real, r: real, expiry: real, a: real, b: real)
    requires SqrtLaw(m)
    requires vol >= 0.0 && expiry >= 0.0
    requires a == r * expiry + -0.5 * TotalVariance(vol, expiry)
    requires b == RootVariance(m, vol, expiry) * Draw(g, start)
    ensures PathEntry(m, g, OptionParams(1, strike, spot, vol, r, expiry), start, 0) == spot * Exp(m, a + b)
  {
    OneStepShock(m, g, start, strike, spot, vol, r, expiry, a, b);
  }

  /** With one time step the accumulated shock is the European pricer's
      exponent: the drift with the Ito correction plus the scaled draw. */
  lemma OneStepShock(m: CMath, g: nat -> real, start: nat, strike: real,
                     spot: real, vol: real, r: real, expiry: real, a: real, b: real)
    requires SqrtLaw(m)
    requires vol >= 0.0 && expiry >= 0.0
    requires a == r * expiry + -0.5 * TotalVariance(vol, expiry)
    requires b == RootVariance(m, vol, expiry) * Draw(g, start)
    ensures CumShocks(m, g, OptionParams(1, strike, spot, vol, r, expiry), start, 1) == a + b
  {
    assert Drift(r, vol, expiry, 1) == a;
    assert RootVariance(m, vol, expiry) == ShockScale(m, vol, expiry, 1) by {
      SqrtFactor(m, vol, expiry);
      assert expiry / 1 as real == expiry;
    }
  }

  /** The European pricer's spot for the same draw is the spot grown by
      `exp a`, then by `exp b`. */
  lemma OneStepSimulated(m: CMath, g: nat -> real, start: nat,
                         spot: real, vol: real, r: real, expiry: real, a: real, b: real)
    requires a == r * expiry + -0.5 * TotalVariance(vol, expiry)
    requires b == RootVariance(m, vol, expiry) * Draw(g, start)
    ensures SimulatedSpot(m, MovedSpot(m, spot, r, vol, expiry), RootVariance(m, vol, expiry), Draw(g, start))
            == (spot * Exp(m, a)) * Exp(m, b)
  {
  }

  /** `(s * x) * y == s * xy` when `xy == x * y`. */
  lemma Associate(s: real, x: real, y: real, xy: real)
    requires xy == x * y
    ensures (s * x) * y == s * xy
  {
  }
}
