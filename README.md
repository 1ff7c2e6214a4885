# Monte Carlo option pricing and vector accumulators, in Dafny

This project models the computational core of a course repository on
Monte Carlo option pricing written in C++ with Rcpp bindings:

- **Vector accumulators:**
  - the running sum (`getCumSum`);
  - the trailing simple moving average (`getSMA`);
  - the exponentially weighted moving average (`getEWMA`);
  - the sample mean (`getVecMean`);
  - the sample standard deviation (`getVecStdDev`).
- **Bond prices:**
  - the coupon bond discounted period by period (`getCouponBondPrice2`);
  - the zero-coupon bond (`getZeroCouponBondPrice2`).
- **`AsianOption` class:** its path buffer, its arithmetic and geometric means, its four replication pricers and its `operator()` dispatch.
- **European call:** the Monte Carlo estimator `runSimpleMonteCarlo1`.

`double` is modelled as `real`. The `<cmath>` functions `exp`, `log` and
`sqrt` are uninterpreted total functions, carried in a value
`Elementary.CMath`. The laws a proof needs are separate hypotheses:

- `ExpPositive`: `exp` is positive;
- `SqrtLaw`: `sqrt` is the non-negative square root;
- `ExpAdditive`: `exp(a) exp(b) = exp(a + b)`;
- `ExpLog`: `exp(log x) = x` for positive `x`.

The bond prices call `pow` only with a whole-valued exponent, so there it
is the exact integer power `Series.IntPow`, with a reciprocal for negative
exponents. The `pow(d, 2)` of `getVecStdDev` is `VecStatistics.Square`,
that is `d * d`. The
standard-normal sampler is an oracle, `Gaussian.GaussianSource`. It is a fixed
infinite stream of reals plus a counter of how many have been drawn, so every
statement about draw consumption is exact.

The code's form is kept:

- **Rcpp vectors** are arrays that the methods only read. Their results are freshly allocated arrays.
- **`std::vector` arguments** passed by value are sequences.
- **Loops** are `while` loops with invariants that tie them to a specification function:
  - `CumSum.CumSum`, `SimpleMovingAverage.SmaAt`, `ExponentialMovingAverage.EwmaAt`;
  - `Series.Mean`, `VecStatistics.Variance`;
  - `CouponBond.CouponBondPrice`;
  - `AsianOptions.GeneratedPath`, `AsianOptions.AsianPrice`;
  - `SimpleMonteCarlo.EuropeanCallEstimate`.
- **`AsianOption`** is a class with the field layout of `AsianOption.h`:
  - the buffer `thisPath`;
  - `nInt`, `strike`, `spot`, `vol`, `r`, `expiry`.

  It also has two constant fields, for the math functions and the sampler. `generatePath` replaces the whole buffer, and only the buffer and the sampler change.

Each method's loop body writes the same arithmetic as the source. A few
products are named as one-line functions that the specification also uses:

- `Drift` and `ShockScale` for the log-step;
- `Blend` for the EWMA step;
- `SimulatedSpot` for `movedSpot * exp(rootVariance * z)`;
- `Discount` and `DiscountedMean` for `exp(-r T) * sum / nReps`.

The four Asian pricers are one shared loop, `Price`, called with the pricer's
`Mode`.

Two nested loops are split at the inner loop:

- `getSMA`'s body for one index is the method `SmaEntry`. It picks the window length and calls `SumWindow`, the inner summing loop.
- One replication of a pricer loop is the method `Replicate`: regenerate the path, summarise it, floor the payoff.

Each helper states its result exactly, so the outer loops keep the source's
order of statements and draws.

## Model

| member | source | states |
|---|---|---|
| CumSum.CumSum | functions/getCumSum.cpp:12 | the running-sum vector has the length of its input |
| CumSum.GetCumSum | functions/getCumSum.cpp:7-20 | a fresh result whose entry `i` is the sum of `x[0..i]`; the accumulator equals the sum of the prefix read so far; the input is not written |
| CumSum.CumSumStep | functions/getCumSum.cpp:14-17 | entry 0 is `x[0]` and every later entry is its predecessor plus `x[i]` |
| CumSum.CumSumLast | functions/getCumSum.cpp:14-17 | the last entry is the total of the input |
| CumSum.DifferencesOfCumSum | functions/getCumSum.cpp:15-16 | first differences of the running sum give back the input |
| CumSum.CumSumOfDifferences | functions/getCumSum.cpp:15-16 | the running sum of the first differences gives back the sequence |
| CumSum.CumSumMonotone | functions/getCumSum.cpp:15-16 | with non-negative inputs the running sum never decreases |
| SimpleMovingAverage.Threshold | solutions/getSMA.cpp:17-18 | for `k >= 1` the window length is `min(i + 1, k)`, between 1 and `i + 1`; for `k <= 0` it is `k` |
| SimpleMovingAverage.SumWindow | solutions/getSMA.cpp:16-21 | the inner loop leaves the sum of the `threshold` inputs ending at `x[i]`, and 0 when `threshold <= 0` |
| SimpleMovingAverage.SmaEntry | solutions/getSMA.cpp:16-22 | the value stored at index `i` is the window sum divided by the window length `Threshold(i, k)`, and 0 for negative `k` |
| SimpleMovingAverage.GetSMA | solutions/getSMA.cpp:7-25 | a fresh result of the input's length whose entry `i` is the sum of the `Threshold(i, k)` inputs ending at `i` divided by that count, and zero for negative `k` |
| SimpleMovingAverage.SmaIsWindowMean | solutions/getSMA.cpp:19-22 | entry `i` is the mean of the window `x[i - t + 1 .. i]` |
| SimpleMovingAverage.SmaWindowOne | solutions/getSMA.cpp:17-22 | with `k = 1` the output equals the input |
| SimpleMovingAverage.SmaFirst | solutions/getSMA.cpp:17-22 | entry 0 is `x[0]` for every `k >= 1` |
| SimpleMovingAverage.SmaBounds | solutions/getSMA.cpp:19-22 | every entry lies within any bounds of the input |
| SimpleMovingAverage.SmaConstant | solutions/getSMA.cpp:19-22 | a constant input gives the same constant output |
| SimpleMovingAverage.SmaNegativeWindow | solutions/getSMA.cpp:17-22 | a negative `k` gives zero everywhere |
| ExponentialMovingAverage.GetEWMA | solutions/getEWMA.cpp:7-22 | a fresh result of length `n + 1` with entry 0 equal to `x[0]` and each later entry `alpha x[i-1] + (1 - alpha) ewma[i-1]` |
| ExponentialMovingAverage.EwmaSecond | solutions/getEWMA.cpp:13-17 | `ewma[1] == x[0]` for every `alpha` |
| ExponentialMovingAverage.EwmaAlphaZero | solutions/getEWMA.cpp:17 | with `alpha = 0` every entry is `x[0]` |
| ExponentialMovingAverage.EwmaAlphaOne | solutions/getEWMA.cpp:17 | with `alpha = 1` entry `i >= 1` is `x[i-1]` |
| ExponentialMovingAverage.EwmaBounds | solutions/getEWMA.cpp:17 | for `0 <= alpha <= 1` every entry stays within any bounds of the input |
| VecStatistics.GetVecMean | progs/prog2/getVecMean.cpp:6-16 | the sum of the elements divided by their count, for a non-empty vector |
| Series.MeanBounds | progs/prog2/getVecMean.cpp:11-15 | the mean lies between any lower and upper bound of the elements |
| VecStatistics.MeanConstant | progs/prog2/getVecMean.cpp:11-15 | a constant vector has that constant as its mean |
| VecStatistics.MeanScale | progs/prog2/getVecMean.cpp:11-15 | scaling every element by `c` scales the mean by `c` |
| VecStatistics.MeanShift | progs/prog2/getVecMean.cpp:11-15 | adding `c` to every element adds `c` to the mean |
| VecStatistics.GetVecStdDev | progs/prog2/getVecStdDev.cpp:7-17 | `sqrt` of the squared deviations from the mean over `n - 1`, with the mean recomputed on every pass giving the same value; under the square-root law the result is non-negative and its square is that variance |
| VecStatistics.SumSquaredDeviationsNonNegative | progs/prog2/getVecStdDev.cpp:12-14 | the accumulated squared deviations are never negative |
| VecStatistics.VarianceNonNegative | progs/prog2/getVecStdDev.cpp:13-16 | the corrected variance is never negative |
| VecStatistics.VarianceConstant | progs/prog2/getVecStdDev.cpp:12-16 | a constant vector has variance 0 |
| VecStatistics.VarianceShift | progs/prog2/getVecStdDev.cpp:12-16 | adding a constant to every element leaves the variance unchanged |
| CouponBond.Discounted | functions/getCouponBondPrice2.cpp:18 | the discounted face value compounds back to the face value over `n m` periods |
| CouponBond.GetCouponBondPrice2 | functions/getCouponBondPrice2.cpp:5-22 | the price is the sum over periods `1 .. n m` of the coupon `coupon f / m` discounted by `(1 + ytm/m)^i`, plus the face value discounted over `n m` periods |
| CouponBond.NoPeriods | functions/getCouponBondPrice2.cpp:14-18 | `n m = 0` prices at the face value |
| CouponBond.ZeroYield | functions/getCouponBondPrice2.cpp:14-18 | when `n m >= 0`, the price at zero yield is `f (1 + coupon n)` |
| CouponBond.ZeroCoupon | functions/getCouponBondPrice2.cpp:14-18 | without coupons the price is the discounted face value |
| CouponBond.LinearInFace | functions/getCouponBondPrice2.cpp:14-18 | the price is `f` times the price of a unit face value |
| CouponBond.PricePositive | functions/getCouponBondPrice2.cpp:14-18 | positive face, non-negative coupon, `m >= 1` and a positive period base give a positive price |
| ZeroCouponBond.GetZeroCouponBondPrice2 | functions/getZeroCouponBondPrice2.cpp:5-12 | the price compounded over `n` periods at `1 + ytm` gives back the face value |
| ZeroCouponBond.NoDiscount | functions/getZeroCouponBondPrice2.cpp:10 | `n = 0` or `ytm = 0` prices at the face value |
| ZeroCouponBond.PricePositive | functions/getZeroCouponBondPrice2.cpp:10 | a positive face value and a positive base give a positive price |
| ZeroCouponBond.IsCouponBondWithoutCoupon | functions/getZeroCouponBondPrice2.cpp:10 | the zero-coupon price equals the coupon-bond price with `coupon = 0` and `m = 1` |
| Gaussian.GaussianSource.Next | progs/prog2/AsianOption.cpp:31 | each call of the sampler returns the next variate of the stream and advances the count by one |
| AsianOptions.GeneratedPath | progs/prog2/AsianOption.cpp:28-33 | a generated path has exactly `nInt` entries |
| AsianOptions.GeneratedPathEntry | progs/prog2/AsianOption.cpp:30-32 | entry `i` of a generated path is `spot exp` of the accumulated shock after `i + 1` steps |
| AsianOptions.Payoff | progs/prog2/AsianOption.cpp:78-98 | a replication's payoff is non-negative, at least the intrinsic value `mean - strike` (call) or `strike - mean` (put), and equal to either that value or zero |
| AsianOptions.AsianOption.constructor | progs/prog2/AsianOption.cpp:8-22 | all six parameters are stored and a first path of `nInt` entries is generated from the next `nInt` draws |
| AsianOptions.AsianOption.GeneratePath | progs/prog2/AsianOption.cpp:25-34 | the buffer is replaced, whatever it held, by the `nInt` entries `spot exp(cumShocks)` of the path of the next `nInt` draws; exactly `nInt` draws are consumed; no other field changes |
| AsianOptions.AsianOption.GetArithmeticMean | progs/prog2/AsianOption.cpp:37-46 | the sum of the `nInt` entries divided by `nInt` |
| AsianOptions.AsianOption.GetGeometricMean | progs/prog2/AsianOption.cpp:50-59 | `exp` of the mean of the logarithms of the entries |
| AsianOptions.AsianOption.Replicate | progs/prog2/AsianOption.cpp:79-82 | one replication consumes `nInt` draws, leaves that path in the buffer and returns the floored payoff of its mean |
| AsianOptions.AsianOption.Price | progs/prog2/AsianOption.cpp:73-86 | `nReps` replications of regenerate, summarise and floor, consuming `nInt` draws each, discounted as `exp(-r T) rollingSum / nReps`; the buffer ends with the last replication's path |
| AsianOptions.AsianOption.GetArithmeticAsianCallPrice | progs/prog2/AsianOption.cpp:73-86 | the replication loop on the arithmetic mean with the call floor |
| AsianOptions.AsianOption.GetArithmeticAsianPutPrice | progs/prog2/AsianOption.cpp:89-102 | the replication loop on the arithmetic mean with the put floor |
| AsianOptions.AsianOption.GetGeometricAsianCallPrice | progs/prog2/AsianOption.cpp:105-118 | the replication loop on the geometric mean with the call floor |
| AsianOptions.AsianOption.GetGeometricAsianPutPrice | progs/prog2/AsianOption.cpp:121-134 | the replication loop on the geometric mean with the put floor |
| AsianOptions.AsianOption.Invoke | progs/prog2/AsianOption.cpp:137-143 | ('A','C'), ('A','P'), ('G','C'), ('G','P') run the matching pricer; every other pair returns -99 and changes nothing |
| AsianProperties.PayoffParity | progs/prog2/AsianOption.cpp:81-97 | for the same mean, call payoff minus put payoff is `mean - strike` |
| AsianProperties.PayoffMonotone | progs/prog2/AsianOption.cpp:81-97 | a call payoff does not fall and a put payoff does not rise as the mean rises |
| AsianProperties.RollingSumNonNegative | progs/prog2/AsianOption.cpp:78-82 | the rolling sum of payoffs is never negative |
| AsianProperties.AsianPriceNonNegative | progs/prog2/AsianOption.cpp:84 | with a positive `exp` every price is non-negative |
| AsianProperties.NegativeReplications | progs/prog2/AsianOption.cpp:78-84 | a negative `nReps` runs no replication and prices at zero |
| AsianProperties.RollingSumParity | progs/prog2/AsianOption.cpp:78-98 | on the same draws the call's rolling sum exceeds the put's by the summed means less `nReps` strikes |
| AsianProperties.AsianParity | progs/prog2/AsianOption.cpp:84-100 | on the same draws call price minus put price is `exp(-r T)` times the summed means less `nReps` strikes, over `nReps` |
| AsianProperties.CumShocksClosedForm | progs/prog2/AsianOption.cpp:26-32 | the shock after `i` steps is `i` drifts plus `vol sqrt(T/nInt)` times the sum of the draws |
| AsianProperties.ZeroVolatilityPath | progs/prog2/AsianOption.cpp:26-32 | with zero volatility entry `i` is `spot exp((i + 1) r T / nInt)` whatever the draws |
| AsianProperties.PathPositive | progs/prog2/AsianOption.cpp:30-33 | a positive spot gives a positive path entry everywhere |
| AsianProperties.SummaryPositive | progs/prog2/AsianOption.cpp:37-59 | both means of a positive path are positive |
| AsianProperties.FlatPathSummary | progs/prog2/AsianOption.cpp:37-59 | on a flat path both means return its level |
| AsianProperties.CodeRoundTrip | progs/prog2/AsianOption.cpp:137-143 | every pricer's code pair selects that pricer |
| AsianProperties.ModeOfOnlyCodes | progs/prog2/AsianOption.cpp:137-143 | a selected pricer's code is the pair given, and exactly the four pairs select a pricer |
| SimpleMonteCarlo.RunSimpleMonteCarlo1 | progs/prog1/runSimpleMonteCarlo1.cpp:6-33 | exactly `NumberOfPaths` draws are consumed; the result is the sum of the positive `movedSpot exp(sqrt(vol^2 T) g_i) - Strike` over the paths, divided by their count and multiplied by `exp(-r T)` |
| SimpleMonteCarlo.PayoffSumNonNegative | progs/prog1/runSimpleMonteCarlo1.cpp:24-26 | the running sum of payoffs is never negative |
| SimpleMonteCarlo.EstimateNonNegative | progs/prog1/runSimpleMonteCarlo1.cpp:29-31 | with a positive `exp` the estimate is non-negative |
| SimpleMonteCarlo.PayoffSumOutOfMoney | progs/prog1/runSimpleMonteCarlo1.cpp:24-26 | when no simulated spot exceeds the strike nothing is added |
| SimpleMonteCarlo.EstimateOutOfMoney | progs/prog1/runSimpleMonteCarlo1.cpp:26-31 | if the strike is at least every simulated spot the estimate is 0 |
| SimpleMonteCarlo.OneStepPathIsTerminalSpot | progs/prog1/runSimpleMonteCarlo1.cpp:13-23 | a one-step Asian path (progs/prog2/AsianOption.cpp lines 26-32) ends at the European simulated spot for the same draw, given `exp` additivity, the square-root law, `vol >= 0` and `T >= 0` |

## Left out

- `getOneGaussianByBoxMueller`: the sampler is an oracle stream of reals. Its use of the global `rand()` state, its rejection loop that ends only almost surely, and its reachable `log(0)` are not modelled.
- Floating point is modelled as `real`. Rounding, NaN, infinities and `-0.0` are not modelled, nor are statistical or convergence claims about the estimates.
- Integer widths are unbounded: `n * m`, the loop counters and `unsigned long NumberOfPaths` cannot overflow in the model.
- `printPath` is console output. The command-line programs, the R registration glue and the Rcpp wrappers are not part of this model.
- Rcpp default arguments (`k = 7`, `alpha = 0.05`) are not modelled; every argument is explicit.
- Several members require what the source leaves to IEEE arithmetic:
  - `SimpleMovingAverage.GetSMA`: `k != 0`, since `k = 0` divides zero by zero.
  - `VecStatistics.GetVecMean`: a non-empty vector, since an empty one divides zero by zero.
  - `VecStatistics.GetVecStdDev`: a size other than 1, since one element divides by zero. An empty vector is allowed and gives `sqrt(0)`.
  - `ExponentialMovingAverage.GetEWMA`: a non-empty input, since `x[0]` is read unconditionally.
  - `CouponBond.GetCouponBondPrice2`: `m != 0`, and a non-zero `1 + ytm/m` whenever `n m != 0`. These keep the divisions defined. The loop also reads `1 + ytm/m` from a local computed once, which is the same value the source recomputes on every pass.
  - `ZeroCouponBond.GetZeroCouponBondPrice2`: a non-zero `1 + ytm` unless `n = 0`.
  - `AsianOptions.AsianOption.constructor`: `nInt >= 1`. With `nInt = 0` the source divides by zero for a drift it never uses and leaves an empty buffer; the means then divide zero by zero. A negative `nInt` is excluded too. The source handles it without error: the buffer stays empty, the arithmetic mean is `0 / nInt = 0`, the geometric mean is `exp(0) = 1`, and the prices are finite. `AsianOptions.AsianOption.GeneratePath` requires the same.
  - `AsianOptions.AsianOption.Price`: `nReps != 0`, since zero divides by zero. The same holds for the four pricers and for `AsianOptions.AsianOption.Invoke` when the codes select one.
  - `SimpleMonteCarlo.RunSimpleMonteCarlo1`: at least one path, since zero paths divide zero by zero.
- `CouponBond.PricePositive`: states positivity only for `m >= 1`. With a negative `m` the coupon `coupon f / m` is negative and the price can be negative.
- `AsianProperties.SummaryPositive`: does not prove that the geometric mean is at most the arithmetic mean. That needs the concavity of `log`, which the uninterpreted functions do not carry.
