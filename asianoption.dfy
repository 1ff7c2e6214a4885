/** The Asian option pricer of progs/prog2/AsianOption.cpp, with the field
    layout of packages/optionPricer2/src/AsianOption.h. An option object holds
    its six parameters and a path buffer that every replication clears and
    refills from the Gaussian sampler. */
module AsianOptions {
  import opened Series
  import opened Elementary
  import opened Gaussian

  datatype Option<T> = None | Some(value: T)

  /** How a path is summarised. */
  datatype Average = Arithmetic | Geometric

  /** Which way the payoff is floored. */
  datatype Side = Call | Put

  /** One of the four pricers. */
  datatype Mode = Mode(average: Average, side: Side)

  /** The six parameters an option object stores: the number of time steps,
      the strike, the spot, the volatility, the risk-free rate and the expiry. */
  datatype OptionParams = OptionParams(nInt: int, strike: real, spot: real, vol: real, r: real, expiry: real)

  /** Log-drift per step, `(r T - vol^2 T / 2) / nInt`. */
  function Drift(r: real, vol: real, expiry: real, nInt: int): real
    requires nInt >= 1
  {
    (r * expiry - 0.5 * vol * vol * expiry) / nInt as real
  }

  /** The factor each Gaussian draw is scaled by, `vol * sqrt(T / nInt)`. */
  function ShockScale(m: CMath, vol: real, expiry: real, nInt: int): real
    requires nInt >= 1
  {
    vol * Sqrt(m, expiry / nInt as real)
  }

  /** One step's log-increment: the drift plus the scaled draw `z`. */
  function Shock(m: CMath, r: real, vol: real, expiry: real, nInt: int, z: real): real
    requires nInt >= 1
  {
    Drift(r, vol, expiry, nInt) + ShockScale(m, vol, expiry, nInt) * z
  }

  /** The accumulated log-shock after `count` steps whose draws start at
      position `start` of the stream `g`. */
  function CumShocks(m: CMath, g: nat -> real, p: OptionParams, start: nat, count: nat): real
    requires p.nInt >= 1
  {
    if count == 0 then 0.0
    else CumShocks(m, g, p, start, count - 1) + Shock(m, p.r, p.vol, p.expiry, p.nInt, Draw(g, start + count - 1))
  }

  /** The sum of `count` draws from position `start`. */
  function DrawSum(g: nat -> real, start: nat, count: nat): real
  {
    if count == 0 then 0.0 else DrawSum(g, start, count - 1) + Draw(g, start + count - 1)
  }

  /** The path one call of `generatePath` produces from the draws at positions
      `start .. start + nInt`: its `nInt` entries in order. */
  function GeneratedPath(m: CMath, g: nat -> real, p: OptionParams, start: nat): (path: seq<real>)
    requires p.nInt >= 1
    ensures |path| == p.nInt
  {
    PathPrefix(m, g, p, start, p.nInt)
  }

  /** The first `count` entries of the path, as the loop has appended them. */
  function PathPrefix(m: CMath, g: nat -> real, p: OptionParams, start: nat, count: nat): (path: seq<real>)
    requires p.nInt >= 1
    ensures |path| == count
  {
    if count == 0 then [] else PathPrefix(m, g, p, start, count - 1) + [PathEntry(m, g, p, start, count - 1)]
  }

  /** Entry `i` of a generated path: the spot times `exp` of the accumulated
      shock after `i + 1` steps. */
  function PathEntry(m: CMath, g: nat -> real, p: OptionParams, start: nat, i: nat): real
    requires p.nInt >= 1
  {
    p.spot * Exp(m, CumShocks(m, g, p, start, i + 1))
  }

  /** Entry `j` of every prefix that reaches it is `PathEntry(j)`. */
  lemma {:induction false} PathPrefixEntry(m: CMath, g: nat -> real, p: OptionParams, start: nat, count: nat, j: nat)
    requires p.nInt >= 1 && j < count
    ensures PathPrefix(m, g, p, start, count)[j] == PathEntry(m, g, p, start, j)
  {
    if j < count - 1 {
      PathPrefixEntry(m, g, p, start, count - 1, j);
    }
  }

  /** Entry `j` of the generated path is the spot grown by `j + 1` shocks. */
  lemma GeneratedPathEntry(m: CMath, g: nat -> real, p: OptionParams, start: nat, j: nat)
    requires p.nInt >= 1 && j < p.nInt
    ensures GeneratedPath(m, g, p, start)[j] == PathEntry(m, g, p, start, j)
  {
    PathPrefixEntry(m, g, p, start, p.nInt, j);
  }

  lemma ExtendPath(path: seq<real>, x: real, m: CMath, g: nat -> real, p: OptionParams, start: nat)
    requires p.nInt >= 1
    requires forall j :: 0 <= j < |path| ==> path[j] == PathEntry(m, g, p, start, j)
    requires x == PathEntry(m, g, p, start, |path|)
    ensures forall j :: 0 <= j < |path| + 1 ==> (path + [x])[j] == PathEntry(m, g, p, start, j)
  {
  }

  /** A buffer holding every entry of the path is the generated path. */
  lemma PathIsGenerated(path: seq<real>, m: CMath, g: nat -> real, p: OptionParams, start: nat)
    requires p.nInt >= 1 && |path| == p.nInt
    requires forall j :: 0 <= j < |path| ==> path[j] == PathEntry(m, g, p, start, j)
    ensures path == GeneratedPath(m, g, p, start)
  {
    forall j | 0 <= j < |path|
      ensures path[j] == GeneratedPath(m, g, p, start)[j]
    {
      GeneratedPathEntry(m, g, p, start, j);
    }
  }

  /** The loop body's update of the accumulated shock is one more step of
      `CumShocks`. */
  lemma ShockStep(m: CMath, g: nat -> real, p: OptionParams, start: nat, i: nat, z: real, cumShocks: real,
                  drift: real, scale: real)
    requires p.nInt >= 1 && z == Draw(g, start + i)
    requires cumShocks == CumShocks(m, g, p, start, i)
    requires drift == Drift(p.r, p.vol, p.expiry, p.nInt) && scale == ShockScale(m, p.vol, p.expiry, p.nInt)
    ensures cumShocks + (drift + scale * z) == CumShocks(m, g, p, start, i + 1)
  {
  }

  /** The value the loop body appends is the next path entry. */
  lemma AppendedIsEntry(m: CMath, g: nat -> real, p: OptionParams, start: nat, i: nat, spot: real, cumShocks: real)
    requires p.nInt >= 1 && p.spot == spot
    requires cumShocks == CumShocks(m, g, p, start, i + 1)
    ensures spot * Exp(m, cumShocks) == PathEntry(m, g, p, start, i)
  {
  }

  /** The logarithms of the path entries. */
  function Logs(m: CMath, path: seq<real>): seq<real>
  {
    seq(|path|, i requires 0 <= i < |path| => Log(m, path[i]))
  }

  /** `exp` of the mean of the logarithms. */
  function GeometricMean(m: CMath, path: seq<real>): real
    requires |path| >= 1
  {
    Exp(m, Sum(Logs(m, path)) / |path| as real)
  }

  /** The summary a pricer takes of one path. */
  function Summary(m: CMath, average: Average, path: seq<real>): real
    requires |path| >= 1
  {
    match average
    case Arithmetic => Mean(path)
    case Geometric => GeometricMean(m, path)
  }

  /** The floored payoff of one replication: `max(summary - strike, 0)` for a
      call and `max(strike - summary, 0)` for a put. */
  function Payoff(side: Side, summary: real, strike: real): (pay: real)
    ensures pay >= 0.0
    ensures pay >= (if side == Call then summary - strike else strike - summary)
    ensures pay == 0.0 || pay == (if side == Call then summary - strike else strike - summary)
  {
    match side
    case Call => if summary > strike then summary - strike else 0.0
    case Put => if summary < strike then strike - summary else 0.0
  }

  /** Where the draws of replication `k` start: each replication uses `nInt`. */
  function ReplicationStart(p: OptionParams, start: nat, k: nat): nat
    requires p.nInt >= 1
  {
    start + k * p.nInt
  }

  lemma ReplicationStartStep(p: OptionParams, start: nat, k: nat)
    requires p.nInt >= 1
    ensures ReplicationStart(p, start, k + 1) == ReplicationStart(p, start, k) + p.nInt
  {
  }

  /** The payoffs of the first `reps` replications, summed in order. */
  function RollingSum(m: CMath, g: nat -> real, p: OptionParams, mode: Mode, start: nat, reps: nat): real
    requires p.nInt >= 1
  {
    if reps == 0 then 0.0
    else
      RollingSum(m, g, p, mode, start, reps - 1)
        + Payoff(mode.side, Summary(m, mode.average, GeneratedPath(m, g, p, ReplicationStart(p, start, reps - 1))), p.strike)
  }

  /** How many times a loop `for (i = 0; i < nReps; i++)` runs. */
  function Replications(nReps: int): nat
  {
    if nReps > 0 then nReps else 0
  }

  /** The discounted sample mean of the payoffs. A negative `nReps` runs no
      replication and divides zero by it. */
  function AsianPrice(m: CMath, g: nat -> real, p: OptionParams, mode: Mode, start: nat, nReps: int): real
    requires p.nInt >= 1 && nReps != 0
  {
    DiscountedMean(Discount(m, p.r, p.expiry), RollingSum(m, g, p, mode, start, Replications(nReps)), nReps)
  }

  /** The discount factor `exp(-r T)`. */
  function Discount(m: CMath, r: real, expiry: real): real
  {
    Exp(m, -r * expiry)
  }

  /** `discount * total / nReps`, the last line of every pricer. */
  function DiscountedMean(discount: real, total: real, nReps: int): real
    requires nReps != 0
  {
    discount * total / nReps as real
  }

  /** The pricer a pair of character codes selects: ('A','C'), ('A','P'),
      ('G','C'), ('G','P'), and none for every other pair. */
  function ModeOf(char1: char, char2: char): Option<Mode>
  {
    if char1 == 'A' && char2 == 'C' then Some(Mode(Arithmetic, Call))
    else if char1 == 'A' && char2 == 'P' then Some(Mode(Arithmetic, Put))
    else if char1 == 'G' && char2 == 'C' then Some(Mode(Geometric, Call))
    else if char1 == 'G' && char2 == 'P' then Some(Mode(Geometric, Put))
    else None
  }

  /** The character codes of a pricer. */
  function CodeOf(mode: Mode): (char, char)
  {
    (if mode.average == Arithmetic then 'A' else 'G', if mode.side == Call then 'C' else 'P')
  }

  class AsianOption {
    var thisPath: seq<real>
    var nInt: int
    var strike: real
    var spot: real
    var vol: real
    var r: real
    var expiry: real
    /** The <cmath> functions and the Gaussian sampler the methods call. */
    const math: CMath
    const rng: GaussianSource

    function Params(): OptionParams
      reads this`nInt, this`strike, this`spot, this`vol, this`r, this`expiry
    {
      OptionParams(nInt, strike, spot, vol, r, expiry)
    }

    /** At least one step, and a buffer holding one full path. */
    ghost predicate Valid()
      reads this
    {
      nInt >= 1 && |thisPath| == nInt
    }

    /** What a pricer run leaves behind: `nReps` replications consumed
        `nInt` draws each, the result is the discounted mean payoff, and the
        buffer holds the last replication's path. */
    twostate predicate Replicated(mode: Mode, nReps: int, price: real)
      reads this, rng
    {
      && Valid()
      && nReps != 0
      && rng.used == ReplicationStart(Params(), old(rng.used), Replications(nReps))
      && price == AsianPrice(math, rng.draws, Params(), mode, old(rng.used), nReps)
      && thisPath == (if nReps >= 1
                      then GeneratedPath(math, rng.draws, Params(), ReplicationStart(Params(), old(rng.used), nReps - 1))
                      else old(thisPath))
    }

    /** Stores the parameters and generates a first path. */
    constructor (nInt_: int, strike_: real, spot_: real, vol_: real, r_: real, expiry_: real,
                 math_: CMath, rng_: GaussianSource)
      requires nInt_ >= 1
      modifies rng_
      ensures Valid()
      ensures Params() == OptionParams(nInt_, strike_, spot_, vol_, r_, expiry_)
      ensures math == math_ && rng == rng_
      ensures rng.used == old(rng_.used) + nInt_
      ensures thisPath == GeneratedPath(math, rng.draws, Params(), old(rng_.used))
    {
      nInt := nInt_;
      strike := strike_;
      spot := spot_;
      vol := vol_;
      r := r_;
      expiry := expiry_;
      math := math_;
      rng := rng_;
      thisPath := [];
      new;
      GeneratePath();
    }

    /** `generatePath`: clears the buffer, then appends one entry per step,
        drawing one variate per step. Only the buffer and the sampler change. */
    method GeneratePath()
      requires nInt >= 1
      modifies this`thisPath, rng
      ensures Valid()
      ensures rng.used == old(rng.used) + nInt
      ensures thisPath == GeneratedPath(math, rng.draws, Params(), old(rng.used))
    {
      ghost var p, g, start := Params(), rng.draws, rng.used;
      var thisDrift := Drift(r, vol, expiry, nInt);
      var cumShocks := 0.0;
      thisPath := [];
      var i := 0;
      while i < nInt
        invariant 0 <= i <= nInt
        invariant rng.used == start + i
        invariant p == Params() && thisDrift == Drift(p.r, p.vol, p.expiry, p.nInt)
        invariant cumShocks == CumShocks(math, g, p, start, i)
        invariant |thisPath| == i
        invariant forall j :: 0 <= j < i ==> thisPath[j] == PathEntry(math, g, p, start, j)
      {
        var z := rng.Next();
        ShockStep(math, g, p, start, i, z, cumShocks, thisDrift, ShockScale(math, vol, expiry, nInt));
        cumShocks := cumShocks + (thisDrift + ShockScale(math, vol, expiry, nInt) * z);
        var entry := spot * Exp(math, cumShocks);
        AppendedIsEntry(math, g, p, start, i, spot, cumShocks);
        ExtendPath(thisPath, entry, math, g, p, start);
        thisPath := thisPath + [entry];
        i := i + 1;
      }
      PathIsGenerated(thisPath, math, g, p, start);
    }

    /** `getArithmeticMean`: the mean of the `nInt` buffered entries. */
    method GetArithmeticMean() returns (mean: real)
      requires Valid()
      ensures mean == Mean(thisPath)
    {
      var runningSum := 0.0;
      var i := 0;
      while i < nInt
        invariant 0 <= i <= nInt
        invariant runningSum == Sum(thisPath[..i])
      {
        assert thisPath[..i + 1][..i] == thisPath[..i];
        runningSum := runningSum + thisPath[i];
        i := i + 1;
      }
      assert thisPath[..nInt] == thisPath;
      mean := runningSum / nInt as real;
    }

    /** `getGeometricMean`: `exp` of the mean logarithm of the buffered entries. */
    method GetGeometricMean() returns (mean: real)
      requires Valid()
      ensures mean == GeometricMean(math, thisPath)
    {
      var runningSum := 0.0;
      var i := 0;
      while i < nInt
        invariant 0 <= i <= nInt
        invariant runningSum == Sum(Logs(math, thisPath)[..i])
      {
        assert Logs(math, thisPath)[..i + 1][..i] == Logs(math, thisPath)[..i];
        runningSum := runningSum + Log(math, thisPath[i]);
        i := i + 1;
      }
      assert Logs(math, thisPath)[..nInt] == Logs(math, thisPath);
      mean := Exp(math, runningSum / nInt as real);
    }

    /** One replication of the pricers' loop body: regenerate the path,
        summarise it, and floor the summary against the strike. */
    method Replicate(mode: Mode) returns (payoff: real)
      requires Valid()
      modifies this`thisPath, rng
      ensures Valid() && Params() == old(Params())
      ensures rng.used == old(rng.used) + nInt
      ensures thisPath == GeneratedPath(math, rng.draws, Params(), old(rng.used))
      ensures payoff == Payoff(mode.side, Summary(math, mode.average, thisPath), strike)
    {
      GeneratePath();
      var thisMean;
      if mode.average == Arithmetic {
        thisMean := GetArithmeticMean();
      } else {
        thisMean := GetGeometricMean();
      }
      payoff := Payoff(mode.side, thisMean, strike);
    }

    /** The replication loop the four pricers share: regenerate the path,
        summarise it, add the floored payoff, and finally discount the mean. */
    method Price(mode: Mode, nReps: int) returns (price: real)
      requires Valid() && nReps != 0
      modifies this`thisPath, rng
      ensures Replicated(mode, nReps, price)
    {
      ghost var p, g, start := Params(), rng.draws, rng.used;
      var rollingSum := 0.0;
      var i := 0;
      while i < nReps
        invariant Valid() && Params() == p
        invariant 0 <= i <= Replications(nReps)
        invariant rng.used == ReplicationStart(p, start, i)
        invariant rollingSum == RollingSum(math, g, p, mode, start, i)
        invariant i == 0 ==> thisPath == old(thisPath)
        invariant i >= 1 ==> thisPath == GeneratedPath(math, g, p, ReplicationStart(p, start, i - 1))
      {
        var payoff := Replicate(mode);
        rollingSum := rollingSum + payoff;
        ReplicationStartStep(p, start, i);
        i := i + 1;
      }
      assert i == Replications(nReps);
      price := DiscountedMean(Discount(math, r, expiry), rollingSum, nReps);
    }

    /** `getArithmeticAsianCallPrice`. */
    method GetArithmeticAsianCallPrice(nReps: int) returns (price: real)
      requires Valid() && nReps != 0
      modifies this`thisPath, rng
      ensures Replicated(Mode(Arithmetic, Call), nReps, price)
    {
      price := Price(Mode(Arithmetic, Call), nReps);
    }

    /** `getArithmeticAsianPutPrice`. */
    method GetArithmeticAsianPutPrice(nReps: int) returns (price: real)
      requires Valid() && nReps != 0
      modifies this`thisPath, rng
      ensures Replicated(Mode(Arithmetic, Put), nReps, price)
    {
      price := Price(Mode(Arithmetic, Put), nReps);
    }

    /** `getGeometricAsianCallPrice`. */
    method GetGeometricAsianCallPrice(nReps: int) returns (price: real)
      requires Valid() && nReps != 0
      modifies this`thisPath, rng
      ensures Replicated(Mode(Geometric, Call), nReps, price)
    {
      price := Price(Mode(Geometric, Call), nReps);
    }

    /** `getGeometricAsianPutPrice`. */
    method GetGeometricAsianPutPrice(nReps: int) returns (price: real)
      requires Valid() && nReps != 0
      modifies this`thisPath, rng
      ensures Replicated(Mode(Geometric, Put), nReps, price)
    {
      price := Price(Mode(Geometric, Put), nReps);
    }

    /** `operator()`: runs the pricer the two character codes name, or returns
        -99 and leaves everything unchanged for any other pair. */
    method Invoke(char1: char, char2: char, nReps: int) returns (price: real)
      requires Valid()
      requires ModeOf(char1, char2).Some? ==> nReps != 0
      modifies this`thisPath, rng
      ensures ModeOf(char1, char2).Some? ==> Replicated(ModeOf(char1, char2).value, nReps, price)
      ensures ModeOf(char1, char2).None? ==>
                price == -99.0 && Valid() && thisPath == old(thisPath) && rng.used == old(rng.used)
    {
      if char1 == 'A' && char2 == 'C' {
        price := GetArithmeticAsianCallPrice(nReps);
      } else if char1 == 'A' && char2 == 'P' {
        price := GetArithmeticAsianPutPrice(nReps);
      } else if char1 == 'G' && char2 == 'C' {
        price := GetGeometricAsianCallPrice(nReps);
      } else if char1 == 'G' && char2 == 'P' {
        price := GetGeometricAsianPutPrice(nReps);
      } else {
        price := -99.0;
      }
    }
  }
}
