/** The standard-normal sampler as an oracle. The code draws each variate from a
    process-wide pseudo-random source through a rejection loop; the model gives
    the source as a fixed infinite stream of reals and counts how many of them
    have been consumed. */
module Gaussian {

  /** The variate at position `k` of the stream `g`. */
  function Draw(g: nat -> real, k: nat): real
  {
    g(k)
  }

  class GaussianSource {
    /** The variates the sampler will return, in order. */
    const draws: nat -> real
    /** How many variates have been drawn so far. */
    var used: nat

    constructor (draws: nat -> real)
      ensures this.draws == draws && used == 0
    {
      this.draws := draws;
      used := 0;
    }

    /** One call of the sampler: the next variate of the stream. */
    method Next() returns (z: real)
      modifies this
      ensures z == Draw(draws, old(used))
      ensures used == old(used) + 1
    {
      z := Draw(draws, used);
      used := used + 1;
    }
  }
}
