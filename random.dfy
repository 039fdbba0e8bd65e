/** The pseudo-random generator the synthetic backend draws from. Only the
    range of each draw is specified; the stream itself (Python uses a Mersenne
    Twister) is not reproduced, so the body is a plain linear congruential
    generator. Every value handed out is recorded in `draws`, so callers can
    state their results in terms of the values drawn. */
module Random {

  class Rng {
    var state: nat
    ghost var draws: seq<int>

    /** `random.seed(seed)` */
    constructor (seed: nat)
      ensures state == seed && draws == []
    {
      state := seed;
      draws := [];
    }

    /** `random.randint(lo, hi)`: a value in [lo, hi], both ends included. */
    method RandInt(lo: int, hi: int) returns (v: int)
      requires lo <= hi
      modifies this
      ensures lo <= v <= hi
      ensures draws == old(draws) + [v]
    {
      state := (state * 25214903917 + 11) % 281474976710656;
      v := lo + state % (hi - lo + 1);
      draws := draws + [v];
    }

    /** The index `random.choice` picks from a list of `n` entries: a value in [0, n). */
    method Choice(n: nat) returns (k: nat)
      requires n > 0
      modifies this
      ensures k < n
      ensures draws == old(draws) + [k]
    {
      var v := RandInt(0, n - 1);
      k := v;
    }
  }
}
