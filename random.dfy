/**
 * The generator's single source of randomness, as an oracle.
 *
 * The seeded pseudorandom stream is an arbitrary function from draw number
 * to raw value; each bounded draw consumes the next raw value. Every draw is
 * logged with its bounds, so callers can state how many draws an operation
 * consumes, in what order, over which ranges and with which results.
 */
module Random {

  /** One draw: the inclusive bounds asked for and the value obtained. */
  datatype Draw = Draw(lo: int, hi: int, value: int)

  /** The draws of a log, in order, with their bounds respected. */
  predicate InBounds(ds: seq<Draw>)
  {
    forall k :: 0 <= k < |ds| ==> ds[k].lo <= ds[k].value <= ds[k].hi
  }

  class Rng {
    /** The seeded raw stream: raw(k) is the k-th underlying random value. */
    const raw: nat -> nat
    /** How many draws have been consumed. */
    var used: nat
    /** Every draw made so far, in order. */
    ghost var draws: seq<Draw>

    ghost predicate Valid()
      reads this
    {
      |draws| == used && InBounds(draws)
    }

    constructor (raw: nat -> nat)
      ensures Valid() && this.raw == raw && draws == []
    {
      this.raw := raw;
      used := 0;
      draws := [];
    }

    /** random.randint(lo, hi): a value in [lo, hi], the next draw of the stream. */
    method RandInt(lo: int, hi: int) returns (r: int)
      requires Valid() && lo <= hi
      modifies this
      ensures Valid()
      ensures lo <= r <= hi
      ensures used == old(used) + 1
      ensures draws == old(draws) + [Draw(lo, hi, r)]
    {
      r := lo + raw(used) % (hi - lo + 1);
      used := used + 1;
      draws := draws + [Draw(lo, hi, r)];
    }

    /** random.choice(s): the element at an index drawn uniformly from [0, |s| - 1]. */
    method Choice<T>(s: seq<T>) returns (x: T, k: nat)
      requires Valid() && |s| > 0
      modifies this
      ensures Valid()
      ensures k < |s| && x == s[k]
      ensures used == old(used) + 1
      ensures draws == old(draws) + [Draw(0, |s| - 1, k)]
    {
      var i := RandInt(0, |s| - 1);
      k := i;
      x := s[k];
    }
  }
}
