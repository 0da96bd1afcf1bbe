/**
 * `RandomIntSource` of package `source`. Construction draws one seed pair
 * from the registry; each tick draws `rng.IntN(max - min + 1)`, which is the
 * parameter `r` (the generator itself is not modelled: any `r` in
 * [0, n) is a possible draw). `min`, `max` and the arithmetic on them are
 * Go's 64-bit `int`.
 */
module RandomIntSources {
  import opened Wrappers
  import opened Sources
  import opened Seeds

  /** The argument of `IntN` in `run`: `max - min + 1` in 64-bit arithmetic. */
  function Span(min: Int64, max: Int64): (n: int)
    ensures -TwoTo63 <= n < TwoTo63
    ensures min <= max && max as int - min as int + 1 < TwoTo63 ==> n == max as int - min as int + 1
  {
    WrapInt64(max as int - min as int + 1) as int
  }

  /** The generated value for a draw `r`: `min + r` in 64-bit arithmetic. */
  function Generate(min: Int64, max: Int64, r: int): (v: int)
    ensures -TwoTo63 <= v < TwoTo63
    ensures -TwoTo63 <= min as int + r < TwoTo63 ==> v == min as int + r
  {
    WrapInt64(min as int + r) as int
  }

  /**
   * With a range where max >= min and a draw in [0, max - min + 1) (IntN only
   * returns one when its argument is positive), the value lies in [min, max].
   */
  lemma GenerateInRange(min: Int64, max: Int64, r: int)
    requires min <= max
    requires 0 <= r < Span(min, max)
    ensures min as int <= Generate(min, max, r) <= max as int
  {
  }

  /**
   * Nothing checks the range. A reversed range whose span overflows to a
   * positive number is drawn from: min = 2^63 - 1 and max = -2^63 give a span
   * of 2, and the draw 1 delivers -2^63, below min. A reversed range whose
   * span stays non-positive (min = 5, max = 1) makes IntN fault at the
   * first tick: no draw exists.
   */
  lemma ReversedRanges()
    ensures Span((TwoTo63 - 1) as Int64, (-TwoTo63) as Int64) == 2
    ensures Generate((TwoTo63 - 1) as Int64, (-TwoTo63) as Int64, 1) == -TwoTo63
    ensures Span(5, 1) <= 0
  {
  }

  /**
   * A range at least 2^63 wide has a span that wraps to zero or below, so the
   * first tick faults in IntN: no draw exists. The full range of `int` is one.
   */
  lemma WideRanges(min: Int64, max: Int64)
    requires min <= max && max as int - min as int + 1 >= TwoTo63
    ensures Span(min, max) <= 0
    ensures Span((-TwoTo63) as Int64, (TwoTo63 - 1) as Int64) == 0
  {
  }

  class RandomIntSource {
    const min: Int64
    const max: Int64
    /** The seed pair of the source's generator. */
    const seed: (UInt64, UInt64)
    /** How many draws the generator has made. */
    var draws: nat
    var started: bool
    var finished: bool
    var clockSubscriptions: nat
    var subscribers: seq<Channel>
    var generationCount: nat

    ghost predicate Valid()
      reads this
    {
      && clockSubscriptions == (if started then 1 else 0)
      && (finished ==> started)
      && draws == generationCount
      && (!started ==> subscribers == [] && generationCount == 0)
    }

    /**
     * `NewRandomIntSource(clk, min, max)`: exactly one seed pair is drawn from
     * the registry; the range is not checked.
     */
    constructor (reg: Registry, lo: Int64, hi: Int64, now: UInt64)
      modifies reg
      ensures Valid()
      ensures (seed, reg.State()) == NewRandStep(old(reg.State()), now)
      ensures min == lo && max == hi && !started && !finished
      ensures subscribers == [] && generationCount == 0
    {
      var seed1, seed2 := reg.NewRand(now);
      min, max := lo, hi;
      seed := (seed1, seed2);
      draws := 0;
      started, finished := false, false;
      clockSubscriptions := 0;
      subscribers := [];
      generationCount := 0;
    }

    /**
     * `Subscribe`: append one fresh channel, leaving the others as they are;
     * only the first call subscribes to the clock.
     */
    method Subscribe() returns (ch: nat)
      requires Valid()
      modifies this
      ensures Valid() && started
      ensures ch == |old(subscribers)| && subscribers == old(subscribers) + [Fresh]
      ensures clockSubscriptions == old(clockSubscriptions) + (if old(started) then 0 else 1)
      ensures generationCount == old(generationCount) && finished == old(finished)
    {
      if !started {
        started := true;
        clockSubscriptions := clockSubscriptions + 1;
      }
      ch := |subscribers|;
      subscribers := subscribers + [Fresh];
    }

    /**
     * One tick of `run` with draw `r`: compute one value, count one
     * generation and deliver that same value to every subscriber in order.
     */
    method Tick(r: int)
      requires Valid()
      requires started && !finished ==> 0 <= r < Span(min, max)
      modifies this
      ensures Valid()
      ensures started == old(started) && finished == old(finished) && clockSubscriptions == old(clockSubscriptions)
      ensures old(started && !finished) ==>
        && generationCount == old(generationCount) + 1
        && subscribers == Sent(old(subscribers), Generate(min, max, r))
      ensures !old(started && !finished) ==>
        generationCount == old(generationCount) && subscribers == old(subscribers)
    {
      if started && !finished {
        var value := Generate(min, max, r);
        draws := draws + 1;
        generationCount := generationCount + 1;
        var subs := subscribers;
        subscribers := Broadcast(subs, value);
      }
    }

    /** The end of `run`: the clock stream closed, so close every subscriber. */
    method ClockClosed()
      requires Valid()
      modifies this
      ensures Valid()
      ensures generationCount == old(generationCount) && started == old(started)
      ensures old(started && !finished) ==> finished && subscribers == ClosedAll(old(subscribers))
      ensures !old(started && !finished) ==> finished == old(finished) && subscribers == old(subscribers)
    {
      if started && !finished {
        subscribers := CloseAll(subscribers);
        finished := true;
      }
    }

    /** `Stats`: both counts; nothing changes. */
    method Stats() returns (st: SourceStats)
      ensures st == SourceStats(generationCount, |subscribers|)
    {
      st := SourceStats(generationCount, |subscribers|);
    }
  }
}
