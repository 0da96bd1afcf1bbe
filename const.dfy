/**
 * `ConstSource` of package `source`. The clock is replaced by two calls: `Tick`
 * is one tick received by the producer loop, `ClockClosed` is the end of the
 * clock stream. Only a source that has subscribed to the clock sees either.
 */
module ConstSources {
  import opened Sources

  class ConstSource {
    const value: int
    /** Whether the once has fired: the source has subscribed to the clock and its loop runs. */
    var started: bool
    /** Whether the clock stream has ended and the loop has exited. */
    var finished: bool
    /** How many times the source has subscribed to the clock. */
    var clockSubscriptions: nat
    var subscribers: seq<Channel>
    var generationCount: nat

    ghost predicate Valid()
      reads this
    {
      && clockSubscriptions == (if started then 1 else 0)
      && (finished ==> started)
      && (!started ==> subscribers == [] && generationCount == 0)
    }

    /** `NewConstSource(clk, value)`. */
    constructor (v: int)
      ensures Valid()
      ensures value == v && !started && !finished
      ensures subscribers == [] && generationCount == 0
    {
      value := v;
      started, finished := false, false;
      clockSubscriptions := 0;
      subscribers := [];
      generationCount := 0;
    }

    /**
     * `Subscribe`: append one fresh channel, leaving the others as they are;
     * only the first call subscribes to the clock. The result is the new
     * channel's position.
     */
    method Subscribe() returns (ch: nat)
      requires Valid()
      modifies this
      ensures Valid() && started
      ensures ch == |old(subscribers)| && subscribers == old(subscribers) + [Fresh]
      ensures clockSubscriptions == old(clockSubscriptions) + (if old(started) then 0 else 1)
      ensures generationCount == old(generationCount) && finished == old(finished)
    {
      if !started {
        started := true;
        clockSubscriptions := clockSubscriptions + 1;
      }
      ch := |subscribers|;
      subscribers := subscribers + [Fresh];
    }

    /** One tick of `run`: count one generation and deliver the constant to every subscriber. */
    method Tick()
      requires Valid()
      modifies this
      ensures Valid()
      ensures started == old(started) && finished == old(finished) && clockSubscriptions == old(clockSubscriptions)
      ensures old(started && !finished) ==>
        generationCount == old(generationCount) + 1 && subscribers == Sent(old(subscribers), value)
      ensures !old(started && !finished) ==>
        generationCount == old(generationCount) && subscribers == old(subscribers)
    {
      if started && !finished {
        var v := value;
        generationCount := generationCount + 1;
        var subs := subscribers;
        subscribers := Broadcast(subs, v);
      }
    }

    /**
     * `m` ticks of `run` in a row: a running source counts m generations and
     * each subscriber receives the constant m more times.
     */
    method TickTimes(m: nat)
      requires Valid()
      modifies this
      ensures Valid()
      ensures started == old(started) && finished == old(finished) && clockSubscriptions == old(clockSubscriptions)
      ensures old(started && !finished) ==>
        generationCount == old(generationCount) + m && subscribers == Feed(old(subscribers), Repeat(value, m))
      ensures !old(started && !finished) ==>
        generationCount == old(generationCount) && subscribers == old(subscribers)
    {
      var i := 0;
      while i < m
        invariant 0 <= i <= m && Valid()
        invariant started == old(started) && finished == old(finished)
        invariant clockSubscriptions == old(clockSubscriptions)
        invariant old(started && !finished) ==>
          generationCount == old(generationCount) + i
          && Feed(subscribers, Repeat(value, m - i)) == Feed(old(subscribers), Repeat(value, m))
        invariant !old(started && !finished) ==>
          generationCount == old(generationCount) && subscribers == old(subscribers)
      {
        Tick();
        assert Repeat(value, m - i)[1..] == Repeat(value, m - (i + 1));
        i := i + 1;
      }
    }

    /** The end of `run`: the clock stream closed, so close every subscriber. */
    method ClockClosed()
      requires Valid()
      modifies this
      ensures Valid()
      ensures generationCount == old(generationCount) && started == old(started)
      ensures old(started && !finished) ==> finished && subscribers == ClosedAll(old(subscribers))
      ensures !old(started && !finished) ==> finished == old(finished) && subscribers == old(subscribers)
    {
      if started && !finished {
        subscribers := CloseAll(subscribers);
        finished := true;
      }
    }

    /** `Stats`: both counts; nothing changes. */
    method Stats() returns (st: SourceStats)
      ensures st == SourceStats(generationCount, |subscribers|)
    {
      st := SourceStats(generationCount, |subscribers|);
    }
  }

  /**
   * A ConstSource with k subscribers before the first tick: after M ticks
   * every subscriber has received exactly M copies of the constant.
   */
  lemma ConstTicks(subs: seq<Channel>, c: int, m: nat)
    requires forall i :: 0 <= i < |subs| ==> subs[i] == Fresh
    ensures |Feed(subs, Repeat(c, m))| == |subs|
    ensures forall i :: 0 <= i < |subs| ==> Feed(subs, Repeat(c, m))[i].received == Repeat(c, m)
  {
    FeedDelivers(subs, Repeat(c, m));
  }
}
