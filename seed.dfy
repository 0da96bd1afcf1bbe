/**
 * Package `seed`: the process-wide registry that hands out seed pairs
 * (masterSeed, k) for k = 0, 1, 2, ... . The singleton and its `sync.Once`
 * become one `Registry` object whose `initialized` flag is "the once has
 * fired"; `time.Now().UnixNano()` is the parameter `now`.
 */
module Seeds {
  import opened Wrappers

  /** The registry as callers see it: nil, or a master seed, a stream counter and how it was created. */
  datatype RegistryState =
    | Uninitialized
    | Ready(masterSeed: UInt64, nextStream: UInt64, autoInit: bool)

  /** `Init(s)`: the first initialisation wins. */
  function InitStep(st: RegistryState, s: UInt64): RegistryState
  {
    if st.Ready? then st else Ready(s, 0, false)
  }

  /** `NewRand()`: initialise from the clock if needed, then hand out (masterSeed, nextStream) and bump the counter. */
  function NewRandStep(st: RegistryState, now: UInt64): ((UInt64, UInt64), RegistryState)
  {
    var r := if st.Ready? then st else Ready(now, 0, true);
    ((r.masterSeed, r.nextStream), r.(nextStream := IncUInt64(r.nextStream)))
  }

  /** `Current()`. */
  function CurrentOf(st: RegistryState): (UInt64, UInt64, bool)
  {
    if st.Uninitialized? then (0, 0, false) else (st.masterSeed, st.nextStream, st.autoInit)
  }

  /** The seed pairs of `n` consecutive `NewRand` calls, and the registry afterwards. */
  function Draws(st: RegistryState, n: nat, now: UInt64): (seq<(UInt64, UInt64)>, RegistryState)
  {
    if n == 0 then ([], st)
    else
      var before := Draws(st, n - 1, now);
      var step := NewRandStep(before.1, now);
      (before.0 + [step.0], step.1)
  }

  /** Whichever of Init and NewRand runs first initialises the registry; every later Init changes nothing. */
  lemma InitIsOneShot(st: RegistryState, s: UInt64, t: UInt64, now: UInt64)
    ensures InitStep(st, s).Ready?
    ensures InitStep(InitStep(st, s), t) == InitStep(st, s)
    ensures NewRandStep(st, now).1.Ready?
    ensures InitStep(NewRandStep(st, now).1, t) == NewRandStep(st, now).1
  {
  }

  /** A NewRand never changes the master seed or the way the registry was initialised. */
  lemma MasterSeedStable(st: RegistryState, now: UInt64)
    requires st.Ready?
    ensures NewRandStep(st, now).1.masterSeed == st.masterSeed
    ensures NewRandStep(st, now).1.autoInit == st.autoInit
  {
  }

  /**
   * After `Init(s)` and n NewRand calls, `Current()` is (s, n, false) and call
   * i received (s, i), counted modulo 2^64 like Go's uint64 counter.
   */
  lemma {:induction false} InitThenDraws(s: UInt64, n: nat, now: UInt64)
    ensures var d := Draws(InitStep(Uninitialized, s), n, now);
      && |d.0| == n
      && (forall i :: 0 <= i < n ==> d.0[i] == (s, (i % TwoTo64) as UInt64))
      && CurrentOf(d.1) == (s, (n % TwoTo64) as UInt64, false)
  {
    if n > 0 {
      InitThenDraws(s, n - 1, now);
      var before := Draws(InitStep(Uninitialized, s), n - 1, now);
      var prev := ((n - 1) % TwoTo64) as UInt64;
      assert before.1 == Ready(s, prev, false);
      var step := NewRandStep(before.1, now);
      assert ((n - 1) % TwoTo64 + 1) % TwoTo64 == n % TwoTo64;
      assert step == ((s, prev), Ready(s, (n % TwoTo64) as UInt64, false));
      var d := Draws(InitStep(Uninitialized, s), n, now);
      assert d.0 == before.0 + [(s, prev)];
      forall i | 0 <= i < n
        ensures d.0[i] == (s, (i % TwoTo64) as UInt64)
      {
        if i < n - 1 {
          assert d.0[i] == before.0[i];
        }
      }
    }
  }

  /** Without an Init, the first NewRand seeds the registry from the clock and receives (now, 0). */
  lemma AutoInit(now: UInt64)
    ensures NewRandStep(Uninitialized, now) == ((now, 0), Ready(now, 1, true))
  {
  }

  class Registry {
    /** Whether the once has fired (`globalRegistry != nil`). */
    var initialized: bool
    var masterSeed: UInt64
    var nextStream: UInt64
    var autoInit: bool

    function State(): RegistryState
      reads this
    {
      if initialized then Ready(masterSeed, nextStream, autoInit) else Uninitialized
    }

    /** The registry at process start. */
    constructor ()
      ensures State() == Uninitialized
    {
      initialized := false;
      masterSeed, nextStream, autoInit := 0, 0, false;
    }

    /** `Init(masterSeed)`. */
    method Init(s: UInt64)
      modifies this
      ensures State() == InitStep(old(State()), s)
    {
      if !initialized {
        initialized := true;
        masterSeed, nextStream, autoInit := s, 0, false;
      }
    }

    /** `NewRand()`: the seed pair of the new generator. */
    method NewRand(now: UInt64) returns (seed1: UInt64, seed2: UInt64)
      modifies this
      ensures ((seed1, seed2), State()) == NewRandStep(old(State()), now)
    {
      if !initialized {
        initialized := true;
        masterSeed, nextStream, autoInit := now, 0, true;
      }
      seed1, seed2 := Draw();
    }

    /** `registry.newRand`: hand out (masterSeed, nextStream), then increment the counter. */
    method Draw() returns (seed1: UInt64, seed2: UInt64)
      requires initialized
      modifies this
      ensures seed1 == masterSeed && seed2 == old(nextStream)
      ensures nextStream == IncUInt64(old(nextStream))
      ensures initialized && masterSeed == old(masterSeed) && autoInit == old(autoInit)
    {
      seed1 := masterSeed;
      seed2 := nextStream;
      nextStream := IncUInt64(nextStream);
    }

    /** `Current()`: (0, 0, false) before any initialisation. */
    method Current() returns (m: UInt64, c: UInt64, auto: bool)
      ensures (m, c, auto) == CurrentOf(State())
    {
      if !initialized {
        return 0, 0, false;
      }
      m, c, auto := masterSeed, nextStream, autoInit;
    }
  }
}
