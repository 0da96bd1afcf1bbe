/**
 * `SimpleValue` of package `value`: a state advanced once per incoming
 * source value by a fixed chain of transforms, with an optional update hook.
 * The goroutine that ranges over the source channel is replaced by the
 * method `Deliver`, one call per received value; the lock is implicit, as
 * every method runs to completion.
 */
module SimpleValues {
  import opened Wrappers
  import opened Transforms
  import opened Hooks

  /** `ValueStats[int]`. */
  datatype ValueStats = ValueStats(updateCount: nat, currentValue: int, transformCount: nat)

  /**
   * The value a cycle computes: the input folded left through the chain,
   * every transform seeing the pre-cycle state `s0`. Defined from the end
   * of the chain so that `Fold(chain[..i], x, s0)` is the value after the
   * first `i` transforms.
   */
  function Fold(chain: seq<Transformation>, x: int, s0: int): int
  {
    if chain == [] then x
    else chain[|chain| - 1].apply(Fold(chain[..|chain| - 1], x, s0), s0)
  }

  /** The `OnTransform` calls of one cycle, in chain order. */
  function StepEvents(chain: seq<Transformation>, x: int, s0: int): seq<HookEvent>
  {
    if chain == [] then []
    else
      var k := |chain| - 1;
      StepEvents(chain[..k], x, s0)
        + [OnTransform(chain[k].name, Fold(chain[..k], x, s0), Fold(chain, x, s0), s0)]
  }

  /** Every hook call of one update cycle with input `x` from state `s0`. */
  function CycleEvents(chain: seq<Transformation>, x: int, s0: int): seq<HookEvent>
  {
    [OnInput(x, s0)] + StepEvents(chain, x, s0) + [AfterUpdate(Fold(chain, x, s0))]
  }

  /** The state after feeding `inputs` one cycle at a time, starting from `s`. */
  function Run(chain: seq<Transformation>, inputs: seq<int>, s: int): int
  {
    if inputs == [] then s
    else Run(chain, inputs[1..], Fold(chain, inputs[0], s))
  }

  /**
   * Running the chain `a + b` is running `a`, then feeding its result to `b`,
   * with the same pre-cycle state: this is what `WithTransforms` builds.
   */
  lemma {:induction false} FoldAppend(a: seq<Transformation>, b: seq<Transformation>, x: int, s0: int)
    ensures Fold(a + b, x, s0) == Fold(b, Fold(a, x, s0), s0)
  {
    if b == [] {
      assert a + b == a;
    } else {
      var k := |b| - 1;
      assert (a + b)[..|a + b| - 1] == a + b[..k];
      FoldAppend(a, b[..k], x, s0);
    }
  }

  /**
   * The chain composes as transform i applied to the output of transform
   * i - 1, starting from `x`: the fold seen from the front of the chain.
   */
  lemma {:induction false} FoldFromFront(chain: seq<Transformation>, x: int, s0: int)
    requires chain != []
    ensures Fold(chain, x, s0) == Fold(chain[1..], chain[0].apply(x, s0), s0)
  {
    assert chain == [chain[0]] + chain[1..];
    FoldAppend([chain[0]], chain[1..], x, s0);
    assert [chain[0]][..0] == [];
  }

  /**
   * The `OnTransform` calls of a cycle: one per transform, in chain order,
   * each with the transform's name, its input, its output and the pre-cycle
   * state; the output of step i is the input of step i + 1.
   */
  lemma {:induction false} StepEventsShape(chain: seq<Transformation>, x: int, s0: int)
    ensures |StepEvents(chain, x, s0)| == |chain|
    ensures forall i :: 0 <= i < |chain| ==>
      StepEvents(chain, x, s0)[i]
        == OnTransform(chain[i].name, Fold(chain[..i], x, s0), Fold(chain[..i + 1], x, s0), s0)
    ensures forall i :: 0 <= i < |chain| - 1 ==>
      var evs := StepEvents(chain, x, s0);
      evs[i].OnTransform? && evs[i + 1].OnTransform? && evs[i].output == evs[i + 1].input
    ensures chain != [] ==>
      var evs := StepEvents(chain, x, s0);
      evs[0].OnTransform? && evs[0].input == x
      && evs[|chain| - 1].OnTransform? && evs[|chain| - 1].output == Fold(chain, x, s0)
  {
    if chain != [] {
      var k := |chain| - 1;
      var pre := chain[..k];
      StepEventsShape(pre, x, s0);
      var evs := StepEvents(chain, x, s0);
      forall i | 0 <= i < |chain|
        ensures evs[i] == OnTransform(chain[i].name, Fold(chain[..i], x, s0), Fold(chain[..i + 1], x, s0), s0)
      {
        if i < k {
          assert chain[..i] == pre[..i] && chain[..i + 1] == pre[..i + 1];
        } else {
          assert chain[..k + 1] == chain;
        }
      }
      forall i {:trigger evs[i]} | 0 <= i < |chain| - 1
        ensures evs[i].OnTransform? && evs[i + 1].OnTransform? && evs[i].output == evs[i + 1].input
      {
        assert evs[i + 1] == OnTransform(chain[i + 1].name, Fold(chain[..i + 1], x, s0), Fold(chain[..i + 2], x, s0), s0);
      }
      assert chain[..1][..0] == [];
    }
  }

  /**
   * The hook calls of one cycle: exactly one OnInput with the input and the
   * pre-cycle state, then one OnTransform per transform, then exactly one
   * AfterUpdate with the new state.
   */
  lemma CycleEventsOrder(chain: seq<Transformation>, x: int, s0: int)
    ensures |CycleEvents(chain, x, s0)| == |chain| + 2
    ensures CycleEvents(chain, x, s0)[0] == OnInput(x, s0)
    ensures forall i :: 1 <= i <= |chain| ==>
      CycleEvents(chain, x, s0)[i].OnTransform? && CycleEvents(chain, x, s0)[i].state == s0
    ensures CycleEvents(chain, x, s0)[|chain| + 1] == AfterUpdate(Fold(chain, x, s0))
  {
    StepEventsShape(chain, x, s0);
    var steps := StepEvents(chain, x, s0);
    var evs := CycleEvents(chain, x, s0);
    forall i | 1 <= i <= |chain|
      ensures evs[i].OnTransform? && evs[i].state == s0
    {
      assert evs[i] == steps[i - 1];
      assert steps[i - 1] == OnTransform(chain[i - 1].name, Fold(chain[..i - 1], x, s0), Fold(chain[..i], x, s0), s0);
    }
  }

  /** In a SimpleValue, a chain of n Accumulates turns input x from state s0 into x + n * s0. */
  lemma {:induction false} AccumulateChain(n: nat, x: int, s0: int)
    ensures Fold(Accumulates(n), x, s0) == x + n * s0
  {
    if n > 0 {
      assert Accumulates(n)[..n - 1] == Accumulates(n - 1);
      AccumulateChain(n - 1, x, s0);
    }
  }

  /**
   * A SimpleValue with one Accumulate, fed the same value c on every tick,
   * counts up by c: after k cycles from state s its state is s + k * c.
   */
  lemma {:induction false} AccumulateCounts(c: int, k: nat, s: int)
    ensures Run([Accumulate], seq(k, _ => c), s) == s + k * c
  {
    if k > 0 {
      var inputs := seq(k, _ => c);
      assert inputs[1..] == seq(k - 1, _ => c);
      AccumulateChain(1, c, s);
      assert Accumulates(1) == [Accumulate];
      AccumulateCounts(c, k - 1, s + c);
    }
  }

  /** The concrete Go type of a hook, which `atomic.Value` records on the first `Store`. */
  type HookType = nat

  /** The outcome of storing a hook into the `atomic.Value` field. */
  datatype StoreOutcome = Stored(slot: HookType) | Panics

  /**
   * `updateHook.Store(h)` in `SetUpdateHook`, as written. `slot` is the type
   * fixed by an earlier Store, if any; `hook` is `None` for nil. `atomic.Value`
   * refuses a nil value, and a value of another type than the first one.
   */
  function StoreHook(slot: Option<HookType>, hook: Option<HookType>): (r: StoreOutcome)
    ensures r.Stored? <==> hook.Some? && (slot.None? || slot == hook)
    ensures r.Stored? ==> r.slot == hook.value
  {
    if hook.None? then Panics
    else if slot.Some? && slot != hook then Panics
    else Stored(hook.value)
  }

  /** `SetUpdateHook(nil)` panics, whatever the value held before: a hook cannot be cleared. */
  lemma NilHookPanics(slot: Option<HookType>)
    ensures StoreHook(slot, None) == Panics
  {
  }

  /**
   * Once a hook of one type is installed, installing a hook of another type
   * panics, while one of the same type replaces it.
   */
  lemma MixedHookPanics(first: HookType, second: HookType)
    ensures StoreHook(None, Some(first)) == Stored(first)
    ensures StoreHook(Some(first), Some(second)).Panics? <==> first != second
  {
  }

  class SimpleValue {
    /** The transform chain, fixed at construction. */
    const transforms: seq<Transformation>
    var current: int
    var updateCount: nat
    /** Whether an update hook is installed. */
    var hooked: bool
    /** Every call made on the installed hook, oldest first. */
    var events: seq<HookEvent>

    /** `New(src, transforms...)`: zero state, zero count, no hook. */
    constructor (chain: seq<Transformation>)
      ensures transforms == chain
      ensures current == 0 && updateCount == 0
      ensures !hooked && events == []
    {
      transforms := chain;
      current := 0;
      updateCount := 0;
      hooked := false;
      events := [];
    }

    /** `GetState`: the state view handed to every transform. */
    function GetState(): int
      reads this
    {
      current
    }

    /**
     * One iteration of `run`: the update cycle for a received source value.
     * The new state and count do not depend on the hook, so a hook that
     * fails cannot change them.
     */
    method Deliver(x: int)
      modifies this
      ensures current == Fold(transforms, x, old(current))
      ensures updateCount == old(updateCount) + 1
      ensures hooked == old(hooked)
      ensures events == old(events) + (if hooked then CycleEvents(transforms, x, old(current)) else [])
    {
      if hooked {
        events := events + [OnInput(x, current)];
      }
      var transformed := x;
      var i := 0;
      while i < |transforms|
        invariant 0 <= i <= |transforms|
        invariant current == old(current) && updateCount == old(updateCount) && hooked == old(hooked)
        invariant transformed == Fold(transforms[..i], x, current)
        invariant events == old(events)
          + (if hooked then [OnInput(x, current)] + StepEvents(transforms[..i], x, current) else [])
      {
        var t := transforms[i];
        var input := transformed;
        var currentState := current;
        transformed := t.apply(transformed, GetState());
        if hooked {
          events := events + [OnTransform(t.name, input, transformed, currentState)];
        }
        assert transforms[..i + 1][..i] == transforms[..i];
        i := i + 1;
      }
      assert transforms[..i] == transforms;
      Commit(transformed);
      updateCount := updateCount + 1;
    }

    /** `setState`: write the state and signal AfterUpdate to the hook. */
    method Commit(newState: int)
      modifies this
      ensures current == newState
      ensures updateCount == old(updateCount) && hooked == old(hooked)
      ensures events == old(events) + (if hooked then [AfterUpdate(newState)] else [])
    {
      current := newState;
      if hooked {
        events := events + [AfterUpdate(newState)];
      }
    }

    /** `SetState`: bypass the transforms; the count is not bumped. */
    method SetState(s: int)
      modifies this
      ensures current == s
      ensures updateCount == old(updateCount) && hooked == old(hooked)
      ensures events == old(events) + (if hooked then [AfterUpdate(s)] else [])
    {
      Commit(s);
    }

    /** `Value`: the current state; nothing changes. */
    method Value() returns (r: int)
      ensures r == current
    {
      r := current;
    }

    /** `Stats`: count, state and chain length; nothing changes. */
    method Stats() returns (st: ValueStats)
      ensures st.updateCount == updateCount
      ensures st.currentValue == current
      ensures st.transformCount == |transforms|
    {
      st := ValueStats(updateCount, current, |transforms|);
    }

    /**
     * `SetUpdateHook` with a hook: install it, replacing any earlier one,
     * whatever its concrete type (the intended behaviour; `StoreHook` is
     * what the Go code does).
     */
    method SetUpdateHook()
      modifies this
      ensures hooked
      ensures current == old(current) && updateCount == old(updateCount) && events == old(events)
    {
      hooked := true;
    }

    /**
     * `SetUpdateHook(nil)` as its doc comment describes it, disabling the
     * hook: later cycles make no hook calls (the intended behaviour; in Go this call
     * panics, see `NilHookPanics`).
     */
    method ClearUpdateHook()
      modifies this
      ensures !hooked
      ensures current == old(current) && updateCount == old(updateCount) && events == old(events)
    {
      hooked := false;
    }

    /** `Clone`: the same chain with its own zero state, zero count and no hook. */
    method Clone() returns (c: SimpleValue)
      ensures fresh(c)
      ensures c.transforms == transforms
      ensures c.current == 0 && c.updateCount == 0
      ensures !c.hooked && c.events == []
    {
      c := new SimpleValue(transforms);
    }

    /** `WithTransforms`: a new value whose chain is this chain followed by `tfs`. */
    method WithTransforms(tfs: seq<Transformation>) returns (c: SimpleValue)
      ensures fresh(c)
      ensures c.transforms == transforms + tfs
      ensures c.current == 0 && c.updateCount == 0
      ensures !c.hooked && c.events == []
    {
      c := new SimpleValue(transforms + tfs);
    }
  }
}
