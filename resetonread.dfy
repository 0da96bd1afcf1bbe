/**
 * `ResetOnRead` of package `value`: a decorator whose read returns the inner
 * state and writes the reset constant back through the inner `SetState`.
 */
module ResetOnReadValues {
  import opened Hooks
  import opened SimpleValues

  class ResetOnRead {
    const inner: SimpleValue
    var resetValue: int

    /** `NewResetOnRead(v, resetValue)`. */
    constructor (v: SimpleValue, reset: int)
      ensures inner == v && resetValue == reset
    {
      inner := v;
      resetValue := reset;
    }

    /**
     * `Value`: the inner state as it was at the call; afterwards the inner
     * state is the reset constant, the inner count is unchanged and an
     * installed hook has seen exactly one AfterUpdate(resetValue).
     */
    method Value() returns (r: int)
      modifies inner
      ensures r == old(inner.current)
      ensures inner.current == resetValue
      ensures inner.updateCount == old(inner.updateCount) && inner.hooked == old(inner.hooked)
      ensures inner.events == old(inner.events) + (if inner.hooked then [AfterUpdate(resetValue)] else [])
    {
      r := inner.Value();
      inner.SetState(resetValue);
    }

    /** `SetState`: changes what reads reset to, and nothing in the inner value. */
    method SetState(s: int)
      modifies this
      ensures resetValue == s
      ensures unchanged(inner)
    {
      resetValue := s;
    }

    /** `Clone`: a new wrapper around a clone of the inner value, with the same reset constant. */
    method Clone() returns (c: ResetOnRead)
      ensures fresh(c) && fresh(c.inner)
      ensures c.resetValue == resetValue
      ensures c.inner.transforms == inner.transforms
      ensures c.inner.current == 0 && c.inner.updateCount == 0
      ensures !c.inner.hooked && c.inner.events == []
    {
      var v := inner.Clone();
      c := new ResetOnRead(v, resetValue);
    }

    /** `SetUpdateHook` with a hook: passed through to the inner value. */
    method SetUpdateHook()
      modifies inner
      ensures inner.hooked
      ensures inner.current == old(inner.current) && inner.updateCount == old(inner.updateCount)
      ensures inner.events == old(inner.events)
    {
      inner.SetUpdateHook();
    }

    /** `SetUpdateHook(nil)` as documented, passed through: the inner value makes no more hook calls. */
    method ClearUpdateHook()
      modifies inner
      ensures !inner.hooked
      ensures inner.current == old(inner.current) && inner.updateCount == old(inner.updateCount)
      ensures inner.events == old(inner.events)
    {
      inner.ClearUpdateHook();
    }

    /** Two reads with no update in between: the second one returns the reset constant. */
    method ReadTwice() returns (first: int, second: int)
      modifies inner
      ensures first == old(inner.current)
      ensures second == resetValue && inner.current == resetValue
    {
      first := Value();
      second := Value();
    }
  }
}
