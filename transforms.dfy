/**
 * The transform contract of package `transform`: a named function from the
 * incoming value and a read-only view of the value's state to the next value.
 * The state view is passed as the number `GetState()` would return, so a
 * transform can read the state and has no way to write it.
 */
module Transforms {

  /** A `Transformation[int]`: `Name()` and `Apply(incoming, state)`. */
  datatype Transformation = Transformation(name: string, apply: (int, int) -> int)

  /** `Accumulate.Apply`: the state seen through the view plus the incoming value. */
  function AccumulateApply(incoming: int, state: int): int
  {
    state + incoming
  }

  /** `Accumulate.Name`. */
  const AccumulateName: string := "Accumulate"

  /**
   * `NewAccumulate()`. The Go struct has no fields, so every instance is this
   * same value: Apply depends on its two arguments only.
   */
  const Accumulate: Transformation := Transformation(AccumulateName, AccumulateApply)

  /** A chain of `n` Accumulate transforms. */
  function Accumulates(n: nat): (chain: seq<Transformation>)
    ensures |chain| == n
    ensures forall i :: 0 <= i < n ==> chain[i] == Accumulate
  {
    seq(n, _ => Accumulate)
  }
}
