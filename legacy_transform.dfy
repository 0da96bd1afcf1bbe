/**
 * The older transform design of `internal/transform`: a transform object that
 * keeps its own running total and adds each value it is applied to.
 */
module LegacyTransforms {

  class AccumulateTransform {
    var accumulated: int

    /** `NewAccumulateTransform()`: a fresh instance starts at zero. */
    constructor ()
      ensures accumulated == 0
    {
      accumulated := 0;
    }

    /**
     * `Apply`: add `v` to this instance's total and return the new total. Only
     * this instance changes, so separate instances never share a total.
     */
    method Apply(v: int) returns (r: int)
      modifies this
      ensures accumulated == old(accumulated) + v
      ensures r == accumulated
    {
      accumulated := accumulated + v;
      r := accumulated;
    }
  }

  function Sum(vs: seq<int>): int
  {
    if vs == [] then 0 else Sum(vs[..|vs| - 1]) + vs[|vs| - 1]
  }

  /** What consecutive `Apply` calls with `vs`, starting from total `start`, return. */
  function Running(start: int, vs: seq<int>): seq<int>
    decreases |vs|
  {
    if vs == [] then [] else [start + vs[0]] + Running(start + vs[0], vs[1..])
  }

  /** Consecutive `Apply` calls on one instance, one per value of `vs`, collecting what each returns. */
  method ApplyAll(t: AccumulateTransform, vs: seq<int>) returns (rs: seq<int>)
    modifies t
    ensures rs == Running(old(t.accumulated), vs)
    ensures t.accumulated == old(t.accumulated) + Sum(vs)
  {
    rs := [];
    var i := 0;
    while i < |vs|
      invariant 0 <= i <= |vs|
      invariant rs + Running(t.accumulated, vs[i..]) == Running(old(t.accumulated), vs)
      invariant t.accumulated == old(t.accumulated) + Sum(vs[..i])
    {
      ghost var before := t.accumulated;
      var r := t.Apply(vs[i]);
      assert vs[i..][1..] == vs[i + 1..];
      assert Running(before, vs[i..]) == [r] + Running(r, vs[i + 1..]);
      assert vs[..i + 1][..i] == vs[..i];
      assert Sum(vs[..i + 1]) == Sum(vs[..i]) + vs[i];
      rs := rs + [r];
      i := i + 1;
    }
    assert vs[i..] == [] && vs[..i] == vs;
  }

  /**
   * Applying v1..vn from a total of `start`: call i returns start plus the
   * i-th prefix sum, so the last call returns start + v1 + ... + vn.
   */
  lemma {:induction false} RunningArePrefixSums(start: int, vs: seq<int>)
    ensures |Running(start, vs)| == |vs|
    ensures forall i :: 0 <= i < |vs| ==> Running(start, vs)[i] == start + Sum(vs[..i + 1])
    decreases |vs|
  {
    if vs != [] {
      var rest := vs[1..];
      RunningArePrefixSums(start + vs[0], rest);
      forall i | 0 <= i < |vs|
        ensures Running(start, vs)[i] == start + Sum(vs[..i + 1])
      {
        SumFront(vs[..i + 1]);
        assert vs[..i + 1][1..] == rest[..i];
        if i > 0 {
          assert Running(start, vs)[i] == Running(start + vs[0], rest)[i - 1];
          assert rest[..i - 1 + 1] == rest[..i];
        } else {
          assert rest[..0] == [];
        }
      }
    }
  }

  /** A sum taken from the front. */
  lemma {:induction false} SumFront(vs: seq<int>)
    requires vs != []
    ensures Sum(vs) == vs[0] + Sum(vs[1..])
    decreases |vs|
  {
    if |vs| > 1 {
      var k := |vs| - 1;
      SumFront(vs[..k]);
      assert vs[..k][1..] == vs[1..][..k - 1];
      assert vs[..k][0] == vs[0];
    } else {
      assert vs[..0] == [] && vs[1..] == [];
    }
  }
}
