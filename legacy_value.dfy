/**
 * The older value design of `internal/value`: on each clock tick the value
 * takes `source.Next()`, passes it through its transform objects in list
 * order, and stores the result. The source is the constant source of
 * `internal/source`, so `Next()` is the constant `input`; the tick is the
 * method `Tick`.
 */
module LegacyValues {
  import opened LegacyTransforms

  /** The running total of each transform object. */
  type Totals = map<AccumulateTransform, int>

  /**
   * One pass of a value through `chain`: every object adds the value it
   * receives to its total and passes the new total on. An object listed twice
   * is applied twice.
   */
  function Pass(totals: Totals, chain: seq<AccumulateTransform>, x: int): (r: (Totals, int))
    requires forall t :: t in chain ==> t in totals
    ensures r.0.Keys == totals.Keys
  {
    if chain == [] then (totals, x)
    else
      var k := |chain| - 1;
      var p := Pass(totals, chain[..k], x);
      var sum := p.0[chain[k]] + p.1;
      (p.0[chain[k] := sum], sum)
  }

  /**
   * The totals and the stored state after `n` ticks that start from state
   * `state`: each tick is one `Pass`, and the state is what the last pass
   * produced.
   */
  function Ticks(totals: Totals, chain: seq<AccumulateTransform>, x: int, n: nat, state: int): (r: (Totals, int))
    requires forall t :: t in chain ==> t in totals
    ensures r.0.Keys == totals.Keys
  {
    if n == 0 then (totals, state) else Pass(Ticks(totals, chain, x, n - 1, state).0, chain, x)
  }

  /**
   * A value over a constant source c with one AccumulateTransform whose total
   * starts at a: after n ticks the total is a + n * c, and so is the value
   * stored by the n-th tick.
   */
  lemma {:induction false} OneAccumulatorTicks(totals: Totals, t: AccumulateTransform, c: int, n: nat, s: int)
    requires t in totals
    ensures Ticks(totals, [t], c, n, s).0[t] == totals[t] + n * c
    ensures n > 0 ==> Ticks(totals, [t], c, n, s).1 == totals[t] + n * c
  {
    if n > 0 {
      OneAccumulatorTicks(totals, t, c, n - 1, s);
      var m := Ticks(totals, [t], c, n - 1, s).0;
      assert [t][..0] == [];
      assert Pass(m, [t], c) == (m[t := m[t] + c], m[t] + c);
      assert (n - 1) * c + c == n * c;
    }
  }

  class LegacyValue {
    /** `source.Next()` of the constant source. */
    const input: int
    const transforms: seq<AccumulateTransform>
    var current: int

    function Totals(): Totals
      reads transforms
    {
      map t | t in transforms :: t.accumulated
    }

    /** `New(clk, src, transforms...)`: the state starts at zero. */
    constructor (c: int, chain: seq<AccumulateTransform>)
      ensures input == c && transforms == chain && current == 0
    {
      input := c;
      transforms := chain;
      current := 0;
    }

    /**
     * The body of `run` for one tick: fold `source.Next()` through the
     * transforms, each receiving only the piped value, then store the
     * result once.
     */
    method Tick()
      modifies this, transforms
      ensures (Totals(), current) == Pass(old(Totals()), transforms, input)
    {
      var value := input;
      var i := 0;
      while i < |transforms|
        invariant 0 <= i <= |transforms|
        invariant (Totals(), value) == Pass(old(Totals()), transforms[..i], input)
      {
        ghost var before := Totals();
        var t := transforms[i];
        value := t.Apply(value);
        assert transforms[..i + 1][..i] == transforms[..i];
        assert Totals() == before[t := value];
        i := i + 1;
      }
      assert transforms[..i] == transforms;
      current := value;
    }

    /**
     * `n` ticks of `run` in a row: the totals and the stored state are `Ticks`
     * of the old ones.
     */
    method TickTimes(n: nat)
      modifies this, transforms
      ensures (Totals(), current) == Ticks(old(Totals()), transforms, input, n, old(current))
    {
      ghost var start := Totals();
      var i := 0;
      while i < n
        invariant 0 <= i <= n
        invariant (Totals(), current) == Ticks(start, transforms, input, i, old(current))
      {
        Tick();
        i := i + 1;
      }
    }

    /** `Value`: the stored state; nothing changes. */
    method Value() returns (r: int)
      ensures r == current
    {
      r := current;
    }
  }

  /** A constant 1 through one fresh AccumulateTransform: five ticks store 5. */
  method CountToFive()
  {
    var t := new AccumulateTransform();
    var v := new LegacyValue(1, [t]);
    assert v.Totals() == map[t := 0];
    v.TickTimes(5);
    OneAccumulatorTicks(map[t := 0], t, 1, 5, 0);
    var r := v.Value();
    assert r == 5;
  }
}
