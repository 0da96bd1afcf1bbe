/**
 * End-to-end uses of the model with manual ticks: a constant source feeding
 * values, each source value handed to the value's `Deliver`. They show what
 * a client can conclude from the contracts alone.
 */
module Scenarios {
  import opened Transforms
  import opened Hooks
  import opened SimpleValues
  import opened ResetOnReadValues
  import opened ConstSources

  /** Pass one tick of `src` on to `v`: the value the subscriber receives is the value delivered. */
  method Step(src: ConstSource, v: SimpleValue)
    requires src.Valid() && src.started && !src.finished
    modifies src, v
    ensures src.Valid() && src.started && !src.finished
    ensures src.generationCount == old(src.generationCount) + 1
    ensures v.current == Fold(v.transforms, src.value, old(v.current))
    ensures v.updateCount == old(v.updateCount) + 1 && v.hooked == old(v.hooked)
  {
    src.Tick();
    v.Deliver(src.value);
  }

  /** A constant 1 through one Accumulate counts 1, 2, 3, 4, 5. */
  method Counter()
  {
    var src := new ConstSource(1);
    var _ := src.Subscribe();
    var v := new SimpleValue([Accumulate]);
    Step(src, v);
    var r := v.Value();
    assert r == 1;
    Step(src, v);
    Step(src, v);
    Step(src, v);
    Step(src, v);
    r := v.Value();
    assert r == 5;
    var st := v.Stats();
    assert st.updateCount == 5 && src.generationCount == 5;
  }

  /** A reset-on-read counter: three ticks read 3 and leave 0, two more read 2. */
  method ResetCounter()
  {
    var src := new ConstSource(1);
    var _ := src.Subscribe();
    var inner := new SimpleValue([Accumulate]);
    var w := new ResetOnRead(inner, 0);
    Step(src, inner);
    Step(src, inner);
    Step(src, inner);
    var r := w.Value();
    assert r == 3 && inner.current == 0;
    Step(src, inner);
    Step(src, inner);
    r := w.Value();
    assert r == 2;
  }

  /** A clone starts from zero and then evolves on its own. */
  method CloneDiverges()
  {
    var src := new ConstSource(1);
    var _ := src.Subscribe();
    var a := new SimpleValue([Accumulate]);
    Step(src, a);
    Step(src, a);
    Step(src, a);
    Step(src, a);
    var b := a.Clone();
    var _ := src.Subscribe();
    src.Tick();
    a.Deliver(src.value);
    b.Deliver(src.value);
    src.Tick();
    a.Deliver(src.value);
    b.Deliver(src.value);
    var ra := a.Value();
    var rb := b.Value();
    assert ra == 6 && rb == 2;
  }

  /**
   * A hooked value over two Accumulates fed 2 from state 0: both transforms
   * see the pre-cycle state 0, so each adds 0 and the new state is 2.
   */
  method HookCompleteness()
  {
    var v := new SimpleValue([Accumulate, Accumulate]);
    v.SetUpdateHook();
    v.Deliver(2);
    var chain := [Accumulate, Accumulate];
    assert chain[..0] == [] && chain[..1] == [Accumulate] && chain[..2] == chain;
    StepEventsShape(chain, 2, 0);
    assert Fold([Accumulate], 2, 0) == 2;
    assert Fold(chain, 2, 0) == 2;
    assert StepEvents(chain, 2, 0) == [OnTransform("Accumulate", 2, 2, 0), OnTransform("Accumulate", 2, 2, 0)];
    assert v.events == [
      OnInput(2, 0),
      OnTransform("Accumulate", 2, 2, 0),
      OnTransform("Accumulate", 2, 2, 0),
      AfterUpdate(2)
    ];
  }

  /**
   * Disabling a hook, as documented: after `ClearUpdateHook` a cycle still
   * updates the value but adds nothing to the hook's call log.
   */
  method HookDisabled()
  {
    var v := new SimpleValue([Accumulate]);
    v.SetUpdateHook();
    v.Deliver(3);
    CycleEventsOrder([Accumulate], 3, 0);
    assert |v.events| == 3;
    v.ClearUpdateHook();
    v.Deliver(4);
    var r := v.Value();
    assert r == 7 && |v.events| == 3;
  }
}
