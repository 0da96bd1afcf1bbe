# simval in Dafny: the sequential core of the value pipeline

This project models the core of `simval`, a Go library of simulated
time-varying values. A clock drives sources. Each source fans its values out to
subscribers. Each value folds the values it receives through a chain of
transforms into a state, which readers sample. The model covers:

- the `SimpleValue` update engine (`value/simple.go`): one update cycle per
  received value, the hook calls it makes, `SetState`, `Value`, `Stats`,
  `Clone` and `WithTransforms` (module `SimpleValues`);
- the `ResetOnRead` decorator (`value/resetonread.go`, module `ResetOnReadValues`);
- the `TraceHook` buffer and `FormatTraceLine` (`value/trace.go`, module `Tracing`);
- the `Accumulate` transform (`transform/transform.go`, module `Transforms`);
- the constant and random-integer sources (`source/const.go`,
  `source/random_int.go`). Their shared delivery and close-out loops are in
  module `Sources`; the sources are modules `ConstSources` and `RandomIntSources`;
- the seed registry counter (`seed/seed.go`, module `Seeds`);
- the older internal pipeline (`internal/value/value.go`,
  `internal/transform/transform.go`, modules `LegacyValues` and `LegacyTransforms`).

Every goroutine loop is replaced by a method that performs one step of it:

- `SimpleValue.Deliver(x)` is one value received from the source;
- `Tick` on a source is one tick received from the clock;
- `ClockClosed` is the end of the clock stream.

Each public operation and each step runs to completion, so locks and atomics
disappear. Go's generic `T` is instantiated at `int`. A `Transformation` is a
name together with a total function of the incoming value and the state. The
state is passed as the number `GetState()` returns, so a transform can read it
and cannot write it.

A value's hook is modelled as a flag (`hooked`) plus `events`, the log of every
call made on the hook. The `TraceHook` is a class of its own. Lemmas tie the
two together: `Replay` feeds a cycle's calls to the trace buffer.

Module `Scenarios` drives the model by hand and proves these end-to-end scenarios:

- a counter: a constant 1 through one Accumulate reads 1, then 5;
- a reset-on-read counter;
- a clone that diverges from its original;
- the hook calls of one cycle through two Accumulates;
- a hook disabled after one cycle, which sees no calls from the next.

Module `LegacyValues` also proves that a legacy value over a constant 1 with
one fresh AccumulateTransform stores 5 after five ticks (`CountToFive`).

The Go code has some behaviour that is easy to miss, and the model keeps it:

- `ResetOnRead` (`value/resetonread.go:13-45`) defines no `WithTransforms`
  and no `Stats`. Yet `cmd/example/main.go:63` calls `Stats` on one.
- `NewRandomIntSource` (`source/random_int.go:28-36`) accepts any `min` and
  `max`, and `run` computes `max-min+1` in 64-bit `int`
  (`source/random_int.go:55`). A small reversed range makes that argument of
  `IntN` non-positive, so the first tick faults. A reversed range whose width
  overflows yields values outside the range (`RandomIntSources.ReversedRanges`).
  A range at least 2^63 wide, including the full range of `int`, also gives a
  non-positive argument (`RandomIntSources.WideRanges`).
- Every transform of a cycle reads the state through `GetState`
  (`value/simple.go:84-89`, `transform/transform.go:24-27`). That state is
  written only once, after the loop (`value/simple.go:67`). So a chain of two
  Accumulates fed 2 from state 0 ends in 2, not 4: the second transform sees
  state 0, not the first one's output (`Scenarios.HookCompleteness`).
- `source/random_int.go` calls `seed.Next`, which `seed/registry.go` defines.
  That file redeclares the registry of `seed/seed.go`, so the two cannot build
  together. The model follows `seed/seed.go`: construction draws one seed pair
  through `NewRand`.
- A source subscribed to after its loop has exited gets a channel that is
  never closed and never receives anything. The model keeps that: `Subscribe`
  after `ClockClosed` adds an open, empty channel.

## Model

| member | source | states |
|---|---|---|
| SimpleValues.SimpleValue.constructor | value/simple.go:24-35 | a new value has the given chain, zero state, zero count, no hook and no hook calls |
| SimpleValues.SimpleValue.Deliver | value/simple.go:37-72 | one update cycle. The new state is the input folded left through the chain, with every transform seeing the pre-cycle state. The count rises by exactly 1. A hooked value logs OnInput, one OnTransform per transform and AfterUpdate; an unhooked one logs nothing. State and count do not depend on the hook |
| SimpleValues.SimpleValue.Commit | value/simple.go:74-82 | writes the state and logs exactly one AfterUpdate with it when hooked; the count is unchanged |
| SimpleValues.SimpleValue.SetState | value/simple.go:112-118 | sets the state directly, skipping the transforms. A hook sees only AfterUpdate(s); the count is unchanged |
| SimpleValues.SimpleValue.GetState | value/simple.go:84-89 | the state view that transforms read. `Deliver` passes the pre-cycle state to every transform, as `StepEventsShape` and `CycleEventsOrder` show, because the state is written only after the loop |
| SimpleValues.SimpleValue.Value | value/simple.go:91-96 | returns the current state and changes nothing |
| SimpleValues.SimpleValue.Stats | value/simple.go:130-140 | reports count, state and chain length, and changes nothing |
| SimpleValues.SimpleValue.SetUpdateHook | value/simple.go:120-128 | installs a hook, replacing any earlier one whatever its concrete type (the intended behaviour, see Findings); state, count and the call log are untouched |
| SimpleValues.SimpleValue.ClearUpdateHook | value/simple.go:120-128 | `SetUpdateHook(nil)` as documented at line 121: later cycles make no hook calls (the intended behaviour, see Findings); state, count and the call log are untouched |
| SimpleValues.StoreHook | value/simple.go:122-127 | the `atomic.Value` store as written: it succeeds exactly when the hook is non-nil and of the type fixed by the first store, if any, and then holds that type |
| SimpleValues.NilHookPanics | value/simple.go:122-124 | storing a nil hook panics, whatever was stored before |
| SimpleValues.MixedHookPanics | value/simple.go:125-126 | a first store of a hook succeeds; a later one panics exactly when its concrete type differs from the first |
| SimpleValues.SimpleValue.Clone | value/simple.go:98-101 | returns a fresh value with the same chain, zero state, zero count and no hook; the original is unchanged |
| SimpleValues.SimpleValue.WithTransforms | value/simple.go:103-110 | returns a fresh value whose chain is the old chain followed by the new transforms, with zero state and count; the original is unchanged |
| SimpleValues.FoldAppend | value/simple.go:103-110 | a cycle through the extended chain is a cycle through the old chain, whose result is fed to the added transforms with the same pre-cycle state |
| SimpleValues.FoldFromFront | value/simple.go:50-57 | the first transform gets the input, and every next transform gets the previous output, all with the pre-cycle state |
| SimpleValues.StepEventsShape | value/simple.go:50-64 | there is exactly one OnTransform per transform, in chain order. Each carries the transform's name, its input, its output and the pre-cycle state. The output of step i is the input of step i+1; the first input is the cycle's input and the last output is the new state |
| SimpleValues.CycleEventsOrder | value/simple.go:43-81 | a cycle's hook calls number n+2: one OnInput(x, s0), then n OnTransforms that each carry s0, then one AfterUpdate of the new state |
| SimpleValues.AccumulateChain | transform/transform.go:23-32 | n Accumulates take input x from pre-cycle state s0 to x + n*s0 |
| SimpleValues.AccumulateCounts | value/simple.go:37-68 | a value with one Accumulate, fed c on every cycle, reaches s + k*c after k cycles from s |
| Transforms.AccumulateApply | transform/transform.go:23-27 | `Accumulate.Apply`: the state read through the view plus the incoming value. `SimpleValues.AccumulateChain` and `SimpleValues.AccumulateCounts` state what it does in a chain and over many cycles |
| ResetOnReadValues.ResetOnRead.constructor | value/resetonread.go:12-18 | wraps the given value with the given reset constant |
| ResetOnReadValues.ResetOnRead.Value | value/resetonread.go:20-28 | returns the inner state as it was at the call and leaves the reset constant in the inner value. The inner count is unchanged, and a hooked inner value logs exactly one AfterUpdate(reset) |
| ResetOnReadValues.ResetOnRead.SetState | value/resetonread.go:35-40 | changes only the reset constant; the inner value is untouched |
| ResetOnReadValues.ResetOnRead.Clone | value/resetonread.go:30-33 | returns a fresh wrapper around a fresh clone of the inner value, with the same reset constant |
| ResetOnReadValues.ResetOnRead.SetUpdateHook | value/resetonread.go:42-45 | installs a hook on the inner value (the intended behaviour, see Findings), changing nothing else there |
| ResetOnReadValues.ResetOnRead.ClearUpdateHook | value/resetonread.go:42-45 | passes `SetUpdateHook(nil)` on: the inner value makes no more hook calls (the intended behaviour, see Findings), and nothing else there changes |
| ResetOnReadValues.ResetOnRead.ReadTwice | value/resetonread.go:21-28 | two reads with no update in between: the first returns the old state and the second the reset constant |
| Tracing.TraceHook.constructor | value/trace.go:37-42 | a new hook has an unset timestamp, zero input, an empty buffer and has emitted nothing |
| Tracing.TraceHook.OnInput | value/trace.go:51-58 | records the input and the instant and empties the buffer; emits nothing |
| Tracing.TraceHook.OnTransform | value/trace.go:60-70 | appends exactly one record at the end and keeps the earlier ones; emits nothing |
| Tracing.TraceHook.AfterUpdate | value/trace.go:72-101 | emits exactly one event and keeps the earlier ones unchanged. After an OnInput the event carries its instant and input, the buffered records in call order, and the final state. With the timestamp unset it carries the current instant, zero input, no records and the final state. The buffer is then cleared |
| Tracing.ReplaySteps | value/trace.go:60-70 | a cycle's OnTransform calls append its records, one per transform in chain order, and emit nothing |
| Tracing.ReplayCycle | value/trace.go:51-101 | the calls of one SimpleValue cycle make the hook emit exactly one event, whatever the hook held before. The event has the cycle's input, one record per transform (name, input, output, pre-cycle state) and the new state. The hook ends cleared |
| Tracing.Emit | value/trace.go:76-91 | the event AfterUpdate hands to the callback. `ReplayCycle` states it for a cycle and `ReplaySetState` for a bare SetState |
| Tracing.ReplaySetState | value/trace.go:85-91 | a SetState-only AfterUpdate emits an event with the current instant, zero input, no records and the state |
| Tracing.RecordAt | value/trace.go:60-70 | buffer record i of a cycle names transform i and carries its input (the output of the transforms before it), its output and the pre-cycle state |
| Tracing.TracePartAt | value/trace.go:112-115 | a list of k records gives 2k parts; record i gives part 2i, its "name(s:state)" label, and part 2i+1, its output |
| Tracing.FormatClock | value/trace.go:105 | the stamp is 12 characters, with ':' at positions 2 and 5 and '.' at position 8 |
| Tracing.ClockFields | value/trace.go:105 | the four fields of the stamp are decimal digits: the hour of the day (mod 24), the minute, the second and the millisecond of the instant |
| Tracing.DigitsDecode | value/trace.go:110-115 | the `%v` digits of a non-negative number spell that number in decimal |
| Tracing.FormatTraceLine | value/trace.go:103-122 | the trace line of an event. `CycleLine` and `CyclePartsShape` state it for a cycle, `SetStateLine` for a SetState, and `EmptyChainLine` for a cycle through an empty chain |
| Tracing.CyclePartsShape | value/trace.go:107-117 | the parts of a cycle's line number 1 + 2k: the input, then for each transform in chain order "name(s:s0)" and its output |
| Tracing.CycleLine | value/trace.go:104-117 | a cycle through k > 0 transforms prints one line: "[stamp] " and then the parts of its event, which carries the cycle's input and records, joined by " \| " |
| Tracing.SetStateLine | value/trace.go:118-121 | a direct SetState prints "[stamp] SetState \| state" |
| Tracing.EmptyChainLine | value/trace.go:107-121 | a real update through an empty chain prints the same SetState line, so its input is lost |
| Sources.Broadcast | source/const.go:50-56 | each subscriber receives the value exactly once, appended after what it already has. No subscriber is added, removed or closed |
| Sources.CloseAll | source/const.go:59-64 | every subscriber is closed |
| Sources.FeedDelivers | source/const.go:46-56 | after a run of ticks, every earlier subscriber has received exactly the generated values, in order. None is added, lost or closed |
| Sources.ClosedAllKeepsReceived | source/const.go:59-64 | closing keeps every subscriber's received values |
| ConstSources.ConstSource.constructor | source/const.go:22-28 | a new source holds the constant, has no subscribers, zero generations and is not started |
| ConstSources.ConstSource.Subscribe | source/const.go:30-43 | appends one fresh channel and leaves the others alone; only the first call subscribes to the clock |
| ConstSources.ConstSource.Tick | source/const.go:45-57 | a running source counts exactly one generation and delivers the constant to every subscriber; a source not running is unchanged |
| ConstSources.ConstSource.ClockClosed | source/const.go:59-64 | when the clock stream ends, every subscriber is closed and the loop ends |
| ConstSources.ConstSource.Stats | source/const.go:67-77 | reports the generation count and the number of subscribers and changes nothing |
| ConstSources.ConstSource.TickTimes | source/const.go:45-57 | m ticks in a row: a running source counts m generations and its subscribers become `Feed` of the old ones with m copies of the constant; a source not running is unchanged |
| ConstSources.ConstTicks | source/const.go:46-56 | with k subscribers before the first tick, each has received exactly M copies of the constant after M ticks |
| RandomIntSources.Span | source/random_int.go:55 | `max-min+1` in 64-bit `int`: within the `int` range, and the true width when min <= max and the width is below 2^63 |
| RandomIntSources.Generate | source/random_int.go:55 | `min + r` in 64-bit `int`: within the `int` range, and exactly min + r when that fits |
| RandomIntSources.GenerateInRange | source/random_int.go:55 | with max >= min and a draw in [0, max-min+1), the value lies in [min, max] |
| RandomIntSources.ReversedRanges | source/random_int.go:28-36 | the range is never checked. min = 2^63-1, max = -2^63 gives a span of 2 and can deliver -2^63. min = 5, max = 1 leaves no possible draw |
| RandomIntSources.WideRanges | source/random_int.go:55 | a range at least 2^63 wide, the full `int` range included, has a span of zero or below, so no draw exists |
| RandomIntSources.RandomIntSource.constructor | source/random_int.go:25-36 | draws exactly one seed pair from the registry and keeps min and max, which never change |
| RandomIntSources.RandomIntSource.Subscribe | source/random_int.go:38-51 | appends one fresh channel and leaves the others alone; only the first call subscribes to the clock |
| RandomIntSources.RandomIntSource.Tick | source/random_int.go:53-65 | a running source computes one value min + r, counts one generation and delivers that same value to every subscriber |
| RandomIntSources.RandomIntSource.ClockClosed | source/random_int.go:67-72 | when the clock stream ends, every subscriber is closed |
| RandomIntSources.RandomIntSource.Stats | source/random_int.go:75-85 | reports both counts and changes nothing |
| Seeds.Registry.constructor | seed/seed.go:9-12 | at process start the registry is not initialised |
| Seeds.Registry.Init | seed/seed.go:22-32 | the first initialisation sets the master seed, a zero counter and autoInit = false; later calls change nothing |
| Seeds.Registry.NewRand | seed/seed.go:34-48 | initialises from the clock if needed, then hands out (masterSeed, counter) and increments the counter |
| Seeds.Registry.Draw | seed/seed.go:69-78 | hands out (masterSeed, counter) and increments the counter by exactly 1, with uint64 wrap; the master seed is unchanged |
| Seeds.Registry.Current | seed/seed.go:50-67 | returns (0, 0, false) before any initialisation, and the master seed, counter and autoInit afterwards |
| Seeds.InitIsOneShot | seed/seed.go:24-46 | whichever of Init and NewRand runs first initialises the registry; every later Init is a no-op |
| Seeds.MasterSeedStable | seed/seed.go:69-77 | NewRand never changes the master seed or the autoInit flag |
| Seeds.InitThenDraws | seed/seed.go:50-57 | after Init(s) and n NewRand calls, Current is (s, n, false) and call i received (s, i), counted modulo 2^64 |
| Seeds.AutoInit | seed/seed.go:37-45 | without Init, the first NewRand seeds from the clock with autoInit = true and receives (now, 0) |
| LegacyTransforms.AccumulateTransform.constructor | internal/transform/transform.go:18-25 | a fresh instance starts with a total of 0 |
| LegacyTransforms.AccumulateTransform.Apply | internal/transform/transform.go:27-31 | adds v to this instance's total only and returns the new total, which equals the stored one |
| LegacyTransforms.ApplyAll | internal/transform/transform.go:27-31 | consecutive `Apply` calls on one instance return the running totals from its old total, and leave the total increased by the sum of the values |
| LegacyTransforms.RunningArePrefixSums | internal/transform/transform.go:27-31 | applying v1..vn from total a, call i returns a plus the i-th prefix sum |
| LegacyValues.LegacyValue.constructor | internal/value/value.go:22-38 | the state starts at zero |
| LegacyValues.LegacyValue.Tick | internal/value/value.go:43-55 | one tick passes the source value through the transforms in list order. Each transform receives only the piped value and adds it to its own total. The state is written once, with the result |
| LegacyValues.LegacyValue.Value | internal/value/value.go:63-68 | returns the stored state and changes nothing |
| LegacyValues.LegacyValue.TickTimes | internal/value/value.go:40-61 | n ticks of the loop in a row bring the totals and the stored state to `Ticks` of the old ones: n passes, the state being the output of the last |
| LegacyValues.OneAccumulatorTicks | internal/value/value.go:43-55 | over a constant source c with one AccumulateTransform at total a, n ticks bring the total and the stored state to a + n*c |

## Findings

| source | as written | input that shows it | evidently intended | confidence | as-written member | corrected member |
|---|---|---|---|---|---|---|
| value/simple.go:122-124 | a nil hook is stored into an `atomic.Value`, whose `Store` panics on nil | `SetUpdateHook(nil)` on any value | disable the hook, as the doc comment at line 121 says | high, not executed | SimpleValues.NilHookPanics | SimpleValues.SimpleValue.ClearUpdateHook |
| value/simple.go:125-126 | every hook is stored into one `atomic.Value`, whose `Store` panics when the concrete type differs from the first stored | `SetUpdateHook(h1)` with a `*TraceHook`, then `SetUpdateHook(h2)` with another hook type | replace the hook | high, not executed | SimpleValues.MixedHookPanics | SimpleValues.SimpleValue.SetUpdateHook |

## Left out

- Goroutines, channels, `sync.Mutex`/`RWMutex`, `sync.Once` and the atomics. Every operation and every step is atomic, so races are not modelled. These include a read-and-reset racing an update, a subscription racing a tick's snapshot, and the hook being fetched twice in one cycle.
- The clock packages (`clock/periodic.go`, `internal/clock/clock.go`) are not part of this model. Ticks and the end of the clock stream are the calls `Tick` and `ClockClosed`. `PeriodicClock.Subscribe` hands every subscriber the same channel, so ticks are not actually fanned out; that is not modelled either.
- The subscription of a value to its source. `Deliver` is called by hand, so clones and `WithTransforms` results sharing the source is not captured.
- `ResetOnRead` wraps a `SimpleValue` here. In Go it may wrap any `Value`, including another `ResetOnRead`.
- SimpleValues.SimpleValue.SetUpdateHook: the model installs a hook of any type and `ClearUpdateHook` disables it, as intended. In Go, `SetUpdateHook(nil)` and a hook of a new concrete type panic (see Findings); `StoreHook` models that.
- ResetOnReadValues.ResetOnRead.SetUpdateHook: passes on to `SimpleValue.SetUpdateHook`, so the same panics apply in Go.
- The hook is a flag plus a call log. Which hook object receives the calls, and a hook shared by several values, are not modelled.
- `safeHookCall` uses panic and recover, which are not modelled. A failing hook only shows in the model as state and count never depending on the hook.
- `SimpleValues.SimpleValue.Deliver`: values are unbounded integers, so the wrap-around of Go's 64-bit `int` addition in `Accumulate` is not modelled. The same holds for `SetState`, the legacy `AccumulateTransform.Apply` and the float instantiations of `Numeric`.
- `SimpleValues.SimpleValue.Deliver`: `updateCount` is a `nat`. The same holds for `generationCount` in both sources. The uint64 wrap after 2^64 steps is not modelled.
- Tracing.FormatClock: the instant is a count of milliseconds since a local midnight, so the date and time zone of `Time.Format` are not modelled.
- `time.Now()` is a parameter. An instant is a count of milliseconds since a local midnight, so dates and time zones are not modelled.
- `fmt.Println` in `NewDefaultTraceHook` is not modelled. The callback is modelled by the log of events it receives.
- The PCG generator and `IntN` are an oracle: each tick takes the draw `r` as a parameter. The seed pair is recorded but not used to compute draws. Determinism across runs therefore holds only relative to the draws.
- `seed/registry.go` is not part of this model.
- `cmd/example/main.go` and the declaration-only files are not modelled. Their types appear as datatypes: `HookEvent`, `ValueStats`, `SourceStats`, `TraceEvent`.
- `internal/value/value.go` `Stop` is not modelled. The source of the legacy value is the constant source of `internal/source/source.go`, folded in as the fixed input `input`.
