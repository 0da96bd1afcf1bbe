/**
 * `TraceHook` and `FormatTraceLine` of package `value`. The hook buffers the
 * calls of one update cycle and hands one `TraceEvent` to its callback on
 * AfterUpdate; the callback is modelled by the log `emitted` of every event
 * it received. `time.Now()` is a parameter `now`.
 */
module Tracing {
  import opened Wrappers
  import opened Transforms
  import opened Hooks
  import opened SimpleValues

  /** A wall-clock instant, in milliseconds since a local midnight. */
  type Instant = nat

  /** `TransformTrace[int]`. */
  datatype TransformTrace = TransformTrace(name: string, input: int, output: int, state: int)

  /** `TraceEvent[int]`. */
  datatype TraceEvent = TraceEvent(timestamp: Instant, input: int, transforms: seq<TransformTrace>, finalState: int)

  /** The buffer of a hook between calls; `None` is Go's zero `time.Time`. */
  datatype TraceState = TraceState(timestamp: Option<Instant>, input: int, buffer: seq<TransformTrace>)

  /** The buffer of a fresh hook, and after every AfterUpdate. */
  const Cleared: TraceState := TraceState(None, 0, [])

  /** The event AfterUpdate hands to the callback. */
  function Emit(st: TraceState, finalState: int, now: Instant): TraceEvent
  {
    if st.timestamp.Some? then TraceEvent(st.timestamp.value, st.input, st.buffer, finalState)
    else TraceEvent(now, 0, [], finalState)
  }

  /** One hook call: the new buffer, and the events the callback receives. */
  function Observe(st: TraceState, ev: HookEvent, now: Instant): (TraceState, seq<TraceEvent>)
  {
    match ev
    case OnInput(x, _) => (TraceState(Some(now), x, []), [])
    case OnTransform(name, input, output, state) =>
      (st.(buffer := st.buffer + [TransformTrace(name, input, output, state)]), [])
    case AfterUpdate(finalState) => (Cleared, [Emit(st, finalState, now)])
  }

  /** A sequence of hook calls, all made at instant `now`. */
  function Replay(st: TraceState, evs: seq<HookEvent>, now: Instant): (TraceState, seq<TraceEvent>)
    decreases |evs|
  {
    if evs == [] then (st, [])
    else
      var first := Observe(st, evs[0], now);
      var rest := Replay(first.0, evs[1..], now);
      (rest.0, first.1 + rest.1)
  }

  /** The records a cycle of `chain` on input `x` from state `s0` leaves in the buffer. */
  function Records(chain: seq<Transformation>, x: int, s0: int): (trs: seq<TransformTrace>)
    ensures |trs| == |chain|
  {
    if chain == [] then []
    else
      var k := |chain| - 1;
      Records(chain[..k], x, s0)
        + [TransformTrace(chain[k].name, Fold(chain[..k], x, s0), Fold(chain, x, s0), s0)]
  }

  /** Record i names transform i, with its input, its output and the pre-cycle state. */
  lemma {:induction false} RecordAt(chain: seq<Transformation>, x: int, s0: int, i: nat)
    requires i < |chain|
    ensures |Records(chain, x, s0)| == |chain|
    ensures Records(chain, x, s0)[i]
      == TransformTrace(chain[i].name, Fold(chain[..i], x, s0), Fold(chain[..i + 1], x, s0), s0)
  {
    var k := |chain| - 1;
    var pre := chain[..k];
    var front := Records(pre, x, s0);
    var rec := TransformTrace(chain[k].name, Fold(pre, x, s0), Fold(chain, x, s0), s0);
    assert Records(chain, x, s0) == front + [rec];
    if i < k {
      RecordAt(pre, x, s0, i);
      assert chain[..i] == pre[..i] && chain[..i + 1] == pre[..i + 1] && chain[i] == pre[i];
      assert (front + [rec])[i] == front[i];
    } else {
      if k > 0 {
        RecordAt(pre, x, s0, k - 1);
      }
      assert chain[..k + 1] == chain;
    }
  }

  lemma ReplayOne(st: TraceState, ev: HookEvent, now: Instant)
    ensures Replay(st, [ev], now) == Observe(st, ev, now)
  {
    assert [ev][1..] == [];
    var first := Observe(st, ev, now);
    assert Replay(first.0, [], now) == (first.0, []);
    assert first.1 + [] == first.1;
  }

  lemma {:induction false} ReplayAppend(st: TraceState, a: seq<HookEvent>, b: seq<HookEvent>, now: Instant)
    ensures Replay(st, a + b, now).0 == Replay(Replay(st, a, now).0, b, now).0
    ensures Replay(st, a + b, now).1 == Replay(st, a, now).1 + Replay(Replay(st, a, now).0, b, now).1
    decreases |a|
  {
    if a == [] {
      assert a + b == b;
    } else {
      assert (a + b)[1..] == a[1..] + b;
      ReplayAppend(Observe(st, a[0], now).0, a[1..], b, now);
    }
  }

  /** The OnTransform calls of a cycle append its records, in call order, and emit nothing. */
  lemma {:induction false} ReplaySteps(st: TraceState, chain: seq<Transformation>, x: int, s0: int, now: Instant)
    ensures Replay(st, StepEvents(chain, x, s0), now) == (st.(buffer := st.buffer + Records(chain, x, s0)), [])
  {
    if chain == [] {
      assert Records(chain, x, s0) == [];
      assert st.buffer + [] == st.buffer;
    } else {
      var k := |chain| - 1;
      var pre := chain[..k];
      var last := OnTransform(chain[k].name, Fold(pre, x, s0), Fold(chain, x, s0), s0);
      var rec := TransformTrace(chain[k].name, Fold(pre, x, s0), Fold(chain, x, s0), s0);
      assert StepEvents(chain, x, s0) == StepEvents(pre, x, s0) + [last];
      ReplaySteps(st, pre, x, s0, now);
      ReplayAppend(st, StepEvents(pre, x, s0), [last], now);
      var mid := st.(buffer := st.buffer + Records(pre, x, s0));
      ReplayOne(mid, last, now);
      assert Observe(mid, last, now) == (mid.(buffer := mid.buffer + [rec]), []);
      assert st.buffer + Records(pre, x, s0) + [rec] == st.buffer + Records(chain, x, s0);
    }
  }

  /**
   * Feeding the calls of one SimpleValue update cycle to a TraceHook, whatever
   * it held before, emits exactly one event: the cycle's input, one record
   * per transform in chain order, and the new state; the hook is then cleared.
   */
  lemma ReplayCycle(st: TraceState, chain: seq<Transformation>, x: int, s0: int, now: Instant)
    ensures Replay(st, CycleEvents(chain, x, s0), now)
      == (Cleared, [TraceEvent(now, x, Records(chain, x, s0), Fold(chain, x, s0))])
  {
    var started := TraceState(Some(now), x, []);
    var steps := StepEvents(chain, x, s0);
    var recs := Records(chain, x, s0);
    var after := AfterUpdate(Fold(chain, x, s0));
    ReplayOne(st, OnInput(x, s0), now);
    ReplaySteps(started, chain, x, s0, now);
    assert [] + recs == recs;
    var full := started.(buffer := recs);
    ReplayAppend(st, [OnInput(x, s0)], steps, now);
    assert Replay(st, [OnInput(x, s0)] + steps, now) == (full, []);
    ReplayOne(full, after, now);
    var evt := TraceEvent(now, x, recs, Fold(chain, x, s0));
    assert Observe(full, after, now) == (Cleared, [evt]);
    assert [] + [evt] == [evt];
    ReplayAppend(st, [OnInput(x, s0)] + steps, [after], now);
    assert CycleEvents(chain, x, s0) == [OnInput(x, s0)] + steps + [after];
  }

  /** A SetState on a hooked value: the event has the instant of the call, zero input and no records. */
  lemma ReplaySetState(st: TraceState, s: int, now: Instant)
    requires st.timestamp.None?
    ensures Replay(st, [AfterUpdate(s)], now) == (Cleared, [TraceEvent(now, 0, [], s)])
  {
    ReplayOne(st, AfterUpdate(s), now);
  }

  class TraceHook {
    var timestamp: Option<Instant>
    var input: int
    var buffer: seq<TransformTrace>
    /** Every event handed to the callback, oldest first. */
    var emitted: seq<TraceEvent>

    function State(): TraceState
      reads this
    {
      TraceState(timestamp, input, buffer)
    }

    /** `NewTraceHook(callback)`. */
    constructor ()
      ensures State() == Cleared && emitted == []
    {
      timestamp := None;
      input := 0;
      buffer := [];
      emitted := [];
    }

    /** `OnInput`: record the input and the instant, empty the buffer. */
    method OnInput(x: int, state: int, now: Instant)
      modifies this
      ensures timestamp == Some(now) && input == x && buffer == []
      ensures emitted == old(emitted)
      ensures State() == Observe(old(State()), HookEvent.OnInput(x, state), now).0
    {
      timestamp := Some(now);
      input := x;
      buffer := [];
    }

    /** `OnTransform`: append exactly one record, keeping the earlier ones. */
    method OnTransform(name: string, x: int, output: int, state: int)
      modifies this
      ensures buffer == old(buffer) + [TransformTrace(name, x, output, state)]
      ensures timestamp == old(timestamp) && input == old(input) && emitted == old(emitted)
      ensures State() == Observe(old(State()), HookEvent.OnTransform(name, x, output, state), 0).0
    {
      buffer := buffer + [TransformTrace(name, x, output, state)];
    }

    /**
     * `AfterUpdate`: hand exactly one event to the callback, then clear the
     * buffer. After an OnInput the event carries its instant, its input and
     * the records in call order; without one (a direct SetState) it carries
     * the current instant, zero input and no records.
     */
    method AfterUpdate(finalState: int, now: Instant)
      modifies this
      ensures |emitted| == |old(emitted)| + 1 && emitted[..|old(emitted)|] == old(emitted)
      ensures old(timestamp).Some? ==>
        emitted[|old(emitted)|] == TraceEvent(old(timestamp).value, old(input), old(buffer), finalState)
      ensures old(timestamp).None? ==>
        emitted[|old(emitted)|] == TraceEvent(now, 0, [], finalState)
      ensures State() == Cleared
      ensures emitted == old(emitted) + Observe(old(State()), HookEvent.AfterUpdate(finalState), now).1
    {
      var event := Emit(State(), finalState, now);
      timestamp := None;
      input := 0;
      buffer := [];
      emitted := emitted + [event];
    }
  }

  // ----- FormatTraceLine -----

  function DigitChar(d: nat): char
    requires d < 10
  {
    ('0' as int + d) as char
  }

  /** Every character is a decimal digit. */
  predicate IsDigits(s: string)
  {
    forall i :: 0 <= i < |s| ==> '0' <= s[i] <= '9'
  }

  /** The number a string of decimal digits denotes, most significant first. */
  function Decimal(s: string): int
  {
    if s == [] then 0 else 10 * Decimal(s[..|s| - 1]) + (s[|s| - 1] as int - '0' as int)
  }

  lemma DecimalSnoc(s: string, d: nat)
    requires d < 10
    ensures Decimal(s + [DigitChar(d)]) == 10 * Decimal(s) + d
  {
  }

  /** The decimal digits of `n`, most significant first. */
  function Digits(n: nat): (s: string)
    ensures |s| > 0
  {
    if n < 10 then [DigitChar(n)] else Digits(n / 10) + [DigitChar(n % 10)]
  }

  /** `%v` of an int. */
  function Show(n: int): string
  {
    if n < 0 then "-" + Digits(-n) else Digits(n)
  }

  /** A number in `width` decimal places, with leading zeros. */
  function Pad(n: nat, width: nat): (s: string)
    requires n < Power10(width)
    ensures |s| == width
  {
    if width == 0 then "" else Pad(n / 10, width - 1) + [DigitChar(n % 10)]
  }

  function Power10(k: nat): (p: nat)
    ensures p >= 1
  {
    if k == 0 then 1 else 10 * Power10(k - 1)
  }

  /** `Digits(n)` spells `n` in decimal. */
  lemma {:induction false} DigitsDecode(n: nat)
    ensures IsDigits(Digits(n)) && Decimal(Digits(n)) == n
  {
    if n < 10 {
      DecimalSnoc([], n);
      assert [] + [DigitChar(n)] == [DigitChar(n)];
    } else {
      DigitsDecode(n / 10);
      DecimalSnoc(Digits(n / 10), n % 10);
    }
  }

  /** `Pad(n, width)` spells `n` in exactly `width` decimal digits. */
  lemma {:induction false} PadDecode(n: nat, width: nat)
    requires n < Power10(width)
    ensures IsDigits(Pad(n, width)) && Decimal(Pad(n, width)) == n
  {
    if width > 0 {
      PadDecode(n / 10, width - 1);
      DecimalSnoc(Pad(n / 10, width - 1), n % 10);
    }
  }

  /** `Time.Format("15:04:05.000")`. */
  function FormatClock(t: Instant): (s: string)
    ensures |s| == 12 && s[2] == ':' && s[5] == ':' && s[8] == '.'
  {
    Stamp(Pad(t / 3600000 % 24, 2), Pad(t / 60000 % 60, 2), Pad(t / 1000 % 60, 2), Pad(t % 1000, 3))
  }

  /** The fields of a stamp with their separators. */
  function Stamp(hh: string, mm: string, ss: string, ms: string): string
  {
    hh + ":" + mm + ":" + ss + "." + ms
  }

  lemma StampFields(hh: string, mm: string, ss: string, ms: string)
    requires |hh| == 2 && |mm| == 2 && |ss| == 2 && |ms| == 3
    ensures var s := Stamp(hh, mm, ss, ms);
      |s| == 12 && s[0..2] == hh && s[3..5] == mm && s[6..8] == ss && s[9..12] == ms
  {
  }

  /**
   * The four fields of the stamp are decimal digits that spell the hour of
   * the day, the minute, the second and the millisecond of the instant.
   */
  lemma ClockFields(t: Instant)
    ensures var s := FormatClock(t);
      && IsDigits(s[0..2]) && Decimal(s[0..2]) == t / 3600000 % 24
      && IsDigits(s[3..5]) && Decimal(s[3..5]) == t / 60000 % 60
      && IsDigits(s[6..8]) && Decimal(s[6..8]) == t / 1000 % 60
      && IsDigits(s[9..12]) && Decimal(s[9..12]) == t % 1000
  {
    var hh, mm, ss, ms := Pad(t / 3600000 % 24, 2), Pad(t / 60000 % 60, 2), Pad(t / 1000 % 60, 2), Pad(t % 1000, 3);
    PadDecode(t / 3600000 % 24, 2);
    PadDecode(t / 60000 % 60, 2);
    PadDecode(t / 1000 % 60, 2);
    PadDecode(t % 1000, 3);
    StampFields(hh, mm, ss, ms);
  }

  /** `strings.Join`. */
  function Join(parts: seq<string>, sep: string): string
  {
    if parts == [] then ""
    else if |parts| == 1 then parts[0]
    else parts[0] + sep + Join(parts[1..], sep)
  }

  /** The part naming a transform and the state it saw: "name(s:state)". */
  function StepLabel(name: string, state: int): string
  {
    name + "(s:" + Show(state) + ")"
  }

  /** The two parts one record adds: its "name(s:state)" label, then its output. */
  function RecordParts(tr: TransformTrace): seq<string>
  {
    [StepLabel(tr.name, tr.state), Show(tr.output)]
  }

  /** The parts the loop of `FormatTraceLine` adds, two per record. */
  function TraceParts(trs: seq<TransformTrace>): seq<string>
  {
    if trs == [] then []
    else TraceParts(trs[..|trs| - 1]) + RecordParts(trs[|trs| - 1])
  }

  lemma {:induction false} TracePartsLength(trs: seq<TransformTrace>)
    ensures |TraceParts(trs)| == 2 * |trs|
  {
    if trs != [] {
      TracePartsLength(trs[..|trs| - 1]);
    }
  }

  /** Record i contributes parts 2i and 2i+1: its label, then its output. */
  lemma {:induction false} TracePartAt(trs: seq<TransformTrace>, i: nat)
    requires i < |trs|
    ensures |TraceParts(trs)| == 2 * |trs|
    ensures TraceParts(trs)[2 * i] == StepLabel(trs[i].name, trs[i].state)
    ensures TraceParts(trs)[2 * i + 1] == Show(trs[i].output)
  {
    var k := |trs| - 1;
    var pre := trs[..k];
    var parts, front, tail := TraceParts(trs), TraceParts(pre), RecordParts(trs[k]);
    TracePartsLength(pre);
    assert parts == front + tail;
    if i < k {
      TracePartAt(pre, i);
      assert parts[2 * i] == front[2 * i] && parts[2 * i + 1] == front[2 * i + 1];
      assert trs[i] == pre[i];
    } else {
      assert parts[2 * i] == tail[0] && parts[2 * i + 1] == tail[1];
    }
  }

  /** The parts of a normal update line: the input, then two per record. */
  function LineParts(evt: TraceEvent): seq<string>
  {
    [Show(evt.input)] + TraceParts(evt.transforms)
  }

  /** `FormatTraceLine`: a normal update when there are records, a SetState line otherwise. */
  function FormatTraceLine(evt: TraceEvent): string
  {
    var stamp := "[" + FormatClock(evt.timestamp) + "] ";
    if |evt.transforms| > 0 then stamp + Join(LineParts(evt), " | ")
    else stamp + "SetState | " + Show(evt.finalState)
  }

  lemma LinePartShift(evt: TraceEvent, j: nat)
    requires j < |TraceParts(evt.transforms)|
    ensures |LineParts(evt)| == 1 + |TraceParts(evt.transforms)|
    ensures LineParts(evt)[1 + j] == TraceParts(evt.transforms)[j]
  {
  }

  /** Parts 1 + 2i and 2 + 2i of a cycle's line: transform i's label and its output. */
  lemma CyclePartAt(chain: seq<Transformation>, x: int, s0: int, evt: TraceEvent, i: nat)
    requires evt.transforms == Records(chain, x, s0) && i < |chain|
    ensures |LineParts(evt)| == 1 + 2 * |chain|
    ensures LineParts(evt)[1 + 2 * i] == StepLabel(chain[i].name, s0)
    ensures LineParts(evt)[2 + 2 * i] == Show(Fold(chain[..i + 1], x, s0))
  {
    var tr := evt.transforms[i];
    TracePartAt(evt.transforms, i);
    RecordAt(chain, x, s0, i);
    assert tr.name == chain[i].name && tr.state == s0 && tr.output == Fold(chain[..i + 1], x, s0);
    LinePartShift(evt, 2 * i);
    LinePartShift(evt, 2 * i + 1);
  }

  /** The parts of the line for an event carrying a cycle's records. */
  lemma CyclePartsShape(chain: seq<Transformation>, x: int, s0: int, evt: TraceEvent)
    requires evt.input == x && evt.transforms == Records(chain, x, s0)
    ensures |LineParts(evt)| == 1 + 2 * |chain|
    ensures LineParts(evt)[0] == Show(x)
    ensures forall i :: 0 <= i < |chain| ==>
      LineParts(evt)[1 + 2 * i] == StepLabel(chain[i].name, s0)
      && LineParts(evt)[2 + 2 * i] == Show(Fold(chain[..i + 1], x, s0))
  {
    TracePartsLength(evt.transforms);
    forall i | 0 <= i < |chain|
      ensures LineParts(evt)[1 + 2 * i] == StepLabel(chain[i].name, s0)
      ensures LineParts(evt)[2 + 2 * i] == Show(Fold(chain[..i + 1], x, s0))
    {
      CyclePartAt(chain, x, s0, evt, i);
    }
  }

  /**
   * The line a TraceHook prints for a SimpleValue cycle through a non-empty
   * chain: the stamp, then the parts of the cycle's event joined by " | "
   * (`CyclePartsShape` says what those parts are).
   */
  lemma CycleLine(chain: seq<Transformation>, x: int, s0: int, now: Instant)
    requires chain != []
    ensures var out := Replay(Cleared, CycleEvents(chain, x, s0), now).1;
      && |out| == 1
      && out[0].input == x && out[0].transforms == Records(chain, x, s0)
      && FormatTraceLine(out[0]) == "[" + FormatClock(now) + "] " + Join(LineParts(out[0]), " | ")
  {
    ReplayCycle(Cleared, chain, x, s0, now);
    var evt := TraceEvent(now, x, Records(chain, x, s0), Fold(chain, x, s0));
    assert Replay(Cleared, CycleEvents(chain, x, s0), now).1 == [evt];
    assert |evt.transforms| > 0;
  }

  /** A direct SetState prints "[stamp] SetState | state". */
  lemma SetStateLine(s: int, now: Instant)
    ensures var out := Replay(Cleared, [AfterUpdate(s)], now).1;
      |out| == 1 && FormatTraceLine(out[0]) == "[" + FormatClock(now) + "] " + "SetState | " + Show(s)
  {
  }

  /**
   * A real update through an empty chain prints the same SetState line: the
   * input does not appear.
   */
  lemma EmptyChainLine(x: int, s0: int, now: Instant)
    ensures var out := Replay(Cleared, CycleEvents([], x, s0), now).1;
      |out| == 1 && FormatTraceLine(out[0]) == "[" + FormatClock(now) + "] " + "SetState | " + Show(x)
  {
    ReplayCycle(Cleared, [], x, s0, now);
  }
}
