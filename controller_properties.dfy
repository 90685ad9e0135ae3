/** What the rpm_controller promises, stated over the transitions of module
    Transitions: single calls of each operation, and runs of many calls. */
module Properties {
  import opened UInt32
  import opened Transitions

  function Min(a: int, b: int): (m: int) { if a <= b then a else b }
  function Max(a: int, b: int): (m: int) { if a >= b then a else b }

  // ---------------------------------------------------------- initialize()

  /** initialize() acts only once: a second call changes no field and
      writes nothing. */
  lemma InitializeIdempotent(c: ControllerState, now1: u32, now2: u32)
    ensures var first := Initialize(c, now1).next;
            Initialize(first, now2) == Step(first, [])
  {
  }

  /** What the first initialize() leaves: the controller is initialised with
      its measurement, target and duty cleared; without a configured maximum
      it autodetects (stamped now, nothing written), otherwise it is idle and
      has written duty 0. The construction parameters are kept. */
  lemma InitializeEffect(c: ControllerState, now: u32)
    requires Valid(c) && !Initialized(c)
    ensures var o := Initialize(c, now);
            && Initialized(o.next)
            && o.next.rpm == 0 && o.next.targetRpm == 0 && o.next.targetRpmAdj == 0
            && o.next.micros == 0 && o.next.microsOld == 0
            && o.next.pulsesPerRev == c.pulsesPerRev && o.next.changeDelayMs == c.changeDelayMs
            && o.next.resolution == c.resolution && o.next.maxRpm == c.maxRpm
            && (c.maxRpm == 0 ==> o.next.state == Autodetect && o.next.targetTs == now && o.written == [])
            && (c.maxRpm != 0 ==> o.next.state == Idle && o.next.targetTs == 0 && o.written == [0])
  {
  }

  /** Before initialize() the getters report 0, and the setter and update()
      change nothing and write nothing. */
  lemma UninitializedIsInert(c: ControllerState, target: u32, now: u32)
    requires Valid(c) && !Initialized(c)
    ensures Rpm(c) == 0 && MaxRpm(c) == 0
    ensures SetRpm(c, target, now) == c
    ensures Update(c, now) == Step(c, [])
  {
  }

  // ------------------------------------------------------------ rpm(unsigned)

  /** The setter compares the target with the MEASURED speed: above it starts
      ramping up, below it starts ramping down, equal changes nothing. It
      takes the target as given (no clamp to the maximum) and replaces any
      state, autodetection included. */
  lemma SetRpmOutcome(c: ControllerState, target: u32, now: u32)
    requires Initialized(c)
    ensures var r := SetRpm(c, target, now);
            && (target > c.rpm ==> r == c.(state := RampUp, targetRpm := target, targetTs := now))
            && (target < c.rpm ==> r == c.(state := RampDown, targetRpm := target, targetTs := now))
            && (target == c.rpm ==> r == c)
  {
  }

  /** A new target followed, once the settle delay has passed, by an update
      that measures the same speed the setter compared against: the duty
      takes one step toward the target, whatever state the controller was
      in before (autodetection included), and that step is written. */
  lemma SetRpmThenStep(c: ControllerState, target: u32, setAt: u32, now: u32)
    requires Valid(c) && PeriodDefined(c) && Initialized(c) && c.microsOld < c.micros
    requires MeasuredRpm(c) == c.rpm && target != c.rpm
    requires Sub(now, setAt) >= c.changeDelayMs
    ensures var o := Update(SetRpm(c, target, setAt), now);
            var max := FullScale(c.resolution);
            && (target > c.rpm ==> o.next.targetRpmAdj == Min(c.targetRpmAdj + 1, max))
            && (target < c.rpm ==> o.next.targetRpmAdj == Max(c.targetRpmAdj - 1, 0))
            && o.written == [o.next.targetRpmAdj]
            && o.next.targetRpm == target
  {
    RampStep(SetRpm(c, target, setAt), now);
  }

  // -------------------------------------------------------------- handler

  /** Two pulses at increasing times `t1 < t2` make the next update() measure
      one revolution as `(t2 - t1) * pulsesPerRev` microseconds (barring
      overflow) and set the speed to one minute divided by it, rounded. */
  lemma TwoPulsesSetSpeed(c: ControllerState, t1: u32, t2: u32, now: u32)
    requires Valid(c) && Initialized(c)
    requires t1 < t2 && (t2 - t1) * c.pulsesPerRev < Modulus
    ensures var p := Handler(Handler(c, t1), t2);
            && PeriodDefined(p)
            && Update(p, now).next.rpm == RoundedRpm((t2 - t1) * c.pulsesPerRev)
  {
    var p := Handler(Handler(c, t1), t2);
    assert p.micros - p.microsOld == t2 - t1;
    assert (t2 - t1) * c.pulsesPerRev > 0;
  }

  /** A later pulse stamped no later than the one before (the 32-bit
      microsecond clock wrapped, or no second pulse yet) makes update() return
      before doing anything. */
  lemma UnorderedPulsesSkipUpdate(c: ControllerState, t1: u32, t2: u32, now: u32)
    requires Valid(c) && t2 <= t1
    ensures var p := Handler(Handler(c, t1), t2);
            PeriodDefined(p) && Update(p, now) == Step(p, [])
  {
  }

  // --------------------------------------------------------------- update()

  /** update() measures: with increasing pulse times the new speed is the
      nearest integer to one minute over the revolution time; the idle state
      does nothing else. */
  lemma UpdateMeasures(c: ControllerState, now: u32)
    requires Valid(c) && PeriodDefined(c) && Initialized(c) && c.microsOld < c.micros
    ensures var o := Update(c, now);
            var d := RevolutionMicros(c);
            && 2 * o.next.rpm * d <= 2 * MicrosPerMinute + d
            && 2 * MicrosPerMinute < 2 * o.next.rpm * d + d
            && (c.state == Idle ==> o == Step(c.(rpm := o.next.rpm), []))
  {
  }

  /** Settle gating: while a ramp is less than `changeDelayMs` (measured with
      wrapping 32-bit subtraction) past its last change, update() changes
      only the measured speed and writes nothing. */
  lemma RampWaitsToSettle(c: ControllerState, now: u32)
    requires Valid(c) && PeriodDefined(c) && c.microsOld < c.micros
    requires c.state == RampUp || c.state == RampDown
    requires Sub(now, c.targetTs) < c.changeDelayMs
    ensures Update(c, now) == Step(c.(rpm := MeasuredRpm(c)), [])
  {
  }

  /** One settled ramp step: the duty moves by at most one, toward the target
      speed, stays inside the PWM range and is the value written (nothing is
      written when the speed already equals the target); the step is stamped
      now; the state falls back to idle exactly when the error is zero or has
      the other sign than the ramp, or the duty was already at the end of the
      range the ramp moves toward. */
  lemma RampStep(c: ControllerState, now: u32)
    requires Valid(c) && PeriodDefined(c) && c.microsOld < c.micros
    requires c.state == RampUp || c.state == RampDown
    requires Sub(now, c.targetTs) >= c.changeDelayMs
    ensures var o := Update(c, now);
            var m := MeasuredRpm(c);
            var adj, adj' := c.targetRpmAdj, o.next.targetRpmAdj;
            var max := FullScale(c.resolution);
            && 0 <= adj' <= max
            && (m < c.targetRpm ==> adj' == Min(adj + 1, max))
            && (m > c.targetRpm ==> adj' == Max(adj - 1, 0))
            && (m == c.targetRpm ==> adj' == adj)
            && o.written == (if m == c.targetRpm then [] else [adj'])
            && o.next.targetTs == now && o.next.rpm == m
            && o.next.maxRpm == c.maxRpm && o.next.targetRpm == c.targetRpm
            && (o.next.state == Idle <==>
                  || m == c.targetRpm
                  || (c.state == RampUp && (m > c.targetRpm || adj == max))
                  || (c.state == RampDown && (m < c.targetRpm || adj == 0)))
            && (o.next.state != Idle ==> o.next.state == c.state)
  {
  }

  /** Autodetection: while the measured speed is 0 it writes full-scale duty
      and keeps detecting; it becomes idle, adopting the measured speed as the
      maximum, exactly when that speed is not 0 and at least
      `5 * changeDelayMs` (both wrapping 32-bit) have passed since it began. */
  lemma AutodetectStep(c: ControllerState, now: u32)
    requires Valid(c) && PeriodDefined(c) && c.microsOld < c.micros
    requires c.state == Autodetect
    ensures var o := Update(c, now);
            var m := MeasuredRpm(c);
            var done := m != 0 && Sub(now, c.targetTs) >= (5 * c.changeDelayMs) % Modulus;
            && (m == 0 ==> o.written == [FullScale(c.resolution)])
            && (m != 0 ==> o.written == [])
            && (done ==> o.next == c.(rpm := m, maxRpm := m, state := Idle))
            && (!done ==> o.next == c.(rpm := m))
  {
  }

  // ------------------------------------------------------ runs of update()

  /** Updates at the given `millis()` readings, one after the other. */
  function Updates(c: ControllerState, times: seq<u32>): (o: Step)
    requires Valid(c) && PeriodDefined(c)
    ensures Valid(o.next) && PeriodDefined(o.next)
    ensures o.next.micros == c.micros && o.next.microsOld == c.microsOld
    ensures o.next.pulsesPerRev == c.pulsesPerRev && o.next.resolution == c.resolution
    ensures o.next.changeDelayMs == c.changeDelayMs && o.next.targetRpm == c.targetRpm
    decreases |times|
  {
    if times == [] then Step(c, [])
    else
      var first := Update(c, times[0]);
      var rest := Updates(first.next, times[1..]);
      Step(rest.next, first.written + rest.written)
  }

  /** Each reading is at least `delay` after the one before, the first at
      least `delay` after `since`. */
  predicate Spaced(since: u32, times: seq<u32>, delay: u32)
  {
    && (|times| > 0 ==> Sub(times[0], since) >= delay)
    && forall i :: 0 < i < |times| ==> Sub(times[i], times[i - 1]) >= delay
  }

  lemma SpacedTail(since: u32, times: seq<u32>, delay: u32)
    requires |times| > 0 && Spaced(since, times, delay)
    ensures Spaced(times[0], times[1..], delay)
  {
    forall i | 0 < i < |times| - 1
      ensures Sub(times[1..][i], times[1..][i - 1]) >= delay
    {
      assert times[1..][i] == times[i + 1];
    }
  }

  /** An idle controller stays idle under any number of updates and writes
      nothing. */
  lemma {:induction false} IdleStaysIdle(c: ControllerState, times: seq<u32>)
    requires Valid(c) && PeriodDefined(c) && c.state == Idle
    ensures var o := Updates(c, times);
            o.next.state == Idle && o.next.targetRpmAdj == c.targetRpmAdj && o.written == []
    decreases |times|
  {
    if times != [] {
      IdleStaysIdle(Update(c, times[0]).next, times[1..]);
    }
  }

  /** Ramping up against a fan that stays below the target, with settled
      updates: the duty climbs by one per update until it reaches full scale,
      the update after that writes full scale once more and goes idle, and
      nothing more is written; the duty never passes full scale. */
  lemma {:induction false} RampUpSaturates(c: ControllerState, times: seq<u32>)
    requires Valid(c) && PeriodDefined(c) && c.microsOld < c.micros
    requires c.state == RampUp && MeasuredRpm(c) < c.targetRpm
    requires Spaced(c.targetTs, times, c.changeDelayMs)
    ensures var o := Updates(c, times);
            var max := FullScale(c.resolution);
            && o.next.targetRpmAdj == Min(c.targetRpmAdj + |times|, max)
            && o.next.state == (if c.targetRpmAdj + |times| <= max then RampUp else Idle)
            && |o.written| == Min(|times|, max - c.targetRpmAdj + 1)
    decreases |times|
  {
    if times != [] {
      var first := Update(c, times[0]);
      RampStep(c, times[0]);
      if c.targetRpmAdj < FullScale(c.resolution) {
        SpacedTail(c.targetTs, times, c.changeDelayMs);
        assert first.next.targetRpmAdj == c.targetRpmAdj + 1 && first.next.state == RampUp;
        assert MeasuredRpm(first.next) == MeasuredRpm(c);
        RampUpSaturates(first.next, times[1..]);
      } else {
        IdleStaysIdle(first.next, times[1..]);
      }
    }
  }

  /** Ramping down against a fan that stays above the target, with settled
      updates: the duty falls by one per update until it reaches 0, the update
      after that writes 0 once more and goes idle, and nothing more is
      written; the duty never goes below 0. */
  lemma {:induction false} RampDownSaturates(c: ControllerState, times: seq<u32>)
    requires Valid(c) && PeriodDefined(c) && c.microsOld < c.micros
    requires c.state == RampDown && MeasuredRpm(c) > c.targetRpm
    requires Spaced(c.targetTs, times, c.changeDelayMs)
    ensures var o := Updates(c, times);
            && o.next.targetRpmAdj == Max(c.targetRpmAdj - |times|, 0)
            && o.next.state == (if c.targetRpmAdj - |times| >= 0 then RampDown else Idle)
            && |o.written| == Min(|times|, c.targetRpmAdj + 1)
    decreases |times|
  {
    if times != [] {
      var first := Update(c, times[0]);
      RampStep(c, times[0]);
      if c.targetRpmAdj > 0 {
        SpacedTail(c.targetTs, times, c.changeDelayMs);
        assert first.next.targetRpmAdj == c.targetRpmAdj - 1 && first.next.state == RampDown;
        assert MeasuredRpm(first.next) == MeasuredRpm(c);
        RampDownSaturates(first.next, times[1..]);
      } else {
        IdleStaysIdle(first.next, times[1..]);
      }
    }
  }

  // ---------------------------------------------- arbitrary runs of calls

  /** A call into the controller from the interrupt or the host. */
  datatype Event =
    | Pulse(t: u32)                 // handler, t = micros()
    | Init(now: u32)                // initialize()
    | Target(rpm: u32, now: u32)    // rpm(unsigned)
    | Tick(now: u32)                // update()

  /** A run's outcome: the final fields, every duty written, and how many
      calls of initialize() attached the interrupt and the PWM channel. */
  datatype Trace = Trace(next: ControllerState, written: seq<u32>, attachments: nat)

  /** A run either reaches a call the source leaves undefined, or ends with a trace. */
  datatype Outcome = Undefined | Defined(trace: Trace)

  /** One call; Undefined when it is an update() whose revolution time is 0, which
      the source leaves undefined. */
  function Apply(c: ControllerState, e: Event): (r: Outcome)
    requires Valid(c)
    ensures r.Defined? ==> Valid(r.trace.next) && r.trace.next.resolution == c.resolution
  {
    match e
    case Pulse(t) => Defined(Trace(Handler(c, t), [], 0))
    case Init(now) =>
      var o := Initialize(c, now);
      Defined(Trace(o.next, o.written, if Initialized(c) then 0 else 1))
    case Target(rpm, now) => Defined(Trace(SetRpm(c, rpm, now), [], 0))
    case Tick(now) =>
      if PeriodDefined(c) then var o := Update(c, now); Defined(Trace(o.next, o.written, 0)) else Undefined
  }

  /** The calls one after the other, or Undefined if one of them is undefined. */
  function Run(c: ControllerState, events: seq<Event>): (r: Outcome)
    requires Valid(c)
    decreases |events|
  {
    if events == [] then Defined(Trace(c, [], 0))
    else
      match Apply(c, events[0])
      case Undefined => Undefined
      case Defined(first) =>
        match Run(first.next, events[1..])
        case Undefined => Undefined
        case Defined(rest) => Defined(Trace(rest.next, first.written + rest.written, first.attachments + rest.attachments))
  }

  /** Over any run of calls: the invariant holds (a known state code, the duty
      inside the PWM range), every duty written is inside the PWM range, an
      initialised controller never becomes uninitialised again, and the
      hardware is attached at most once (never, if it already was). */
  lemma {:induction false} RunKeepsInvariant(c: ControllerState, events: seq<Event>)
    requires Valid(c)
    ensures var r := Run(c, events);
            r.Defined? ==>
              && Valid(r.trace.next)
              && r.trace.next.resolution == c.resolution
              && (forall w <- r.trace.written :: w <= FullScale(c.resolution))
              && (Initialized(c) ==> Initialized(r.trace.next) && r.trace.attachments == 0)
              && r.trace.attachments <= 1
    decreases |events|
  {
    if events != [] {
      var first := Apply(c, events[0]);
      if first.Defined? {
        RunKeepsInvariant(first.trace.next, events[1..]);
      }
    }
  }
}
