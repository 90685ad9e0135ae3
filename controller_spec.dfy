/** The rpm_controller of include/rpm_controller.hpp as values: the object's
    fields as a datatype and every operation as a function from the fields
    before the call to the fields after it, together with the duty values the
    call hands to the PWM peripheral (`ledcWrite`). The hardware clock
    readings (`millis()`, `micros()`) are parameters. */
module Transitions {
  import opened UInt32

  // The values of `m_state`.
  const Autodetect: int := -2     // measuring the maximum RPM
  const Uninitialized: int := -1  // constructed, initialize() not yet run
  const Idle: int := 0            // nothing to do
  const RampUp: int := 1          // target RPM was above the measured RPM
  const RampDown: int := 2        // target RPM was below the measured RPM

  /** `1 << m_resolution` is evaluated on a signed 32-bit `int`, so the
      largest resolution for which `(1 << m_resolution) - 1` is defined. */
  const MaxResolution: nat := 30

  const MicrosPerMinute: nat := 60_000_000

  /** The fields of one rpm_controller that its operations read or write. */
  datatype ControllerState = ControllerState(
    pulsesPerRev: u32,   // m_pulses_per_rev
    state: int,          // m_state
    changeDelayMs: u32,  // m_change_delay_ms
    rpm: u32,            // m_rpm, the last measured speed
    micros: u32,         // m_micros, time of the latest tachometer pulse
    microsOld: u32,      // m_micros_old, time of the pulse before it
    resolution: nat,     // m_resolution, PWM bits
    maxRpm: u32,         // m_max_rpm
    targetRpm: u32,      // m_target_rpm
    targetRpmAdj: i32,   // m_target_rpm_adj, the PWM duty
    targetTs: u32)       // m_target_ts, time of the last target change or step

  /** What an operation leaves behind: the new fields, and the duty values it
      wrote to the PWM channel, in order. */
  datatype Step = Step(next: ControllerState, written: seq<u32>)

  /** `1 << n` for a shift that does not overflow. */
  function Pow2(n: nat): (r: nat)
  {
    if n == 0 then 1 else 2 * Pow2(n - 1)
  }

  lemma {:induction false} Pow2Add(m: nat, n: nat)
    ensures Pow2(m + n) == Pow2(m) * Pow2(n)
    decreases n
  {
    if n > 0 {
      Pow2Add(m, n - 1);
      assert Pow2(m + n) == 2 * Pow2(m + n - 1);
    }
  }

  lemma {:induction false} Pow2Positive(n: nat)
    ensures Pow2(n) >= 1
  {
    if n > 0 {
      Pow2Positive(n - 1);
    }
  }

  lemma {:induction false} Pow2Monotone(m: nat, n: nat)
    requires m <= n
    ensures Pow2(m) <= Pow2(n)
    decreases n
  {
    if m < n {
      Pow2Monotone(m, n - 1);
      Pow2Positive(n - 1);
    }
  }

  lemma Pow2Of10()
    ensures Pow2(10) == 1024
  {
  }

  lemma Pow2Of30()
    ensures Pow2(30) == 0x4000_0000
  {
    Pow2Of10();
    Pow2Add(10, 10);
    Pow2Add(20, 10);
  }

  /** `1 << n` is positive and at most `1 << 30` for every shift allowed here. */
  lemma Pow2AtMost30(n: nat)
    requires n <= MaxResolution
    ensures 1 <= Pow2(n) <= 0x4000_0000
  {
    Pow2Positive(n);
    Pow2Monotone(n, 30);
    Pow2Of30();
  }

  /** Full-scale PWM duty `(1 << m_resolution) - 1`. */
  function FullScale(resolution: nat): (r: nat)
    requires resolution <= MaxResolution
    ensures r < 0x4000_0000
  {
    Pow2AtMost30(resolution);
    Pow2(resolution) - 1
  }

  /** The controller's invariant: the construction parameters the arithmetic
      needs, a known state code, and a duty inside the PWM range. */
  predicate Valid(c: ControllerState)
  {
    && c.pulsesPerRev > 0
    && c.resolution <= MaxResolution
    && Autodetect <= c.state <= RampDown  // one of the five codes
    && 0 <= c.targetRpmAdj <= FullScale(c.resolution)
  }

  /** The fields as the constructor leaves them; `m_target_ts` is not
      initialised there, so any value is possible. */
  function Constructed(maxRpm: u32, pulsesPerRev: u32, changeDelayMs: u32, resolution: nat, ts: u32): (c: ControllerState)
    requires pulsesPerRev > 0 && resolution <= MaxResolution
    ensures Valid(c) && c.state == Uninitialized
  {
    ControllerState(pulsesPerRev, Uninitialized, changeDelayMs, 0, 0, 0, resolution, maxRpm, 0, 0, ts)
  }

  // ---------------------------------------------------------------- getters

  function Initialized(c: ControllerState): (b: bool)
  {
    c.state != Uninitialized
  }

  /** `rpm()`: the measured speed, or 0 before initialisation. */
  function Rpm(c: ControllerState): (r: u32)
    ensures !Initialized(c) ==> r == 0
    ensures Initialized(c) ==> r == c.rpm
  {
    if Initialized(c) then c.rpm else 0
  }

  /** `max_rpm()`: the configured or detected maximum, or 0 before initialisation. */
  function MaxRpm(c: ControllerState): (r: u32)
    ensures !Initialized(c) ==> r == 0
    ensures Initialized(c) ==> r == c.maxRpm
  {
    if Initialized(c) then c.maxRpm else 0
  }

  // ---------------------------------------------------------- measurement

  /** `6e7 / (double)d + .5` converted to `unsigned int`: one minute divided by
      the duration `d` of a revolution, rounded to the nearest integer with
      halves rounded up. The double arithmetic is exact enough here that the
      integer quotient below is the value the conversion produces. */
  function RoundedRpm(d: u32): (r: u32)
    requires d > 0
    ensures 2 * r * d <= 2 * MicrosPerMinute + d      // r <= 6e7/d + 1/2
    ensures 2 * MicrosPerMinute < 2 * r * d + d       // r >  6e7/d - 1/2
    ensures r == 0 <==> d > 2 * MicrosPerMinute
    ensures r <= MicrosPerMinute
  {
    var q := (2 * MicrosPerMinute + d) / (2 * d);
    QuotientBounds(2 * MicrosPerMinute + d, 2 * d);
    assert 2 * d * q == 2 * q * d;
    RoundingBounds(d, q);
    q
  }

  lemma QuotientBounds(n: nat, m: nat)
    requires m > 0
    ensures 0 <= n / m && m * (n / m) <= n < m * (n / m) + m
  {
  }

  /** A quotient between these bounds is the nearest integer to 6e7/d, fits
      32 bits, and is 0 exactly for revolutions longer than two minutes. */
  lemma RoundingBounds(d: nat, q: int)
    requires d > 0 && 0 <= q
    requires 2 * q * d <= 2 * MicrosPerMinute + d < 2 * q * d + 2 * d
    ensures q <= MicrosPerMinute
    ensures q == 0 <==> d > 2 * MicrosPerMinute
  {
    // 2qd - 2Md = 2(q - M)d <= d, so q - M < 1.
    assert 2 * (q - MicrosPerMinute) * d <= d;
    if q >= 1 {
      assert (q - 1) * d >= 0;
    }
  }

  /** `(m_micros - m_micros_old) * m_pulses_per_rev` as an `unsigned long`:
      the duration of one revolution in microseconds, modulo 2^32. */
  function RevolutionMicros(c: ControllerState): (d: u32)
    requires c.microsOld < c.micros
    ensures (c.micros - c.microsOld) * c.pulsesPerRev < Modulus ==> d == (c.micros - c.microsOld) * c.pulsesPerRev
    ensures ((c.micros - c.microsOld) * c.pulsesPerRev - d) % Modulus == 0
  {
    Mul(c.micros - c.microsOld, c.pulsesPerRev)
  }

  /** An initialised update() with increasing pulse times divides by the
      revolution time, so it is defined only when that time is not 0 after
      wrapping (it is 0 when `m_pulses_per_rev` is 0 or when the product is a
      multiple of 2^32). Before initialisation update() divides by nothing. */
  predicate PeriodDefined(c: ControllerState)
  {
    !Initialized(c) || c.micros <= c.microsOld || RevolutionMicros(c) != 0
  }

  /** The speed update() measures from the last two pulses. */
  function MeasuredRpm(c: ControllerState): (r: u32)
    requires c.microsOld < c.micros && RevolutionMicros(c) != 0
    ensures r <= MicrosPerMinute
  {
    RoundedRpm(RevolutionMicros(c))
  }

  // ------------------------------------------------------------ operations

  /** `handler`: the interrupt shifts the latest pulse time into the old slot
      and records the new one. */
  function Handler(c: ControllerState, t: u32): (r: ControllerState)
    ensures Valid(c) ==> Valid(r)
    ensures r.microsOld == c.micros && r.micros == t
    ensures r.(microsOld := c.microsOld, micros := c.micros) == c
  {
    c.(microsOld := c.micros, micros := t)
  }

  /** `initialize()`: acts only on an uninitialised controller. It clears the
      measurement and the duty, then either starts autodetection (no maximum
      configured) or goes idle and writes duty 0. */
  function Initialize(c: ControllerState, now: u32): (o: Step)
    ensures Valid(c) ==> Valid(o.next)
    ensures Initialized(o.next)
  {
    if c.state != Uninitialized then Step(c, [])
    else if c.maxRpm == 0 then
      Step(c.(rpm := 0, targetRpm := 0, state := Autodetect, micros := 0, microsOld := 0,
              targetRpmAdj := 0, targetTs := now), [])
    else
      Step(c.(rpm := 0, targetRpm := 0, state := Idle, micros := 0, microsOld := 0,
              targetRpmAdj := 0, targetTs := 0), [0])
  }

  /** `rpm(unsigned)`: sets the target and picks the ramp direction by
      comparing it with the measured speed; an equal target changes nothing. */
  function SetRpm(c: ControllerState, target: u32, now: u32): (r: ControllerState)
    ensures Valid(c) ==> Valid(r)
    ensures r.targetRpmAdj == c.targetRpmAdj && r.rpm == c.rpm && r.maxRpm == c.maxRpm
  {
    if !Initialized(c) then c
    else if target > c.rpm then c.(state := RampUp, targetRpm := target, targetTs := now)
    else if target < c.rpm then c.(state := RampDown, targetRpm := target, targetTs := now)
    else c
  }

  /** `x` limited to `[lo, hi]`. */
  function Clamp(x: int, lo: int, hi: int): (r: int)
    requires lo <= hi
    ensures lo <= r <= hi
    ensures lo <= x <= hi ==> r == x
  {
    if x < lo then lo else if x > hi then hi else x
  }

  /** One unit step of the duty toward the target speed, kept inside the PWM
      range: up when the fan is too slow, down when it is too fast. */
  function Nudge(adj: int, rpm: int, target: int, max: nat): (r: int)
    requires 0 <= adj <= max
    ensures 0 <= r <= max
    ensures rpm < target ==> adj <= r <= adj + 1
    ensures rpm > target ==> adj - 1 <= r <= adj
    ensures r == adj <==> rpm == target || (rpm < target && adj == max) || (rpm > target && adj == 0)
  {
    var direction := if rpm < target then 1 else if rpm > target then -1 else 0;
    Clamp(adj + direction, 0, max)
  }

  /** Whether a ramp state survives a step: the error still points the ramp's
      way and the duty had room to move that way. */
  predicate KeepsRamping(state: int, rpm: int, target: int, adj: int, max: int)
  {
    || (state == RampUp && rpm < target && adj < max)
    || (state == RampDown && rpm > target && adj > 0)
  }

  /** One step of the state machine, after the speed has been measured. */
  function Control(c: ControllerState, now: u32): (o: Step)
    requires Valid(c) && Initialized(c)
    ensures Valid(o.next) && Initialized(o.next)
    ensures forall w <- o.written :: w <= FullScale(c.resolution)
  {
    if c.state == Autodetect then
      if c.rpm == 0 then Step(c, [FullScale(c.resolution)])
      else if Sub(now, c.targetTs) >= Mul(c.changeDelayMs, 5) then Step(c.(maxRpm := c.rpm, state := Idle), [])
      else Step(c, [])
    else if c.state == RampUp || c.state == RampDown then
      if Sub(now, c.targetTs) < c.changeDelayMs then Step(c, [])
      else
        var max := FullScale(c.resolution);
        var adj := Nudge(c.targetRpmAdj, c.rpm, c.targetRpm, max);
        var st := if KeepsRamping(c.state, c.rpm, c.targetRpm, c.targetRpmAdj, max) then c.state else Idle;
        Step(c.(targetRpmAdj := adj, state := st, targetTs := now), if c.rpm == c.targetRpm then [] else [adj])
    else
      Step(c, [])
  }

  /** `update()`: measures the speed from the last two pulses and runs one
      step of the state machine; does nothing before initialisation or when
      the pulse times are not increasing. */
  function Update(c: ControllerState, now: u32): (o: Step)
    requires Valid(c) && PeriodDefined(c)
    ensures Valid(o.next) && PeriodDefined(o.next)
    ensures Initialized(o.next) == Initialized(c)
    ensures o.next.micros == c.micros && o.next.microsOld == c.microsOld
    ensures o.next.pulsesPerRev == c.pulsesPerRev && o.next.resolution == c.resolution
    ensures o.next.changeDelayMs == c.changeDelayMs && o.next.targetRpm == c.targetRpm
    ensures |o.written| <= 1 && forall w <- o.written :: w <= FullScale(c.resolution)
  {
    if !Initialized(c) || c.micros <= c.microsOld then Step(c, [])
    else Control(c.(rpm := MeasuredRpm(c)), now)
  }
}
