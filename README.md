# rpm_controller, modelled in Dafny

A model of the fan speed controller `rpm_controller` (include/rpm_controller.hpp).
The controller measures the fan's speed from the time between the last two
tachometer pulses, which an interrupt handler records, and steers the PWM duty
one unit at a time toward a target speed. It is an integer state machine with
the codes -1 (uninitialised), -2 (autodetect the maximum speed), 0 (idle),
1 (ramping up) and 2 (ramping down). A ramp step waits until a settle delay has
passed since the last change; that delay is measured with wrapping 32-bit
subtraction.

- `uint32.dfy`, module `UInt32`: the C++ unsigned arithmetic on a 32-bit target.
  This covers wrapping subtraction and multiplication, and the conversion of an
  `int` compared with a `uint32_t`.
- `controller_spec.dfy`, module `Transitions`: the object's fields as the
  datatype `ControllerState`, and every operation as a function. Each function
  returns the new fields and the duty values written to the PWM channel.
- `rpm_controller.dfy`, module `Controller`: the class `RpmController`. It has
  the same fields, and its methods update them in place statement by statement
  as the C++ does (the `switch`, `++`/`--`, and the two different clamp tests).
  Each method is proved to perform the transition of the same name.
  `ledcWrite` is a ghost log `writes`. The hardware attachment is a ghost
  counter `attachments`.
- `controller_properties.dfy`, module `Properties`: lemmas about single calls
  and about runs of calls.

The clock readings `millis()` and `micros()` are parameters (`now`, `t`).

Preconditions the C++ relies on without checking:
- `pulses_per_rev > 0` and `resolution <= 30` (the shift `1 << m_resolution`
  is on an `int`). Both are constructor preconditions.
- An initialised update() with increasing pulse times needs a revolution time
  `(m_micros - m_micros_old) * m_pulses_per_rev` that is not 0 after wrapping
  (`PeriodDefined`). A zero time makes the double
  quotient infinite, and converting that to `unsigned` is undefined behaviour.
- Otherwise that product, and `m_change_delay_ms * 5`, are modelled modulo 2^32.

The rounding `6e7 / (double)d + .5` is modelled as the integer
`(120000000 + d) / (2 * d)`, which rounds to nearest with halves up. For every
`d` below 2^32, either `6e7 / d` is a half-integer, which the double division
and the `+ .5` compute exactly, or it lies at least `1 / (2d)` from every
half-integer. That distance is far larger than the double's rounding error, so
in both cases the conversion gives the same value as the integer formula.

## Model

| member | source | states |
|---|---|---|
| UInt32.Sub | include/rpm_controller.hpp:141 | `ms - m_target_ts` on `uint32_t`: the plain difference when no wrap occurred, else the difference plus 2^32 |
| UInt32.Mul | include/rpm_controller.hpp:124 | 32-bit product: equal to the true product when that fits, never larger, and always congruent to it modulo 2^32 (so the low 32 bits of the product) |
| UInt32.ToUnsigned | include/rpm_controller.hpp:152 | an `int` compared with a `uint32_t` is reread as unsigned: unchanged when non-negative, plus 2^32 when negative |
| Transitions.FullScale | include/rpm_controller.hpp:151 | `(1 << m_resolution) - 1` for resolution at most 30 is non-negative and below 2^30, so it fits an `int` |
| Transitions.Pow2AtMost30 | include/rpm_controller.hpp:151 | for every resolution up to 30, `1 << m_resolution` is between 1 and 2^30, so the shift does not overflow an `int` |
| Transitions.Constructed | include/rpm_controller.hpp:63-64 | the constructor leaves a valid, uninitialised controller |
| Transitions.Rpm | include/rpm_controller.hpp:94-99 | `rpm()` is 0 before initialisation and the measured speed after it |
| Transitions.MaxRpm | include/rpm_controller.hpp:100-105 | `max_rpm()` is 0 before initialisation and the maximum after it |
| Transitions.RoundedRpm | include/rpm_controller.hpp:125 | the speed is one minute over the revolution time rounded to nearest (halves up); it is 0 exactly when a revolution takes more than 120 s |
| Transitions.RoundingBounds | include/rpm_controller.hpp:125 | a nearest-integer quotient fits 32 bits and is 0 exactly for revolutions over 120 s |
| Transitions.RevolutionMicros | include/rpm_controller.hpp:124 | the revolution time is the pulse interval times pulses per revolution when that product does not overflow, and that product modulo 2^32 when it does |
| Transitions.MeasuredRpm | include/rpm_controller.hpp:122-125 | the measured speed never exceeds 60,000,000 |
| Transitions.Handler | include/rpm_controller.hpp:49-53 | the interrupt moves the latest pulse time to the old slot and records the new one; every other field is unchanged and the invariant is kept |
| Transitions.Initialize | include/rpm_controller.hpp:71-90 | after initialize() the controller is initialised and the invariant holds |
| Transitions.SetRpm | include/rpm_controller.hpp:106-118 | the setter keeps the invariant and never touches the duty, the measured speed or the maximum |
| Transitions.Nudge | include/rpm_controller.hpp:142-179 | a ramp step moves the duty by at most one, toward the target, inside `[0, full scale]`; it stays put only at zero error or when already saturated in the direction of travel |
| Transitions.Control | include/rpm_controller.hpp:127-186 | one state-machine step keeps the invariant and writes only duty values inside the PWM range |
| Transitions.Update | include/rpm_controller.hpp:119-189 | update() keeps the invariant and whether the controller is initialised; it leaves pulse times and configuration alone; it writes at most one duty, inside the PWM range |
| Controller.RpmController.constructor | include/rpm_controller.hpp:63-64 | the constructor, with the source's defaults, builds the constructed state with an empty write log |
| Controller.RpmController.Handler | include/rpm_controller.hpp:49-53 | the in-place handler performs `Transitions.Handler`, writes nothing and keeps the class invariant |
| Controller.RpmController.Initialize | include/rpm_controller.hpp:71-90 | the in-place initialize() performs `Transitions.Initialize`, logs its writes, and attaches the hardware exactly when it was uninitialised |
| Controller.RpmController.Initialized | include/rpm_controller.hpp:91-93 | `initialized()` is `m_state != -1` |
| Controller.RpmController.Rpm | include/rpm_controller.hpp:94-99 | `rpm()` is 0 before initialisation and the measured speed after it, as `Transitions.Rpm` |
| Controller.RpmController.MaxRpm | include/rpm_controller.hpp:100-105 | `max_rpm()` is 0 before initialisation and the maximum after it, as `Transitions.MaxRpm` |
| Controller.RpmController.SetRpm | include/rpm_controller.hpp:106-118 | the in-place setter performs `Transitions.SetRpm` and writes nothing |
| Controller.RpmController.Update | include/rpm_controller.hpp:119-189 | the in-place update() performs `Transitions.Update` and logs its writes. This includes the clamp tests, which compare the duty reread as unsigned; since the duty is never negative, they act as signed comparisons. State 1 tests `>` and, when it clamps, also goes idle, so it goes idle only on the step after the duty reached full scale. State 2 tests `>=`; there clamping a duty that already equals full scale changes nothing, so it acts like `>` |
| Properties.InitializeIdempotent | include/rpm_controller.hpp:71-90 | a second initialize() changes nothing and writes nothing |
| Properties.InitializeEffect | include/rpm_controller.hpp:72-88 | the first initialize() clears measurement, target and duty. With no maximum it autodetects, stamped now, writing nothing; otherwise it goes idle and writes duty 0 |
| Properties.UninitializedIsInert | include/rpm_controller.hpp:94-120 | before initialisation the getters give 0, and the setter and update() change nothing |
| Properties.SetRpmOutcome | include/rpm_controller.hpp:106-118 | target above the measured speed: ramp up; below it: ramp down, with target and stamp set; equal: no change. The target is not clamped and any state, autodetect included, is replaced |
| Properties.SetRpmThenStep | include/rpm_controller.hpp:106-185 | after a new target, the first settled update that still measures the compared speed moves the duty one step toward the target and writes it, whatever the state was before |
| Properties.TwoPulsesSetSpeed | include/rpm_controller.hpp:122-125 | two pulses at `t1 < t2` make update() set the speed from the revolution time `(t2 - t1) * pulses_per_rev`, when that product fits 32 bits |
| Properties.UnorderedPulsesSkipUpdate | include/rpm_controller.hpp:122 | if the latest pulse time is not after the previous one, update() returns with no change |
| Properties.UpdateMeasures | include/rpm_controller.hpp:122-139 | with ordered pulses the new speed is one minute over the revolution time to within half a unit; in state 0 nothing else changes |
| Properties.RampWaitsToSettle | include/rpm_controller.hpp:140-185 | in states 1 and 2, before the settle delay has passed (wrapping), only the measured speed changes and nothing is written |
| Properties.RampStep | include/rpm_controller.hpp:140-185 | a settled ramp step moves the duty by one toward the target, clamped to the PWM range, and writes exactly it. It stamps now. It returns to idle exactly on zero or reversed error or saturation |
| Properties.AutodetectStep | include/rpm_controller.hpp:128-137 | while the speed is 0, autodetect writes full scale. It adopts the speed as maximum and goes idle exactly when the speed is not 0 and `5 * delay` (wrapping) has passed |
| Properties.Updates | include/rpm_controller.hpp:119-189 | repeated updates keep the invariant, the pulse times and the configuration |
| Properties.IdleStaysIdle | include/rpm_controller.hpp:138-139 | any number of updates leave an idle controller idle with its duty, writing nothing |
| Properties.RampUpSaturates | include/rpm_controller.hpp:149-156 | against a fan stuck below target, settled updates raise the duty one per step to full scale, then go idle; at most `full scale - duty + 1` writes in all |
| Properties.RampDownSaturates | include/rpm_controller.hpp:173-179 | against a fan stuck above target, settled updates lower the duty one per step to 0, then go idle; at most `duty + 1` writes in all |
| Properties.SpacedTail | include/rpm_controller.hpp:141 | a run of settled update times stays settled after its first update |
| Properties.Apply | include/rpm_controller.hpp:49-189 | every call of handler, initialize(), setter or update() keeps the invariant and the resolution |
| Properties.RunKeepsInvariant | include/rpm_controller.hpp:49-189 | over any run of calls the state code stays in {-2,-1,0,1,2}. The duty and every written value stay in `[0, full scale]`. The controller never becomes uninitialised again, and the hardware is attached at most once |

## Left out

- Hardware calls (`attachInterruptArg`, `ledcSetup`, `ledcAttachPin`, `detachInterrupt`, `ledcDetachPin`): only their effect is modelled, as the `attachments` counter and the `writes` log. Pins, PWM channel and frequency are therefore not fields of the model.
- Concurrency: the `volatile` pulse times shared between the interrupt and update() are modelled as ordinary sequential state. Torn reads and interleavings inside update() are not captured.
- Controller.RpmController.Update: the second `millis()` reading that stamps a ramp step (lines 160 and 183) is taken to be the same instant as the reading at line 126.
- Controller.RpmController.Handler: it is a method any caller may invoke; the model does not capture that the interrupt reaches it only after initialize() attached it.
- Floating point at line 125 is replaced by its exact integer equivalent (see above). A revolution time of 0 is excluded by a precondition, because the source's behaviour there is undefined.
- The destructor, the move constructor and the move assignment (`do_move`) are left out: they concern hardware teardown and the interrupt's `this` pointer. `do_move` also copies every field except `m_pulses_per_rev`, and it clears `m_initialized`. That field is never set to true and never read, so it is not modelled either.
- src/main.cpp only wires pins and prints status; its `loop()` never calls `update()`.
