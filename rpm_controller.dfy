/** The rpm_controller object itself: its fields updated in place by the
    interrupt handler, initialize(), the target setter and update(), each
    proved to perform the transition of the same name in module Transitions.
    The PWM channel is represented by the ghost log `writes` of every duty
    value handed to `ledcWrite`, and the interrupt/PWM attachment done by
    initialize() by the ghost counter `attachments`. */
module Controller {
  import opened UInt32
  import opened Transitions

  class RpmController {
    var pulsesPerRev: u32
    var state: int
    var changeDelayMs: u32
    var rpm: u32
    var micros: u32
    var microsOld: u32
    var resolution: nat
    var maxRpm: u32
    var targetRpm: u32
    var targetRpmAdj: i32
    var targetTs: u32

    ghost var writes: seq<u32>
    ghost var attachments: nat

    /** The fields as a value. */
    function Snapshot(): (c: ControllerState)
      reads this
    {
      ControllerState(pulsesPerRev, state, changeDelayMs, rpm, micros, microsOld,
                      resolution, maxRpm, targetRpm, targetRpmAdj, targetTs)
    }

    ghost predicate Valid()
      reads this
    {
      Transitions.Valid(Snapshot())
    }

    /** The constructor with the source's defaults (no maximum, two pulses per
        revolution, 500 ms settle delay, 8-bit PWM). Pins, channel and
        frequency only reach the hardware and are not fields here. */
    constructor (maxRpm: u32 := 0, pulsesPerRev: u32 := 2, changeDelayMs: u32 := 500, resolution: nat := 8)
      requires pulsesPerRev > 0 && resolution <= MaxResolution
      ensures Valid() && !Initialized()
      ensures Snapshot() == Constructed(maxRpm, pulsesPerRev, changeDelayMs, resolution, targetTs)
      ensures writes == [] && attachments == 0
    {
      this.pulsesPerRev := pulsesPerRev;
      state := Uninitialized;
      this.changeDelayMs := changeDelayMs;
      rpm := 0;
      micros, microsOld := 0, 0;
      this.resolution := resolution;
      this.maxRpm := maxRpm;
      targetRpm := 0;
      targetRpmAdj := 0;
      var ts: u32 :| true;  // left uninitialised by the source
      targetTs := ts;
      writes, attachments := [], 0;
    }

    /** The tachometer interrupt, `t` being the `micros()` reading. */
    method Handler(t: u32)
      modifies this
      ensures Snapshot() == Transitions.Handler(old(Snapshot()), t)
      ensures writes == old(writes) && attachments == old(attachments)
      ensures old(Valid()) ==> Valid()
    {
      microsOld := micros;
      micros := t;
    }

    /** `initialize()`, `now` being the `millis()` reading. */
    method Initialize(now: u32)
      requires Valid()
      modifies this
      ensures Valid()
      ensures var o := Transitions.Initialize(old(Snapshot()), now);
              Snapshot() == o.next && writes == old(writes) + o.written
      ensures attachments == old(attachments) + (if old(state) == Uninitialized then 1 else 0)
    {
      if state == Uninitialized {
        rpm, targetRpm, state := 0, 0, Idle;
        micros, microsOld := 0, 0;
        targetRpmAdj, targetTs := 0, 0;
        attachments := attachments + 1;
        if maxRpm == 0 {
          state, targetTs := Autodetect, now;
        } else {
          writes := writes + [0];
        }
      }
    }

    function Initialized(): (b: bool)
      reads this
      ensures b == Transitions.Initialized(Snapshot())
    {
      state != Uninitialized
    }

    /** `rpm()`. */
    function Rpm(): (r: u32)
      reads this
      ensures !Initialized() ==> r == 0
      ensures Initialized() ==> r == rpm
      ensures r == Transitions.Rpm(Snapshot())
    {
      if Initialized() then rpm else 0
    }

    /** `max_rpm()`. */
    function MaxRpm(): (r: u32)
      reads this
      ensures !Initialized() ==> r == 0
      ensures Initialized() ==> r == maxRpm
      ensures r == Transitions.MaxRpm(Snapshot())
    {
      if Initialized() then maxRpm else 0
    }

    /** `rpm(unsigned)`, the target setter, `now` being the `millis()` reading. */
    method SetRpm(target: u32, now: u32)
      requires Valid()
      modifies this
      ensures Valid()
      ensures Snapshot() == Transitions.SetRpm(old(Snapshot()), target, now)
      ensures writes == old(writes) && attachments == old(attachments)
    {
      if Initialized() {
        if target > rpm {
          state := RampUp;
          targetRpm := target;
          targetTs := now;
        } else if target < rpm {
          state := RampDown;
          targetRpm := target;
          targetTs := now;
        }
      }
    }

    /** `update()`, `now` being the `millis()` reading. */
    method Update(now: u32)
      requires Valid() && PeriodDefined(Snapshot())
      modifies this
      ensures Valid()
      ensures Snapshot() == Transitions.Update(old(Snapshot()), now).next
      ensures writes == old(writes) + Transitions.Update(old(Snapshot()), now).written
      ensures attachments == old(attachments)
    {
      if Initialized() {
        if micros <= microsOld {
          return;
        }
        var durMicros := Mul(micros - microsOld, pulsesPerRev);
        rpm := RoundedRpm(durMicros);
        ghost var measured := Snapshot();
        assert Transitions.Update(old(Snapshot()), now) == Control(measured, now);
        var ms := now;
        match state {
          case -2 =>
            if rpm == 0 {
              writes := writes + [FullScale(resolution)];
            }
            if Sub(ms, targetTs) >= Mul(changeDelayMs, 5) && rpm != 0 {
              maxRpm := rpm;
              state := Idle;
            }
          case 0 =>
          case 1 =>
            if Sub(ms, targetTs) >= changeDelayMs {
              if rpm > targetRpm {
                targetRpmAdj := targetRpmAdj - 1;
                if targetRpmAdj < 0 {
                  targetRpmAdj := 0;
                }
                writes := writes + [ToUnsigned(targetRpmAdj)];
                state := Idle;
              } else if rpm < targetRpm {
                targetRpmAdj := targetRpmAdj + 1;
                var max: u32 := FullScale(resolution);
                // `int > uint32_t` compares the duty reread as unsigned
                if ToUnsigned(targetRpmAdj) > max {
                  targetRpmAdj := max;
                  state := Idle;
                }
                writes := writes + [ToUnsigned(targetRpmAdj)];
              } else {
                state := Idle;
              }
              targetTs := now;
            }
          case 2 =>
            if Sub(ms, targetTs) >= changeDelayMs {
              if rpm < targetRpm {
                var max: u32 := FullScale(resolution);
                targetRpmAdj := targetRpmAdj + 1;
                // here the clamp test is `>=`, not `>`
                if ToUnsigned(targetRpmAdj) >= max {
                  targetRpmAdj := max;
                }
                writes := writes + [ToUnsigned(targetRpmAdj)];
                state := Idle;
              } else if rpm > targetRpm {
                targetRpmAdj := targetRpmAdj - 1;
                if targetRpmAdj < 0 {
                  targetRpmAdj := 0;
                  state := Idle;
                }
                writes := writes + [ToUnsigned(targetRpmAdj)];
              } else {
                state := Idle;
              }
              targetTs := now;
            }
          case _ =>
        }
      }
    }
  }
}
