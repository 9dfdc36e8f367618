/** The DHB1 motor-driver helpers of main.c: each one is a fixed sequence of
    register stores. The write trace of every helper is given as a function
    (its specification), lemmas state what those traces do to the registers,
    and class `Dhb1` performs the stores in place on seven register fields. */
module Driver {
  import opened Registers

  /** Both enable registers, both duty registers and the global PWM enable
      are zero: no channel is driven. */
  predicate Idle(s: Regs) {
    s.enM1 == 0 && s.enM2 == 0 && s.pwmM1 == 0 && s.pwmM2 == 0 && s.pwmEn == 0
  }

  /** An event that asserts an enable register happens only while both duty
      registers hold `duty` and the global PWM enable is on. */
  predicate EnablesWithDuty(duty: u32, s: Regs, e: Event) {
    e.WriteEn? && e.v != 0 ==> s.pwmM1 == duty && s.pwmM2 == duty && s.pwmEn == 1
  }

  // ---------------------------------------------------------------------------
  // Write traces of the helpers, in the order main.c performs the stores
  // ---------------------------------------------------------------------------

  function ForwardTrace(): (t: seq<Event>) { [WriteDir(M1, 1), WriteDir(M2, 1)] }

  function BackwardTrace(): (t: seq<Event>) { [WriteDir(M1, 0), WriteDir(M2, 0)] }

  function LeftTrace(): (t: seq<Event>) { [WriteDir(M1, 0), WriteDir(M2, 1)] }

  function RightTrace(): (t: seq<Event>) { [WriteDir(M1, 1), WriteDir(M2, 0)] }

  /** motor_enable as written: EN_M1 receives 0, EN_M2 receives 1. */
  function EnableTrace(): (t: seq<Event>) { [WriteEn(M1, 0), WriteEn(M2, 1)] }

  function DisableTrace(): (t: seq<Event>) { [WriteEn(M1, 0), WriteEn(M2, 0)] }

  function StopTrace(): (t: seq<Event>) {
    [WritePwm(M1, 0), WritePwm(M2, 0)] + DisableTrace()
  }

  /** The first half of motor_set_speed: latch the duty, turn PWM on, enable. */
  function SpeedOnTrace(duty: int): (t: seq<Event>) {
    [WritePwm(M1, U32(duty)), WritePwm(M2, U32(duty)), WritePwmEn(1)] + EnableTrace()
  }

  /** The second half of motor_set_speed: zero the duty, turn PWM off, disable. */
  function SpeedOffTrace(): (t: seq<Event>) {
    [WritePwm(M1, 0), WritePwm(M2, 0), WritePwmEn(0)] + DisableTrace()
  }

  /** motor_set_speed: a 100 ms pulse at `duty`, then everything off again. */
  function SetSpeedTrace(duty: int): (t: seq<Event>) {
    SpeedOnTrace(duty) + [Wait(100)] + SpeedOffTrace()
  }

  function PulseForwardTrace(duty: int, ms: int): (t: seq<Event>) {
    ForwardTrace() + SetSpeedTrace(duty) + [Wait(ms)] + StopTrace()
  }

  // ---------------------------------------------------------------------------
  // What the traces do to the registers
  // ---------------------------------------------------------------------------

  /** The direction helpers store the truth table into the two direction
      registers and leave enable and PWM registers as they were. */
  lemma DirectionTruthTable(s: Regs)
    ensures Replay(s, ForwardTrace()) == s.(dirM1 := 1, dirM2 := 1)
    ensures Replay(s, BackwardTrace()) == s.(dirM1 := 0, dirM2 := 0)
    ensures Replay(s, LeftTrace()) == s.(dirM1 := 0, dirM2 := 1)
    ensures Replay(s, RightTrace()) == s.(dirM1 := 1, dirM2 := 0)
  {
  }

  /** motor_enable leaves motor 1 disabled and enables motor 2; motor_disable
      clears both; neither touches anything else. */
  lemma EnableDisableEffect(s: Regs)
    ensures Replay(s, EnableTrace()) == s.(enM1 := 0, enM2 := 1)
    ensures Replay(s, DisableTrace()) == s.(enM1 := 0, enM2 := 0)
  {
  }

  /** motor_stop zeroes both duties and both enables; directions and the
      global PWM enable are unchanged. */
  lemma StopEffect(s: Regs)
    ensures Replay(s, StopTrace()) == s.(pwmM1 := 0, pwmM2 := 0, enM1 := 0, enM2 := 0)
  {
  }

  /** Stopping twice leaves the registers as stopping once. */
  lemma StopIdempotent(s: Regs)
    ensures Replay(s, StopTrace() + StopTrace()) == Replay(s, StopTrace())
  {
    ReplayAppend(s, StopTrace(), StopTrace());
    StopEffect(s);
    StopEffect(Replay(s, StopTrace()));
  }

  /** While motor_set_speed waits, both duties hold `duty`, PWM is on, motor 2
      is enabled and motor 1 is not (motor_enable as written). */
  lemma SpeedOnEffect(s: Regs, duty: int)
    ensures Replay(s, SpeedOnTrace(duty))
         == s.(pwmM1 := U32(duty), pwmM2 := U32(duty), pwmEn := 1, enM1 := 0, enM2 := 1)
  {
    var latch: seq<Event> := [WritePwm(M1, U32(duty)), WritePwm(M2, U32(duty)), WritePwmEn(1)];
    ReplayAppend(s, latch, EnableTrace());
    ReplayThree(s, latch[0], latch[1], latch[2]);
    EnableDisableEffect(Replay(s, latch));
  }

  /** After motor_set_speed nothing is driven: duties, PWM enable and both
      enables are zero, whatever the state before; directions are unchanged. */
  lemma SetSpeedEffect(s: Regs, duty: int)
    ensures Replay(s, SetSpeedTrace(duty))
         == s.(pwmM1 := 0, pwmM2 := 0, pwmEn := 0, enM1 := 0, enM2 := 0)
    ensures Idle(Replay(s, SetSpeedTrace(duty)))
  {
    var off: seq<Event> := [WritePwm(M1, 0), WritePwm(M2, 0), WritePwmEn(0)];
    var on := SpeedOnTrace(duty);
    ReplayAppend(s, on + [Wait(100)], SpeedOffTrace());
    ReplayAppend(s, on, [Wait(100)]);
    SpeedOnEffect(s, duty);
    var mid := Replay(s, on + [Wait(100)]);
    ReplayAppend(mid, off, DisableTrace());
    ReplayThree(mid, off[0], off[1], off[2]);
    EnableDisableEffect(Replay(mid, off));
  }

  /** The pulse of motor_set_speed: the sixth event is the 100 ms wait, and
      during it the state is the one SpeedOnEffect describes. */
  lemma SetSpeedDrivesDuringWait(s: Regs, duty: int)
    ensures |SetSpeedTrace(duty)| == 11 && SetSpeedTrace(duty)[5] == Wait(100)
    ensures Replay(s, SetSpeedTrace(duty)[..5])
         == s.(pwmM1 := U32(duty), pwmM2 := U32(duty), pwmEn := 1, enM1 := 0, enM2 := 1)
  {
    assert SetSpeedTrace(duty)[..5] == SpeedOnTrace(duty);
    SpeedOnEffect(s, duty);
  }

  /** In motor_set_speed every store that asserts an enable happens after
      `duty` has been written to both channels and PWM turned on: no enable
      is ever asserted over a stale duty. */
  lemma SetSpeedNoStaleDuty(s: Regs, duty: int)
    ensures Throughout(s, SetSpeedTrace(duty), (r, e) => EnablesWithDuty(U32(duty), r, e))
  {
    var ok := (r, e) => EnablesWithDuty(U32(duty), r, e);
    var latch: seq<Event> := [WritePwm(M1, U32(duty)), WritePwm(M2, U32(duty)), WritePwmEn(1)];
    var off: seq<Event> := [WritePwm(M1, 0), WritePwm(M2, 0), WritePwmEn(0)];
    var on := SpeedOnTrace(duty);
    var mid := Replay(s, on + [Wait(100)]);
    assert EnableTrace()[1..] == [WriteEn(M2, 1)];
    assert DisableTrace()[1..] == [WriteEn(M2, 0)];
    ThroughoutThree(s, latch[0], latch[1], latch[2], ok);
    ReplayThree(s, latch[0], latch[1], latch[2]);
    ThroughoutAppend(s, latch, EnableTrace(), ok);
    ThroughoutAppend(s, on, [Wait(100)], ok);
    ThroughoutAppend(s, on + [Wait(100)], SpeedOffTrace(), ok);
    ThroughoutThree(mid, off[0], off[1], off[2], ok);
    ReplayThree(mid, off[0], off[1], off[2]);
    ThroughoutAppend(mid, off, DisableTrace(), ok);
  }

  /** motor_pulse_forward: directions forward, and nothing driven afterwards. */
  lemma PulseForwardEffect(s: Regs, duty: int, ms: int)
    ensures Replay(s, PulseForwardTrace(duty, ms))
         == s.(dirM1 := 1, dirM2 := 1, pwmM1 := 0, pwmM2 := 0, pwmEn := 0, enM1 := 0, enM2 := 0)
  {
    var a := ForwardTrace();
    var b := SetSpeedTrace(duty);
    ReplayAppend(s, a + b + [Wait(ms)], StopTrace());
    ReplayAppend(s, a + b, [Wait(ms)]);
    ReplayAppend(s, a, b);
    DirectionTruthTable(s);
    SetSpeedEffect(Replay(s, a), duty);
    StopEffect(Replay(s, a + b + [Wait(ms)]));
  }

  lemma SpeedOnAppend(t: seq<Event>, duty: int)
    ensures t + [WritePwm(M1, U32(duty))] + [WritePwm(M2, U32(duty))] + [WritePwmEn(1)] + EnableTrace()
         == t + SpeedOnTrace(duty)
  {
  }

  lemma SpeedOffAppend(t: seq<Event>)
    ensures t + [WritePwm(M1, 0)] + [WritePwm(M2, 0)] + [WritePwmEn(0)] + DisableTrace()
         == t + SpeedOffTrace()
  {
  }

  // ---------------------------------------------------------------------------
  // The register block, updated in place
  // ---------------------------------------------------------------------------

  /** The seven DHB1 registers. `trace` records every store and delay since
      `boot`, the register contents at power-on. */
  class Dhb1 {
    var dirM1: u32
    var dirM2: u32
    var enM1: u32
    var enM2: u32
    var pwmM1: u32
    var pwmM2: u32
    var pwmEn: u32

    ghost const boot: Regs
    ghost var trace: seq<Event>

    function State(): (r: Regs)
      reads this
    {
      Regs(dirM1, dirM2, enM1, enM2, pwmM1, pwmM2, pwmEn)
    }

    /** The registers always hold what replaying the recorded writes gives. */
    ghost predicate Valid()
      reads this
    {
      State() == Replay(boot, trace)
    }

    /** The power-on contents of the registers are not known to the firmware. */
    constructor (init: Regs)
      ensures Valid() && State() == init && boot == init && trace == []
    {
      dirM1, dirM2 := init.dirM1, init.dirM2;
      enM1, enM2 := init.enM1, init.enM2;
      pwmM1, pwmM2 := init.pwmM1, init.pwmM2;
      pwmEn := init.pwmEn;
      boot := init;
      trace := [];
    }

    /** One volatile store into the register that `e` names. */
    method Store(e: Event)
      requires Valid() && !e.Wait?
      modifies this
      ensures Valid() && trace == old(trace) + [e]
      ensures State() == Apply(old(State()), e)
    {
      match e {
        case WriteDir(m, v) => if m == M1 { dirM1 := v; } else { dirM2 := v; }
        case WriteEn(m, v) => if m == M1 { enM1 := v; } else { enM2 := v; }
        case WritePwm(m, v) => if m == M1 { pwmM1 := v; } else { pwmM2 := v; }
        case WritePwmEn(v) => pwmEn := v;
      }
      ReplaySnoc(boot, trace, e);
      trace := trace + [e];
    }

    /** busy_wait_ms, and usleep counted in milliseconds: time passes, no
        register changes. */
    method Delay(ms: int)
      requires Valid()
      modifies this
      ensures Valid() && trace == old(trace) + [Wait(ms)] && State() == old(State())
    {
      ReplaySnoc(boot, trace, Wait(ms));
      trace := trace + [Wait(ms)];
    }

    method MotorForward()
      requires Valid()
      modifies this
      ensures Valid() && trace == old(trace) + ForwardTrace()
      ensures State() == old(State()).(dirM1 := 1, dirM2 := 1)
    {
      Store(WriteDir(M1, 1));
      Store(WriteDir(M2, 1));
    }

    method MotorBackward()
      requires Valid()
      modifies this
      ensures Valid() && trace == old(trace) + BackwardTrace()
      ensures State() == old(State()).(dirM1 := 0, dirM2 := 0)
    {
      Store(WriteDir(M1, 0));
      Store(WriteDir(M2, 0));
    }

    method MotorLeft()
      requires Valid()
      modifies this
      ensures Valid() && trace == old(trace) + LeftTrace()
      ensures State() == old(State()).(dirM1 := 0, dirM2 := 1)
    {
      Store(WriteDir(M1, 0));
      Store(WriteDir(M2, 1));
    }

    method MotorRight()
      requires Valid()
      modifies this
      ensures Valid() && trace == old(trace) + RightTrace()
      ensures State() == old(State()).(dirM1 := 1, dirM2 := 0)
    {
      Store(WriteDir(M1, 1));
      Store(WriteDir(M2, 0));
    }

    /** motor_enable as written: motor 1 stays disabled. */
    method MotorEnable()
      requires Valid()
      modifies this
      ensures Valid() && trace == old(trace) + EnableTrace()
      ensures State() == old(State()).(enM1 := 0, enM2 := 1)
    {
      Store(WriteEn(M1, 0));
      Store(WriteEn(M2, 1));
    }

    method MotorDisable()
      requires Valid()
      modifies this
      ensures Valid() && trace == old(trace) + DisableTrace()
      ensures State() == old(State()).(enM1 := 0, enM2 := 0)
    {
      Store(WriteEn(M1, 0));
      Store(WriteEn(M2, 0));
    }

    method MotorStop()
      requires Valid()
      modifies this
      ensures Valid() && trace == old(trace) + StopTrace()
      ensures State() == old(State()).(pwmM1 := 0, pwmM2 := 0, enM1 := 0, enM2 := 0)
    {
      Store(WritePwm(M1, 0));
      Store(WritePwm(M2, 0));
      MotorDisable();
    }

    method MotorSetSpeed(duty: int)
      requires Valid()
      modifies this
      ensures Valid() && trace == old(trace) + SetSpeedTrace(duty)
      ensures State() == old(State()).(pwmM1 := 0, pwmM2 := 0, pwmEn := 0, enM1 := 0, enM2 := 0)
    {
      ghost var t0 := trace;
      Store(WritePwm(M1, U32(duty)));
      Store(WritePwm(M2, U32(duty)));
      Store(WritePwmEn(1));
      MotorEnable();
      SpeedOnAppend(t0, duty);
      Delay(100);
      ghost var t1 := trace;
      Store(WritePwm(M1, 0));
      Store(WritePwm(M2, 0));
      Store(WritePwmEn(0));
      MotorDisable();
      SpeedOffAppend(t1);
      AppendAssoc(t0, SpeedOnTrace(duty) + [Wait(100)], SpeedOffTrace());
      AppendAssoc(t0, SpeedOnTrace(duty), [Wait(100)]);
    }

    method MotorPulseForward(duty: int, ms: int)
      requires Valid()
      modifies this
      ensures Valid() && trace == old(trace) + PulseForwardTrace(duty, ms)
      ensures State() == old(State()).(dirM1 := 1, dirM2 := 1,
                                       pwmM1 := 0, pwmM2 := 0, pwmEn := 0, enM1 := 0, enM2 := 0)
    {
      MotorForward();
      MotorSetSpeed(duty);
      Delay(ms);
      MotorStop();
    }
  }
}
