/** The line-following part of main(): the motor self-test pulses run once at
    start-up, then the polling loop that reads the 2-bit line sensor, decides
    one of four actions and applies it through the driver helpers. */
module LineFollower {
  import opened Registers
  import opened Driver

  /** Duty for driving straight when both sensors see the line. */
  const ForwardDuty := 35000
  /** Duty for steering when one sensor sees the line. */
  const TurnDuty := 30000
  /** Duty of the backward, right and left self-test pulses. */
  const TestDuty := 35000
  /** Poll interval: usleep(20000) microseconds, that is 20 ms. */
  const PollMs := 20

  /** The two sensor values as main() computes them: `left` is `ls & 0x01`
      and `right` is `ls & 0x02`, each used only as a C truth value. */
  datatype Reading = Reading(left: bv32, right: bv32)

  /** The action one pass of the loop takes. */
  datatype Command = Forward(duty: int) | SteerLeft(duty: int) | SteerRight(duty: int) | Stop

  /** Decoding the sensor word: `left` is nonzero exactly when bit 0 is set and
      `right` exactly when bit 1 is set. */
  function Decode(ls: bv32): (r: Reading)
    ensures r.left != 0 <==> ls % 2 == 1
    ensures r.right != 0 <==> ls / 2 % 2 == 1
    ensures r.left <= 1 && (r.right == 0 || r.right == 2)
  {
    Reading(ls & 0x01, ls & 0x02)
  }

  /** The choice the if/else-if chain of the loop body makes for a sensor
      word: total, and fixed by bits 0 and 1. */
  function Dispatch(ls: bv32): (c: Command)
    ensures c == Forward(35000) <==> ls % 2 == 1 && ls / 2 % 2 == 1
    ensures c == SteerLeft(30000) <==> ls % 2 == 1 && ls / 2 % 2 == 0
    ensures c == SteerRight(30000) <==> ls % 2 == 0 && ls / 2 % 2 == 1
    ensures c == Stop <==> ls % 2 == 0 && ls / 2 % 2 == 0
  {
    var r := Decode(ls);
    if r.left != 0 && r.right != 0 then Forward(ForwardDuty)
    else if r.left != 0 then SteerLeft(TurnDuty)
    else if r.right != 0 then SteerRight(TurnDuty)
    else Stop
  }

  /** Bits 2 to 31 of the sensor word never change the action. */
  lemma DispatchIgnoresHighBits(a: bv32, b: bv32)
    requires a & 3 == b & 3
    ensures Dispatch(a) == Dispatch(b)
  {
  }

  // ---------------------------------------------------------------------------
  // Write traces of the start-up sequence and of the loop
  // ---------------------------------------------------------------------------

  function CommandTrace(c: Command): (t: seq<Event>) {
    match c
    case Forward(d) => ForwardTrace() + SetSpeedTrace(d)
    case SteerLeft(d) => LeftTrace() + SetSpeedTrace(d)
    case SteerRight(d) => RightTrace() + SetSpeedTrace(d)
    case Stop => StopTrace()
  }

  /** One pass of the while(1) body for sensor word `ls`. */
  function StepTrace(ls: bv32): (t: seq<Event>) {
    CommandTrace(Dispatch(ls)) + [Wait(PollMs)]
  }

  /** Successive passes of the loop for the successive sensor words. */
  function LoopTrace(words: seq<bv32>): (t: seq<Event>)
    decreases |words|
  {
    if words == [] then [] else StepTrace(words[0]) + LoopTrace(words[1..])
  }

  /** One self-test pulse: set directions, pulse at the test duty, wait
      500 ms, stop. */
  function TestPulseTrace(directions: seq<Event>): (t: seq<Event>) {
    directions + SetSpeedTrace(TestDuty) + [Wait(500)] + StopTrace()
  }

  /** The motor tests main() runs before the loop. */
  function SelfTestTrace(): (t: seq<Event>) {
    PulseForwardTrace(40000, 500)
      + TestPulseTrace(BackwardTrace())
      + TestPulseTrace(RightTrace())
      + TestPulseTrace(LeftTrace())
  }

  // ---------------------------------------------------------------------------
  // Safety of the loop
  // ---------------------------------------------------------------------------

  /** A direction store happens only while both enable registers are 0. */
  predicate DirWriteWhileDisabled(s: Regs, e: Event) {
    e.WriteDir? ==> s.enM1 == 0 && s.enM2 == 0
  }

  /** The motor 1 enable register reads 0 before the event. */
  predicate Motor1Disabled(s: Regs, e: Event) {
    s.enM1 == 0
  }

  /** The register state after each command: the command's directions, and
      nothing driven (a Stop keeps the directions and the PWM enable). */
  lemma CommandEffect(s: Regs, c: Command)
    ensures c.Forward? ==>
      (Replay(s, CommandTrace(c)) == s.(dirM1 := 1, dirM2 := 1, pwmM1 := 0, pwmM2 := 0, pwmEn := 0, enM1 := 0, enM2 := 0))
    ensures c.SteerLeft? ==>
      (Replay(s, CommandTrace(c)) == s.(dirM1 := 0, dirM2 := 1, pwmM1 := 0, pwmM2 := 0, pwmEn := 0, enM1 := 0, enM2 := 0))
    ensures c.SteerRight? ==>
      (Replay(s, CommandTrace(c)) == s.(dirM1 := 1, dirM2 := 0, pwmM1 := 0, pwmM2 := 0, pwmEn := 0, enM1 := 0, enM2 := 0))
    ensures c.Stop? ==> Replay(s, CommandTrace(c)) == s.(pwmM1 := 0, pwmM2 := 0, enM1 := 0, enM2 := 0)
  {
    DirectionTruthTable(s);
    match c
    case Forward(d) =>
      ReplayAppend(s, ForwardTrace(), SetSpeedTrace(d));
      SetSpeedEffect(Replay(s, ForwardTrace()), d);
    case SteerLeft(d) =>
      ReplayAppend(s, LeftTrace(), SetSpeedTrace(d));
      SetSpeedEffect(Replay(s, LeftTrace()), d);
    case SteerRight(d) =>
      ReplayAppend(s, RightTrace(), SetSpeedTrace(d));
      SetSpeedEffect(Replay(s, RightTrace()), d);
    case Stop =>
      StopEffect(s);
  }

  /** motor_set_speed stores no direction and never stores a nonzero value
      into motor 1's enable, so from EN_M1 = 0 that register stays 0. */
  lemma SetSpeedSafe(s: Regs, duty: int)
    requires s.enM1 == 0
    ensures forall e :: e in SetSpeedTrace(duty) ==> !e.WriteDir? && !(e.WriteEn? && e.m == M1 && e.v != 0)
    ensures Throughout(s, SetSpeedTrace(duty), DirWriteWhileDisabled)
    ensures Throughout(s, SetSpeedTrace(duty), Motor1Disabled)
    ensures Replay(s, SetSpeedTrace(duty)).enM1 == 0
  {
    var t := SetSpeedTrace(duty);
    ThroughoutFromStable(s, t, (r: Regs) => true, DirWriteWhileDisabled);
    ThroughoutFromStable(s, t, (r: Regs) => r.enM1 == 0, Motor1Disabled);
  }

  /** From an idle state, a command changes directions only while both
      enables are 0, never enables motor 1, and ends idle again. */
  lemma CommandSafe(s: Regs, c: Command)
    requires Idle(s)
    ensures Idle(Replay(s, CommandTrace(c)))
    ensures Throughout(s, CommandTrace(c), DirWriteWhileDisabled)
    ensures Throughout(s, CommandTrace(c), Motor1Disabled)
  {
    CommandEffect(s, c);
    if c.Stop? {
      assert forall e :: e in StopTrace() ==> !e.WriteDir? && !(e.WriteEn? && e.m == M1 && e.v != 0);
      ThroughoutFromStable(s, StopTrace(), (r: Regs) => r.enM1 == 0, Motor1Disabled);
      ThroughoutFromStable(s, StopTrace(), (r: Regs) => true, DirWriteWhileDisabled);
    } else {
      var dirs := match c
        case Forward(_) => ForwardTrace()
        case SteerLeft(_) => LeftTrace()
        case SteerRight(_) => RightTrace();
      var speed := SetSpeedTrace(c.duty);
      assert CommandTrace(c) == dirs + speed;
      assert forall e :: e in dirs ==> e.WriteDir?;
      ThroughoutFromStable(s, dirs, Idle, DirWriteWhileDisabled);
      ThroughoutFromStable(s, dirs, Idle, Motor1Disabled);
      SetSpeedSafe(Replay(s, dirs), c.duty);
      ThroughoutAppend(s, dirs, speed, DirWriteWhileDisabled);
      ThroughoutAppend(s, dirs, speed, Motor1Disabled);
    }
  }

  /** The loop invariant is preserved by one pass, and the pass is safe. */
  lemma StepSafe(s: Regs, ls: bv32)
    requires Idle(s)
    ensures Idle(Replay(s, StepTrace(ls)))
    ensures Throughout(s, StepTrace(ls), DirWriteWhileDisabled)
    ensures Throughout(s, StepTrace(ls), Motor1Disabled)
  {
    var t := CommandTrace(Dispatch(ls));
    CommandSafe(s, Dispatch(ls));
    ReplayAppend(s, t, [Wait(PollMs)]);
    ThroughoutAppend(s, t, [Wait(PollMs)], DirWriteWhileDisabled);
    ThroughoutAppend(s, t, [Wait(PollMs)], Motor1Disabled);
    assert [Wait(PollMs)][1..] == [];
  }

  /** Any number of passes from an idle state: every direction store happens
      with both enables 0, motor 1 is never enabled, and the loop invariant
      holds at the top of every pass. */
  lemma {:induction false} LoopSafe(s: Regs, words: seq<bv32>)
    requires Idle(s)
    ensures Idle(Replay(s, LoopTrace(words)))
    ensures Throughout(s, LoopTrace(words), DirWriteWhileDisabled)
    ensures Throughout(s, LoopTrace(words), Motor1Disabled)
    decreases |words|
  {
    if words != [] {
      var t := StepTrace(words[0]);
      StepSafe(s, words[0]);
      LoopSafe(Replay(s, t), words[1..]);
      ReplayAppend(s, t, LoopTrace(words[1..]));
      ThroughoutAppend(s, t, LoopTrace(words[1..]), DirWriteWhileDisabled);
      ThroughoutAppend(s, t, LoopTrace(words[1..]), Motor1Disabled);
    }
  }

  lemma {:induction false} LoopTraceSnoc(words: seq<bv32>, ls: bv32)
    ensures LoopTrace(words + [ls]) == LoopTrace(words) + StepTrace(ls)
    decreases |words|
  {
    if words == [] {
      assert words + [ls] == [ls];
      assert [ls][1..] == [];
      assert LoopTrace([ls]) == StepTrace(ls) + LoopTrace([]);
    } else {
      var w := words + [ls];
      assert w[0] == words[0];
      assert w[1..] == words[1..] + [ls];
      assert LoopTrace(w) == StepTrace(words[0]) + LoopTrace(words[1..] + [ls]);
      LoopTraceSnoc(words[1..], ls);
      AppendAssoc(StepTrace(words[0]), LoopTrace(words[1..]), StepTrace(ls));
    }
  }

  /** One self-test pulse keeps the directions it sets and ends idle. */
  lemma TestPulseEffect(s: Regs, directions: seq<Event>)
    ensures Replay(s, TestPulseTrace(directions))
         == Replay(s, directions).(pwmM1 := 0, pwmM2 := 0, pwmEn := 0, enM1 := 0, enM2 := 0)
  {
    var a := directions + SetSpeedTrace(TestDuty) + [Wait(500)];
    ReplayAppend(s, a, StopTrace());
    StopEffect(Replay(s, a));
    ReplayAppend(s, directions + SetSpeedTrace(TestDuty), [Wait(500)]);
    ReplayAppend(s, directions, SetSpeedTrace(TestDuty));
    SetSpeedEffect(Replay(s, directions), TestDuty);
    assert [Wait(500)][1..] == [];
  }

  /** Whatever the registers hold at power-on, the self-test leaves them
      idle, so the loop invariant holds when the loop is entered; the last
      test pulse leaves the directions at those of motor_left. */
  lemma SelfTestEndsIdle(boot: Regs)
    ensures Idle(Replay(boot, SelfTestTrace()))
    ensures Replay(boot, SelfTestTrace()).dirM1 == 0 && Replay(boot, SelfTestTrace()).dirM2 == 1
  {
    var abc := PulseForwardTrace(40000, 500)
      + TestPulseTrace(BackwardTrace())
      + TestPulseTrace(RightTrace());
    assert SelfTestTrace() == abc + TestPulseTrace(LeftTrace());
    ReplayAppend(boot, abc, TestPulseTrace(LeftTrace()));
    TestPulseEffect(Replay(boot, abc), LeftTrace());
    DirectionTruthTable(Replay(boot, abc));
  }

  /** From the first pass of the control loop onward, every direction store
      happens while both enable registers are 0, and motor 1 is never enabled. */
  lemma FirmwareSafe(boot: Regs, words: seq<bv32>)
    ensures Throughout(Replay(boot, SelfTestTrace()), LoopTrace(words), DirWriteWhileDisabled)
    ensures Throughout(Replay(boot, SelfTestTrace()), LoopTrace(words), Motor1Disabled)
  {
    SelfTestEndsIdle(boot);
    LoopSafe(Replay(boot, SelfTestTrace()), words);
  }

  // ---------------------------------------------------------------------------
  // main(), performed on the register block
  // ---------------------------------------------------------------------------

  lemma TestPulseAppend(t: seq<Event>, directions: seq<Event>)
    ensures t + directions + SetSpeedTrace(TestDuty) + [Wait(500)] + StopTrace()
         == t + TestPulseTrace(directions)
  {
  }

  lemma SelfTestAppend(t: seq<Event>)
    ensures t + PulseForwardTrace(40000, 500) + TestPulseTrace(BackwardTrace())
          + TestPulseTrace(RightTrace()) + TestPulseTrace(LeftTrace())
         == t + SelfTestTrace()
  {
  }

  /** The motor tests at the start of main(). */
  method SelfTest(d: Dhb1)
    requires d.Valid()
    modifies d
    ensures d.Valid() && d.trace == old(d.trace) + SelfTestTrace()
    ensures Idle(d.State()) && d.dirM1 == 0 && d.dirM2 == 1
  {
    ghost var t0 := d.trace;
    d.MotorPulseForward(40000, 500);
    ghost var t1 := d.trace;
    d.MotorBackward();
    d.MotorSetSpeed(TestDuty);
    d.Delay(500);
    d.MotorStop();
    TestPulseAppend(t1, BackwardTrace());
    ghost var t2 := d.trace;
    d.MotorRight();
    d.MotorSetSpeed(TestDuty);
    d.Delay(500);
    d.MotorStop();
    TestPulseAppend(t2, RightTrace());
    ghost var t3 := d.trace;
    d.MotorLeft();
    d.MotorSetSpeed(TestDuty);
    d.Delay(500);
    d.MotorStop();
    TestPulseAppend(t3, LeftTrace());
    SelfTestAppend(t0);
  }

  /** One pass of the while(1) body for sensor word `ls`, entered and left
      with the loop invariant. */
  method ControlStep(d: Dhb1, ls: bv32)
    requires d.Valid() && Idle(d.State())
    modifies d
    ensures d.Valid() && Idle(d.State())
    ensures d.trace == old(d.trace) + StepTrace(ls)
    ensures d.State() == Replay(old(d.State()), StepTrace(ls))
    ensures Dispatch(ls).Forward? ==> d.dirM1 == 1 && d.dirM2 == 1
    ensures Dispatch(ls).SteerLeft? ==> d.dirM1 == 0 && d.dirM2 == 1
    ensures Dispatch(ls).SteerRight? ==> d.dirM1 == 1 && d.dirM2 == 0
    ensures Dispatch(ls).Stop? ==> d.dirM1 == old(d.dirM1) && d.dirM2 == old(d.dirM2)
  {
    ghost var t0 := d.trace;
    var command := Dispatch(ls);
    match command {
      case Forward(duty) =>
        d.MotorForward();
        d.MotorSetSpeed(duty);
        AppendAssoc(t0, ForwardTrace(), SetSpeedTrace(duty));
      case SteerLeft(duty) =>
        d.MotorLeft();
        d.MotorSetSpeed(duty);
        AppendAssoc(t0, LeftTrace(), SetSpeedTrace(duty));
      case SteerRight(duty) =>
        d.MotorRight();
        d.MotorSetSpeed(duty);
        AppendAssoc(t0, RightTrace(), SetSpeedTrace(duty));
      case Stop =>
        d.MotorStop();
    }
    assert d.trace == t0 + CommandTrace(command);
    d.Delay(PollMs);
    AppendAssoc(t0, CommandTrace(command), [Wait(PollMs)]);
    ReplayAppend(d.boot, t0, StepTrace(ls));
  }

  /** main(): the self-test, then one pass of the loop per sensor word read.
      At the top of every pass the registers are idle. */
  method Firmware(d: Dhb1, words: seq<bv32>)
    requires d.Valid()
    modifies d
    ensures d.Valid() && Idle(d.State())
    ensures d.trace == old(d.trace) + SelfTestTrace() + LoopTrace(words)
    ensures d.State() == Replay(old(d.State()), SelfTestTrace() + LoopTrace(words))
  {
    SelfTest(d);
    ghost var t0 := d.trace;
    var i := 0;
    while i < |words|
      invariant 0 <= i <= |words|
      invariant d.Valid() && Idle(d.State())
      invariant d.trace == t0 + LoopTrace(words[..i])
    {
      ControlStep(d, words[i]);
      LoopTraceSnoc(words[..i], words[i]);
      assert words[..i + 1] == words[..i] + [words[i]];
      AppendAssoc(t0, LoopTrace(words[..i]), StepTrace(words[i]));
      i := i + 1;
    }
    assert words[..i] == words;
    AppendAssoc(old(d.trace), SelfTestTrace(), LoopTrace(words));
    ReplayAppend(d.boot, old(d.trace), SelfTestTrace() + LoopTrace(words));
  }
}
