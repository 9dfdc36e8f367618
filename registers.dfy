/** The register block of the DHB1 dual H-bridge as a value, the writes the
    firmware makes to it as events, and the meaning of a sequence of writes. */
module Registers {

  /** A 32-bit memory-mapped register holds a value in [0, 2^32). */
  newtype u32 = x: int | 0 <= x < 0x1_0000_0000

  /** The C conversion of a signed `int` into a `u32` register: reduction
      modulo 2^32 (Dafny's `%` is Euclidean, so the result is never negative). */
  function U32(x: int): (r: u32)
    ensures 0 <= x < 0x1_0000_0000 ==> r as int == x
    ensures (r as int - x) % 0x1_0000_0000 == 0
  {
    (x % 0x1_0000_0000) as u32
  }

  /** The two motor channels of the H-bridge. */
  datatype Motor = M1 | M2

  /** The seven registers the firmware writes: direction, enable and PWM duty
      per channel, and the global PWM enable. */
  datatype Regs = Regs(
    dirM1: u32, dirM2: u32,
    enM1: u32, enM2: u32,
    pwmM1: u32, pwmM2: u32,
    pwmEn: u32)

  /** One step the firmware takes: a register store, or a delay. */
  datatype Event =
    | WriteDir(m: Motor, v: u32)
    | WriteEn(m: Motor, v: u32)
    | WritePwm(m: Motor, v: u32)
    | WritePwmEn(v: u32)
    | Wait(ms: int)

  /** The register state after one event: a store replaces exactly the named
      register, a delay changes nothing. */
  function Apply(s: Regs, e: Event): (r: Regs)
    ensures e.Wait? ==> r == s
    // each group of registers changes only under a store into that group
    ensures !e.WriteDir? ==> r.dirM1 == s.dirM1 && r.dirM2 == s.dirM2
    ensures !e.WriteEn? ==> r.enM1 == s.enM1 && r.enM2 == s.enM2
    ensures !e.WritePwm? ==> r.pwmM1 == s.pwmM1 && r.pwmM2 == s.pwmM2
    ensures !e.WritePwmEn? ==> r.pwmEn == s.pwmEn
    // within a group, the named motor's register takes the value, the other motor's is kept
    ensures e.WriteDir? ==>
      if e.m == M1 then r.dirM1 == e.v && r.dirM2 == s.dirM2 else r.dirM2 == e.v && r.dirM1 == s.dirM1
    ensures e.WriteEn? ==>
      if e.m == M1 then r.enM1 == e.v && r.enM2 == s.enM2 else r.enM2 == e.v && r.enM1 == s.enM1
    ensures e.WritePwm? ==>
      if e.m == M1 then r.pwmM1 == e.v && r.pwmM2 == s.pwmM2 else r.pwmM2 == e.v && r.pwmM1 == s.pwmM1
    ensures e.WritePwmEn? ==> r.pwmEn == e.v
  {
    match e
    case WriteDir(m, v) => if m == M1 then s.(dirM1 := v) else s.(dirM2 := v)
    case WriteEn(m, v) => if m == M1 then s.(enM1 := v) else s.(enM2 := v)
    case WritePwm(m, v) => if m == M1 then s.(pwmM1 := v) else s.(pwmM2 := v)
    case WritePwmEn(v) => s.(pwmEn := v)
    case Wait(_) => s
  }

  /** The register state after a whole trace of events, in order. */
  function Replay(s: Regs, t: seq<Event>): (r: Regs)
    decreases |t|
  {
    if t == [] then s else Replay(Apply(s, t[0]), t[1..])
  }

  /** `ok` holds of every event of `t` together with the register state just
      before that event is performed. */
  predicate Throughout(s: Regs, t: seq<Event>, ok: (Regs, Event) -> bool)
    decreases |t|
  {
    t == [] || (ok(s, t[0]) && Throughout(Apply(s, t[0]), t[1..], ok))
  }

  lemma AppendAssoc(a: seq<Event>, b: seq<Event>, c: seq<Event>)
    ensures a + (b + c) == a + b + c
  {
  }

  lemma {:induction false} ReplayAppend(s: Regs, t1: seq<Event>, t2: seq<Event>)
    ensures Replay(s, t1 + t2) == Replay(Replay(s, t1), t2)
    decreases |t1|
  {
    if t1 == [] {
      assert t1 + t2 == t2;
    } else {
      assert (t1 + t2)[0] == t1[0];
      assert (t1 + t2)[1..] == t1[1..] + t2;
      ReplayAppend(Apply(s, t1[0]), t1[1..], t2);
    }
  }

  /** Performing one more event extends the replayed state by that event. */
  lemma ReplaySnoc(s: Regs, t: seq<Event>, e: Event)
    ensures Replay(s, t + [e]) == Apply(Replay(s, t), e)
  {
    ReplayAppend(s, t, [e]);
    assert [e][1..] == [];
  }

  /** Replaying three events performs them one after another. */
  lemma ReplayThree(s: Regs, a: Event, b: Event, c: Event)
    ensures Replay(s, [a, b, c]) == Apply(Apply(Apply(s, a), b), c)
  {
    assert [a, b, c][1..] == [b, c];
    assert [b, c][1..] == [c];
    assert [c][1..] == [];
    assert Replay(s, [a, b, c]) == Replay(Apply(s, a), [b, c]);
    assert Replay(Apply(s, a), [b, c]) == Replay(Apply(Apply(s, a), b), [c]);
    assert Replay(Apply(Apply(s, a), b), [c]) == Replay(Apply(Apply(Apply(s, a), b), c), []);
  }

  /** `Throughout` over three events checks each against the state before it. */
  lemma ThroughoutThree(s: Regs, a: Event, b: Event, c: Event, ok: (Regs, Event) -> bool)
    ensures Throughout(s, [a, b, c], ok)
        <==> ok(s, a) && ok(Apply(s, a), b) && ok(Apply(Apply(s, a), b), c)
  {
    assert [a, b, c][1..] == [b, c];
    assert [b, c][1..] == [c];
    assert [c][1..] == [];
    assert Throughout(s, [a, b, c], ok) <==> ok(s, a) && Throughout(Apply(s, a), [b, c], ok);
    assert Throughout(Apply(s, a), [b, c], ok)
       <==> ok(Apply(s, a), b) && Throughout(Apply(Apply(s, a), b), [c], ok);
    assert Throughout(Apply(Apply(s, a), b), [c], ok)
       <==> ok(Apply(Apply(s, a), b), c) && Throughout(Apply(Apply(Apply(s, a), b), c), [], ok);
  }

  lemma {:induction false} ThroughoutAppend(s: Regs, t1: seq<Event>, t2: seq<Event>, ok: (Regs, Event) -> bool)
    ensures Throughout(s, t1 + t2, ok) <==> Throughout(s, t1, ok) && Throughout(Replay(s, t1), t2, ok)
    decreases |t1|
  {
    if t1 == [] {
      assert t1 + t2 == t2;
    } else {
      assert (t1 + t2)[0] == t1[0];
      assert (t1 + t2)[1..] == t1[1..] + t2;
      ThroughoutAppend(Apply(s, t1[0]), t1[1..], t2, ok);
    }
  }

  /** If every event of `t` keeps `inv` and satisfies `ok` from any state
      where `inv` holds, then `ok` holds throughout `t` from a state where
      `inv` holds, and `inv` still holds at the end. */
  lemma {:induction false} ThroughoutFromStable(s: Regs, t: seq<Event>, inv: Regs -> bool, ok: (Regs, Event) -> bool)
    requires inv(s)
    requires forall r: Regs, e: Event :: e in t && inv(r) ==> ok(r, e) && inv(Apply(r, e))
    ensures Throughout(s, t, ok) && inv(Replay(s, t))
    decreases |t|
  {
    if t != [] {
      assert t[0] in t;
      assert forall e :: e in t[1..] ==> e in t;
      ThroughoutFromStable(Apply(s, t[0]), t[1..], inv, ok);
    }
  }
}
