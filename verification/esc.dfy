/**
 * The forward-only driver `esc_control.py`: 0–100 % mapped onto 1000–2000 µs,
 * where 0 % is PWM_MIN (motor off) rather than neutral, and a throttle request on
 * an unarmed controller arms it first instead of being refused.
 */
module Esc {
  import opened Wrappers
  import opened Text
  import opened Pwm

  /** `ESCController`'s state: the arming flag. */
  datatype Controller = Controller(armed: bool)

  const INITIAL: Controller := Controller(false)

  datatype Effect = Effect(controller: Controller, pulses: seq<int>)

  /** `arm()`: the raw minimum pulse, then `armed` is set. */
  function Arm(c: Controller): (r: Effect)
    ensures r.controller.armed && r.pulses == [PWM_MIN]
  {
    Effect(Controller(true), [PWM_MIN])
  }

  /** `max(0, min(100, percent))`. */
  function ClampPercent(percent: int): (r: int)
    ensures 0 <= r <= 100
    ensures 0 <= percent <= 100 ==> r == percent
    ensures percent < 0 ==> r == 0
    ensures percent > 100 ==> r == 100
  {
    if percent < 0 then 0 else if percent > 100 then 100 else percent
  }

  /** `int(PWM_MIN + percent * (PWM_MAX - PWM_MIN) / 100)`; exact, since the quotient is whole. */
  function PercentPulse(p: int): int
    requires 0 <= p <= 100
  {
    PWM_MIN + p * (PWM_MAX - PWM_MIN) / 100
  }

  /** `set_throttle(percent)`: arms an unarmed controller first, then writes the clamped request. */
  function SetThrottle(c: Controller, percent: int): (r: Effect)
    ensures r.controller.armed
    ensures |r.pulses| == (if c.armed then 1 else 2)
    ensures !c.armed ==> r.pulses[0] == PWM_MIN
    ensures AllInRange(r.pulses)
  {
    var armed := if c.armed then Effect(c, []) else Arm(c);
    var p := ClampPercent(percent);
    PercentPulseExact(p);
    Effect(armed.controller, armed.pulses + [PercentPulse(p)])
  }

  /** `set_pulse(us)`: one write, clamped into [1000, 2000]. */
  function SetPulse(c: Controller, microseconds: int): (r: Effect)
    ensures r.controller == c && |r.pulses| == 1 && InRange(r.pulses[0])
    ensures InRange(microseconds) <==> r.pulses == [microseconds]
  {
    Effect(c, [Clamp(microseconds)])
  }

  /** `stop()`: minimum throttle, which for this ESC means motor off. */
  function Stop(c: Controller): Effect {
    Effect(c, [PWM_MIN])
  }

  /** `brake()`: the PWM signal is cut. */
  function Brake(c: Controller): Effect {
    Effect(c, [PWM_OFF])
  }

  /** `cleanup()`: the PWM signal is cut. */
  function Cleanup(c: Controller): Effect {
    Effect(c, [PWM_OFF])
  }

  /** `calibrate()`: maximum, then minimum, and the controller counts as armed. */
  function Calibrate(c: Controller): (r: Effect)
    ensures r.controller.armed
    ensures |r.pulses| == 2 && r.pulses[0] == PWM_MAX && r.pulses[1] == PWM_MIN
  {
    Effect(Controller(true), [PWM_MAX, PWM_MIN])
  }

  // ---------------------------------------------------------------------------
  // Interactive mode

  /** A line typed at the `>` prompt, classified by the `strip().lower()` command chain. */
  datatype Command =
    | Quit | ArmCmd | CalibrateCmd | StopCmd | BrakeCmd
    | Throttle(percent: int)
    | OutOfRange(value: int)
    | Unknown

  /**
   * `cmd.isdigit()` on ASCII digits, then `int(cmd)` and the 0..100 range check. A
   * number comes out exactly when the command is all digits, and it is the number
   * those digits spell.
   */
  function ReadCommand(line: string): (r: Command)
    ensures r.Throttle? ==> 0 <= r.percent <= 100 && ParseInt(Lower(Strip(line))) == Some(r.percent)
    ensures r.OutOfRange? ==> r.value > 100 && ParseInt(Lower(Strip(line))) == Some(r.value)
    ensures (r.Throttle? || r.OutOfRange?) <==> AllDigits(Lower(Strip(line)))
  {
    var cmd := Lower(Strip(line));
    assert AllDigits(cmd) ==> cmd !in {"q", "a", "c", "s", "b"} by {
      if AllDigits(cmd) { assert IsDigit(cmd[0]); }
    }
    if cmd == "q" then Quit
    else if cmd == "a" then ArmCmd
    else if cmd == "c" then CalibrateCmd
    else if cmd == "s" then StopCmd
    else if cmd == "b" then BrakeCmd
    else if AllDigits(cmd) then
      var t := ParseInt(cmd).value;
      if 0 <= t <= 100 then Throttle(t) else OutOfRange(t)
    else Unknown
  }

  /** Interactive output: the controller's final state and the pulses written. */
  datatype Session = Session(controller: Controller, pulses: seq<int>)

  /**
   * The prompt loop. `calibrate` reads two more lines (its two Enter prompts); input
   * that runs out in the middle of it ends the session after the writes made so far.
   */
  function Loop(c: Controller, lines: seq<string>): (r: Session)
    ensures c.armed ==> r.controller.armed
    ensures |r.pulses| <= 2 * |lines|
    decreases |lines|
  {
    if |lines| == 0 then Session(c, [])
    else
      var rest := lines[1..];
      match ReadCommand(lines[0])
      case Quit => Session(c, [])
      case ArmCmd => var e := Arm(c); Prepend(e.pulses, Loop(e.controller, rest))
      case CalibrateCmd =>
        if |rest| == 0 then Session(c, [])
        else if |rest| == 1 then Session(c, [PWM_MAX])
        else var e := Calibrate(c); Prepend(e.pulses, Loop(e.controller, rest[2..]))
      case StopCmd => var e := Stop(c); Prepend(e.pulses, Loop(e.controller, rest))
      case BrakeCmd => var e := Brake(c); Prepend(e.pulses, Loop(e.controller, rest))
      case Throttle(p) => var e := SetThrottle(c, p); Prepend(e.pulses, Loop(e.controller, rest))
      case OutOfRange(_) => Loop(c, rest)
      case Unknown => Loop(c, rest)
  }

  function Prepend(pulses: seq<int>, s: Session): Session {
    Session(s.controller, pulses + s.pulses)
  }

  /**
   * `interactive_control()`: the constructor fails before the `try` without a pigpio
   * connection; otherwise the loop runs and the `finally` block stops and cleans up.
   */
  function InteractiveControl(connected: bool, lines: seq<string>): (r: seq<int>)
    ensures !connected ==> r == []
    ensures connected ==> |r| >= 2 && r[|r| - 1] == PWM_OFF
  {
    if !connected then []
    else
      var s := Loop(INITIAL, lines);
      s.pulses + Stop(s.controller).pulses + Cleanup(s.controller).pulses
  }

  /** `test_esc()` once the user has pressed Enter: arm, 10 %, 20 %, 30 %, stop; then stop and clean up. */
  function TestEsc(connected: bool): (r: seq<int>)
    ensures !connected ==> r == []
    ensures connected ==> |r| == 7 && r[0] == PWM_MIN && r[6] == PWM_OFF
  {
    if !connected then []
    else
      var a := Arm(INITIAL);
      var t1 := SetThrottle(a.controller, 10);
      var t2 := SetThrottle(t1.controller, 20);
      var t3 := SetThrottle(t2.controller, 30);
      a.pulses + t1.pulses + t2.pulses + t3.pulses + Stop(t3.controller).pulses
        + Stop(t3.controller).pulses + Cleanup(t3.controller).pulses
  }

  // ---------------------------------------------------------------------------
  // Lemmas

  /** The mapping is exact: `1000 + 10·p`, so 0 % is PWM_MIN and 100 % is PWM_MAX. */
  lemma PercentPulseExact(p: int)
    requires 0 <= p <= 100
    ensures PercentPulse(p) == PWM_MIN + 10 * p
    ensures InRange(PercentPulse(p))
  {
    assert p * 1000 == (10 * p) * 100;
  }

  /** The percent-to-pulse map is strictly increasing. */
  lemma PercentPulseStrictlyIncreasing(p: int, q: int)
    requires 0 <= p < q <= 100
    ensures PercentPulse(p) < PercentPulse(q)
  {
    PercentPulseExact(p);
    PercentPulseExact(q);
  }

  /** Armed: one write of the clamped request. Unarmed: the arming minimum first, then the same write. */
  lemma SetThrottleWrites(c: Controller, percent: int)
    ensures SetThrottle(c, percent).pulses
      == (if c.armed then [] else [PWM_MIN]) + [PWM_MIN + 10 * ClampPercent(percent)]
  {
    PercentPulseExact(ClampPercent(percent));
  }

  /** Of all the operations only `brake` and `cleanup` write outside [1000, 2000], and they write 0. */
  lemma OnlyBrakeAndCleanupLeaveRange(c: Controller)
    ensures InRange(Stop(c).pulses[0]) && InRange(Arm(c).pulses[0])
    ensures AllInRange(Calibrate(c).pulses)
    ensures Brake(c).pulses == [PWM_OFF] && Cleanup(c).pulses == [PWM_OFF] && !InRange(PWM_OFF)
  {
  }

  /** After `arm` a throttle call writes its pulse and nothing else. */
  lemma ArmedNeedsNoArming(c: Controller, percent: int)
    ensures SetThrottle(Arm(c).controller, percent).pulses == [PWM_MIN + 10 * ClampPercent(percent)]
  {
    SetThrottleWrites(Arm(c).controller, percent);
  }

  /** After `calibrate` the controller counts as armed, so a throttle call writes its pulse without arming first. */
  lemma CalibratedNeedsNoArming(c: Controller, percent: int)
    ensures SetThrottle(Calibrate(c).controller, percent).pulses == [PWM_MIN + 10 * ClampPercent(percent)]
  {
    SetThrottleWrites(Calibrate(c).controller, percent);
  }

  /** A digit string of a whole percentage is read back as that throttle command. */
  lemma ReadPercent(n: nat)
    requires n <= 100
    ensures ReadCommand(NatToString(n)) == Throttle(n)
  {
    var s := NatToString(n);
    StripTrimmed(s);
    LowerDigits(s);
    ParseNatToString(n);
    assert s != "q" && s != "a" && s != "c" && s != "s" && s != "b" by {
      assert IsDigit(s[0]);
    }
  }

  /** Lower-casing leaves a digit string alone. */
  lemma LowerDigits(s: string)
    requires AllDigits(s)
    ensures Lower(s) == s
  {
    LowerPointwise(s);
  }

  /** A signed or non-digit line never reaches `set_throttle`. */
  lemma SignedInputRejected(line: string)
    requires |Lower(Strip(line))| > 0 && !IsDigit(Lower(Strip(line))[0])
    ensures !ReadCommand(line).Throttle? && !ReadCommand(line).OutOfRange?
  {
  }

  /** Every write of the prompt loop is in [1000, 2000] except those of `b`, which are 0. */
  lemma {:induction false} LoopWrites(c: Controller, lines: seq<string>)
    ensures forall i :: 0 <= i < |Loop(c, lines).pulses| ==>
      InRange(Loop(c, lines).pulses[i]) || Loop(c, lines).pulses[i] == PWM_OFF
    decreases |lines|
  {
    if |lines| > 0 {
      var rest := lines[1..];
      match ReadCommand(lines[0])
      case Quit =>
      case ArmCmd => LoopWrites(Arm(c).controller, rest);
      case CalibrateCmd =>
        if |rest| >= 2 { LoopWrites(Calibrate(c).controller, rest[2..]); }
      case StopCmd => LoopWrites(c, rest);
      case BrakeCmd => LoopWrites(c, rest);
      case Throttle(p) => LoopWrites(SetThrottle(c, p).controller, rest);
      case OutOfRange(_) => LoopWrites(c, rest);
      case Unknown => LoopWrites(c, rest);
    }
  }

  /** A connected interactive session always ends with the `finally` writes: minimum, then off. */
  lemma InteractiveEnds(connected: bool, lines: seq<string>)
    requires connected
    ensures var out := InteractiveControl(connected, lines);
      |out| >= 2 && out[|out| - 2..] == [PWM_MIN, PWM_OFF]
  {
  }

  /** The bench test writes 1000, 1100, 1200, 1300, then minimum twice and off. */
  lemma TestEscPulses()
    ensures TestEsc(true) == [1000, 1100, 1200, 1300, 1000, 1000, 0]
    ensures TestEsc(false) == []
  {
    PercentPulseExact(10);
    PercentPulseExact(20);
    PercentPulseExact(30);
  }
}
