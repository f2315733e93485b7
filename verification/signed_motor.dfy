/**
 * The signed bench driver `motor_control.py`: throttle from -100 % (full reverse)
 * to +100 % (full forward) around the 1500 µs neutral, limited to ±50 % for safety.
 *
 * Percentages are reals because the interactive prompt passes `float(cmd)`; the
 * float arithmetic is modelled as exact real arithmetic.
 */
module SignedMotor {
  import opened Wrappers
  import opened Text
  import opened Pwm
  import opened RealArith

  /** The bench safety ceiling, in percent, on either side of neutral. */
  const MAX_THROTTLE_PERCENT: real := 50.0

  /** `MotorController`'s state: only the arming flag. */
  datatype Controller = Controller(armed: bool)

  const INITIAL: Controller := Controller(false)

  /** The new state and the pulses written to the ESC pin. */
  datatype Effect = Effect(controller: Controller, pulses: seq<int>)

  /** `set_pulse_width(w)`: one write, clamped into [1000, 2000]. */
  function SetPulseWidth(w: int): (r: seq<int>)
    ensures |r| == 1 && InRange(r[0])
    ensures InRange(w) <==> r[0] == w
  {
    [Clamp(w)]
  }

  /** `arm()`: neutral, then `armed` is set. */
  function Arm(c: Controller): Effect {
    Effect(Controller(true), SetPulseWidth(PWM_NEUTRAL))
  }

  /** The safety limit: a request beyond ±50 % is replaced by ±50 % of the same sign. */
  function Limit(percent: real): (r: real)
    ensures Abs(r) <= MAX_THROTTLE_PERCENT
    ensures Abs(percent) <= MAX_THROTTLE_PERCENT ==> r == percent
    ensures (r > 0.0 <==> percent > 0.0) && (r < 0.0 <==> percent < 0.0)
    ensures Abs(percent) > MAX_THROTTLE_PERCENT ==> Abs(r) == MAX_THROTTLE_PERCENT
  {
    if Abs(percent) > MAX_THROTTLE_PERCENT then
      (if percent > 0.0 then MAX_THROTTLE_PERCENT else -MAX_THROTTLE_PERCENT)
    else percent
  }

  /** `int(pulse_width)` for a limited percentage, with the two branches `set_throttle` takes by sign. */
  function ThrottlePulse(p: real): int
    requires Abs(p) <= MAX_THROTTLE_PERCENT
  {
    if p >= 0.0 then Trunc(PWM_NEUTRAL as real + (p / 100.0) * (PWM_MAX - PWM_NEUTRAL) as real)
    else Trunc(PWM_NEUTRAL as real + (p / 100.0) * (PWM_NEUTRAL - PWM_MIN) as real)
  }

  /** `set_throttle(percent)`: nothing before `arm()`; otherwise one write of the limited request. */
  function SetThrottle(c: Controller, percent: real): (r: Effect)
    ensures r.controller == c
    ensures !c.armed <==> r.pulses == []
    ensures c.armed ==> |r.pulses| == 1 && 1250 <= r.pulses[0] <= 1750
  {
    if !c.armed then Effect(c, [])
    else
      var p := Limit(percent);
      ThrottlePulseBounds(p);
      Effect(c, SetPulseWidth(ThrottlePulse(p)))
  }

  /** `stop()`: neutral, `armed` untouched. */
  function Stop(c: Controller): Effect {
    Effect(c, SetPulseWidth(PWM_NEUTRAL))
  }

  /** `cleanup()`: with a live connection, neutral and then PWM off. */
  function Cleanup(connected: bool): seq<int> {
    if connected then SetPulseWidth(PWM_NEUTRAL) + [PWM_OFF] else []
  }

  /** The `t` test sequence: 10, 20, 30, 20, 10, 0 %, then `stop()`. */
  const TEST_SEQUENCE: seq<real> := [10.0, 20.0, 30.0, 20.0, 10.0, 0.0]

  function ThrottleAll(c: Controller, ps: seq<real>): (r: Effect)
    ensures r.controller == c
    ensures AllInRange(r.pulses)
    decreases |ps|
  {
    if |ps| == 0 then Effect(c, [])
    else
      var e := SetThrottle(c, ps[0]);
      var rest := ThrottleAll(c, ps[1..]);
      AllInRangeConcat(e.pulses, rest.pulses);
      Effect(c, e.pulses + rest.pulses)
  }

  /** One line typed at the `Throttle >` prompt, after `strip().lower()`. */
  datatype Command = Quit | StopCmd | ArmCmd | TestCmd | Number(percent: real) | Invalid

  /** The command chain of `interactive_control`; `parse` is `float()`, `None` for its `ValueError`. */
  function ReadCommand(line: string, parse: string -> Option<real>): Command {
    var cmd := Lower(Strip(line));
    if cmd == "q" then Quit
    else if cmd == "s" then StopCmd
    else if cmd == "a" then ArmCmd
    else if cmd == "t" then TestCmd
    else match parse(cmd)
      case Some(x) => Number(x)
      case None => Invalid
  }

  /** What one non-quit command does. */
  function Execute(c: Controller, cmd: Command): (r: Effect)
    requires cmd != Quit
    ensures c.armed ==> r.controller.armed
    ensures AllInRange(r.pulses)
  {
    match cmd
    case StopCmd => Stop(c)
    case ArmCmd => Arm(c)
    case TestCmd =>
      var t := ThrottleAll(c, TEST_SEQUENCE);
      var s := Stop(c);
      AllInRangeConcat(t.pulses, s.pulses);
      Effect(c, t.pulses + s.pulses)
    case Number(x) => SetThrottle(c, x)
    case Invalid => Effect(c, [])
  }

  /** The prompt loop over the lines typed, up to `q` or the end of input. */
  function Loop(c: Controller, lines: seq<string>, parse: string -> Option<real>): (r: Effect)
    ensures c.armed ==> r.controller.armed
    ensures !c.armed && r.controller == c ==> forall i :: 0 <= i < |r.pulses| ==> r.pulses[i] == PWM_NEUTRAL
    decreases |lines|
  {
    if |lines| == 0 then Effect(c, [])
    else
      var cmd := ReadCommand(lines[0], parse);
      if cmd == Quit then Effect(c, [])
      else
        var e := Execute(c, cmd);
        var rest := Loop(e.controller, lines[1..], parse);
        Effect(rest.controller, e.pulses + rest.pulses)
  }

  /**
   * `interactive_control()`: connect (failure is caught and skips to cleanup, which
   * writes nothing without a live connection), arm, run the prompt loop, clean up.
   */
  function InteractiveControl(connected: bool, lines: seq<string>, parse: string -> Option<real>): seq<int> {
    if !connected then Cleanup(false)
    else
      var armed := Arm(INITIAL);
      var loop := Loop(armed.controller, lines, parse);
      armed.pulses + loop.pulses + Cleanup(true)
  }

  // ---------------------------------------------------------------------------
  // Lemmas

  /** The limited request maps into [1250, 1750]. */
  lemma ThrottlePulseBounds(p: real)
    requires Abs(p) <= MAX_THROTTLE_PERCENT
    ensures 1250 <= ThrottlePulse(p) <= 1750
  {
    var x := if p >= 0.0 then PWM_NEUTRAL as real + (p / 100.0) * 500.0 else PWM_NEUTRAL as real + (p / 100.0) * 500.0;
    assert 1250.0 <= x <= 1750.0;
    TruncMonotone(1250.0, x);
    TruncMonotone(x, 1750.0);
  }

  /** Before `arm()` a throttle request writes nothing. */
  lemma ThrottleBeforeArm(c: Controller, percent: real)
    requires !c.armed
    ensures SetThrottle(c, percent) == Effect(c, [])
  {
  }

  /** For whole percentages within the limit the pulse is exactly `1500 + 5·p`, on both sides of neutral. */
  lemma ThrottlePulseWhole(p: int)
    requires -50 <= p <= 50
    ensures ThrottlePulse(p as real) == PWM_NEUTRAL + 5 * p
  {
    var x := PWM_NEUTRAL as real + (p as real / 100.0) * 500.0;
    assert x == (1500 + 5 * p) as real;
  }

  /** The request-to-pulse map never decreases. */
  lemma ThrottlePulseMonotone(p: real, q: real)
    requires Abs(p) <= MAX_THROTTLE_PERCENT && Abs(q) <= MAX_THROTTLE_PERCENT && p <= q
    ensures ThrottlePulse(p) <= ThrottlePulse(q)
  {
    var x := PWM_NEUTRAL as real + (p / 100.0) * 500.0;
    var y := PWM_NEUTRAL as real + (q / 100.0) * 500.0;
    assert 0.0 <= x <= y;
    TruncMonotone(x, y);
  }

  /** For whole percentages the map is symmetric about neutral. */
  lemma ThrottlePulseSymmetric(p: int)
    requires -50 <= p <= 50
    ensures ThrottlePulse(-p as real) - PWM_NEUTRAL == -(ThrottlePulse(p as real) - PWM_NEUTRAL)
  {
    ThrottlePulseWhole(p);
    ThrottlePulseWhole(-p);
  }

  /**
   * Off whole percentages the map is not symmetric, because `int()` truncates toward
   * zero on both sides of 1500: in exact reals, any request strictly between 0 and 0.2 %
   * writes 1500, while its negation writes 1499. Double rounding very near 0 and very
   * near 0.2 is not modelled.
   */
  lemma FractionalAsymmetric(p: real)
    requires 0.0 < p < 0.2
    ensures ThrottlePulse(p) == PWM_NEUTRAL
    ensures ThrottlePulse(-p) == PWM_NEUTRAL - 1
  {
    assert 1500.0 < PWM_NEUTRAL as real + (p / 100.0) * 500.0 < 1501.0;
    assert 1499.0 < PWM_NEUTRAL as real + (-p / 100.0) * 500.0 < 1500.0;
  }

  /** Once armed, a request beyond the limit writes the ±50 % pulse of its sign: 1750 or 1250. */
  lemma ThrottleLimited(c: Controller, percent: real)
    requires c.armed && Abs(percent) > MAX_THROTTLE_PERCENT
    ensures SetThrottle(c, percent).pulses == [if percent > 0.0 then 1750 else 1250]
  {
    ThrottlePulseWhole(50);
    ThrottlePulseWhole(-50);
  }

  /** `stop()` writes neutral and keeps the arming state; `arm()` writes neutral and arms. */
  lemma StopAndArm(c: Controller)
    ensures Stop(c) == Effect(c, [PWM_NEUTRAL])
    ensures Arm(c) == Effect(Controller(true), [PWM_NEUTRAL])
  {
  }

  /** Every pulse of a batch of throttle requests lies in [1250, 1750] once armed. */
  lemma {:induction false} ThrottleAllBounds(c: Controller, ps: seq<real>)
    requires c.armed
    ensures |ThrottleAll(c, ps).pulses| == |ps|
    ensures forall i :: 0 <= i < |ps| ==> 1250 <= ThrottleAll(c, ps).pulses[i] <= 1750
    decreases |ps|
  {
    if |ps| > 0 {
      ThrottleAllBounds(c, ps[1..]);
    }
  }

  /** The `t` command: 1550, 1600, 1650, 1600, 1550, 1500, then the neutral of `stop()`. */
  lemma TestSequencePulses(c: Controller)
    requires c.armed
    ensures Execute(c, TestCmd).pulses == [1550, 1600, 1650, 1600, 1550, 1500, 1500]
  {
    ThrottlePulseWhole(10);
    ThrottlePulseWhole(20);
    ThrottlePulseWhole(30);
    ThrottlePulseWhole(0);
    var ps := TEST_SEQUENCE;
    assert ps[1..][1..][1..][1..][1..][1..] == [];
  }

  /** Every command leaves pulses in [1000, 2000] and never disarms. */
  lemma {:induction false} LoopPulsesInRange(c: Controller, lines: seq<string>, parse: string -> Option<real>)
    ensures AllInRange(Loop(c, lines, parse).pulses)
    ensures c.armed ==> Loop(c, lines, parse).controller.armed
    decreases |lines|
  {
    if |lines| > 0 {
      var cmd := ReadCommand(lines[0], parse);
      if cmd != Quit {
        var e := Execute(c, cmd);
        LoopPulsesInRange(e.controller, lines[1..], parse);
        AllInRangeConcat(e.pulses, Loop(e.controller, lines[1..], parse).pulses);
      }
    }
  }

  /**
   * A connected session opens with the arming neutral, hands only [1000, 2000] to
   * the ESC, and always closes with neutral and PWM off, whether it ends on `q` or
   * at the end of input; a failed connection writes nothing.
   */
  lemma InteractiveTrace(connected: bool, lines: seq<string>, parse: string -> Option<real>)
    ensures var out := InteractiveControl(connected, lines, parse);
      && (!connected ==> out == [])
      && (connected ==>
            && |out| >= 3 && out[0] == PWM_NEUTRAL
            && out[|out| - 2..] == [PWM_NEUTRAL, PWM_OFF]
            && AllInRange(out[..|out| - 1]))
  {
    if connected {
      var armed := Arm(INITIAL);
      var loop := Loop(armed.controller, lines, parse);
      LoopPulsesInRange(armed.controller, lines, parse);
      var out := InteractiveControl(connected, lines, parse);
      assert out[..|out| - 1] == armed.pulses + loop.pulses + [PWM_NEUTRAL];
      AllInRangeConcat(armed.pulses, loop.pulses);
      AllInRangeConcat(armed.pulses + loop.pulses, [PWM_NEUTRAL]);
    }
  }
}
