/**
 * The bench utility `ESC_Calibration_Test.py`: ESC calibration, a ramped motor test,
 * an interactive throttle-range finder and manual pulse entry, all driven from one
 * stream of typed lines, with a safety shutdown that always runs.
 *
 * `input()` on an exhausted stream raises `EOFError`, which no handler in the file
 * catches: it ends the menu and only the shutdown of the `finally` block follows.
 */
module Calibration {
  import opened Wrappers
  import opened Text
  import opened Pwm

  /** The ramp increment, in microseconds. */
  const RAMP_STEP_SIZE: int := 5

  function Distance(a: int, b: int): nat {
    if a <= b then b - a else a - b
  }

  /** The signed ramp increment `ramp_to` picks: up when `start < end`, down otherwise (also when equal). */
  function RampStep(start: int, end: int): int {
    if start < end then RAMP_STEP_SIZE else -RAMP_STEP_SIZE
  }

  predicate Between(x: int, a: int, b: int) {
    (a <= x <= b) || (b <= x <= a)
  }

  /**
   * Closed form of `ramp_to(start, end)`'s writes: `start`, `start ± 5`, … for every
   * step that does not pass `end`, then `end` itself.
   */
  function RampSpec(start: int, end: int): seq<int> {
    seq(Distance(start, end) / RAMP_STEP_SIZE + 1, i => start + i * RampStep(start, end)) + [end]
  }

  /** `ramp_to`'s loop, computing the writes one by one. */
  method RampTo(start: int, end: int) returns (writes: seq<int>)
    ensures |writes| == Distance(start, end) / RAMP_STEP_SIZE + 2
    ensures writes[0] == start && writes[|writes| - 1] == end
    ensures forall i :: 0 <= i < |writes| - 1 ==> Between(writes[i], start, end)
    ensures forall i :: 0 <= i < |writes| - 2 ==> writes[i + 1] - writes[i] == RampStep(start, end)
    ensures writes == RampSpec(start, end)
  {
    var step := RampStep(start, end);
    var d := Distance(start, end);
    var current := start;
    var k := 0;
    writes := [];
    while (step > 0 && current <= end) || (step < 0 && current >= end)
      invariant current == start + k * step
      invariant k <= d / RAMP_STEP_SIZE + 1
      invariant writes == RampSpec(start, end)[..k]
      decreases d + RAMP_STEP_SIZE - k * RAMP_STEP_SIZE
    {
      writes := writes + [current];
      current := current + step;
      k := k + 1;
    }
    assert k == d / RAMP_STEP_SIZE + 1;
    writes := writes + [end];
    RampSpecShape(start, end);
    RampSpecBetween(start, end);
    RampSpecSteps(start, end);
  }

  /** What a stretch of the menu did: pulses written, the lines left, and whether input ran out. */
  datatype Run = Run(pulses: seq<int>, rest: seq<string>, eof: bool)

  /** `t` is what is left of `s` once some lines have been read from its front. */
  predicate Suffix(t: seq<string>, s: seq<string>) {
    |t| <= |s| && t == s[|s| - |t|..]
  }

  lemma SuffixTransitive(a: seq<string>, b: seq<string>, c: seq<string>)
    requires Suffix(a, b) && Suffix(b, c)
    ensures Suffix(a, c)
  {
    assert c[|c| - |b|..][|b| - |a|..] == c[|c| - |a|..];
  }

  /** A stretch of the menu only reads lines from the front of its input, and reads all of it when the input runs out. */
  predicate Consumed(r: Run, input: seq<string>) {
    Suffix(r.rest, input) && (r.eof ==> r.rest == [])
  }

  /** Writes made before a stretch of the menu, in front of its own. */
  function After(pulses: seq<int>, r: Run): (r': Run)
    ensures r'.rest == r.rest && r'.eof == r.eof && r'.pulses == pulses + r.pulses
  {
    Run(pulses + r.pulses, r.rest, r.eof)
  }

  /** `calibrate_esc`: Enter, maximum, Enter, neutral. */
  function CalibrateEsc(input: seq<string>): (r: Run)
    ensures Consumed(r, input)
  {
    if |input| == 0 then Run([], [], true)
    else if |input| == 1 then Run([PWM_MAX], [], true)
    else Run([PWM_MAX, PWM_NEUTRAL], input[2..], false)
  }

  /** The pulses of `test_motor` after its Enter prompt. */
  function TestMotorPulses(): seq<int> {
    [PWM_NEUTRAL]
      + RampSpec(PWM_NEUTRAL, 1750) + RampSpec(1750, PWM_MAX) + RampSpec(PWM_MAX, PWM_NEUTRAL)
      + [1300, PWM_NEUTRAL]
      + RampSpec(PWM_NEUTRAL, 1250) + RampSpec(1250, PWM_MIN) + RampSpec(PWM_MIN, PWM_NEUTRAL)
  }

  /** `test_motor`: Enter, then the fixed forward and reverse ramps. */
  function TestMotor(input: seq<string>): (r: Run)
    ensures Consumed(r, input)
  {
    if |input| == 0 then Run([], [], true)
    else Run(TestMotorPulses(), input[1..], false)
  }

  /** `range(from, to, by)` for the range finder's sweeps. */
  function Sweep(first: int, count: nat, delta: int): seq<int> {
    seq(count, i => first + i * delta)
  }

  /** One sweep of `find_throttle_range`: write, read a reply, stop early on `q`. */
  function AskSweep(pulses: seq<int>, input: seq<string>): (r: Run)
    ensures Consumed(r, input)
    ensures |r.pulses| <= |pulses|
    decreases |pulses|
  {
    if |pulses| == 0 then Run([], input, false)
    else if |input| == 0 then Run([pulses[0]], [], true)
    else if Lower(Strip(input[0])) == "q" then Run([pulses[0]], input[1..], false)
    else
      var r := AskSweep(pulses[1..], input[1..]);
      SuffixTransitive(r.rest, input[1..], input);
      After([pulses[0]], r)
  }

  /** The 21 forward pulses 1500, 1525, …, 2000 of `range(1500, 2001, 25)`. */
  const FORWARD_SWEEP: seq<int> := Sweep(PWM_NEUTRAL, 21, 25)
  /** The 21 reverse pulses 1500, 1475, …, 1000 of `range(1500, 999, -25)`. */
  const REVERSE_SWEEP: seq<int> := Sweep(PWM_NEUTRAL, 21, -25)

  /**
   * `find_throttle_range`: Enter, neutral, the forward sweep, neutral, Enter, the
   * brake/neutral double tap, the reverse sweep, neutral.
   */
  function FindThrottleRange(input: seq<string>): (r: Run)
    ensures Consumed(r, input)
    ensures |input| == 0 <==> r.pulses == []
    ensures r.pulses != [] ==> r.pulses[0] == PWM_NEUTRAL
  {
    if |input| == 0 then Run([], [], true)
    else
      var fwd := AskSweep(FORWARD_SWEEP, input[1..]);
      var head := [PWM_NEUTRAL] + fwd.pulses;
      if fwd.eof then Run(head, [], true)
      else if |fwd.rest| == 0 then Run(head + [PWM_NEUTRAL], [], true)
      else
        var rev := AskSweep(REVERSE_SWEEP, fwd.rest[1..]);
        var body := head + [PWM_NEUTRAL, 1250, PWM_NEUTRAL] + rev.pulses;
        SuffixTransitive(fwd.rest, input[1..], input);
        SuffixTransitive(fwd.rest[1..], fwd.rest, input);
        SuffixTransitive(rev.rest, fwd.rest[1..], input);
        if rev.eof then Run(body, [], true)
        else Run(body + [PWM_NEUTRAL], rev.rest, false)
  }

  /** How `manual_control` reports an accepted pulse. */
  datatype Direction = Reverse(percent: real) | Forward(percent: real) | Neutral

  /** The label of an accepted pulse: `(1500 - p) / 5` % reverse, `(p - 1500) / 5` % forward, or neutral. */
  function Label(pulse: int): Direction {
    if pulse < PWM_NEUTRAL then Reverse((PWM_NEUTRAL - pulse) as real / 5.0)
    else if pulse > PWM_NEUTRAL then Forward((pulse - PWM_NEUTRAL) as real / 5.0)
    else Neutral
  }

  /** One line of manual entry. */
  datatype Entry = QuitEntry | Rejected | Accepted(pulse: int)

  /** `value.lower() == 'q'`, else `int(value)` and the 1000..2000 range check. */
  function ReadEntry(line: string): (r: Entry)
    ensures r.Accepted? ==> InRange(r.pulse)
  {
    var value := Strip(line);
    if Lower(value) == "q" then QuitEntry
    else match ParseInt(value)
      case None => Rejected
      case Some(p) => if InRange(p) then Accepted(p) else Rejected
  }

  /** The manual-entry loop after its opening neutral; on `q` it writes neutral again. */
  function ManualLoop(input: seq<string>): (r: Run)
    ensures Consumed(r, input)
    ensures AllInRange(r.pulses)
    decreases |input|
  {
    if |input| == 0 then Run([], [], true)
    else match ReadEntry(input[0])
      case QuitEntry => Run([PWM_NEUTRAL], input[1..], false)
      case Rejected => ManualLoop(input[1..])
      case Accepted(p) =>
        var r := ManualLoop(input[1..]);
        SuffixTransitive(r.rest, input[1..], input);
        After([p], r)
  }

  /** `manual_control`: neutral, then the entry loop. */
  function ManualControl(input: seq<string>): (r: Run)
    ensures Consumed(r, input)
    ensures |r.pulses| >= 1 && r.pulses[0] == PWM_NEUTRAL && AllInRange(r.pulses)
  {
    After([PWM_NEUTRAL], ManualLoop(input))
  }

  /**
   * The action behind one menu choice other than `6`; an unknown choice does nothing.
   * Choice `5` runs the motor test on what calibration left, unless input ran out.
   */
  function Action(choice: string, rest: seq<string>): (r: Run)
    ensures Consumed(r, rest)
    ensures choice !in {"1", "2", "3", "4", "5"} ==> r == Run([], rest, false)
  {
    if choice == "1" then CalibrateEsc(rest)
    else if choice == "2" then TestMotor(rest)
    else if choice == "3" then FindThrottleRange(rest)
    else if choice == "4" then ManualControl(rest)
    else if choice == "5" then
      var c := CalibrateEsc(rest);
      if c.eof then c
      else
        var t := TestMotor(c.rest);
        SuffixTransitive(t.rest, c.rest, rest);
        After(c.pulses, t)
    else Run([], rest, false)
  }

  /** `main_menu`: one stripped choice per round, until `6` or the end of input. */
  function MainMenu(input: seq<string>): (r: Run)
    ensures Consumed(r, input)
    ensures !r.eof ==> |r.rest| < |input|
    decreases |input|
  {
    if |input| == 0 then Run([], [], true)
    else
      var choice := Strip(input[0]);
      if choice == "6" then Run([], input[1..], false)
      else
        var r := Action(choice, input[1..]);
        if r.eof then Run(r.pulses, [], true)
        else
          var more := MainMenu(r.rest);
          SuffixTransitive(r.rest, input[1..], input);
          SuffixTransitive(more.rest, r.rest, input);
          After(r.pulses, more)
  }

  /**
   * The script: without a pigpio connection it exits before anything is written;
   * otherwise the menu runs and the safety shutdown writes neutral and then PWM off.
   */
  function Utility(connected: bool, input: seq<string>): seq<int> {
    if !connected then []
    else MainMenu(input).pulses + [PWM_NEUTRAL, PWM_OFF]
  }

  // ---------------------------------------------------------------------------
  // Lemmas

  /** The closed form starts at `start`, ends at `end`, and has ⌊|end − start| / 5⌋ + 2 writes. */
  lemma RampSpecShape(start: int, end: int)
    ensures |RampSpec(start, end)| == Distance(start, end) / RAMP_STEP_SIZE + 2
    ensures RampSpec(start, end)[0] == start
    ensures RampSpec(start, end)[|RampSpec(start, end)| - 1] == end
  {
  }

  /** Every write of the closed form lies between `start` and `end`, inclusive. */
  lemma RampSpecBetween(start: int, end: int)
    ensures forall i :: 0 <= i < |RampSpec(start, end)| ==> Between(RampSpec(start, end)[i], start, end)
  {
    var d := Distance(start, end);
    var k := d / RAMP_STEP_SIZE;
    forall i | 0 <= i <= k
      ensures Between(start + i * RampStep(start, end), start, end)
    {
      assert i * RAMP_STEP_SIZE <= k * RAMP_STEP_SIZE <= d;
    }
  }

  /** Consecutive writes before the final one differ by exactly one signed step. */
  lemma RampSpecSteps(start: int, end: int)
    ensures forall i :: 0 <= i < |RampSpec(start, end)| - 2 ==>
      RampSpec(start, end)[i + 1] - RampSpec(start, end)[i] == RampStep(start, end)
  {
  }

  /** Equal endpoints give exactly `[start, end]`. */
  lemma RampEqualEnds(p: int)
    ensures RampSpec(p, p) == [p, p]
  {
  }

  /** The motor test starts and ends at neutral and never leaves [1000, 2000]. */
  lemma TestMotorInRange()
    ensures AllInRange(TestMotorPulses())
    ensures TestMotorPulses()[0] == PWM_NEUTRAL
    ensures TestMotorPulses()[|TestMotorPulses()| - 1] == PWM_NEUTRAL
  {
    RampInRange(PWM_NEUTRAL, 1750);
    RampInRange(1750, PWM_MAX);
    RampInRange(PWM_MAX, PWM_NEUTRAL);
    RampInRange(PWM_NEUTRAL, 1250);
    RampInRange(1250, PWM_MIN);
    RampInRange(PWM_MIN, PWM_NEUTRAL);
    RampSpecShape(PWM_MIN, PWM_NEUTRAL);
  }

  /** A ramp between two in-range pulses stays in range. */
  lemma RampInRange(start: int, end: int)
    requires InRange(start) && InRange(end)
    ensures AllInRange(RampSpec(start, end))
  {
    RampSpecBetween(start, end);
  }

  /** Each sweep of the range finder is 21 pulses within [1000, 2000], from neutral outwards. */
  lemma SweepsInRange()
    ensures |FORWARD_SWEEP| == 21 && FORWARD_SWEEP[0] == PWM_NEUTRAL && FORWARD_SWEEP[20] == PWM_MAX
    ensures |REVERSE_SWEEP| == 21 && REVERSE_SWEEP[0] == PWM_NEUTRAL && REVERSE_SWEEP[20] == PWM_MIN
    ensures AllInRange(FORWARD_SWEEP) && AllInRange(REVERSE_SWEEP)
  {
  }

  /** A prefix of a sweep stays in range. */
  lemma {:induction false} AskSweepInRange(pulses: seq<int>, input: seq<string>)
    requires AllInRange(pulses)
    ensures AllInRange(AskSweep(pulses, input).pulses)
    decreases |pulses|
  {
    if |pulses| > 0 && |input| > 0 && Lower(Strip(input[0])) != "q" {
      AskSweepInRange(pulses[1..], input[1..]);
    }
  }

  /** Manual entry accepts exactly the integers in [1000, 2000]. */
  lemma ManualAcceptsRange(v: int)
    ensures ReadEntry(IntToString(v)) == (if InRange(v) then Accepted(v) else Rejected)
  {
    var s := IntToString(v);
    StripTrimmed(s);
    ParseIntToString(v);
    assert Lower(s) != "q" by {
      LowerPointwise(s);
      assert s[|s| - 1] != 'q' && s[|s| - 1] != 'Q' by { LastCharOfIntToString(v); }
    }
  }

  /** The last character of `str(v)` is a digit. */
  lemma LastCharOfIntToString(v: int)
    ensures IsDigit(IntToString(v)[|IntToString(v)| - 1])
  {
    var digits := NatToString(if v < 0 then -v else v);
    if v < 0 {
      assert IntToString(v) == "-" + digits;
    }
  }

  /** Direction labels: reverse below neutral, forward above, both as a percentage of the 500 µs half-range. */
  lemma LabelPercent(p: int)
    requires InRange(p)
    ensures p < PWM_NEUTRAL ==> Label(p).Reverse? && 0.0 < Label(p).percent <= 100.0
    ensures p > PWM_NEUTRAL ==> Label(p).Forward? && 0.0 < Label(p).percent <= 100.0
    ensures p == PWM_NEUTRAL <==> Label(p) == Neutral
    ensures Label(p).Reverse? ==> Label(p).percent * 5.0 == (PWM_NEUTRAL - p) as real
    ensures Label(p).Forward? ==> Label(p).percent * 5.0 == (p - PWM_NEUTRAL) as real
  {
  }

  /** Every write of a single menu action lies in [1000, 2000]. */
  lemma ActionInRange(choice: string, rest: seq<string>)
    ensures AllInRange(Action(choice, rest).pulses)
  {
    TestMotorInRange();
    if choice == "3" {
      FindInRange(rest);
    } else if choice == "5" {
      var c := CalibrateEsc(rest);
      if !c.eof {
        AllInRangeConcat(c.pulses, TestMotor(c.rest).pulses);
      }
    }
  }

  /** Every calibration, test, range-finding and manual write lies in [1000, 2000]. */
  lemma {:induction false} MenuInRange(input: seq<string>)
    ensures AllInRange(MainMenu(input).pulses)
    decreases |input|
  {
    if |input| > 0 && Strip(input[0]) != "6" {
      var r := Action(Strip(input[0]), input[1..]);
      ActionInRange(Strip(input[0]), input[1..]);
      if !r.eof {
        MenuInRange(r.rest);
        AllInRangeConcat(r.pulses, MainMenu(r.rest).pulses);
      }
    }
  }

  lemma FindInRange(input: seq<string>)
    ensures AllInRange(FindThrottleRange(input).pulses)
  {
    if |input| > 0 {
      SweepsInRange();
      AskSweepInRange(FORWARD_SWEEP, input[1..]);
      var fwd := AskSweep(FORWARD_SWEEP, input[1..]);
      if !fwd.eof && |fwd.rest| > 0 {
        AskSweepInRange(REVERSE_SWEEP, fwd.rest[1..]);
      }
    }
  }

  /**
   * Whatever is typed, and however the menu ends, the script writes only [1000, 2000]
   * before its shutdown, and the shutdown is neutral then PWM off.
   */
  lemma ShutdownAlwaysLast(input: seq<string>)
    ensures var out := Utility(true, input);
      && out[|out| - 2..] == [PWM_NEUTRAL, PWM_OFF]
      && AllInRange(out[..|out| - 1])
    ensures Utility(false, input) == []
  {
    var m := MainMenu(input).pulses;
    MenuInRange(input);
    var out := Utility(true, input);
    assert out[..|out| - 1] == m + [PWM_NEUTRAL];
    AllInRangeConcat(m, [PWM_NEUTRAL]);
  }
}
