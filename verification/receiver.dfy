/**
 * The vehicle-side LoRa command receiver: `parse_command`, the `MotorController`
 * of the receiver script, and the dispatch step of its main loop that turns one
 * radio line into a motor action and an `ACK:<type>:<value>:<status>` reply.
 *
 * The actuator is the sequence of pulse widths handed to `set_pulse_width`
 * (or, past `cleanup`, straight to the PWM driver).
 */
module Receiver {
  import opened Wrappers
  import opened Text
  import opened Pwm

  /** The receiver's safety ceiling, in percent. */
  const MAX_THROTTLE_PERCENT: int := 75

  /**
   * The least magnitude of a negative throttle request for which the IEEE-754
   * double computation `PWM_NEUTRAL + (percent / 100.0) * 500` overflows (the
   * integer does not fit a double, or the product rounds to minus infinity and
   * `int()` refuses it). Python raises `OverflowError` there.
   */
  const THROTTLE_OVERFLOW: int := 0x33333333333331_00000000000000000000000000000000000000000000000000000000000000000000000000000000000000000000000000000000000000000000000000000000000000000000000000000000000000000000000000000000000000000000000000000000000000000000000000000000000000000000000000000000001

  /** `MotorController`'s state: the arming flag and the last applied throttle. */
  datatype Motor = Motor(armed: bool, throttle: int)

  /** A freshly constructed controller. */
  const INITIAL: Motor := Motor(false, 0)

  /** What one controller call does: the new state, the pulses written, and its return value. */
  datatype Effect = Effect(motor: Motor, pulses: seq<int>, success: bool)

  /** `arm()`: neutral pulse, then `armed` is set. */
  function Arm(m: Motor): Effect {
    Effect(m.(armed := true), [Clamp(PWM_NEUTRAL)], true)
  }

  /** The integer pulse `int(PWM_NEUTRAL + (percent / 100.0) * (PWM_MAX - PWM_NEUTRAL))`; exact for the values that reach it unclamped. */
  function ThrottlePulse(percent: int): int {
    PWM_NEUTRAL + percent * (PWM_MAX - PWM_NEUTRAL) / 100
  }

  /**
   * `set_throttle(percent)`. `None` is the `OverflowError` the float conversion
   * raises for astronomically negative requests.
   */
  function SetThrottle(m: Motor, percent: int): (r: Option<Effect>)
    ensures r.Some? ==> r.value.motor.armed == m.armed && AllInRange(r.value.pulses)
    ensures r.Some? ==> (r.value.success <==> m.armed)
    ensures r.Some? && r.value.success ==> r.value.motor.throttle <= MAX_THROTTLE_PERCENT
    ensures r.None? ==> m.armed && percent <= -THROTTLE_OVERFLOW
  {
    if !m.armed then Some(Effect(m, [], false))
    else
      var p := if percent > MAX_THROTTLE_PERCENT then MAX_THROTTLE_PERCENT else percent;
      if p <= -THROTTLE_OVERFLOW then None
      else Some(Effect(m.(throttle := p), [Clamp(ThrottlePulse(p))], true))
  }

  /** `stop()`: neutral pulse and zero throttle, armed or not. */
  function Stop(m: Motor): Effect {
    Effect(m.(throttle := 0), [Clamp(PWM_NEUTRAL)], true)
  }

  /** `emergency_stop()`: the program defines it apart from `stop()`, with the same body. */
  function EmergencyStop(m: Motor): Effect {
    Effect(m.(throttle := 0), [Clamp(PWM_NEUTRAL)], true)
  }

  /** `cleanup()`: only with a live pigpio connection, neutral then the raw PWM-off value. */
  function Cleanup(connected: bool): seq<int> {
    if connected then [Clamp(PWM_NEUTRAL), PWM_OFF] else []
  }

  /**
   * `parse_command(line)`: `None` is `(None, None)`; otherwise the upper-cased second
   * colon field and `int` of the third field, 0 when it is absent or not an integer.
   */
  function ParseCommand(line: string): (r: Option<(string, int)>)
    ensures r.None? <==> !StartsWith(Strip(line), "CMD:")
    ensures r.Some? ==> ':' !in r.value.0 && NoLowerAscii(r.value.0)
  {
    var t := Strip(line);
    if !StartsWith(t, "CMD:") then None
    else
      var parts := Split(t, ':');
      assert t[3] == ':';
      CountZero(t, ':');
      SplitPieces(t, ':');
      if |parts| < 2 then None
      else
        var value := if |parts| >= 3 then ParseInt(parts[2]).GetOr(0) else 0;
        Some((Upper(parts[1]), value))
  }

  /** Reply statuses the receiver can produce. */
  datatype AckStatus = AckOk | AckFail | AckUnknown

  function StatusText(s: AckStatus): string {
    match s
    case AckOk => "OK"
    case AckFail => "FAIL"
    case AckUnknown => "UNKNOWN"
  }

  datatype Ack = Ack(kind: string, value: int, status: AckStatus)

  /** The reply text, before the `"\n"` the serial write appends. */
  function FormatAck(a: Ack): string {
    "ACK:" + a.kind + ":" + IntToString(a.value) + ":" + StatusText(a.status)
  }

  function OkOrFail(success: bool): AckStatus {
    if success then AckOk else AckFail
  }

  /** One pass of the main loop over one received line. */
  datatype StepOut = StepOut(motor: Motor, pulses: seq<int>, ack: Option<Ack>)

  /**
   * The `if cmd_type == ...` chain: run the motor action for a parsed command and
   * build its reply. `ack == None` is an exception the loop swallows.
   */
  function Dispatch(m: Motor, kind: string, value: int): (r: StepOut)
    ensures AllInRange(r.pulses)
    ensures r.motor.armed == m.armed
    ensures r.ack.None? ==> r.motor == m && r.pulses == []
    ensures r.ack.Some? ==> r.ack.value.kind == kind
    ensures r.ack.Some? ==> (r.ack.value.status == AckFail <==> kind == "THROTTLE" && !m.armed)
    ensures r.motor.throttle == m.throttle || r.motor.throttle <= MAX_THROTTLE_PERCENT
  {
    if kind == "THROTTLE" then
      match SetThrottle(m, value)
      case None => StepOut(m, [], None)
      case Some(e) => StepOut(e.motor, e.pulses, Some(Ack("THROTTLE", value, OkOrFail(e.success))))
    else if kind == "STOP" then
      var e := Stop(m);
      StepOut(e.motor, e.pulses, Some(Ack("STOP", 0, OkOrFail(e.success))))
    else if kind == "ESTOP" then
      var e := EmergencyStop(m);
      StepOut(e.motor, e.pulses, Some(Ack("ESTOP", 0, OkOrFail(e.success))))
    else StepOut(m, [], Some(Ack(kind, 0, AckUnknown)))
  }

  /**
   * Strip the received line, skip it when empty or not a command (no reply),
   * otherwise dispatch it.
   */
  function Step(m: Motor, raw: string): (r: StepOut)
    ensures AllInRange(r.pulses)
    ensures r.motor.armed == m.armed
    ensures r.ack.None? ==> r.motor == m && r.pulses == []
    ensures r.ack.Some? ==> (r.ack.value.status == AckFail <==> r.ack.value.kind == "THROTTLE" && !m.armed)
    ensures r.motor.throttle == m.throttle || r.motor.throttle <= MAX_THROTTLE_PERCENT
  {
    var line := Strip(raw);
    if line == "" then StepOut(m, [], None)
    else match ParseCommand(line)
      case None => StepOut(m, [], None)
      case Some((kind, value)) => Dispatch(m, kind, value)
  }

  /** The loop over a finite stream of received lines. */
  datatype Session = Session(motor: Motor, pulses: seq<int>, acks: seq<Ack>)

  function Run(m: Motor, lines: seq<string>): (r: Session)
    ensures r.motor.armed == m.armed
    ensures |r.acks| <= |lines|
    ensures !m.armed ==> r.motor.throttle == m.throttle || r.motor.throttle == 0
    decreases |lines|
  {
    if |lines| == 0 then Session(m, [], [])
    else
      var s := Step(m, lines[0]);
      var rest := Run(s.motor, lines[1..]);
      Session(rest.motor, s.pulses + rest.pulses, (if s.ack.Some? then [s.ack.value] else []) + rest.acks)
  }

  /** How `main` finds pigpio: not installed (simulation), connected, or failing to connect. */
  datatype Pigpio = Unavailable | Connected | ConnectFailed

  datatype MainOut = MainOut(exitCode: int, pulses: seq<int>, acks: seq<Ack>)

  /**
   * `main()`: connect, open the serial port, arm, serve every line until interrupted,
   * then clean up. Startup failures return 1 before any pulse is written.
   */
  function ReceiverMain(pigpio: Pigpio, serialOpens: bool, lines: seq<string>): (r: MainOut)
    ensures r.exitCode == 0 || r.exitCode == 1
    ensures r.exitCode == 1 <==> pigpio == ConnectFailed || !serialOpens
    ensures r.exitCode == 1 ==> r.pulses == [] && r.acks == []
    ensures r.exitCode == 0 ==> |r.pulses| >= 1 && r.pulses[0] == PWM_NEUTRAL
  {
    if pigpio == ConnectFailed || !serialOpens then MainOut(1, [], [])
    else
      var armed := Arm(INITIAL);
      var session := Run(armed.motor, lines);
      MainOut(0, armed.pulses + session.pulses + Cleanup(pigpio == Connected), session.acks)
  }

  // ---------------------------------------------------------------------------
  // Parsing

  /** The line that starts with `CMD:` always has at least two colon fields, so `parse_command`'s length guard is dead. */
  lemma CommandHasTypeField(line: string)
    requires StartsWith(Strip(line), "CMD:")
    ensures |Split(Strip(line), ':')| >= 2
  {
    var t := Strip(line);
    assert t[3] == ':';
    CountZero(t, ':');
    SplitPieces(t, ':');
  }

  /** How `parse_command` reads a stripped `CMD:` line, field by field. */
  lemma ParseCommandFields(line: string)
    requires Trimmed(line) && StartsWith(line, "CMD:")
    ensures var parts := Split(line, ':');
      && |parts| >= 2
      && ParseCommand(line) == Some((Upper(parts[1]), if |parts| >= 3 then ParseInt(parts[2]).GetOr(0) else 0))
  {
    StripTrimmed(line);
    CommandHasTypeField(line);
  }

  /** A `CMD:` line whose tail has no whitespace at its end is left alone by `strip()`. */
  lemma CommandLineTrimmed(body: string)
    requires |body| > 0 && !IsSpace(body[|body| - 1])
    ensures Trimmed("CMD:" + body) && StartsWith("CMD:" + body, "CMD:")
  {
    var line := "CMD:" + body;
    assert line[0] == 'C';
    assert line[|line| - 1] == body[|body| - 1];
  }

  /** The colon fields of a `CMD:<type>:<rest>` line whose type has no colon. */
  lemma CommandHeadFields(kind: string, tail: string)
    requires ':' !in kind
    requires |tail| > 0 && !IsSpace(tail[|tail| - 1])
    ensures var line := "CMD:" + kind + ":" + tail;
      && Trimmed(line) && StartsWith(line, "CMD:")
      && |Split(line, ':')| >= 3 && Split(line, ':')[1] == kind && Split(line, ':')[2] == Split(tail, ':')[0]
  {
    var line := "CMD:" + kind + ":" + tail;
    var body := kind + [':'] + tail;
    assert line == "CMD" + [':'] + body by {
      var p := "CMD:";
      AppendAssoc(p + kind, [':'], tail);
      AppendAssoc(p, kind, [':'] + tail);
      AppendAssoc(kind, [':'], tail);
      assert p == "CMD" + [':'];
    }
    assert Trimmed(line) && StartsWith(line, "CMD:") by {
      assert line == "CMD:" + body;
      CommandLineTrimmed(body);
    }
    var parts := Split(line, ':');
    assert |parts| >= 3 && parts[1] == kind && parts[2] == Split(tail, ':')[0] by {
      SplitConcat("CMD", ':', body);
      SplitConcat(kind, ':', tail);
    }
  }

  /**
   * A `CMD:<type>:<rest>` line with a colon-free type reads as the upper-cased type
   * and `int` of the first colon field of the rest, 0 when that fails.
   */
  lemma ParseCommandHead(kind: string, tail: string)
    requires ':' !in kind
    requires |tail| > 0 && !IsSpace(tail[|tail| - 1])
    ensures ParseCommand("CMD:" + kind + ":" + tail) == Some((Upper(kind), ParseInt(Split(tail, ':')[0]).GetOr(0)))
  {
    CommandHeadFields(kind, tail);
    ParseCommandFields("CMD:" + kind + ":" + tail);
  }

  /** Round trip: the command a controller would send parses back to its type and value. */
  lemma ParseCommandRoundTrip(kind: string, value: int)
    requires ':' !in kind && NoLowerAscii(kind)
    ensures ParseCommand("CMD:" + kind + ":" + IntToString(value)) == Some((kind, value))
  {
    ParseCommandUppercasesType(kind, value);
    UpperNoLower(kind);
  }

  /** The type is upper-cased, so `CMD:throttle:5` is a THROTTLE command. */
  lemma ParseCommandUppercasesType(kind: string, value: int)
    requires ':' !in kind
    ensures ParseCommand("CMD:" + kind + ":" + IntToString(value)) == Some((Upper(kind), value))
  {
    var v := IntToString(value);
    ParseCommandHead(kind, v);
    SplitNoSep(v, ':');
    ParseIntToString(value);
  }

  /** Extra colon fields after the value are ignored. */
  lemma ParseCommandIgnoresExtraFields(kind: string, value: int, rest: string)
    requires ':' !in kind && NoLowerAscii(kind)
    requires Trimmed(rest)
    ensures ParseCommand("CMD:" + kind + ":" + IntToString(value) + ":" + rest) == Some((kind, value))
  {
    var v := IntToString(value);
    var tail := v + [':'] + rest;
    assert "CMD:" + kind + ":" + v + ":" + rest == "CMD:" + kind + ":" + tail;
    assert tail[|tail| - 1] == if |rest| > 0 then rest[|rest| - 1] else ':';
    ParseCommandHead(kind, tail);
    SplitConcat(v, ':', rest);
    UpperNoLower(kind);
    ParseIntToString(value);
  }

  /** A value field that is not an integer becomes 0. */
  lemma ParseCommandBadValue(kind: string, field: string)
    requires ':' !in kind && NoLowerAscii(kind) && ':' !in field
    requires ParseInt(field).None?
    requires |field| > 0 && !IsSpace(field[|field| - 1])
    ensures ParseCommand("CMD:" + kind + ":" + field) == Some((kind, 0))
  {
    ParseCommandHead(kind, field);
    SplitNoSep(field, ':');
    UpperNoLower(kind);
  }

  /** The `CMD:` prefix is case-sensitive: a line opening with lower-case `cmd:` is not a command. */
  lemma CommandPrefixCaseSensitive(body: string)
    ensures ParseCommand("cmd:" + body) == None
  {
    var line := "cmd:" + body;
    StripKeepsFirst(line);
  }

  /** A line with no value field, such as `CMD:THR`, is not rejected: its value is 0. */
  lemma ParseTruncatedCommand(kind: string)
    requires ':' !in kind && |kind| > 0 && !IsSpace(kind[|kind| - 1])
    ensures ParseCommand("CMD:" + kind) == Some((Upper(kind), 0))
  {
    var line := "CMD" + [':'] + kind;
    assert line == "CMD:" + kind;
    CommandLineTrimmed(kind);
    SplitConcat("CMD", ':', kind);
    SplitNoSep(kind, ':');
    ParseCommandFields(line);
  }

  // ---------------------------------------------------------------------------
  // The controller

  /** Before `arm()` a throttle request is refused: no pulse, no state change. */
  lemma ThrottleBeforeArm(m: Motor, percent: int)
    requires !m.armed
    ensures SetThrottle(m, percent) == Some(Effect(m, [], false))
  {
  }

  /** `arm()` writes neutral and sets `armed`, keeping the stored throttle. */
  lemma ArmWritesNeutral(m: Motor)
    ensures Arm(m).motor == Motor(true, m.throttle)
    ensures Arm(m).pulses == [PWM_NEUTRAL]
  {
  }

  /**
   * When armed: the request is lowered to the 75 % ceiling (never raised), stored,
   * and written as `1500 + 5·p` clamped into [1000, 2000].
   */
  lemma ThrottleWhenArmed(m: Motor, percent: int)
    requires m.armed && percent > -THROTTLE_OVERFLOW
    ensures var p := if percent > MAX_THROTTLE_PERCENT then MAX_THROTTLE_PERCENT else percent;
      SetThrottle(m, percent) == Some(Effect(Motor(true, p), [Clamp(PWM_NEUTRAL + 5 * p)], true))
  {
  }

  /** Requests between -100 and 75 are applied exactly: pulse = 1500 + 5·p, unclamped. */
  lemma ThrottlePulseExact(m: Motor, percent: int)
    requires m.armed && -100 <= percent <= MAX_THROTTLE_PERCENT
    ensures SetThrottle(m, percent).Some?
    ensures SetThrottle(m, percent).value.pulses == [PWM_NEUTRAL + 5 * percent]
    ensures SetThrottle(m, percent).value.motor.throttle == percent
  {
  }

  /** There is no lower bound: a negative request is stored as-is and the pulse saturates at 1000. */
  lemma NegativeThrottleStored(m: Motor, percent: int)
    requires m.armed && -THROTTLE_OVERFLOW < percent < -100
    ensures SetThrottle(m, percent) == Some(Effect(Motor(true, percent), [PWM_MIN], true))
  {
  }

  /** The throttle-to-pulse map never decreases. */
  lemma {:induction false} ThrottlePulseMonotone(p: int, q: int)
    requires p <= q
    ensures Clamp(ThrottlePulse(p)) <= Clamp(ThrottlePulse(q))
  {
    assert p * 500 <= q * 500;
    assert p * 500 / 100 == 5 * p;
    assert q * 500 / 100 == 5 * q;
  }

  /** `stop()` and `emergency_stop()` are the same operation: there is no latched emergency state. */
  lemma StopIsEmergencyStop(m: Motor)
    ensures Stop(m) == EmergencyStop(m)
    ensures Stop(m).motor == Motor(m.armed, 0) && Stop(m).pulses == [PWM_NEUTRAL] && Stop(m).success
  {
  }

  // ---------------------------------------------------------------------------
  // The dispatch step

  /** A line that is blank, or does not start with `CMD:` once stripped, gets no reply and changes nothing. */
  lemma NonCommandIgnored(m: Motor, raw: string)
    requires !StartsWith(Strip(raw), "CMD:")
    ensures Step(m, raw) == StepOut(m, [], None)
  {
  }

  /** A line that parses as a command is handled exactly as `Dispatch` of its parsed type and value. */
  lemma StepDispatchesParsed(m: Motor, raw: string)
    requires ParseCommand(raw).Some?
    ensures Step(m, raw) == Dispatch(m, ParseCommand(raw).value.0, ParseCommand(raw).value.1)
  {
    var t := Strip(raw);
    StripTrimmed(t);
  }

  /**
   * Every `CMD:` line is answered with exactly one ack whose kind is the parsed type,
   * except a THROTTLE request whose float conversion overflows.
   */
  lemma CommandAnswered(m: Motor, raw: string)
    requires ParseCommand(raw).Some?
    ensures var (kind, value) := ParseCommand(raw).value;
      Step(m, raw).ack.Some? <==> !(kind == "THROTTLE" && m.armed && value <= -THROTTLE_OVERFLOW)
    ensures Step(m, raw).ack.Some? ==> Step(m, raw).ack.value.kind == ParseCommand(raw).value.0
  {
    StepDispatchesParsed(m, raw);
  }

  /** The THROTTLE command line the controller sends, in its field form. */
  lemma ThrottleLine(v: string)
    ensures "CMD:THROTTLE:" + v == "CMD:" + "THROTTLE" + ":" + v
  {
    AppendAssoc("CMD:" + "THROTTLE", ":", v);
  }

  /** The THROTTLE ack echoes the requested value, not the applied one; status OK iff armed. */
  lemma ThrottleAckEchoesRequest(m: Motor, value: int)
    requires value > -THROTTLE_OVERFLOW
    ensures var r := Step(m, "CMD:THROTTLE:" + IntToString(value));
      && r.ack == Some(Ack("THROTTLE", value, if m.armed then AckOk else AckFail))
      && r.motor == SetThrottle(m, value).value.motor
      && r.pulses == SetThrottle(m, value).value.pulses
  {
    ThrottleLine(IntToString(value));
    ParseCommandRoundTrip("THROTTLE", value);
    StepDispatchesParsed(m, "CMD:THROTTLE:" + IntToString(value));
  }

  /** A request above the ceiling while armed: throttle becomes 75 and the pulse 1875, yet the ack reports the request, OK. */
  lemma ThrottleAboveCeiling(m: Motor, value: int)
    requires m.armed && value > MAX_THROTTLE_PERCENT
    ensures Step(m, "CMD:THROTTLE:" + IntToString(value))
      == StepOut(Motor(true, MAX_THROTTLE_PERCENT), [1875], Some(Ack("THROTTLE", value, AckOk)))
  {
    var r := Step(m, "CMD:THROTTLE:" + IntToString(value));
    ThrottleAckEchoesRequest(m, value);
    assert SetThrottle(m, value) == Some(Effect(Motor(true, MAX_THROTTLE_PERCENT), [1875], true)) by {
      assert Clamp(ThrottlePulse(MAX_THROTTLE_PERCENT)) == 1875;
    }
    assert r == StepOut(r.motor, r.pulses, r.ack);
  }

  /** STOP and ESTOP both write neutral, zero the throttle, keep `armed`, and ack `0:OK`, armed or not. */
  lemma StopAndEstopDispatch(m: Motor, raw: string, kind: string)
    requires ParseCommand(raw).Some? && ParseCommand(raw).value.0 == kind
    requires kind == "STOP" || kind == "ESTOP"
    ensures Step(m, raw) == StepOut(Motor(m.armed, 0), [PWM_NEUTRAL], Some(Ack(kind, 0, AckOk)))
  {
    StepDispatchesParsed(m, raw);
  }

  /** Any other type `T` gets `ACK:T:0:UNKNOWN` and no motor change. */
  lemma UnknownCommand(m: Motor, raw: string)
    requires ParseCommand(raw).Some?
    requires ParseCommand(raw).value.0 !in {"THROTTLE", "STOP", "ESTOP"}
    ensures Step(m, raw) == StepOut(m, [], Some(Ack(ParseCommand(raw).value.0, 0, AckUnknown)))
  {
    StepDispatchesParsed(m, raw);
  }

  /** A line with no value field, such as `CMD:THR`, is answered `ACK:THR:0:UNKNOWN`. */
  lemma TruncatedCommandIsUnknown(m: Motor, kind: string)
    requires ':' !in kind && |kind| > 0 && !IsSpace(kind[|kind| - 1])
    requires Upper(kind) !in {"THROTTLE", "STOP", "ESTOP"}
    ensures Step(m, "CMD:" + kind) == StepOut(m, [], Some(Ack(Upper(kind), 0, AckUnknown)))
  {
    ParseTruncatedCommand(kind);
    UnknownCommand(m, "CMD:" + kind);
  }

  /** Sending the same line twice: the second step changes nothing further and writes the same pulses. */
  lemma StepIdempotent(m: Motor, raw: string)
    ensures Step(Step(m, raw).motor, raw).motor == Step(m, raw).motor
    ensures Step(Step(m, raw).motor, raw).pulses == Step(m, raw).pulses
    ensures Step(Step(m, raw).motor, raw).ack == Step(m, raw).ack
  {
  }

  /** No status word contains a colon. */
  lemma StatusTextColonFree(st: AckStatus)
    ensures ':' !in StatusText(st)
  {
    match st
    case AckOk => assert StatusText(st) == ['O', 'K'];
    case AckFail => assert StatusText(st) == ['F', 'A', 'I', 'L'];
    case AckUnknown => assert StatusText(st) == ['U', 'N', 'K', 'N', 'O', 'W', 'N'];
  }

  /** The reply text in its field form. */
  lemma FormatAckShape(a: Ack)
    ensures FormatAck(a) == "ACK" + [':'] + (a.kind + [':'] + (IntToString(a.value) + [':'] + StatusText(a.status)))
  {
    var v := IntToString(a.value);
    var st := StatusText(a.status);
    var p := "ACK:";
    assert p == "ACK" + [':'];
    AppendAssoc(p + a.kind + [':'] + v, [':'], st);
    AppendAssoc(p + a.kind + [':'], v, [':'] + st);
    AppendAssoc(p + a.kind, [':'], v + [':'] + st);
    AppendAssoc(p, a.kind, [':'] + (v + [':'] + st));
    AppendAssoc(a.kind, [':'], v + [':'] + st);
    AppendAssoc(v, [':'], st);
  }

  /** The reply text for a parsed ack: its colon fields are the kind, the value and the status. */
  lemma FormatAckFields(a: Ack)
    requires ':' !in a.kind
    ensures Split(FormatAck(a), ':') == ["ACK", a.kind, IntToString(a.value), StatusText(a.status)]
    ensures ParseInt(Split(FormatAck(a), ':')[2]) == Some(a.value)
  {
    var v := IntToString(a.value);
    var st := StatusText(a.status);
    FormatAckShape(a);
    StatusTextColonFree(a.status);
    SplitConcat("ACK", ':', a.kind + [':'] + (v + [':'] + st));
    SplitConcat(a.kind, ':', v + [':'] + st);
    SplitConcat(v, ':', st);
    SplitNoSep(st, ':');
    ParseIntToString(a.value);
  }

  // ---------------------------------------------------------------------------
  // Sessions

  /** Over any stream of lines the loop only ever hands [1000, 2000] to the actuator and never changes `armed`. */
  lemma {:induction false} RunPulsesInRange(m: Motor, lines: seq<string>)
    ensures AllInRange(Run(m, lines).pulses)
    ensures Run(m, lines).motor.armed == m.armed
    decreases |lines|
  {
    if |lines| > 0 {
      var s := Step(m, lines[0]);
      RunPulsesInRange(s.motor, lines[1..]);
      AllInRangeConcat(s.pulses, Run(s.motor, lines[1..]).pulses);
    }
  }

  /** While armed, no reply ever carries FAIL. */
  lemma {:induction false} ArmedRunNeverFails(m: Motor, lines: seq<string>)
    requires m.armed
    ensures forall i :: 0 <= i < |Run(m, lines).acks| ==> Run(m, lines).acks[i].status != AckFail
    decreases |lines|
  {
    if |lines| > 0 {
      var s := Step(m, lines[0]);
      ArmedRunNeverFails(s.motor, lines[1..]);
    }
  }

  /**
   * `main()` on a successful start: arming neutral first, then only in-range pulses
   * (and, with pigpio connected, a closing neutral and PWM-off); since `main` arms
   * before listening, FAIL is never sent.
   */
  lemma ReceiverMainTrace(pigpio: Pigpio, lines: seq<string>)
    requires pigpio != ConnectFailed
    ensures var out := ReceiverMain(pigpio, true, lines);
      && out.exitCode == 0
      && out.pulses[0] == PWM_NEUTRAL
      && (pigpio == Connected ==> out.pulses[|out.pulses| - 2..] == [PWM_NEUTRAL, PWM_OFF]
                                  && AllInRange(out.pulses[..|out.pulses| - 1]))
      && (pigpio == Unavailable ==> AllInRange(out.pulses))
      && forall i :: 0 <= i < |out.acks| ==> out.acks[i].status != AckFail
  {
    var armed := Arm(INITIAL);
    var session := Run(armed.motor, lines);
    RunPulsesInRange(armed.motor, lines);
    ArmedRunNeverFails(armed.motor, lines);
    var out := ReceiverMain(pigpio, true, lines);
    AllInRangeConcat(armed.pulses, session.pulses);
    if pigpio == Connected {
      assert out.pulses[..|out.pulses| - 1] == armed.pulses + session.pulses + [PWM_NEUTRAL];
      AllInRangeConcat(armed.pulses + session.pulses, [PWM_NEUTRAL]);
    }
  }

  /** A startup failure exits with 1 and never touches the motor. */
  lemma ReceiverMainStartupFailure(pigpio: Pigpio, serialOpens: bool, lines: seq<string>)
    requires pigpio == ConnectFailed || !serialOpens
    ensures ReceiverMain(pigpio, serialOpens, lines) == MainOut(1, [], [])
  {
  }

  /** An astronomically negative THROTTLE while armed raises inside the step: no reply, nothing written. */
  lemma OverflowingThrottleSwallowed(m: Motor, value: int)
    requires m.armed && value <= -THROTTLE_OVERFLOW
    ensures Step(m, "CMD:THROTTLE:" + IntToString(value)) == StepOut(m, [], None)
  {
    ThrottleLine(IntToString(value));
    ParseCommandRoundTrip("THROTTLE", value);
    StepDispatchesParsed(m, "CMD:THROTTLE:" + IntToString(value));
  }
}
