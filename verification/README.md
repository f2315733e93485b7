# TRITON motor-command and telemetry core in Dafny

TRITON is a small submarine. The vehicle runs a LoRa command receiver. It turns radio lines
`CMD:<type>:<value>` into pulse widths for an electronic speed controller (ESC) and answers each
command with `ACK:<type>:<value>:<status>`. The ground station reads CSV telemetry lines from
the radio. It keeps running statistics, filters readings against per-channel thresholds and posts
them to a Flask dashboard. This project models the pure logic of these parts:

- `receiver.dfy` (`Receiver`): `parse_command`, the receiver's `MotorController`, and one
  main-loop step of `pi_motor_receiver.py`. The step maps a motor state and a received line to
  the new state, the pulses written and the optional ack. `main` is modelled as arm, serve,
  clean up.
- `signed_motor.dfy` (`SignedMotor`): the signed ±50 % controller of `motor_control.py` and its
  interactive prompt.
- `esc.dfy` (`Esc`): the 0–100 % controller of `esc_control.py`, with auto-arming, calibration,
  brake, the interactive input filter and the fixed test sequence.
- `calibration.dfy` (`Calibration`): `ramp_to` of `ESC_Calibration_Test.py` as a method with loop
  invariants. Also the calibration utility's menus. Each menu consumes a list of typed lines and
  produces the pulses written.
- `telemetry.dfy` (`Telemetry`): the live loop of `lorareceivertest.py`. It covers the
  field-count filter, the min/max/sum/count statistics, the per-channel last-sent threshold
  filter and the dashboard payload. The loop is modelled twice: as the program runs it
  (`ProcessLineAsWritten`, `ListenAsWritten`), and with the statistics step corrected as described
  under "## Findings" (`ProcessLine`, `Listen`).
- `dashboard.dfy` (`Dashboard`) and `app_history.dfy` (`AppHistory`): the `update()` handlers of
  `web_server.py` and `app.py`. `json.dfy` (`Json`) models the decoded request body.
- `mpu6050.dfy` (`Mpu6050`): the two's-complement `read_word`, the slot layout of `getData`, the
  legacy 14-byte burst decode and the legacy `init` register writes.
- `stopwatch.dfy` (`Stopwatch`): `legacy/Stopwatch.py` over an explicit clock reading.
- Shared pieces:
  - `pwm.dfy` (`Pwm`): the pulse constants 1000/1500/2000, the clamp and `int()` truncation of a
    real.
  - `text.dfy` (`Text`): Python's `strip`, `split`, `upper`, `lower`, `isdigit`, `int()` and
    `str()` on strings.
  - `wrappers.dfy` (`Wrappers`): `Option` and `Result`.
  - `real_arith.dfy` (`RealArith`): `abs`, and the bracketing facts about running minimum, maximum,
    sum and mean that the telemetry and dashboard statistics share.

The actuator is the sequence of pulse widths passed to the PWM driver. Interactive `input()`
becomes a list of lines. When that list runs out, the model behaves as the scripts do on
`EOFError`. Python's `float()` on text is a parameter `parse: string -> Option<real>`, and
readings are `real`.

Modelled behaviour that may be unexpected:
- The THROTTLE ack echoes the requested value, not the clamped one.
- `emergency_stop` is the same as `stop`.
- `CMD:THR` parses to `("THR", 0)` and is answered `UNKNOWN`.
- Telemetry baselines are kept per channel.
- `motor_control.py` maps whole percentages symmetrically about 1500 µs, but not fractional
  ones: `int()` truncates toward zero, so 0.1 % writes 1500 and −0.1 % writes 1499
  (`SignedMotor.FractionalAsymmetric`).
- `web_server.py` appends a numeric `Elapsed [s]` to its history twice per update.
- The receiver's `set_throttle` has no lower bound. A negative request is stored as it is, and
  the clamp turns it into a 1000 µs pulse. For astronomically negative requests
  (`Receiver.THROTTLE_OVERFLOW`), the double arithmetic overflows. The loop's `except Exception`
  then swallows the error without an ack.

## Model

| member | source | states |
|---|---|---|
| Receiver.ParseCommand | src/pi_motor_receiver.py:165-190 | a line yields no command exactly when, after stripping, it does not start with `CMD:`; a parsed type never contains `:` or a lower-case ASCII letter |
| Receiver.ParseCommandFields | src/pi_motor_receiver.py:177-190 | for a stripped `CMD:` line, the type is the upper-cased second colon field and the value is `int` of the third field, or 0 when it is absent or not an integer |
| Receiver.CommandHasTypeField | src/pi_motor_receiver.py:177-179 | every line that starts with `CMD:` has at least two colon fields, so the `len(parts) < 2` guard never fires |
| Receiver.ParseCommandRoundTrip | src/pi_motor_receiver.py:165-190 | `parse_command("CMD:" + T + ":" + str(v)) == (T, v)` for every upper-case type T without `:` and every integer v |
| Receiver.ParseCommandUppercasesType | src/pi_motor_receiver.py:181 | a type typed in any case comes back upper-cased, with the value intact |
| Receiver.ParseCommandIgnoresExtraFields | src/pi_motor_receiver.py:177-190 | fields after the value do not change the parsed pair |
| Receiver.ParseCommandBadValue | src/pi_motor_receiver.py:184-188 | a value field that `int()` rejects gives value 0 |
| Receiver.CommandPrefixCaseSensitive | src/pi_motor_receiver.py:174-175 | the `CMD:` prefix is case-sensitive: a `cmd:` line is not a command |
| Receiver.ParseTruncatedCommand | src/pi_motor_receiver.py:177-190 | `CMD:<type>` with no value field parses to the upper-cased type and 0 |
| Receiver.SetThrottle | src/pi_motor_receiver.py:119-136 | the result succeeds iff the controller is armed; arming is never changed; pulses lie in [1000, 2000]; a successful throttle stays at most 75; the computation fails only for an armed controller and a request at or below the overflow bound |
| Receiver.ThrottleBeforeArm | src/pi_motor_receiver.py:119-123 | before arming, `set_throttle` returns False, writes nothing and keeps the state |
| Receiver.ArmWritesNeutral | src/pi_motor_receiver.py:102-108 | `arm()` writes 1500 and sets `armed`, keeping the throttle |
| Receiver.ThrottleWhenArmed | src/pi_motor_receiver.py:125-136 | when armed, requests above 75 become 75; the written pulse is the clamp of 1500 + 5·p and the stored throttle is that p |
| Receiver.ThrottlePulseExact | src/pi_motor_receiver.py:131-134 | for −100 ≤ p ≤ 75 the pulse is exactly 1500 + 5·p and the throttle becomes p |
| Receiver.NegativeThrottleStored | src/pi_motor_receiver.py:125-134 | with no lower bound, a request below −100 is stored as it is and clamps to a 1000 µs pulse |
| Receiver.ThrottlePulseMonotone | src/pi_motor_receiver.py:110-133 | the written pulse never decreases as the request grows |
| Receiver.StopIsEmergencyStop | src/pi_motor_receiver.py:138-150 | `stop` and `emergency_stop` are identical: 1500 written, throttle 0, success, arming unchanged |
| Receiver.Dispatch | src/pi_motor_receiver.py:251-265 | every pulse is in range; arming is unchanged; the ack names the dispatched type; the status is FAIL exactly for THROTTLE on an unarmed controller; no ack means nothing changed |
| Receiver.Step | src/pi_motor_receiver.py:233-274 | one received line keeps every pulse in range and arming unchanged; no ack means nothing happened; FAIL exactly for an unarmed THROTTLE |
| Receiver.NonCommandIgnored | src/pi_motor_receiver.py:233-245 | empty lines and lines that are not commands produce no pulse, no ack and no state change |
| Receiver.StepDispatchesParsed | src/pi_motor_receiver.py:241-265 | a parsed line is dispatched on exactly the parsed type and value |
| Receiver.CommandAnswered | src/pi_motor_receiver.py:247-274 | a parsed command is answered unless the throttle computation overflows; the ack carries the parsed type |
| Receiver.ThrottleAckEchoesRequest | src/pi_motor_receiver.py:251-253 | the THROTTLE ack carries the requested value, OK iff armed, and the state and pulses are those of `set_throttle` |
| Receiver.ThrottleAboveCeiling | src/pi_motor_receiver.py:251-253 | armed, `CMD:THROTTLE:v` for v > 75 stores 75 and writes 1875 but acks `v` with OK |
| Receiver.StopAndEstopDispatch | src/pi_motor_receiver.py:255-261 | STOP and ESTOP both write 1500, zero the throttle, keep arming, and ack `…:0:OK` |
| Receiver.UnknownCommand | src/pi_motor_receiver.py:263-265 | any other type is acked `ACK:T:0:UNKNOWN` without touching the motor |
| Receiver.TruncatedCommandIsUnknown | src/pi_motor_receiver.py:263-265 | `CMD:THR` and every other truncated type is answered `UNKNOWN` with value 0 |
| Receiver.StepIdempotent | src/pi_motor_receiver.py:119-150 | handling the same line a second time writes the same pulses, gives the same ack and leaves the state as the first time |
| Receiver.FormatAckFields | src/pi_motor_receiver.py:253-265 | the ack text splits back into `ACK`, the type, the value and the status, and its value field parses back to the value |
| Receiver.RunPulsesInRange | src/pi_motor_receiver.py:229-276 | every pulse a session of the loop writes lies in [1000, 2000], and arming never changes |
| Receiver.ArmedRunNeverFails | src/pi_motor_receiver.py:251-253 | once armed, no ack of a session is FAIL |
| Receiver.Run | src/pi_motor_receiver.py:229-276 | the loop over received lines never changes arming, sends at most one ack per line, and while unarmed the stored throttle only ever changes to 0 |
| Receiver.ReceiverMain | src/pi_motor_receiver.py:204-286 | `main` returns 1 exactly when pigpio fails to connect or the serial port fails to open, and then writes and acks nothing; otherwise it returns 0 and its first write is the 1500 of arming |
| Receiver.ReceiverMainTrace | src/pi_motor_receiver.py:204-286 | after a successful start-up, `main` writes 1500 first; with pigpio it ends with 1500 then 0; every other pulse is in range; no ack is FAIL; it returns 0 |
| Receiver.ReceiverMainStartupFailure | src/pi_motor_receiver.py:207-220 | a failed pigpio connection or serial port returns 1 before any pulse or ack |
| Receiver.OverflowingThrottleSwallowed | src/pi_motor_receiver.py:273-274 | an armed THROTTLE request at or below the overflow bound raises inside the loop and is swallowed: no pulse, no ack, no change |
| SignedMotor.SetPulseWidth | src/motor_control.py:102-106 | one pulse is written, always in [1000, 2000], equal to the input iff the input is in range |
| SignedMotor.Limit | src/motor_control.py:120-122 | requests with magnitude above 50 become ±50 with the same sign; others are unchanged |
| SignedMotor.SetThrottle | src/motor_control.py:108-132 | nothing is written iff unarmed; when armed exactly one pulse in [1250, 1750] is written |
| SignedMotor.ThrottleBeforeArm | src/motor_control.py:115-117 | `set_throttle` before `arm()` writes nothing |
| SignedMotor.ThrottlePulseBounds | src/motor_control.py:124-131 | every limited request maps to a pulse in [1250, 1750] |
| SignedMotor.ThrottlePulseWhole | src/motor_control.py:126-131 | for integer p in [−50, 50] the pulse is 1500 + 5·p on both sides of neutral |
| SignedMotor.ThrottlePulseMonotone | src/motor_control.py:126-131 | the throttle-to-pulse map is monotone |
| SignedMotor.ThrottlePulseSymmetric | src/motor_control.py:126-129 | for integer p in [−50, 50], pulse(−p) − 1500 = −(pulse(p) − 1500) |
| SignedMotor.FractionalAsymmetric | src/motor_control.py:126-131 | for fractional requests the map is not symmetric: in exact reals, every p strictly between 0 and 0.2 writes 1500 while −p writes 1499, since `int()` truncates toward zero (double rounding near both ends of that range is left out) |
| SignedMotor.ThrottleLimited | src/motor_control.py:120-131 | an over-limit request writes 1750 or 1250 by its sign |
| SignedMotor.StopAndArm | src/motor_control.py:134-137 | `stop` writes 1500 and keeps arming; `arm` writes 1500 and sets it |
| SignedMotor.ThrottleAllBounds | src/motor_control.py:184-186 | a series of throttle calls writes one in-band pulse per call |
| SignedMotor.TestSequencePulses | src/motor_control.py:181-188 | the `t` command writes 1550, 1600, 1650, 1600, 1550, 1500 and then 1500 |
| SignedMotor.Execute | src/motor_control.py:175-194 | every command keeps pulses in range and never disarms |
| SignedMotor.LoopPulsesInRange | src/motor_control.py:171-197 | every pulse of the prompt loop is in range and an armed controller stays armed |
| SignedMotor.Loop | src/motor_control.py:169-197 | the prompt loop never disarms, and a controller that stays unarmed only ever writes the 1500 of `stop` |
| SignedMotor.InteractiveTrace | src/motor_control.py:150-203 | connected, the session starts with the 1500 of `arm`, ends with 1500 then 0, and writes only in-range pulses before the 0; unconnected, it writes nothing |
| Esc.ArmedNeedsNoArming | src/esc_control.py:35-87 | `arm` sets the flag `set_throttle` checks, so a throttle call after it writes only its own pulse 1000 + 10·clamp(p), with no arming pulse first |
| Esc.ClampPercent | src/esc_control.py:81 | the percentage is clamped into [0, 100] |
| Esc.SetThrottle | src/esc_control.py:69-88 | the controller ends armed; an unarmed one is armed first (1000 written before the throttle); every pulse is in range |
| Esc.PercentPulseExact | src/esc_control.py:83-87 | the pulse is exactly 1000 + 10·p, so 0 % is 1000, not neutral |
| Esc.PercentPulseStrictlyIncreasing | src/esc_control.py:84-85 | a higher percentage always gives a longer pulse |
| Esc.SetThrottleWrites | src/esc_control.py:76-87 | the writes are `[1000]` when unarmed, followed by 1000 + 10·clamp(p); it never refuses |
| Esc.SetPulse | src/esc_control.py:90-99 | one pulse is written, in range, equal to the input iff the input is in range |
| Esc.CalibratedNeedsNoArming | src/esc_control.py:43-87 | `calibrate` also counts as arming, so a throttle call after it writes only its own pulse, with no arming pulse first |
| Esc.OnlyBrakeAndCleanupLeaveRange | src/esc_control.py:101-115 | `stop`, `arm` and `calibrate` write in range; `brake` and `cleanup` write 0, the only out-of-range value |
| Esc.ReadCommand | src/esc_control.py:184-203 | a line yields a number exactly when, stripped and lower-cased, it is all ASCII digits, and the number is `int` of those digits; it becomes a throttle command iff it is in 0..100, and a rejected number is above 100 |
| Esc.ReadPercent | src/esc_control.py:196-199 | every decimal numeral 0..100 is read as that throttle |
| Esc.SignedInputRejected | src/esc_control.py:196-203 | input that does not start with a digit, such as `-5` or `+5`, never reaches `set_throttle` |
| Esc.LoopWrites | src/esc_control.py:182-203 | every pulse of the prompt loop is in range or the 0 of `brake` |
| Esc.Loop | src/esc_control.py:182-203 | the prompt loop never disarms, and writes at most two pulses per line read |
| Esc.InteractiveControl | src/esc_control.py:166-209 | without a pigpio connection nothing is written; with one the session has at least the two `finally` writes and ends with the 0 of `cleanup` |
| Esc.InteractiveEnds | src/esc_control.py:207-209 | the interactive session always ends with `stop` then `cleanup`: 1000 then 0 |
| Esc.TestEscPulses | src/esc_control.py:118-163 | the test writes 1000, 1100, 1200, 1300, 1000, then 1000 and 0; unconnected it writes nothing |
| Esc.TestEsc | src/esc_control.py:118-163 | unconnected the test writes nothing; connected it writes seven pulses, starting with the 1000 of arming and ending with the 0 of `cleanup` |
| Calibration.RampTo | src/ESC_Calibration_Test.py:70-86 | `ramp_to` writes ⌊\|end−start\|/5⌋+1 loop pulses and then `end`. The first write is `start` and the last is `end`. Loop writes lie between start and end, and consecutive loop writes differ by +5 upward or −5 otherwise. The result equals the closed form |
| Calibration.RampSpecShape | src/ESC_Calibration_Test.py:74-86 | the closed form has ⌊\|end−start\|/5⌋+2 entries, starts at `start` and ends at `end` |
| Calibration.RampSpecBetween | src/ESC_Calibration_Test.py:80 | every entry of the closed form lies between start and end |
| Calibration.RampSpecSteps | src/ESC_Calibration_Test.py:74-83 | consecutive loop entries differ by exactly the ±5 step |
| Calibration.RampEqualEnds | src/ESC_Calibration_Test.py:74-86 | equal start and end give exactly `[start, end]` |
| Calibration.RampInRange | src/ESC_Calibration_Test.py:70-86 | a ramp between in-range pulses stays in range |
| Calibration.TestMotorInRange | src/ESC_Calibration_Test.py:193-238 | the motor test's ramps start and end at neutral and stay in range |
| Calibration.CalibrateEsc | src/ESC_Calibration_Test.py:31-67 | the calibration reads lines only from the front of the typed input (what it leaves is a suffix of it), and reads all of it when input runs out |
| Calibration.TestMotor | src/ESC_Calibration_Test.py:179-239 | the motor test reads lines only from the front of the typed input, and reads all of it when input runs out |
| Calibration.AskSweepInRange | src/ESC_Calibration_Test.py:113-123 | a prompted sweep writes only pulses of its in-range schedule |
| Calibration.SweepsInRange | src/ESC_Calibration_Test.py:147-157 | the forward sweep runs 1500 to 2000 and the reverse sweep 1500 to 1000, 21 steps each, all in range |
| Calibration.FindInRange | src/ESC_Calibration_Test.py:89-176 | `find_throttle_range` writes only in-range pulses |
| Calibration.FindThrottleRange | src/ESC_Calibration_Test.py:89-176 | the range finder writes nothing iff there is no input at all, otherwise starts with 1500, and reads lines only from the front of the input |
| Calibration.ReadEntry | src/ESC_Calibration_Test.py:257-273 | an accepted manual entry is always in [1000, 2000] |
| Calibration.ManualAcceptsRange | src/ESC_Calibration_Test.py:261-263 | an integer entry is written iff it lies in [1000, 2000] |
| Calibration.ManualLoop | src/ESC_Calibration_Test.py:254-275 | the manual loop reads lines only from the front of the input, reads all of it when input runs out, and writes only in-range pulses |
| Calibration.ManualControl | src/ESC_Calibration_Test.py:242-275 | manual control writes 1500 first and only in-range pulses after it, reading lines only from the front of the input |
| Calibration.LabelPercent | src/ESC_Calibration_Test.py:264-271 | below 1500 is reverse at (1500−p)/5 %, above is forward at (p−1500)/5 %, exactly 1500 is neutral |
| Calibration.ActionInRange | src/ESC_Calibration_Test.py:298-315 | every menu choice writes only in-range pulses |
| Calibration.MenuInRange | src/ESC_Calibration_Test.py:282-315 | the whole menu loop writes only in-range pulses |
| Calibration.MainMenu | src/ESC_Calibration_Test.py:282-315 | the menu reads lines only from the front of its input, reads all of it when input runs out, and reads at least one line otherwise |
| Calibration.ShutdownAlwaysLast | src/ESC_Calibration_Test.py:320-338 | with pigpio connected, the utility always ends with 1500 then 0, with only in-range pulses before; without it, nothing is written |
| Telemetry.ConsideredHasChannels | src/lorareceivertest.py:403-411 | a considered line (non-empty, at least 12 commas) has at least 12 values after the timestamp |
| Telemetry.ElapsedThresholdZero | src/lorareceivertest.py:340-360 | `Elapsed [s]` is the first label and has no threshold entry, so its threshold is 0 |
| Telemetry.Include | src/lorareceivertest.py:416-418 | the new minimum is the old one or the value, whichever is lower, and likewise the maximum; the value lies between them; the sum grows by the value |
| Telemetry.UpdateAsWritten | src/lorareceivertest.py:413-421 | the statistics step the program runs keeps the channel count, and the line count rises by one exactly when the loop over the values completes |
| Telemetry.AsWrittenAcceptsFullLines | src/lorareceivertest.py:413-421 | with at least 12 values, the loop completes iff the line has exactly 12 values and all parse; the count matches the corrected update |
| Telemetry.AbandonedAtSecond | src/lorareceivertest.py:414-421 | when the second value fails to parse, channel 0 has already been updated but the count has not |
| Telemetry.PartialUpdateBreaksAverage | src/lorareceivertest.py:413-421 | as written, an abandoned line followed by one good line reports channel 0 with average 1001 above its maximum 1000 |
| Telemetry.AsWrittenAgreesOnFullLines | src/lorareceivertest.py:413-421 | on lines with exactly 12 parseable values the corrected update equals the code as written |
| Telemetry.UpdateAsWrittenBrackets | src/lorareceivertest.py:413-421 | the program's statistics step never raises a minimum or lowers a maximum, even for a rejected line; an accepted line has at most 12 values, all parsed, each between its channel's minimum and maximum |
| Telemetry.UpdateStats | src/lorareceivertest.py:413-421 | the corrected statistics step (see Findings) accepts a line iff it has exactly 12 values that all parse; accepted lines add one to the count; rejected lines change nothing |
| Telemetry.UpdateBrackets | src/lorareceivertest.py:414-417 | for the corrected statistics step: after an accepted line min ≤ value ≤ max on every channel; min never increases and max never decreases |
| Telemetry.UpdatePreservesConsistent | src/lorareceivertest.py:394-421 | the corrected statistics step keeps the statistics invariant: with count 0 every channel is at its initial values, and with a positive count min and max are set and min·count ≤ sum ≤ max·count |
| Telemetry.AverageBetween | src/lorareceivertest.py:458 | for consistent statistics the reported average lies between min and max |
| Telemetry.FilterChannel | src/lorareceivertest.py:437-448 | a channel that triggers sends its raw text and takes the new value as baseline; one that does not keeps its baseline |
| Telemetry.FilterWithinThreshold | src/lorareceivertest.py:439-446 | the baseline is replaced iff there is none or \|new − last\| ≥ threshold; otherwise the stored baseline is sent again |
| Telemetry.BaselineExample | src/lorareceivertest.py:439-446 | with threshold 0.25, readings 20.0, 20.1, 20.3 leave the baseline at 20.0, 20.0, 20.3 |
| Telemetry.BaselinesPerChannel | src/lorareceivertest.py:436-448 | each channel's payload entry and baseline depend only on that channel's own reading and baseline |
| Telemetry.FilterLine | src/lorareceivertest.py:434-450 | each channel either keeps its baseline or sends its own raw text; a held value is the channel's stored baseline; when nothing triggers, no baseline moves |
| Telemetry.ElapsedAlwaysTriggers | src/lorareceivertest.py:441-450 | the elapsed channel always triggers, so every accepted line is sent |
| Telemetry.Forward | src/lorareceivertest.py:434-460 | a line past the statistics step keeps those statistics, is posted iff some channel triggers, and the post reports every channel's min, max and sum / count |
| Telemetry.ProcessLineAsWritten | src/lorareceivertest.py:400-463 | the loop body as the program runs it: the count rises by at most one, and a line that is not posted leaves the baselines alone |
| Telemetry.ProcessLine | src/lorareceivertest.py:400-463 | the corrected loop body: a line that does not raise the count changes nothing and is not posted |
| Telemetry.ProcessAsWrittenCounts | src/lorareceivertest.py:403-450 | in the program's loop body the count rises by one iff the line is counted (considered, exactly 12 values, all parse), and exactly those lines are posted |
| Telemetry.ProcessAgrees | src/lorareceivertest.py:400-463 | the program's loop body and the corrected one post the same payloads, count alike and move the baselines alike; they are identical on every line that is counted or not considered |
| Telemetry.ListenAsWritten | src/lorareceivertest.py:400-463 | the program's loop over a stream of lines posts at most once per line and counts at most once per line |
| Telemetry.ListenAsWrittenCounts | src/lorareceivertest.py:400-463 | over a session of the program's loop, `count_data` equals the number of counted lines, and each gives exactly one post |
| Telemetry.Listen | src/lorareceivertest.py:400-463 | the corrected loop over a stream of lines keeps the receiver invariant and posts at most once per line |
| Telemetry.ListenAgrees | src/lorareceivertest.py:400-463 | on a stream in which every line is either counted or not considered, the program's loop and the corrected loop are the same |
| Telemetry.ListenAsWrittenBreaksAverage | src/lorareceivertest.py:400-463 | the program's loop, fed the half-readable line 1000, x, …, x and then a line of twelve 1s, posts once, with channel 0 at maximum 1000 and average 1001 |
| Telemetry.ProcessPreservesValid | src/lorareceivertest.py:400-463 | the corrected loop body (see Findings) preserves the receiver invariant |
| Telemetry.ProcessCounts | src/lorareceivertest.py:403-450 | for the corrected loop body, a line raises the count by one iff it is counted, and exactly counted lines produce a post |
| Telemetry.ListenCounts | src/lorareceivertest.py:400-463 | over a session of the corrected loop, `count_data` equals the number of fully parsed lines, one post each |
| Telemetry.ProcessPostOrdered | src/lorareceivertest.py:452-460 | every payload the corrected loop body posts has min ≤ avg ≤ max on each channel |
| Telemetry.ListenPostsOrdered | src/lorareceivertest.py:400-463 | every payload a session of the corrected loop posts has min ≤ avg ≤ max on each channel |
| Json.Get | src/web_server.py:145 | a lookup misses iff the key is absent |
| Json.GetFindsLast | src/web_server.py:165 | a lookup returns the value of the last occurrence of the key, as a decoded JSON dictionary does |
| Json.SetGet | src/web_server.py:147 | after assigning a key, reading it returns the new value and reading another key is unaffected |
| Json.ToFloat | src/web_server.py:151 | `float()` of a number is that number; of null, a list or a dictionary it raises |
| Dashboard.PushIsWindow | src/web_server.py:152 | appending to the bounded history is keeping the last 300 of the history plus the value |
| Dashboard.PushAllIsWindow | src/web_server.py:152 | any series of appends keeps the last 300 values of the whole series |
| Dashboard.WindowAppend | src/web_server.py:131 | trimming before appending more gives the same window as trimming afterwards |
| Dashboard.Include | src/web_server.py:153-160 | a first value sets min = max = avg to it; a later one adds to the sum and count, makes the minimum the old one or the value, whichever is lower (likewise the maximum), and sets avg = sum / count |
| Dashboard.IncludeConsistent | src/web_server.py:153-160 | updating a key's statistics preserves count ≥ 1, min·count ≤ sum ≤ max·count and avg = sum/count |
| Dashboard.AverageBetween | src/web_server.py:156-160 | min ≤ avg ≤ max for every key with statistics |
| Dashboard.RecordAllValid | src/web_server.py:149-162 | the field loop preserves the dashboard invariant |
| Dashboard.RecordAllAt | src/web_server.py:149-162 | a key's history and statistics change exactly as one recording of its numeric value; a non-numeric or absent value leaves them untouched |
| Dashboard.RecordAllUntouched | src/web_server.py:149-162 | keys not in the payload keep their history and statistics |
| Dashboard.UpdateValid | src/web_server.py:140-170 | an update preserves the invariant, so min ≤ avg ≤ max holds for every key afterwards |
| Dashboard.UpdateKey | src/web_server.py:143-162 | for every key other than `Elapsed [s]`, an update records the value iff it converts to a float and leaves the key untouched otherwise |
| Dashboard.ElapsedAppends | src/web_server.py:149-168 | `Elapsed [s]` gets 0 appended when absent, its numeric value appended twice when present, and nothing when it does not convert |
| Dashboard.AppendElapsedHistory | src/web_server.py:164-168 | the post-loop step appends the elapsed reading, or 0 when absent, to that key's history only |
| Dashboard.LatestStamped | src/web_server.py:143-147 | the stored payload is the request with `timestamp` set to the server time; a payload that is not a dictionary fails with the server error |
| Dashboard.BadDataFails | src/web_server.py:145-149 | a `data` entry that is not a dictionary fails before any history or statistics change |
| Dashboard.Record | src/web_server.py:149-160 | recording a value appends it to the key's history, keeping the last 300, and counts it in the key's statistics; every other key and the latest payload are untouched |
| Dashboard.Update | src/web_server.py:140-170 | the reply is ok iff the payload and its `data` are dictionaries; a dictionary payload is stored with `timestamp` set to the server time; anything else is stored as it is and nothing else changes |
| AppHistory.InitialValid | src/app.py:100-108 | the initial history has the 12 fixed keys with equal-length lists |
| AppHistory.Update | src/app.py:115-131 | `latest_data` is always replaced and the key set never changes |
| AppHistory.UpdateValid | src/app.py:115-131 | every update preserves the fixed key set and equal list lengths |
| AppHistory.UpdateAppendsOne | src/app.py:121-129 | a successful update appends exactly one entry to every list: the converted reading, or None for a missing or non-numeric channel |
| AppHistory.UpdateFailsWithoutElapsed | src/app.py:119-122 | a missing or non-numeric `Elapsed [s]` raises before any append, after `latest_data` is replaced |
| AppHistory.IgnoresExtraKeys | src/app.py:124-127 | payload keys outside the history do not affect the update |
| Mpu6050.ReadWord | src/mpu6050sensor.py:29-37 | the word lies in [−32768, 32767], is negative iff the high byte is at least 0x80, and recovers high·256 + low modulo 65536 |
| Mpu6050.ReadWordTwosComplement | src/mpu6050sensor.py:32-37 | values from 0x8000 up map to value − 65536, others are unchanged |
| Mpu6050.ReadWordInjective | src/mpu6050sensor.py:32-37 | distinct byte pairs decode to distinct words |
| Mpu6050.EncodeReadWord | src/mpu6050sensor.py:29-37 | splitting a decoded word into bytes gives back the bytes read |
| Mpu6050.ReadWordEncode | src/mpu6050sensor.py:29-37 | every signed 16-bit word is decoded from its own byte pair |
| Mpu6050.Encode | src/mpu6050sensor.py:29-37 | a word splits into a high byte that is at least 0x80 iff the word is negative, and a byte pair that reads as the word plus 65536 when negative |
| Mpu6050.Fill | src/mpu6050sensor.py:81-89 | `getData` writes exactly slots offset+0..6 and leaves the rest of the list alone |
| Mpu6050.Slots | src/mpu6050sensor.py:81-89 | `getData` reads seven words, each a signed 16-bit value |
| Mpu6050.Unpack | src/legacy/mpu6050sensor.py:138-141 | `struct.unpack(">hhhhhhh", …)` succeeds iff there are exactly 14 bytes, giving 7 words |
| Mpu6050.ReadWordIsInt16BE | src/legacy/mpu6050sensor.py:46-54 | `read_word` decodes a byte pair exactly as a big-endian signed short |
| Mpu6050.LegacySlotsMatch | src/legacy/mpu6050sensor.py:138-149 | the legacy burst, reordered gyro first, fills the same slots as the register-by-register `getData` of src/mpu6050sensor.py:83-89 |
| Mpu6050.LegacySlots | src/legacy/mpu6050sensor.py:138-149 | the legacy burst decode succeeds iff there are 14 bytes; it gives seven signed 16-bit words, gyro x from bytes 8–9 first, accel x from bytes 0–1 fourth and the temperature from bytes 6–7 last |
| Mpu6050.LegacyInit | src/legacy/mpu6050sensor.py:75-130 | `init` makes a prefix of its five register writes; the sensor stays present iff every bus operation succeeds |
| Mpu6050.LegacyInitSequence | src/legacy/mpu6050sensor.py:97-110 | the writes are PWR_MGMT_1←0x80, SIGNAL_PATH_RESET←0x07, PWR_MGMT_1←0, GYRO_CONFIG←0, ACCEL_CONFIG←0 |
| Mpu6050.ConfigCodes | src/legacy/mpu6050sensor.py:26-34 | gyro and accel configuration codes are k·8 for selector k = 0..3 |
| Stopwatch.Start | src/legacy/Stopwatch.py:8-10 | after `start` at time t0, `elapsed` at any clock reading t is t − t0, whatever happened before |
| Stopwatch.Stop | src/legacy/Stopwatch.py:12-13 | after `stop` at time t1, `elapsed` is t1 − start at every later reading, or None if the stopwatch was never started |
| Stopwatch.Elapsed | src/legacy/Stopwatch.py:15-21 | `elapsed` is None iff the stopwatch was never started |
| Stopwatch.NeverStarted | src/legacy/Stopwatch.py:15-17 | before `start`, `elapsed` is None even after `stop`, and `per_second` raises TypeError |
| Stopwatch.RunningElapsed | src/legacy/Stopwatch.py:18-20 | while running, `elapsed` is now − start |
| Stopwatch.StoppedIsFrozen | src/legacy/Stopwatch.py:21 | after `stop`, `elapsed` is end − start whatever the clock reads later |
| Stopwatch.PerSecond | src/legacy/Stopwatch.py:23-24 | `per_second` raises TypeError iff never started; otherwise the rate times the elapsed time is the iteration count |
| Stopwatch.PerSecondRate | src/legacy/Stopwatch.py:23-24 | with a non-zero interval, `per_second(n)` is n / elapsed |
| Stopwatch.ZeroIntervalRaises | src/legacy/Stopwatch.py:23-24 | a zero interval raises ZeroDivisionError |
| Pwm.Clamp | src/pi_motor_receiver.py:112 | the clamp lands in [1000, 2000], keeps in-range values and sends values outside to the nearer bound |
| Pwm.Trunc | src/pi_motor_receiver.py:133 | `int()` of a real truncates toward zero |
| Text.StripEmptyIffBlank | src/pi_motor_receiver.py:233-236 | a stripped line is empty iff it is all whitespace |
| Text.StripTrimmed | src/pi_motor_receiver.py:172 | stripping an already stripped line changes nothing |
| Text.SplitPieces | src/pi_motor_receiver.py:177 | `split` gives one more piece than separators, and no piece contains the separator |
| Text.JoinSplit | src/pi_motor_receiver.py:177 | joining the pieces of `split` with the separator gives back the line |
| Text.CountZero | src/lorareceivertest.py:404 | `count` is 0 iff the character is absent |
| Text.UpperPointwise | src/pi_motor_receiver.py:181 | `upper` maps each ASCII lower-case letter to its capital and keeps every other character |
| Text.LowerPointwise | src/esc_control.py:184 | `lower` maps each ASCII capital to its lower-case letter and keeps every other character |
| Text.ParseIntRejects | src/pi_motor_receiver.py:185-188 | `int()` rejects blank text, and a negative result needs a leading `-` |
| Text.ParseIntToString | src/pi_motor_receiver.py:186 | `int(str(v)) == v` for every integer v |

## Left out

- Hardware and I/O are outside the model: pigpio, the serial/LoRa port, `time.sleep`, console
  output, `ensure_pigpiod_running`, CSV logging and archiving, and `requests.post`. The actuator is
  the list of pulses written, and the post is the `Post` value produced.
- A `KeyboardInterrupt` is modelled as the end of the input. An interrupt in the middle of an
  operation, such as between the two writes of `calibrate`, is not modelled.
- `main.py`'s `lora_send` thread is a placeholder and is not modelled, since no concurrency is.
- SignedMotor.FractionalAsymmetric: proved in exact reals, not in the program's doubles. In
  doubles, `1500 + (p/100.0)*500` rounds to 1500.0 for −p when p is below about 2.2e-14, so
  both signs write 1500, and it rounds to 1501.0 for p just under 0.2 (0.1999999999999999), so
  p writes 1501. Between those ends, for example on [0.001, 0.19], the asymmetry holds in
  doubles too.
- Floating point is modelled as `real`. The pulse formulas are exact for whole-number
  requests, where `int()` truncation and the overflow bound of the receiver's throttle
  arithmetic are modelled; for fractional requests the model computes in exact reals, not
  doubles. Other floating-point effects are left out: NaN and infinities from `float()`, the
  MPU-6050 scale factors, the temperature formula, the rotation trigonometry and CSV number
  formatting.
- `Receiver.THROTTLE_OVERFLOW`: the exact behaviour of doubles between −100 % and this bound is
  not modelled. The model uses the real-number pulse 1500 + 5·p, which the clamp maps to 1000 for
  every request below −100.
- The `Text` functions handle ASCII case mapping and ASCII digits only. Python's Unicode case
  folding and Unicode digits in `int()` are left out, and so is `int()`'s 4300-digit limit. The
  whitespace set of `strip()` is Python's full `isspace` set.
- Calibration.CalibrateEsc: the contract only says how input is read. Its writes, 2000 then
  1500, are inside the range that Calibration.ActionInRange states.
- Calibration.TestMotor: the contract only says how input is read. Its pulses are stated by
  Calibration.TestMotorInRange.
- Calibration.FindThrottleRange: the contract gives the first write and how input is read. The
  range of its pulses is stated by Calibration.FindInRange.
- Esc.ReadCommand: `str.isdigit()` also accepts non-ASCII digits such as '²', for which `int()` then
  raises `ValueError`; nothing in `interactive_control` catches it, so the `finally` block stops
  and cleans up and the program exits. The model treats such a line as an unknown command and
  keeps going.
- The dashboard's Flask routes, templates, file downloads and `request.json` decoding errors are
  left out. The decoded body is a `Json.Value`. A body that is not a dictionary is modelled as the
  server error it produces.
- AppHistory.UpdateFailsWithoutElapsed: a request without a `data` dictionary raises too. This is
  stated as the same server-error outcome and not split by the kind of exception.
- Mpu6050.Fill: Python's negative offsets, which index from the end of the list, are not
  modelled. The offset is a natural number.
- The `random` simulation branches of the sensor modules are not modelled, and neither are the
  BME280/BMP280 wrappers.
- Telemetry lines with fewer than 12 values cannot pass the comma filter, so the `IndexError`
  they would raise in the threshold filter is unreachable and not modelled.
- Telemetry.UpdateAsWritten: its contract gives the count but not the channel values. Those are
  stated by Telemetry.AbandonedAtSecond, Telemetry.AsWrittenAgreesOnFullLines and
  Telemetry.UpdateAsWrittenBrackets.
- Telemetry.ProcessLineAsWritten: the min ≤ avg ≤ max ordering of posts is not promised for the
  program's loop, because it does not hold there (see Findings and
  Telemetry.ListenAsWrittenBreaksAverage); it is proved for the corrected loop only.

## Findings

| source | as written | input that shows it | evidently intended | confidence | as-written member | corrected member |
|---|---|---|---|---|---|---|
| src/lorareceivertest.py:413-421 | the statistics loop updates min, max and sum channel by channel and only increments `count_data` after the loop. A value that fails to parse, or a 13th value that overflows the 12 slots, abandons the line half-applied | a line whose first value is 1000 and whose other values do not parse, then a line of twelve 1s: channel 0 reports maximum 1000 and average 1001 | a line either updates every channel and the count, or nothing, so min ≤ average ≤ max always holds | high; not executed | Telemetry.UpdateAsWritten, Telemetry.PartialUpdateBreaksAverage, Telemetry.ProcessLineAsWritten, Telemetry.ListenAsWritten, Telemetry.ListenAsWrittenBreaksAverage | Telemetry.UpdateStats, Telemetry.UpdatePreservesConsistent, Telemetry.AverageBetween, Telemetry.ProcessLine, Telemetry.Listen, Telemetry.ProcessPreservesValid, Telemetry.ProcessPostOrdered, Telemetry.ListenPostsOrdered |
