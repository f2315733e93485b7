/** Pulse-width constants shared by the three ESC drivers, in microseconds. */
module Pwm {

  /** Full reverse / brake. */
  const PWM_MIN: int := 1000
  /** Neutral: the motor is stopped. */
  const PWM_NEUTRAL: int := 1500
  /** Full forward. */
  const PWM_MAX: int := 2000
  /** The raw value that switches the PWM output off altogether. */
  const PWM_OFF: int := 0

  predicate InRange(pulse: int) {
    PWM_MIN <= pulse <= PWM_MAX
  }

  predicate AllInRange(pulses: seq<int>) {
    forall i :: 0 <= i < |pulses| ==> InRange(pulses[i])
  }

  /** `max(PWM_MIN, min(PWM_MAX, x))`: the clamp every `set_pulse_width` applies. */
  function Clamp(x: int): (r: int)
    ensures InRange(r)
    ensures InRange(x) ==> r == x
    ensures x < PWM_MIN ==> r == PWM_MIN
    ensures x > PWM_MAX ==> r == PWM_MAX
  {
    if x < PWM_MIN then PWM_MIN else if x > PWM_MAX then PWM_MAX else x
  }

  /** Python's `int()` of a float: truncation toward zero. */
  function Trunc(x: real): (r: int)
    ensures x >= 0.0 ==> r as real <= x < r as real + 1.0
    ensures x < 0.0 ==> r as real - 1.0 < x <= r as real
  {
    if x >= 0.0 then x.Floor else -((-x).Floor)
  }

  /** Truncation of a non-negative value never decreases as the value grows. */
  lemma TruncMonotone(x: real, y: real)
    requires 0.0 <= x <= y
    ensures Trunc(x) <= Trunc(y)
  {
  }

  lemma AllInRangeConcat(a: seq<int>, b: seq<int>)
    requires AllInRange(a) && AllInRange(b)
    ensures AllInRange(a + b)
  {
  }
}
