/**
 * The three-state stopwatch of `legacy/Stopwatch.py`: never started, running, stopped.
 * `time.perf_counter()` is the parameter `now` of every operation that reads it.
 */
module Stopwatch {
  import opened Wrappers

  datatype Stopwatch = Stopwatch(startTime: Option<real>, endTime: Option<real>)

  const INITIAL: Stopwatch := Stopwatch(None, None)

  /** `start()`: record the start and clear any earlier stop. */
  function Start(sw: Stopwatch, now: real): (r: Stopwatch)
    ensures r.startTime == Some(now) && r.endTime == None
    ensures forall t :: Elapsed(r, t) == Some(t - now)
  {
    sw.(startTime := Some(now), endTime := None)
  }

  /** `stop()`: record the end, started or not. */
  function Stop(sw: Stopwatch, now: real): (r: Stopwatch)
    ensures r.startTime == sw.startTime && r.endTime == Some(now)
    ensures sw.startTime.Some? ==> forall t :: Elapsed(r, t) == Some(now - sw.startTime.value)
    ensures sw.startTime.None? ==> forall t :: Elapsed(r, t) == None
  {
    sw.(endTime := Some(now))
  }

  /** `elapsed()`: `None` before any start, up to `now` while running, up to the stop once stopped. */
  function Elapsed(sw: Stopwatch, now: real): (e: Option<real>)
    ensures e.None? <==> sw.startTime.None?
  {
    match sw.startTime
      case None => None
      case Some(t0) =>
        match sw.endTime
          case None => Some(now - t0)
          case Some(t1) => Some(t1 - t0)
  }

  /** The exceptions `iterations / self.elapsed()` can raise. */
  datatype Error = TypeError | ZeroDivisionError

  /** `per_second(iterations)`. */
  function PerSecond(sw: Stopwatch, iterations: real, now: real): (r: Result<real, Error>)
    ensures r == Failure(TypeError) <==> sw.startTime.None?
    ensures r.Success? ==> r.value * Elapsed(sw, now).value == iterations
  {
    match Elapsed(sw, now)
      case None => Failure(TypeError)
      case Some(e) => if e == 0.0 then Failure(ZeroDivisionError) else Success(iterations / e)
  }

  /** Before `start()`, `elapsed()` is `None`, even after a `stop()`. */
  lemma NeverStarted(now: real, later: real)
    ensures Elapsed(INITIAL, later) == None
    ensures Elapsed(Stop(INITIAL, now), later) == None
    ensures PerSecond(Stop(INITIAL, now), 1.0, later) == Failure(TypeError)
  {
  }

  /** While running, `elapsed()` is the clock reading minus the start, whatever happened before the start. */
  lemma RunningElapsed(sw: Stopwatch, t0: real, now: real)
    ensures Elapsed(Start(sw, t0), now) == Some(now - t0)
  {
  }

  /** Once stopped, `elapsed()` is fixed: later clock readings do not change it. */
  lemma StoppedIsFrozen(sw: Stopwatch, t1: real, now: real, later: real)
    requires sw.startTime.Some?
    ensures Elapsed(Stop(sw, t1), now) == Elapsed(Stop(sw, t1), later) == Some(t1 - sw.startTime.value)
  {
  }

  /** `per_second` is the iteration count over the elapsed time, for a started watch with a non-zero interval. */
  lemma PerSecondRate(sw: Stopwatch, iterations: real, now: real)
    requires sw.startTime.Some? && Elapsed(sw, now).value != 0.0
    ensures PerSecond(sw, iterations, now) == Success(iterations / Elapsed(sw, now).value)
  {
  }

  /** A zero-length interval raises `ZeroDivisionError` instead of giving a rate. */
  lemma ZeroIntervalRaises(sw: Stopwatch, t: real, iterations: real)
    ensures PerSecond(Stop(Start(sw, t), t), iterations, t) == Failure(ZeroDivisionError)
  {
  }
}
