/** The engine's once-mode timer, over integer milliseconds. */
module Timers {

  /** A countdown of `duration` ms of which `elapsed` ms have run. In once mode
      `elapsed` stops at `duration` and the timer then stays finished until reset. */
  datatype Timer = Timer(duration: nat, elapsed: nat) {
    ghost predicate Valid() { elapsed <= duration }

    predicate Finished() { elapsed >= duration }
  }

  /** `Timer::from_seconds(duration, TimerMode::Once)`, with the duration in ms. */
  function FromMillis(duration: nat): (t: Timer)
    ensures t.Valid() && t.duration == duration && t.elapsed == 0
    ensures t.Finished() <==> duration == 0
  {
    Timer(duration, 0)
  }

  /** Advance by `delta` ms, stopping at the duration. */
  function Tick(t: Timer, delta: nat): (r: Timer)
    ensures r.duration == t.duration
    ensures t.Valid() ==> r.Valid()
    ensures r.Finished() <==> t.elapsed + delta >= t.duration
    ensures !r.Finished() ==> r.elapsed == t.elapsed + delta
  {
    Timer(t.duration, if t.elapsed + delta >= t.duration then t.duration else t.elapsed + delta)
  }

  /** Rewind to the start, keeping the duration. */
  function Reset(t: Timer): (r: Timer)
    ensures r.Valid() && r.duration == t.duration && r.elapsed == 0
    ensures r.Finished() <==> t.duration == 0
  {
    Timer(t.duration, 0)
  }

  /** Once finished, a once-mode timer stays finished however far it is ticked. */
  lemma OnceStaysFinished(t: Timer, delta: nat)
    requires t.Finished()
    ensures Tick(t, delta).Finished()
  {
  }

  /** Ticking by `a` then by `b` is ticking by `a + b`. */
  lemma TickAdditive(t: Timer, a: nat, b: nat)
    requires t.Valid()
    ensures Tick(Tick(t, a), b) == Tick(t, a + b)
  {
  }

  /** Resetting any timer (finished or not) and ticking by `delta` finishes it
      exactly when `delta` covers the whole duration. */
  lemma ResetThenTick(t: Timer, delta: nat)
    ensures Tick(Reset(t), delta).Finished() <==> delta >= t.duration
    ensures Reset(Tick(t, delta)) == Reset(t)
  {
  }
}
