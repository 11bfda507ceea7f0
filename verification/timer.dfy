/** A timer as the farm's systems use it: elapsed time measured against a fixed
    duration, in nanoseconds, advanced by the frame's delta. */
module Timers {

  /** A one-shot timer stops at its first expiry; a repeating one starts over. */
  datatype TimerMode = Once | Repeating

  datatype Timer = Timer(duration: nat, elapsed: nat, mode: TimerMode, finished: bool)

  /** The states a timer can be in between ticks: a positive duration, a one-shot
      timer clamped at its duration and finished exactly when it got there, a
      repeating timer always short of a full period. */
  ghost predicate Wf(t: Timer) {
    && t.duration > 0
    && (t.mode == Once ==> t.elapsed <= t.duration && (t.finished <==> t.elapsed == t.duration))
    && (t.mode == Repeating ==> t.elapsed < t.duration)
  }

  /** A fresh timer of the given duration. */
  function FromDuration(duration: nat, mode: TimerMode): (t: Timer)
    ensures duration > 0 ==> Wf(t) && !t.finished && t.elapsed == 0
    ensures t.duration == duration && t.mode == mode
  {
    Timer(duration, 0, mode, false)
  }

  /** Advances the timer by `delta`. A finished one-shot timer no longer moves;
      otherwise the timer finishes when its elapsed time reaches the duration,
      a one-shot timer then stays at its duration and a repeating one keeps the
      time past the last full period. */
  function Tick(t: Timer, delta: nat): (r: Timer)
    ensures r.duration == t.duration && r.mode == t.mode
    ensures Wf(t) ==> Wf(r)
    ensures Wf(t) ==> (r.finished <==> t.elapsed + delta >= t.duration)
    ensures Wf(t) && t.mode == Once ==>
      r.elapsed == if t.elapsed + delta >= t.duration then t.duration else t.elapsed + delta
    ensures Wf(t) && t.mode == Repeating ==> r.elapsed == (t.elapsed + delta) % t.duration
  {
    if t.mode == Once && t.finished then t
    else
      var e := t.elapsed + delta;
      if e < t.duration then t.(elapsed := e, finished := false)
      else if t.mode == Once then t.(elapsed := t.duration, finished := true)
      else t.(elapsed := if t.duration == 0 then 0 else e % t.duration, finished := true)
  }

  /** Starts the timer over: nothing elapsed and not finished. */
  function Reset(t: Timer): (r: Timer)
    ensures r.elapsed == 0 && !r.finished
    ensures r.duration == t.duration && r.mode == t.mode
    ensures Wf(t) ==> Wf(r)
  {
    t.(elapsed := 0, finished := false)
  }

  /** Total time of a sequence of frame deltas. */
  function Sum(deltas: seq<nat>): nat {
    if deltas == [] then 0 else deltas[0] + Sum(deltas[1..])
  }

  /** The timer after one tick per frame delta, in order. */
  function TickAll(t: Timer, deltas: seq<nat>): Timer
    decreases deltas
  {
    if deltas == [] then t else TickAll(Tick(t, deltas[0]), deltas[1..])
  }

  /** A one-shot timer accumulates the time of every frame up to its duration:
      after any run of frames it is finished exactly when the time spent so far
      reaches the duration, and its elapsed time is that total, capped. */
  lemma {:induction false} OnceAccumulates(t: Timer, deltas: seq<nat>)
    requires Wf(t) && t.mode == Once
    decreases deltas
    ensures var r := TickAll(t, deltas);
      && Wf(r) && r.mode == Once && r.duration == t.duration
      && (r.finished <==> t.elapsed + Sum(deltas) >= t.duration)
      && r.elapsed == if t.elapsed + Sum(deltas) >= t.duration then t.duration else t.elapsed + Sum(deltas)
  {
    if deltas != [] {
      OnceAccumulates(Tick(t, deltas[0]), deltas[1..]);
    }
  }
}
