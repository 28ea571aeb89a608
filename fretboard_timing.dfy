/**
 * Time and position arithmetic of the fretboard viewer: the scheduling delay
 * `delayTime` and the fixed-radix position key `bar*1000 + beat*10 + subbeat`.
 * Audio times are exact reals (seconds of the audio clock).
 */
module FretboardTiming {

  /** `parseInt` applied to a number: truncation toward zero. */
  function Truncate(x: real): (r: int)
    ensures 0.0 <= x ==> r as real <= x < r as real + 1.0
    ensures x < 0.0 ==> r as real - 1.0 < x <= r as real
  {
    if x >= 0.0 then x.Floor else -((-x).Floor)
  }

  /** Truncation never reorders two numbers. */
  lemma TruncateMonotonic(x: real, y: real)
    requires x <= y
    ensures Truncate(x) <= Truncate(y)
  {
  }

  /** `delayTime(time)`: whole milliseconds from `now` until `time`, truncated toward zero. */
  function DelayTime(time: real, now: real): (ms: int)
    ensures time >= now ==> ms >= 0 && ms as real <= (time - now) * 1000.0 < ms as real + 1.0
    ensures time < now ==> ms <= 0 && ms as real - 1.0 < (time - now) * 1000.0 <= ms as real
  {
    Truncate((time - now) * 1000.0)
  }

  /** A later event is never scheduled with a shorter delay. */
  lemma DelayTimeMonotonic(t1: real, t2: real, now: real)
    requires t1 <= t2
    ensures DelayTime(t1, now) <= DelayTime(t2, now)
  {
    TruncateMonotonic((t1 - now) * 1000.0, (t2 - now) * 1000.0);
  }

  /** The delay is zero exactly when the event is less than a millisecond away, in either direction. */
  lemma DelayTimeZero(time: real, now: real)
    ensures DelayTime(time, now) == 0 <==> -0.001 < time - now < 0.001
  {
  }

  /** The composite position key `bar*1000 + beat*10 + subbeat` of a score position. */
  function PositionKey(bar: int, beat: int, subbeat: int): int {
    bar * 1000 + beat * 10 + subbeat
  }

  /**
   * Within the radix limits (beats 0..99, subbeats 0..9) comparing keys is
   * comparing (bar, beat, subbeat) lexicographically.
   */
  lemma PositionKeyOrder(bar1: int, beat1: int, sub1: int, bar2: int, beat2: int, sub2: int)
    requires 0 <= beat1 <= 99 && 0 <= beat2 <= 99 && 0 <= sub1 <= 9 && 0 <= sub2 <= 9
    ensures PositionKey(bar1, beat1, sub1) < PositionKey(bar2, beat2, sub2) <==>
              bar1 < bar2 || (bar1 == bar2 && (beat1 < beat2 || (beat1 == beat2 && sub1 < sub2)))
  {
  }

  /** Outside the radix limits distinct positions collide: beat 100 of one bar is beat 0 of the next. */
  lemma PositionKeyRadixLimit(bar: int, sub: int)
    ensures PositionKey(bar, 100, sub) == PositionKey(bar + 1, 0, sub)
  {
  }
}
