/**
 * The trip playback clock of `src/App.tsx`: while playing, each animation
 * frame moves the cursor forward in proportion to the time since the last
 * frame, so that the whole trip range takes 18 seconds, and wraps it back
 * to the start once it passes the end. Times are exact reals (milliseconds).
 */
module Animation {
  import opened Types

  /** One full pass over the trip range takes this many milliseconds. */
  const LoopDurationMs: real := 18000.0

  /** JavaScript's `x % d` for `x >= 0` and `d > 0`: what is left after taking whole `d`s from `x`. */
  function JsRem(x: real, d: real): (r: real)
    requires x >= 0.0 && d > 0.0
    ensures 0.0 <= r < d
  {
    var q := (x / d).Floor;
    FloorBounds(x / d);
    WholeMultiplesBelow(x, d, q);
    x - d * q as real
  }

  lemma FloorBounds(y: real)
    ensures y.Floor as real <= y < y.Floor as real + 1.0
  {
  }

  /** `q <= x / d < q + 1` is the same as `d * q <= x < d * (q + 1)` for positive `d`. */
  lemma WholeMultiplesBelow(x: real, d: real, q: int)
    requires d > 0.0
    ensures q as real <= x / d ==> d * q as real <= x
    ensures x / d < q as real + 1.0 ==> x < d * (q as real + 1.0)
    ensures d * q as real <= x ==> q as real <= x / d
    ensures x < d * (q as real + 1.0) ==> x / d < q as real + 1.0
  {
    var y := x / d;
    DivideThenMultiply(x, d);
    var p := q as real + 1.0;
    ScaleMonotone(d, q as real, y);
    ScaleMonotone(d, y, p);
    assert y < p <==> x < d * p;
  }

  lemma DivideThenMultiply(x: real, d: real)
    requires d > 0.0
    ensures d * (x / d) == x
  {
  }

  /** Multiplying by a positive number keeps the order, strict and non-strict, both ways. */
  lemma ScaleMonotone(d: real, a: real, b: real)
    requires d > 0.0
    ensures a <= b <==> d * a <= d * b
    ensures a < b <==> d * a < d * b
  {
    assert d * b - d * a == d * (b - a);
  }

  /**
   * The remainder is the only value in `[0, d)` that differs from `x` by a
   * whole number of `d`s.
   */
  lemma JsRemUnique(x: real, d: real, q: int, r: real)
    requires x >= 0.0 && d > 0.0
    requires 0.0 <= r < d && x == d * q as real + r
    ensures JsRem(x, d) == r
  {
    WholeMultiplesBelow(x, d, q);
    assert (x / d).Floor == q;
  }

  /**
   * One frame: `delta` milliseconds after the previous frame, move the cursor
   * by `delta * (end - start) / 18000`; a result strictly past `end` becomes
   * `start + (next - start) % (end - start)`.
   */
  function Advance(cursor: real, delta: real, start: real, end: real): (r: real)
    requires start < end
    ensures cursor + delta * ((end - start) / LoopDurationMs) > end ==> start <= r < end
  {
    var duration := end - start;
    var next := cursor + delta * (duration / LoopDurationMs);
    if next > end then start + JsRem(next - start, duration) else next
  }

  lemma NonNegativeStep(delta: real, speed: real)
    requires delta >= 0.0 && speed >= 0.0
    ensures delta * speed >= 0.0
  {
  }

  /**
   * A frame stamped before the previous one moves the cursor back: from
   * `start` it leaves the range below `start`, and no wrap brings it back.
   */
  lemma BackwardFrameDips(start: real, end: real, delta: real)
    requires start < end && delta < 0.0
    ensures Advance(start, delta, start, end) < start
  {
    var speed := (end - start) / LoopDurationMs;
    assert speed > 0.0;
    assert delta * speed < 0.0;
  }

  /** Starting inside the range and moving forward, the cursor stays inside it. */
  lemma AdvanceInRange(cursor: real, delta: real, start: real, end: real)
    requires start < end && start <= cursor <= end && delta >= 0.0
    ensures start <= Advance(cursor, delta, start, end) <= end
  {
    NonNegativeStep(delta, (end - start) / LoopDurationMs);
  }

  /** A frame that reaches `end` exactly keeps it: the wrap test is strict. */
  lemma AdvanceKeepsEnd(cursor: real, delta: real, start: real, end: real)
    requires start < end && cursor + delta * ((end - start) / LoopDurationMs) == end
    ensures Advance(cursor, delta, start, end) == end
  {
  }

  /** A single 18-second frame from `start` lands on `end`, not back on `start`. */
  lemma FullLoopLandsOnEnd(start: real, end: real)
    requires start < end
    ensures Advance(start, LoopDurationMs, start, end) == end
  {
    var d := end - start;
    assert LoopDurationMs * (d / LoopDurationMs) == d;
    AdvanceKeepsEnd(start, LoopDurationMs, start, end);
  }

  /**
   * Past `end` the cursor comes back by the whole number of durations that
   * brings it into `[start, start + duration)`.
   */
  lemma AdvanceWraps(cursor: real, delta: real, start: real, end: real, q: int)
    requires start < end
    requires cursor + delta * ((end - start) / LoopDurationMs) > end
    requires var next, d := cursor + delta * ((end - start) / LoopDurationMs), end - start;
      start + d * q as real <= next < start + d * (q as real + 1.0)
    ensures var next, d := cursor + delta * ((end - start) / LoopDurationMs), end - start;
      Advance(cursor, delta, start, end) == next - d * q as real
    ensures start <= Advance(cursor, delta, start, end) < end
  {
    var next, d := cursor + delta * ((end - start) / LoopDurationMs), end - start;
    JsRemUnique(next - start, d, q, next - start - d * q as real);
  }

  /** Frames that stay short of the end add up: two of them move as far as one covering both. */
  lemma AdvanceAdditive(cursor: real, a: real, b: real, start: real, end: real)
    requires start < end && a >= 0.0 && b >= 0.0
    requires cursor + (a + b) * ((end - start) / LoopDurationMs) <= end
    ensures Advance(Advance(cursor, a, start, end), b, start, end) == Advance(cursor, a + b, start, end)
  {
    var speed := (end - start) / LoopDurationMs;
    NonNegativeStep(b, speed);
    assert (a + b) * speed == a * speed + b * speed;
  }

  /**
   * The playback state: `cursor` is `currentTimeRef.current`, `playing` is
   * `isPlaying`, `last` the timestamp of the previous frame, and `start`
   * and `end` the trips' time range.
   */
  class AnimationClock {
    const start: real
    const end: real
    var cursor: real
    var playing: bool
    var last: real

    /** The cursor lies within the trip range. */
    ghost predicate Valid()
      reads this
    {
      start <= cursor <= end
    }

    /** `useState(tripRange.start)` and `useState(false)`: paused at the start. */
    constructor (start: real, end: real, now: real)
      requires start <= end
      ensures Valid() && this.start == start && this.end == end
      ensures cursor == start && !playing && last == now
    {
      this.start := start;
      this.end := end;
      cursor := start;
      playing := false;
      last := now;
    }

    /**
     * The Play/Pause button. Starting playback restarts the frame timer at
     * `now`; pressing a button that leaves `playing` as it is re-runs nothing.
     */
    method SetPlaying(p: bool, now: real)
      requires Valid()
      modifies this
      ensures Valid() && playing == p && cursor == old(cursor)
      ensures last == (if p && !old(playing) then now else old(last))
    {
      if p != playing {
        playing := p;
        if p {
          last := now;
        }
      }
    }

    /** The time slider writes `currentTime`; the slider only offers values inside the range. */
    method Seek(value: real)
      requires Valid() && start <= value <= end
      modifies this
      ensures Valid() && cursor == value && playing == old(playing) && last == old(last)
    {
      cursor := value;
    }

    /**
     * One animation frame at timestamp `now`. Nothing runs while paused or
     * when the range is empty; otherwise the cursor advances by the time
     * since the last frame and `last` becomes `now`.
     */
    method Step(now: real)
      requires Valid() && now >= last
      modifies this
      ensures Valid() && playing == old(playing)
      ensures !playing || end <= start ==> cursor == old(cursor) && last == old(last)
      ensures playing && start < end ==>
        last == now && cursor == Advance(old(cursor), now - old(last), start, end)
    {
      if !playing || end - start <= 0.0 {
        return;
      }
      var delta := now - last;
      last := now;
      AdvanceInRange(cursor, delta, start, end);
      cursor := Advance(cursor, delta, start, end);
    }
  }
}
