/** The frame cursors of the full-screen bitmap animations (CRY, SHY, DRIVING, HAPPY, BATTERY). */
module Cursors {
  import opened EyeTypes

  /**
   * The cursor after a frame drawn at `now`: when more than a frame duration
   * has passed since its last frame, it moves on by one frame, wrapping at
   * `count`, and restarts its frame timer.
   */
  function Advance(c: Cursor, now: uint32, count: nat): (r: Cursor)
    requires count > 0
    ensures 0 <= c.frame < count ==> 0 <= r.frame < count
    ensures Since(now, c.lastFrameTime) > BitmapFrameDuration ==> r == Cursor((c.frame + 1) % count, now)
    ensures Since(now, c.lastFrameTime) <= BitmapFrameDuration ==> r == c
  {
    if Since(now, c.lastFrameTime) > BitmapFrameDuration then
      Cursor((c.frame + 1) % count, now)
    else
      c
  }

  /** Each time of `times` comes more than a frame duration after the one before (the first after `t0`). */
  predicate Spaced(t0: uint32, times: seq<uint32>)
    decreases |times|
  {
    times == [] || (Since(times[0], t0) > BitmapFrameDuration && Spaced(times[0], times[1..]))
  }

  /** The cursor after frames drawn at each of `times` in turn. */
  function Play(c: Cursor, times: seq<uint32>, count: nat): (r: Cursor)
    requires count > 0
    decreases |times|
  {
    if times == [] then c
    else Play(Advance(c, times[0], count), times[1..], count)
  }

  /**
   * Drawn at a steady pace, a cursor steps through the frames one by one:
   * after n frames it is n frames further on, modulo the frame count.
   */
  lemma {:induction false} PlayStepsThrough(c: Cursor, times: seq<uint32>, count: nat)
    requires count > 0
    requires 0 <= c.frame < count
    requires Spaced(c.lastFrameTime, times)
    ensures Play(c, times, count).frame == (c.frame + |times|) % count
    decreases |times|
  {
    if times == [] {
      assert Play(c, times, count) == c && c.frame + |times| == c.frame;
      ModSmall(c.frame, count);
    } else {
      var c', rest := Advance(c, times[0], count), times[1..];
      assert c'.frame == (c.frame + 1) % count && c'.lastFrameTime == times[0];
      assert Play(c, times, count) == Play(c', rest, count);
      PlayStepsThrough(c', rest, count);
      OneMoreFrame(c.frame, c'.frame, |rest|, count, Play(c', rest, count).frame);
    }
  }

  /** A frame that wraps one step from f and then moves on k more ends up k + 1 steps from f. */
  lemma OneMoreFrame(f: nat, f': nat, k: nat, count: nat, g: nat)
    requires count > 0 && f < count
    requires f' == (f + 1) % count
    requires g == (f' + k) % count
    ensures g == (f + (k + 1)) % count
  {
    ModSucc(f, k + 1, count);
  }

  lemma MulAtLeast(k: int, c: int)
    requires k >= 1 && c > 0
    ensures k * c >= c
  {
    assert k * c == (k - 1) * c + c;
    assert (k - 1) * c >= 0;
  }

  /** The remainder is determined by any quotient-remainder decomposition. */
  lemma ModUnique(x: int, c: int, q: int, r: int)
    requires c > 0 && 0 <= r < c && x == q * c + r
    ensures x % c == r
  {
    var q', r' := x / c, x % c;
    assert x == q' * c + r';
    assert (q - q') * c == r' - r;
    if q > q' {
      MulAtLeast(q - q', c);
    } else if q < q' {
      MulAtLeast(q' - q, c);
    }
  }

  /** Adding the modulus does not change the remainder. */
  lemma ModShift(x: nat, c: nat)
    requires c > 0
    ensures (x + c) % c == x % c
  {
    var q, r := x / c, x % c;
    assert x == q * c + r;
    assert x + c == (q + 1) * c + r;
    ModUnique(x + c, c, q + 1, r);
  }

  /** A value below the modulus is its own remainder. */
  lemma ModSmall(x: nat, c: nat)
    requires x < c
    ensures x % c == x
  {
    ModUnique(x, c, 0, x);
  }

  /** One wrapped step followed by n - 1 more is n steps, for a frame f in range. */
  lemma ModSucc(f: nat, n: nat, count: nat)
    requires count > 0 && f < count && n > 0
    ensures ((f + 1) % count + (n - 1)) % count == (f + n) % count
  {
    if f + 1 < count {
      ModSmall(f + 1, count);
      assert f + 1 + (n - 1) == f + n;
    } else {
      assert f + 1 == count;
      ModShift(0, count);
      ModSmall(0, count);
      ModShift(n - 1, count);
      assert (n - 1) + count == f + n;
    }
  }

  /** A cursor drawn at a steady pace comes back to its frame after exactly `count` frames. */
  lemma FullCycle(c: Cursor, times: seq<uint32>, count: nat)
    requires count > 0
    requires 0 <= c.frame < count
    requires |times| == count
    requires Spaced(c.lastFrameTime, times)
    ensures Play(c, times, count).frame == c.frame
  {
    PlayStepsThrough(c, times, count);
    ModShift(c.frame, count);
    ModSmall(c.frame, count);
  }
}
