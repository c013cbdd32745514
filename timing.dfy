/** Fixed-timestep arithmetic of the render loop.

    Times are exact reals here; the source measures them as floating-point
    seconds.  `WholeSlices` is the number of whole frame slices in an elapsed
    time: the number of catch-up frames the render loop owes.
 */
module Timing {

  /** Length in seconds of one frame slice at `targetFps` frames per second. */
  function FrameTime(targetFps: int): (r: real)
    requires targetFps > 0
    ensures r > 0.0
    ensures r * targetFps as real == 1.0
  {
    1.0 / targetFps as real
  }

  /** Scaling by a positive factor keeps a strict order. */
  lemma {:induction false} ScaleStrict(x: real, y: real, s: real)
    requires s > 0.0 && x < y
    ensures x * s < y * s
  {
    assert y * s - x * s == (y - x) * s;
  }

  /** For a positive scale, comparing `a * s` with `b * s` compares `a` with `b`. */
  lemma {:induction false} ScaleLess(a: int, b: int, s: real)
    requires s > 0.0
    requires a as real * s < b as real * s
    ensures a < b
  {
    if b < a {
      ScaleStrict(b as real, a as real, s);
    }
  }

  /** The number of whole `frameTime` slices in `delta`; none when `delta` is short of one slice. */
  function WholeSlices(delta: real, frameTime: real): (k: nat)
    requires frameTime > 0.0
    ensures delta < frameTime ==> k == 0
    ensures delta >= 0.0 ==> k as real * frameTime <= delta < (k + 1) as real * frameTime
  {
    if delta < frameTime then 0
    else
      var q := delta / frameTime;
      assert q * frameTime == delta;
      assert q >= 1.0 by {
        if q < 1.0 {
          ScaleStrict(q, 1.0, frameTime);
        }
      }
      var n := q.Floor;
      assert n as real <= q < (n + 1) as real;
      assert n as real * frameTime <= q * frameTime by {
        if n as real < q {
          ScaleStrict(n as real, q, frameTime);
        }
      }
      ScaleStrict(q, (n + 1) as real, frameTime);
      assert delta < (n + 1) as real * frameTime;
      assert n >= 0;
      n
  }

  /** Any `n` with `n * frameTime <= delta < (n + 1) * frameTime` is the slice count. */
  lemma {:induction false} WholeSlicesUnique(delta: real, frameTime: real, n: nat)
    requires frameTime > 0.0
    requires n as real * frameTime <= delta < (n + 1) as real * frameTime
    ensures WholeSlices(delta, frameTime) == n
  {
    if n > 0 {
      ScaleStrict(0.0, n as real, frameTime);
    }
    assert delta >= 0.0;
    var k := WholeSlices(delta, frameTime);
    var nLow, nHigh := n as real * frameTime, (n + 1) as real * frameTime;
    var kLow, kHigh := k as real * frameTime, (k + 1) as real * frameTime;
    assert nLow <= delta < nHigh;
    assert kLow <= delta < kHigh;
    assert nLow < kHigh && kLow < nHigh;
    ScaleLess(n, k + 1, frameTime);
    ScaleLess(k, n + 1, frameTime);
  }

  /** The time taken up by `n` whole slices, summed slice by slice. */
  function SlicesDuration(n: nat, frameTime: real): real
  {
    if n == 0 then 0.0 else SlicesDuration(n - 1, frameTime) + frameTime
  }

  /** `n` slices last `n * frameTime`. */
  lemma {:induction false} SlicesDurationIsProduct(n: nat, frameTime: real)
    ensures SlicesDuration(n, frameTime) == n as real * frameTime
  {
    if n > 0 {
      SlicesDurationIsProduct(n - 1, frameTime);
      assert n as real * frameTime == (n - 1) as real * frameTime + frameTime;
    }
  }

  /** While a whole slice remains after `n` slices, fewer than all slices owed are consumed. */
  lemma {:induction false} SliceOwed(delta: real, frameTime: real, n: nat)
    requires frameTime > 0.0
    requires SlicesDuration(n, frameTime) + frameTime <= delta
    ensures n < WholeSlices(delta, frameTime)
  {
    SlicesDurationIsProduct(n, frameTime);
    SlicesDurationIsProduct(n + 1, frameTime);
    if n > 0 {
      ScaleStrict(0.0, n as real, frameTime);
    }
    var k := WholeSlices(delta, frameTime);
    var nHigh, kHigh := (n + 1) as real * frameTime, (k + 1) as real * frameTime;
    assert nHigh <= delta < kHigh;
    ScaleLess(n + 1, k + 1, frameTime);
  }

  /** Once less than a slice remains after `n` slices, `n` is the number of slices owed. */
  lemma {:induction false} SliceSettled(delta: real, frameTime: real, n: nat)
    requires frameTime > 0.0
    requires delta - SlicesDuration(n, frameTime) < frameTime
    requires delta >= 0.0 ==> delta - SlicesDuration(n, frameTime) >= 0.0
    requires n <= WholeSlices(delta, frameTime)
    ensures n == WholeSlices(delta, frameTime)
  {
    if delta >= 0.0 {
      SlicesDurationIsProduct(n, frameTime);
      SlicesDurationIsProduct(n + 1, frameTime);
      WholeSlicesUnique(delta, frameTime, n);
    }
  }
}
