/**
 * The arithmetic of the auto-scratch sweep: a polar cursor that starts at
 * radius 10, angle 0, and on every animation frame turns by 0.2 radians and
 * moves outwards by the configured radius step, until its radius reaches half
 * the shorter side of the canvas.
 */
module Sweep {

  datatype CanvasSize = CanvasSize(width: nat, height: nat)

  /** The spiral cursor, relative to the centre of the canvas. */
  datatype Cursor = Cursor(angle: real, radius: real)

  const START_RADIUS: real := 10.0
  const ANGLE_STEP: real := 0.2
  const START: Cursor := Cursor(0.0, START_RADIUS)

  /** `Math.min(width, height) / 2`: half the shorter side. */
  function MaxRadius(size: CanvasSize): (m: real)
    ensures 0.0 <= m
    ensures 2.0 * m <= size.width as real && 2.0 * m <= size.height as real
    ensures 2.0 * m == size.width as real || 2.0 * m == size.height as real
  {
    (if size.width <= size.height then size.width else size.height) as real / 2.0
  }

  /**
   * What one frame does to the cursor after drawing its disc: it moves the
   * cursor after `n` frames to the cursor after `n + 1` frames.
   */
  function Advance(c: Cursor, step: real): (next: Cursor)
    ensures forall n: nat :: c == CursorAt(n, step) ==> next == CursorAt(n + 1, step)
  {
    Cursor(c.angle + ANGLE_STEP, c.radius + step)
  }

  /** The cursor after `n` frames, by applying the per-frame update `n` times. */
  function Iterate(n: nat, step: real): Cursor {
    if n == 0 then START else Advance(Iterate(n - 1, step), step)
  }

  /** The cursor after `n` frames in closed form. */
  function CursorAt(n: nat, step: real): Cursor {
    Cursor(ANGLE_STEP * n as real, START_RADIUS + n as real * step)
  }

  /** After `n` frames the angle is `0.2 * n` and the radius `10 + n * step`. */
  lemma {:induction false} IterateClosedForm(n: nat, step: real)
    ensures Iterate(n, step) == CursorAt(n, step)
  {
    if n > 0 {
      IterateClosedForm(n - 1, step);
    }
  }

  /** Multiplying by a positive factor keeps the order. */
  lemma ScaleMonotone(a: real, b: real, s: real)
    requires a <= b && s > 0.0
    ensures a * s <= b * s
  {
  }

  /**
   * The number of frames a sweep runs: the least `n >= 1` whose radius
   * `10 + n * step` reaches `maxRadius`.
   */
  function FrameCount(maxRadius: real, step: real): (n: nat)
    requires step > 0.0
    ensures n >= 1
    ensures START_RADIUS + n as real * step >= maxRadius
    ensures n > 1 ==> START_RADIUS + (n - 1) as real * step < maxRadius
  {
    if maxRadius <= START_RADIUS + step then 1
    else
      var q := (maxRadius - START_RADIUS) / step;
      assert q * step == maxRadius - START_RADIUS;
      assert q > 1.0;
      var c := if q.Floor as real == q then q.Floor else q.Floor + 1;
      assert q <= c as real < q + 1.0;
      ScaleMonotone(q, c as real, step);
      ScaleMonotone((c - 1) as real, q, step);
      assert c >= 2;
      assert (c - 1) as real * step < q * step by {
        assert (c - 1) as real < q;
        assert (q - (c - 1) as real) * step > 0.0;
      }
      assert START_RADIUS + (c - 1) as real * step < maxRadius;
      c
  }

  /**
   * A frame that leaves the cursor at radius `10 + k * step` ends the sweep
   * exactly when `k` has reached the frame count.
   */
  lemma FrameCountIsLeast(maxRadius: real, step: real, k: nat)
    requires step > 0.0 && k >= 1
    ensures START_RADIUS + k as real * step >= maxRadius <==> k >= FrameCount(maxRadius, step)
  {
    var n := FrameCount(maxRadius, step);
    if k >= n {
      ScaleMonotone(n as real, k as real, step);
    } else {
      assert n > 1;
      var m: nat := n - 1;
      assert START_RADIUS + m as real * step < maxRadius;
      ScaleMonotone(k as real, m as real, step);
    }
  }

  /** With a canvas of 100 by 100 and the default step of 1, the sweep runs 40 frames. */
  lemma FortyFrames()
    ensures MaxRadius(CanvasSize(100, 100)) == 50.0
    ensures FrameCount(50.0, 1.0) == 40
  {
  }

  /** A small canvas still gets its first frame, and only that one. */
  lemma SmallCanvasOneFrame(maxRadius: real, step: real)
    requires step > 0.0 && maxRadius <= START_RADIUS + step
    ensures FrameCount(maxRadius, step) == 1
  {
  }

  /**
   * With no outward progress, a sweep whose first frame does not finish it
   * never finishes: no frame `k >= 1` reaches `maxRadius`.
   */
  lemma NoEndWithoutProgress(maxRadius: real, step: real, k: nat)
    requires step <= 0.0 && maxRadius > START_RADIUS + step && k >= 1
    ensures CursorAt(k, step).radius < maxRadius
  {
  }
}
