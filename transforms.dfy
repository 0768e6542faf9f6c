/**
 * The logical transform of the video frame (scale, rotation, vertical pan)
 * in fixed units, the key deltas that change it, and the two matrices
 * derived from it: the column-major, y-up model matrix of the OpenGL quad
 * and the row-major, y-down affine matrix of the OpenCV warp. The matrices
 * are kept as the parameter snapshots they are built from; their
 * trigonometry is not modelled.
 */
module Transforms {
  import opened Keys

  /** Scale in tenths, angle in degrees, vertical translation in tenths of the frame height. */
  datatype Transform = Transform(scale: int, angle: int, ty: int)

  /** The loop starts at scale 1.0, angle 0 and no translation. */
  const IDENTITY: Transform := Transform(10, 0, 0)
  const SCALE_STEP: int := 1
  const ANGLE_STEP: int := 5
  const TRANSLATION_STEP: int := 1

  predicate IsTransformKey(code: int)
  {
    code == ZOOM_IN || code == ZOOM_OUT || code == ARROW_LEFT || code == ARROW_RIGHT
    || code == ARROW_UP || code == ARROW_DOWN
  }

  /** The transform after a key, and whether the `transformation` dirty flag was raised. */
  datatype Moved = Moved(transform: Transform, changed: bool)

  /**
   * The six delta tests of the loop, applied in the order the loop applies
   * them. Every matching test raises the dirty flag; there is no bound on
   * any parameter.
   */
  function ApplyTransformKey(t: Transform, code: int): (r: Moved)
    ensures r.changed <==> IsTransformKey(code)
    ensures code == ZOOM_IN ==> r.transform == t.(scale := t.scale + 1)
    ensures code == ZOOM_OUT ==> r.transform == t.(scale := t.scale - 1)
    ensures code == ARROW_LEFT ==> r.transform == t.(angle := t.angle - 5)
    ensures code == ARROW_RIGHT ==> r.transform == t.(angle := t.angle + 5)
    ensures code == ARROW_UP ==> r.transform == t.(ty := t.ty + 1)
    ensures code == ARROW_DOWN ==> r.transform == t.(ty := t.ty - 1)
    ensures !IsTransformKey(code) ==> r.transform == t
  {
    var m0 := Moved(t, false);
    var m1 := if code == ZOOM_IN then Moved(m0.transform.(scale := m0.transform.scale + SCALE_STEP), true) else m0;
    var m2 := if code == ZOOM_OUT then Moved(m1.transform.(scale := m1.transform.scale - SCALE_STEP), true) else m1;
    var m3 := if code == ARROW_LEFT then Moved(m2.transform.(angle := m2.transform.angle - ANGLE_STEP), true) else m2;
    var m4 := if code == ARROW_RIGHT then Moved(m3.transform.(angle := m3.transform.angle + ANGLE_STEP), true) else m3;
    var m5 := if code == ARROW_UP then Moved(m4.transform.(ty := m4.transform.ty + TRANSLATION_STEP), true) else m4;
    if code == ARROW_DOWN then Moved(m5.transform.(ty := m5.transform.ty - TRANSLATION_STEP), true) else m5
  }

  /** Each delta has an opposite key that undoes it. */
  lemma OppositeKeysCancel(t: Transform)
    ensures ApplyTransformKey(ApplyTransformKey(t, ZOOM_IN).transform, ZOOM_OUT).transform == t
    ensures ApplyTransformKey(ApplyTransformKey(t, ARROW_LEFT).transform, ARROW_RIGHT).transform == t
    ensures ApplyTransformKey(ApplyTransformKey(t, ARROW_UP).transform, ARROW_DOWN).transform == t
  {
  }

  /** The transform after the same key was seen in `n` consecutive iterations. */
  function PressRepeatedly(t: Transform, code: int, n: nat): Transform
    decreases n
  {
    if n == 0 then t else PressRepeatedly(ApplyTransformKey(t, code).transform, code, n - 1)
  }

  /** Zooming out has no floor: `n` presses lower the scale by exactly `n` tenths. */
  lemma {:induction false} ZoomOutUnbounded(t: Transform, n: nat)
    ensures PressRepeatedly(t, ZOOM_OUT, n) == t.(scale := t.scale - n)
    decreases n
  {
    if n > 0 {
      ZoomOutUnbounded(ApplyTransformKey(t, ZOOM_OUT).transform, n - 1);
    }
  }

  /** Ten zoom-out presses from the start degenerate the transform to scale 0. */
  lemma TenZoomOutsReachZeroScale()
    ensures PressRepeatedly(IDENTITY, ZOOM_OUT, 10).scale == 0
  {
    ZoomOutUnbounded(IDENTITY, 10);
  }

  /** `Translate(0, ty, 0) * Rotate(angle, z) * Scale(scale, scale, 1)` for the OpenGL quad. */
  datatype GpuMatrix = GpuMatrix(translateY: int, rotateZ: int, scaleXY: int)

  /**
   * `getRotationMatrix2D((cols / 2, rows / 2), angle, scale)` for the OpenCV
   * warp, with the translation of its second row lowered by `shift`
   * (tenths of a pixel).
   */
  datatype CpuMatrix = CpuMatrix(cols: int, rows: int, angle: int, scale: int, shift: int)

  /** The parameters a GPU matrix was built from. */
  function ParamsOfGpu(m: GpuMatrix): Transform
  {
    Transform(m.scaleXY, m.rotateZ, m.translateY)
  }

  /** The parameters a CPU matrix was built from; the pan is recovered from the pixel shift. */
  function ParamsOfCpu(m: CpuMatrix): Transform
    requires m.rows > 0
  {
    Transform(m.scale, -m.angle, m.shift / m.rows)
  }

  /** The GPU projection of a transform; the angle keeps its sign (y up). */
  function GpuOf(t: Transform): (m: GpuMatrix)
    ensures ParamsOfGpu(m) == t
  {
    GpuMatrix(t.ty, t.angle, t.scale)
  }

  /**
   * The CPU projection of a transform for a frame of `cols` x `rows`: the
   * angle is negated (y down) and the pan becomes a shift of `ty * rows`.
   */
  function CpuOf(t: Transform, cols: int, rows: int): (m: CpuMatrix)
    ensures m.cols == cols && m.rows == rows
    ensures m.angle == -GpuOf(t).rotateZ && m.scale == GpuOf(t).scaleXY
  {
    CpuMatrix(cols, rows, -t.angle, t.scale, t.ty * rows)
  }

  lemma MulAtLeast(k: int, b: int)
    requires k >= 1 && b > 0
    ensures k * b >= b
  {
    assert k * b == (k - 1) * b + b;
    assert (k - 1) * b >= 0;
  }

  lemma ExactQuotient(a: int, b: int)
    requires b > 0
    ensures (a * b) / b == a
  {
    var q, r := (a * b) / b, (a * b) % b;
    assert a * b == q * b + r && 0 <= r < b;
    assert (a - q) * b == r;
    if a - q >= 1 {
      MulAtLeast(a - q, b);
    } else if a - q <= -1 {
      MulAtLeast(q - a, b);
    }
  }

  /** The CPU projection loses nothing: the transform is recovered from it. */
  lemma CpuOfRoundTrip(t: Transform, cols: int, rows: int)
    requires rows > 0
    ensures ParamsOfCpu(CpuOf(t, cols, rows)) == t
  {
    ExactQuotient(t.ty, rows);
  }

  /** Two transforms with the same CPU projection on a non-empty frame are equal. */
  lemma CpuOfInjective(t1: Transform, t2: Transform, cols: int, rows: int)
    requires rows > 0
    requires CpuOf(t1, cols, rows) == CpuOf(t2, cols, rows)
    ensures t1 == t2
  {
    CpuOfRoundTrip(t1, cols, rows);
    CpuOfRoundTrip(t2, cols, rows);
  }

  /** Both cached matrices were derived from one parameter snapshot. */
  predicate SameSnapshot(g: GpuMatrix, c: CpuMatrix)
  {
    c == CpuOf(ParamsOfGpu(g), c.cols, c.rows)
  }

  /** Matrices computed together agree. */
  lemma ProjectionsAgree(t: Transform, cols: int, rows: int)
    ensures SameSnapshot(GpuOf(t), CpuOf(t, cols, rows))
  {
  }

  /** Agreeing matrices describe the same transform, as read back from either. */
  lemma SameSnapshotSameParams(g: GpuMatrix, c: CpuMatrix)
    requires SameSnapshot(g, c) && c.rows > 0
    ensures ParamsOfCpu(c) == ParamsOfGpu(g)
  {
    CpuOfRoundTrip(ParamsOfGpu(g), c.cols, c.rows);
  }
}
