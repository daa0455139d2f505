/**
 * Points, the plot's tuning constants and the zoom scale `ZOOM_FACTOR ** zoom`
 * (draw.py:8-9). Coordinates are exact reals rather than IEEE doubles.
 */
module Geometry {

  /** An `(x, y)` pair, in data, normalised or pixel space. */
  datatype Point = Point(x: real, y: real)

  /** `ZOOM_FACTOR = 1.2`: each zoom step magnifies by 20%. */
  const ZoomFactor: real := 1.2

  /** `TRANS_DELTA = 0.2`: a keyboard pan step, in normalised units. */
  const TransDelta: real := 1.0 / 5.0

  /**
   * `ZOOM_FACTOR ** z` for any integer exponent, negative ones included. The
   * factor is written as the literal 1.2 so that each step is linear arithmetic.
   */
  function Pow(z: int): (r: real)
    ensures r > 0.0
    decreases if z < 0 then -z else z
  {
    if z == 0 then 1.0
    else if z > 0 then 1.2 * Pow(z - 1)
    else Pow(z + 1) / 1.2
  }

  /** One more zoom step multiplies the scale by exactly `ZOOM_FACTOR`, at every level. */
  lemma {:induction false} PowStep(z: int)
    ensures Pow(z + 1) == ZoomFactor * Pow(z)
  {
    if z < -1 {
      assert Pow(z) == Pow(z + 1) / ZoomFactor;
    } else if z == -1 {
      assert Pow(-1) == Pow(0) / ZoomFactor;
    }
  }
}
