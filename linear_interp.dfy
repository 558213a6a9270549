/** The piecewise interpolation table behind the engine's torque curve.
    Its real implementation lives in linearinterp.h, which is not part of this
    model: Interpolate below is a plain piecewise-linear stand-in that holds the
    end values outside the sampled range, and no property of the engine relies
    on its body. */
module LinearInterp {

  /** One sample of the table: the value y at abscissa x. */
  datatype Point = Point(x: real, y: real)

  /** The table's value at x. */
  function Interpolate(points: seq<Point>, x: real): real
  {
    if |points| == 0 then 0.0
    else if |points| == 1 || x <= points[0].x then points[0].y
    else if x < points[1].x then
      var p, q := points[0], points[1];
      p.y + (q.y - p.y) * (x - p.x) / (q.x - p.x)
    else Interpolate(points[1..], x)
  }
}
