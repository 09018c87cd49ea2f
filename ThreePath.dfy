/** The 2D path builder of the 3D library (a `Shape` grown by `moveTo`,
    `lineTo`, `absarc`, `bezierCurveTo` and `closePath`), as the table-top
    outline code uses it. A path is a list of curves plus a current point.
    Its documented behaviour, modelled here: `moveTo` only moves the current
    point; `absarc` first adds a straight connecting line when the path already
    has curves and the arc does not start at the current point; `closePath`
    adds a line back to the start when the last curve does not end there.

    Angles are whole quarter-turns: the integer q stands for q * pi/2, so the
    cosine and sine at every arc end are -1, 0 or 1 and the point is exact. */
module ThreePath {

  datatype Point = Point(x: real, y: real)

  /** The point at angle q * pi/2 on the circle about `center`: the centre
      plus radius times (cos, sin), where cos and sin are 1, 0, -1 or 0. */
  function OnCircle(center: Point, radius: real, q: int): Point {
    match q % 4
    case 0 => Point(center.x + radius, center.y)
    case 1 => Point(center.x, center.y + radius)
    case 2 => Point(center.x - radius, center.y)
    case _ => Point(center.x, center.y - radius)
  }

  /** The signed angle, in quarter-turns, that an arc from `startAngle` to
      `endAngle` covers: a counter-clockwise arc brings the difference into
      (0, 4], a clockwise one into [-4, 0); equal angles cover nothing. */
  function Sweep(startAngle: int, endAngle: int, clockwise: bool): (d: int)
    ensures startAngle == endAngle <==> d == 0
    ensures !clockwise ==> 0 <= d <= 4
    ensures clockwise ==> -4 <= d <= 0
    ensures (startAngle + d - endAngle) % 4 == 0
  {
    var delta := endAngle - startAngle;
    if delta == 0 then 0
    else
      var ccw := (delta - 1) % 4 + 1;
      if !clockwise then ccw else if ccw == 4 then -4 else ccw - 4
  }

  datatype Curve =
    | LineCurve(v1: Point, v2: Point)
    | ArcCurve(center: Point, radius: real, startAngle: int, endAngle: int, clockwise: bool)
    | CubicBezierCurve(v0: Point, v1: Point, v2: Point, v3: Point)
  {
    /** The point at parameter 0. */
    function Start(): Point {
      match this
      case LineCurve(a, _) => a
      case ArcCurve(c, r, s, _, _) => OnCircle(c, r, s)
      case CubicBezierCurve(a, _, _, _) => a
    }

    /** The point at parameter 1. */
    function End(): Point {
      match this
      case LineCurve(_, b) => b
      case ArcCurve(c, r, s, e, cw) => OnCircle(c, r, s + Sweep(s, e, cw))
      case CubicBezierCurve(_, _, _, d) => d
    }
  }

  /** An arc ends at the point of its end angle, whichever way it turns. */
  lemma ArcEndsAtEndAngle(c: Point, r: real, s: int, e: int, cw: bool)
    ensures ArcCurve(c, r, s, e, cw).End() == OnCircle(c, r, e)
  {
    assert (s + Sweep(s, e, cw)) % 4 == e % 4;
  }

  /** Each curve begins where the previous one ends. */
  ghost predicate Connected(cs: seq<Curve>) {
    forall i :: 0 < i < |cs| ==> cs[i].Start() == cs[i - 1].End()
  }

  /** The last curve ends where the first begins. */
  ghost predicate Closed(cs: seq<Curve>) {
    |cs| > 0 && cs[|cs| - 1].End() == cs[0].Start()
  }

  /** The line `absarc` inserts before `arc` when the path is not at its start. */
  function Bridge(curves: seq<Curve>, current: Point, arc: Curve): seq<Curve> {
    if |curves| > 0 && arc.Start() != current then [LineCurve(current, arc.Start())] else []
  }

  class ShapePath {
    var curves: seq<Curve>
    var currentPoint: Point

    constructor ()
      ensures curves == [] && currentPoint == Point(0.0, 0.0)
    {
      curves := [];
      currentPoint := Point(0.0, 0.0);
    }

    method MoveTo(x: real, y: real)
      modifies this
      ensures curves == old(curves) && currentPoint == Point(x, y)
    {
      currentPoint := Point(x, y);
    }

    method LineTo(x: real, y: real)
      modifies this
      ensures curves == old(curves) + [LineCurve(old(currentPoint), Point(x, y))]
      ensures currentPoint == Point(x, y)
    {
      curves := curves + [LineCurve(currentPoint, Point(x, y))];
      currentPoint := Point(x, y);
    }

    method BezierCurveTo(c1x: real, c1y: real, c2x: real, c2y: real, x: real, y: real)
      modifies this
      ensures curves == old(curves) + [CubicBezierCurve(old(currentPoint), Point(c1x, c1y), Point(c2x, c2y), Point(x, y))]
      ensures currentPoint == Point(x, y)
    {
      curves := curves + [CubicBezierCurve(currentPoint, Point(c1x, c1y), Point(c2x, c2y), Point(x, y))];
      currentPoint := Point(x, y);
    }

    method AbsArc(x: real, y: real, radius: real, startAngle: int, endAngle: int, clockwise: bool)
      modifies this
      ensures var arc := ArcCurve(Point(x, y), radius, startAngle, endAngle, clockwise);
              curves == old(curves) + Bridge(old(curves), old(currentPoint), arc) + [arc] &&
              currentPoint == arc.End()
    {
      var arc := ArcCurve(Point(x, y), radius, startAngle, endAngle, clockwise);
      if |curves| > 0 && arc.Start() != currentPoint {
        LineTo(arc.Start().x, arc.Start().y);
      }
      curves := curves + [arc];
      currentPoint := arc.End();
    }

    method ClosePath()
      requires |curves| > 0
      modifies this`curves
      ensures var first, last := old(curves)[0].Start(), old(curves)[|old(curves)| - 1].End();
              curves == old(curves) + (if first != last then [LineCurve(last, first)] else [])
    {
      var first, last := curves[0].Start(), curves[|curves| - 1].End();
      if first != last {
        curves := curves + [LineCurve(last, first)];
      }
    }
  }
}
