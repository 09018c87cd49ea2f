/** The generated table top: the 2D outline built from the chosen shape and
    dimensions (centimetres converted to metres), the edge-profile bevel, and
    the fallback box used when there is no outline or extrusion fails. */
module GeneratedTop {
  import opened JsBuiltins
  import opened ThreePath
  import opened ViewerProps

  // ---------------------------------------------------------------------------
  // Corner radius clamping

  /** Rectangular top: the requested corner radius, clamped to a quarter of the
      shorter side. */
  function RectCornerRadius(borderRadius: Option<real>, length: real, width: real): (r: real)
    ensures r <= NumberOr(borderRadius, 0.0) / 100.0 && r <= Min(length, width) / 4.0
    ensures r == NumberOr(borderRadius, 0.0) / 100.0 || r == Min(length, width) / 4.0
    ensures r <= Min(length / 2.0, width / 2.0) / 2.0
  {
    Min(NumberOr(borderRadius, 0.0) / 100.0, Min(length, width) / 4.0)
  }

  /** Square top: the side is the requested length scaled up by 1.3. */
  function SquareSize(squareLength: Option<real>): real {
    NumberOr(squareLength, 150.0) / 100.0 * 1.3
  }

  /** Square top: the requested corner radius, clamped to a quarter of the side. */
  function SquareCornerRadius(borderRadius: Option<real>, size: real): (r: real)
    ensures r <= NumberOr(borderRadius, 0.0) / 100.0 && r <= size / 4.0
    ensures r == NumberOr(borderRadius, 0.0) / 100.0 || r == size / 4.0
    ensures r <= Min(size / 2.0, size / 2.0) / 2.0
  {
    Min(NumberOr(borderRadius, 0.0) / 100.0, size / 4.0)
  }

  /** The guard of the rounded-corner branch. */
  predicate RoundedCorners(halfLength: real, halfWidth: real, cornerRadius: real) {
    cornerRadius > 0.0 && cornerRadius < Min(halfLength, halfWidth)
  }

  /** With the clamp in place, a rectangle gets rounded corners exactly when a
      positive corner radius is asked for and both sides are positive. */
  lemma RectRoundedIff(borderRadius: Option<real>, length: real, width: real)
    ensures RoundedCorners(length / 2.0, width / 2.0, RectCornerRadius(borderRadius, length, width))
        <==> NumberOr(borderRadius, 0.0) > 0.0 && length > 0.0 && width > 0.0
  {
  }

  /** The same for a square. */
  lemma SquareRoundedIff(borderRadius: Option<real>, squareLength: Option<real>)
    ensures var size := SquareSize(squareLength);
            (RoundedCorners(size / 2.0, size / 2.0, SquareCornerRadius(borderRadius, size))
             <==> NumberOr(borderRadius, 0.0) > 0.0 && NumberOr(squareLength, 150.0) > 0.0)
  {
  }

  /** 200 x 100 cm with a 30 cm corner radius: the radius used is 25 cm. */
  lemma RectClampExample()
    ensures RectCornerRadius(Some(30.0), 2.0, 1.0) == 0.25
  {
  }

  // ---------------------------------------------------------------------------
  // Outlines (reference definitions)

  /** A full circle about the origin. */
  function CircleOutline(radius: real): seq<Curve> {
    [ArcCurve(Point(0.0, 0.0), radius, 0, 4, false)]
  }

  /** Four quarter arcs joined by four straight edges, starting on the left
      edge just above the first corner. */
  function RoundedRectOutline(hl: real, hw: real, r: real): seq<Curve> {
    [ ArcCurve(Point(-hl + r, -hw + r), r, 2, 3, false),
      LineCurve(Point(-hl + r, -hw), Point(hl - r, -hw)),
      ArcCurve(Point(hl - r, -hw + r), r, 3, 0, false),
      LineCurve(Point(hl, -hw + r), Point(hl, hw - r)),
      ArcCurve(Point(hl - r, hw - r), r, 0, 1, false),
      LineCurve(Point(hl - r, hw), Point(-hl + r, hw)),
      ArcCurve(Point(-hl + r, hw - r), r, 1, 2, false),
      LineCurve(Point(-hl, hw - r), Point(-hl, -hw + r)) ]
  }

  /** The four edges of the box through its four corners. */
  function SharpRectOutline(hl: real, hw: real): seq<Curve> {
    [ LineCurve(Point(-hl, -hw), Point(hl, -hw)),
      LineCurve(Point(hl, -hw), Point(hl, hw)),
      LineCurve(Point(hl, hw), Point(-hl, hw)),
      LineCurve(Point(-hl, hw), Point(-hl, -hw)) ]
  }

  function RectOutline(hl: real, hw: real, r: real): seq<Curve> {
    if RoundedCorners(hl, hw, r) then RoundedRectOutline(hl, hw, r) else SharpRectOutline(hl, hw)
  }

  /** 4/3 * tan(pi/8), as the source writes it. */
  const Kappa: real := 0.5522847498

  /** An ellipse with semi-axes a and b as four cubic Bezier quadrants. */
  function EllipseOutline(a: real, b: real): seq<Curve> {
    var kx, ky := Kappa * a, Kappa * b;
    [ CubicBezierCurve(Point(a, 0.0), Point(a, ky), Point(kx, b), Point(0.0, b)),
      CubicBezierCurve(Point(0.0, b), Point(-kx, b), Point(-a, ky), Point(-a, 0.0)),
      CubicBezierCurve(Point(-a, 0.0), Point(-a, -ky), Point(-kx, -b), Point(0.0, -b)),
      CubicBezierCurve(Point(0.0, -b), Point(kx, -b), Point(a, -ky), Point(a, 0.0)) ]
  }

  /** The outline for a shape and its dimensions; `None` is the source's `null`. */
  function Outline(shape: Option<string>, dims: Option<Dimensions>): Option<seq<Curve>> {
    if !Truthy(shape) || dims.None? then None
    else
      var d := dims.value;
      match shape.value
      case "round" => Some(CircleOutline(NumberOr(d.radius, 100.0) / 100.0))
      case "square" =>
        var size := SquareSize(d.squareLength);
        Some(RectOutline(size / 2.0, size / 2.0, SquareCornerRadius(d.borderRadius, size)))
      case "rectangular" =>
        var length, width := NumberOr(d.length, 200.0) / 100.0, NumberOr(d.width, 100.0) / 100.0;
        Some(RectOutline(length / 2.0, width / 2.0, RectCornerRadius(d.borderRadius, length, width)))
      case "oval" =>
        Some(EllipseOutline(NumberOr(d.largestDiameter, 200.0) / 200.0, NumberOr(d.smallestDiameter, 120.0) / 200.0))
      case _ => None
  }

  // ---------------------------------------------------------------------------
  // generateShape, driving the path builder

  /** One corner of a rounded rectangle: the quarter arc, then the straight
      edge to (x, y). The arc starts at the current point, so `absarc` adds
      no connecting line. */
  method CornerThenEdge(p: ShapePath, cx: real, cy: real, r: real, s: int, e: int, x: real, y: real)
    requires p.currentPoint == OnCircle(Point(cx, cy), r, s)
    modifies p
    ensures p.curves == old(p.curves) + [ArcCurve(Point(cx, cy), r, s, e, false),
                                         LineCurve(OnCircle(Point(cx, cy), r, e), Point(x, y))]
    ensures p.currentPoint == Point(x, y)
  {
    p.AbsArc(cx, cy, r, s, e, false);
    ArcEndsAtEndAngle(Point(cx, cy), r, s, e, false);
    p.LineTo(x, y);
  }

  /** The rounded rectangle of `generateShape` (src/components/ModelViewer.tsx,
      lines 309-326 for a square, 350-367 for a rectangle), traced on a fresh path. */
  method TraceRoundedRect(p: ShapePath, hl: real, hw: real, r: real)
    requires p.curves == []
    modifies p
    ensures p.curves == RoundedRectOutline(hl, hw, r)
  {
    p.MoveTo(-hl, -hw + r);
    CornerThenEdge(p, -hl + r, -hw + r, r, 2, 3, hl - r, -hw);
    CornerThenEdge(p, hl - r, -hw + r, r, 3, 0, hl, hw - r);
    CornerThenEdge(p, hl - r, hw - r, r, 0, 1, -hl + r, hw);
    CornerThenEdge(p, -hl + r, hw - r, r, 1, 2, -hl, -hw + r);
    assert p.curves == RoundedRectOutline(hl, hw, r);
    p.ClosePath();
  }

  /** The sharp-cornered rectangle (lines 329-333 and 370-374): four edges and no `closePath`. */
  method TraceSharpRect(p: ShapePath, hl: real, hw: real)
    modifies p
    ensures p.curves == old(p.curves) + SharpRectOutline(hl, hw)
  {
    p.MoveTo(-hl, -hw);
    p.LineTo(hl, -hw);
    p.LineTo(hl, hw);
    p.LineTo(-hl, hw);
    p.LineTo(-hl, -hw);
  }

  /** Either rectangle, as chosen by the corner-radius guard. */
  method TraceRect(p: ShapePath, hl: real, hw: real, cornerRadius: real)
    requires p.curves == []
    modifies p
    ensures p.curves == RectOutline(hl, hw, cornerRadius)
  {
    if cornerRadius > 0.0 && cornerRadius < Min(hl, hw) {
      TraceRoundedRect(p, hl, hw, cornerRadius);
    } else {
      TraceSharpRect(p, hl, hw);
    }
  }

  /** The full circle (lines 292-295): one arc, and `closePath` adds nothing. */
  method TraceCircle(p: ShapePath, radius: real)
    requires p.curves == []
    modifies p
    ensures p.curves == CircleOutline(radius)
  {
    p.AbsArc(0.0, 0.0, radius, 0, 4, false);
    ArcEndsAtEndAngle(Point(0.0, 0.0), radius, 0, 4, false);
    p.ClosePath();
  }

  /** The ellipse (lines 380-395): four Bezier quadrants, and `closePath` adds nothing. */
  method TraceEllipse(p: ShapePath, a: real, b: real)
    requires p.curves == []
    modifies p
    ensures p.curves == EllipseOutline(a, b)
  {
    var kx := Kappa * a;
    var ky := Kappa * b;
    p.MoveTo(a, 0.0);
    p.BezierCurveTo(a, ky, kx, b, 0.0, b);
    p.BezierCurveTo(-kx, b, -a, ky, -a, 0.0);
    p.BezierCurveTo(-a, -ky, -kx, -b, 0.0, -b);
    p.BezierCurveTo(kx, -b, a, -ky, a, 0.0);
    p.ClosePath();
  }

  /** The `'round'` case of `generateShape`. */
  method RoundShape(d: Dimensions) returns (cs: seq<Curve>)
    ensures cs == CircleOutline(NumberOr(d.radius, 100.0) / 100.0)
    ensures Connected(cs) && Closed(cs)
  {
    var radius := NumberOr(d.radius, 100.0) / 100.0;
    var p := new ShapePath();
    TraceCircle(p, radius);
    CircleOutlineFacts(radius);
    cs := p.curves;
  }

  /** The `'square'` case: the side is enlarged 1.3 times. */
  method SquareShape(d: Dimensions) returns (cs: seq<Curve>)
    ensures var size := SquareSize(d.squareLength);
            cs == RectOutline(size / 2.0, size / 2.0, SquareCornerRadius(d.borderRadius, size))
    ensures Connected(cs) && Closed(cs)
  {
    var size := NumberOr(d.squareLength, 150.0) / 100.0 * 1.3;
    var cornerRadius := Min(NumberOr(d.borderRadius, 0.0) / 100.0, size / 4.0);
    var halfSize := size / 2.0;
    var p := new ShapePath();
    TraceRect(p, halfSize, halfSize, cornerRadius);
    RectOutlineClosed(halfSize, halfSize, cornerRadius);
    cs := p.curves;
  }

  /** The `'rectangular'` case: length along x, width along y. */
  method RectangularShape(d: Dimensions) returns (cs: seq<Curve>)
    ensures var length, width := NumberOr(d.length, 200.0) / 100.0, NumberOr(d.width, 100.0) / 100.0;
            cs == RectOutline(length / 2.0, width / 2.0, RectCornerRadius(d.borderRadius, length, width))
    ensures Connected(cs) && Closed(cs)
  {
    var length := NumberOr(d.length, 200.0) / 100.0;
    var width := NumberOr(d.width, 100.0) / 100.0;
    var cornerRadius := Min(NumberOr(d.borderRadius, 0.0) / 100.0, Min(length, width) / 4.0);
    var halfLength := length / 2.0;
    var halfWidth := width / 2.0;
    var p := new ShapePath();
    TraceRect(p, halfLength, halfWidth, cornerRadius);
    RectOutlineClosed(halfLength, halfWidth, cornerRadius);
    cs := p.curves;
  }

  /** The `'oval'` case: the diameters are halved into semi-axes. */
  method OvalShape(d: Dimensions) returns (cs: seq<Curve>)
    ensures cs == EllipseOutline(NumberOr(d.largestDiameter, 200.0) / 200.0, NumberOr(d.smallestDiameter, 120.0) / 200.0)
    ensures Connected(cs) && Closed(cs)
  {
    var a := NumberOr(d.largestDiameter, 200.0) / 200.0;
    var b := NumberOr(d.smallestDiameter, 120.0) / 200.0;
    var p := new ShapePath();
    TraceEllipse(p, a, b);
    EllipseOutlineFacts(a, b);
    cs := p.curves;
  }

  /** `generateShape`: the outline, built call by call on a path, or `null`.
      Whatever it returns is one gap-free closed loop. */
  method GenerateShape(shape: Option<string>, dims: Option<Dimensions>) returns (outline: Option<seq<Curve>>)
    ensures outline == Outline(shape, dims)
    ensures outline.Some? ==> Connected(outline.value) && Closed(outline.value)
  {
    if !Truthy(shape) || dims.None? {
      return None;
    }
    var d := dims.value;
    var cs: seq<Curve>;
    match shape.value {
      case "round" =>
        cs := RoundShape(d);
        OutlineRound(d);
      case "square" =>
        cs := SquareShape(d);
        OutlineSquare(d);
      case "rectangular" =>
        cs := RectangularShape(d);
        OutlineRectangular(d);
      case "oval" =>
        cs := OvalShape(d);
        OutlineOval(d);
      case _ =>
        return None;
    }
    outline := Some(cs);
  }

  /** `Outline` for each of the shapes the generator knows. */
  lemma OutlineRound(d: Dimensions)
    ensures Outline(Some("round"), Some(d)) == Some(CircleOutline(NumberOr(d.radius, 100.0) / 100.0))
  {
  }

  lemma OutlineSquare(d: Dimensions)
    ensures var size := SquareSize(d.squareLength);
            Outline(Some("square"), Some(d)) == Some(RectOutline(size / 2.0, size / 2.0, SquareCornerRadius(d.borderRadius, size)))
  {
  }

  lemma OutlineRectangular(d: Dimensions)
    ensures var length, width := NumberOr(d.length, 200.0) / 100.0, NumberOr(d.width, 100.0) / 100.0;
            Outline(Some("rectangular"), Some(d)) == Some(RectOutline(length / 2.0, width / 2.0, RectCornerRadius(d.borderRadius, length, width)))
  {
  }

  lemma OutlineOval(d: Dimensions)
    ensures Outline(Some("oval"), Some(d)) == Some(EllipseOutline(NumberOr(d.largestDiameter, 200.0) / 200.0, NumberOr(d.smallestDiameter, 120.0) / 200.0))
  {
  }

  // ---------------------------------------------------------------------------
  // Facts about the outlines

  predicate InBox(p: Point, hx: real, hy: real) {
    -hx <= p.x <= hx && -hy <= p.y <= hy
  }

  /** A line's ends, an arc's whole circle, a Bezier's control points lie in the box. */
  predicate CurveInBox(c: Curve, hx: real, hy: real) {
    match c
    case LineCurve(a, b) => InBox(a, hx, hy) && InBox(b, hx, hy)
    case ArcCurve(o, r, _, _, _) =>
      r >= 0.0 && -hx <= o.x - r && o.x + r <= hx && -hy <= o.y - r && o.y + r <= hy
    case CubicBezierCurve(a, b, c, d) =>
      InBox(a, hx, hy) && InBox(b, hx, hy) && InBox(c, hx, hy) && InBox(d, hx, hy)
  }

  ghost predicate OutlineInBox(cs: seq<Curve>, hx: real, hy: real) {
    forall i :: 0 <= i < |cs| ==> CurveInBox(cs[i], hx, hy)
  }

  /** Some curve ends on each of the four sides of the box. */
  ghost predicate TouchesAllSides(cs: seq<Curve>, hx: real, hy: real) {
    (exists i :: 0 <= i < |cs| && cs[i].End().x == hx) &&
    (exists i :: 0 <= i < |cs| && cs[i].End().x == -hx) &&
    (exists i :: 0 <= i < |cs| && cs[i].End().y == hy) &&
    (exists i :: 0 <= i < |cs| && cs[i].End().y == -hy)
  }

  lemma CircleOutlineFacts(radius: real)
    ensures var cs := CircleOutline(radius);
            Connected(cs) && Closed(cs) &&
            cs[0].Start() == Point(radius, 0.0) &&
            Sweep(cs[0].startAngle, cs[0].endAngle, cs[0].clockwise) == 4
  {
  }

  lemma RoundedRectOutlineClosed(hl: real, hw: real, r: real)
    ensures var cs := RoundedRectOutline(hl, hw, r);
            Connected(cs) && Closed(cs) && cs[0].Start() == Point(-hl, -hw + r)
  {
    var cs := RoundedRectOutline(hl, hw, r);
    forall i | 0 < i < |cs| ensures cs[i].Start() == cs[i - 1].End() {
      if i == 1 {} else if i == 2 {} else if i == 3 {} else if i == 4 {}
      else if i == 5 {} else if i == 6 {} else {}
    }
  }

  /** The four corner arcs each turn a quarter, with the corner radius: one
      full counter-clockwise turn in all. */
  lemma RoundedRectOutlineArcs(hl: real, hw: real, r: real)
    ensures var cs := RoundedRectOutline(hl, hw, r);
            forall i :: 0 <= i < |cs| && cs[i].ArcCurve? ==>
              cs[i].radius == r && Sweep(cs[i].startAngle, cs[i].endAngle, cs[i].clockwise) == 1
  {
    var cs := RoundedRectOutline(hl, hw, r);
    forall i | 0 <= i < |cs| && cs[i].ArcCurve?
      ensures cs[i].radius == r && Sweep(cs[i].startAngle, cs[i].endAngle, cs[i].clockwise) == 1
    {
      if i == 0 {} else if i == 2 {} else if i == 4 {} else if i == 6 {}
    }
  }

  lemma RoundedRectOutlineInBox(hl: real, hw: real, r: real)
    requires 0.0 < r && 2.0 * r <= hl && 2.0 * r <= hw
    ensures var cs := RoundedRectOutline(hl, hw, r);
            OutlineInBox(cs, hl, hw) && TouchesAllSides(cs, hl, hw)
  {
    var cs := RoundedRectOutline(hl, hw, r);
    RoundedRectOutlineClosed(hl, hw, r);
    assert cs[1].End().y == -hw && cs[3].End().x == hl && cs[5].End().y == hw && cs[7].End().x == -hl;
  }

  lemma SharpRectOutlineFacts(hl: real, hw: real)
    ensures var cs := SharpRectOutline(hl, hw);
            Connected(cs) && Closed(cs) &&
            cs[0].Start() == Point(-hl, -hw) && cs[|cs| - 1].End() == Point(-hl, -hw) &&
            OutlineInBox(cs, Abs(hl), Abs(hw)) && TouchesAllSides(cs, hl, hw)
  {
    var cs := SharpRectOutline(hl, hw);
    assert cs[0].End().x == hl && cs[1].End().y == hw && cs[2].End().x == -hl && cs[3].End().y == -hw;
  }

  /** Either rectangle outline is a closed loop. */
  lemma RectOutlineClosed(hl: real, hw: real, r: real)
    ensures Connected(RectOutline(hl, hw, r)) && Closed(RectOutline(hl, hw, r))
  {
    if RoundedCorners(hl, hw, r) {
      RoundedRectOutlineClosed(hl, hw, r);
    } else {
      SharpRectOutlineFacts(hl, hw);
    }
  }

  /** A corner radius clamped to half the shorter half-side keeps either
      rectangle outline inside the box, touching all four sides. */
  lemma RectOutlineInBox(hl: real, hw: real, r: real)
    requires r <= Min(hl, hw) / 2.0
    ensures OutlineInBox(RectOutline(hl, hw, r), Abs(hl), Abs(hw))
    ensures TouchesAllSides(RectOutline(hl, hw, r), hl, hw)
  {
    if RoundedCorners(hl, hw, r) {
      RoundedRectOutlineInBox(hl, hw, r);
    } else {
      SharpRectOutlineFacts(hl, hw);
    }
  }

  lemma EllipseOutlineFacts(a: real, b: real)
    ensures var cs := EllipseOutline(a, b);
            Connected(cs) && Closed(cs) &&
            cs[0].Start() == Point(a, 0.0) && cs[0].End() == Point(0.0, b) &&
            cs[1].End() == Point(-a, 0.0) && cs[2].End() == Point(0.0, -b) &&
            OutlineInBox(cs, Abs(a), Abs(b)) && TouchesAllSides(cs, a, b)
  {
    var cs := EllipseOutline(a, b);
    assert Abs(Kappa * a) <= Abs(a) && Abs(Kappa * b) <= Abs(b);
    assert cs[3].End().x == a && cs[0].End().y == b && cs[1].End().x == -a && cs[2].End().y == -b;
  }

  /** There is no outline exactly when the shape or the dimensions are missing
      or the shape is not one of the four the generator knows. */
  lemma OutlineNullIff(shape: Option<string>, dims: Option<Dimensions>)
    ensures Outline(shape, dims).None? <==>
            !Truthy(shape) || dims.None? || shape.value !in {"round", "square", "rectangular", "oval"}
  {
  }

  // ---------------------------------------------------------------------------
  // Edge profile and extrusion

  datatype Bevel = Bevel(enabled: bool, thickness: real, size: real, segments: nat)

  /** The bevel an edge profile gives a top of thickness t; unknown profiles,
      including the default 'straight', give none. */
  function ProfileBevel(profile: string, t: real): (b: Bevel)
    ensures t >= 0.0 ==> 0.0 <= b.size <= b.thickness <= t / 2.0
    ensures b.enabled <==> b.segments > 0
    ensures !b.enabled ==> b == Bevel(false, 0.0, 0.0, 0)
    ensures b.segments <= 64
    ensures b.enabled <==> profile in {"pencil-round", "shark-nose", "bull-nose", "bullnose", "eased"}
  {
    match profile
    case "pencil-round" => Bevel(true, t * 0.2, t * 0.2, 32)
    case "shark-nose" => Bevel(true, t * 0.5, t * 0.05, 16)
    case "bull-nose" => Bevel(true, t * 0.5, t * 0.5, 64)
    case "bullnose" => Bevel(true, t * 0.5, t * 0.5, 64)
    case "eased" => Bevel(true, t * 0.1, t * 0.1, 24)
    case _ => Bevel(false, 0.0, 0.0, 0)
  }

  /** The profile table, row by row: pencil-round 20 % with 32 segments,
      shark-nose 50 % deep and 5 % wide with 16, both bull-nose spellings
      50 % with 64, eased 10 % with 24; 'standard' and every other profile
      have no bevel. */
  lemma ProfileBevelTable(profile: string, t: real)
    ensures ProfileBevel("pencil-round", t) == Bevel(true, t * 0.2, t * 0.2, 32)
    ensures ProfileBevel("shark-nose", t) == Bevel(true, t * 0.5, t * 0.05, 16)
    ensures ProfileBevel("bull-nose", t) == ProfileBevel("bullnose", t) == Bevel(true, t * 0.5, t * 0.5, 64)
    ensures ProfileBevel("eased", t) == Bevel(true, t * 0.1, t * 0.1, 24)
    ensures ProfileBevel("standard", t) == Bevel(false, 0.0, 0.0, 0)
    ensures profile !in {"pencil-round", "shark-nose", "bull-nose", "bullnose", "eased"} ==>
              ProfileBevel(profile, t) == Bevel(false, 0.0, 0.0, 0)
  {
  }

  /** A 20 mm bull-nose top: a 10 mm bevel both ways, with the most segments. */
  lemma BullnoseExample()
    ensures ProfileBevel("bullnose", 0.02) == Bevel(true, 0.01, 0.01, 64)
    ensures ProfileBevel("bull-nose", 0.02) == ProfileBevel("bullnose", 0.02)
  {
  }

  datatype ExtrudeSettings = ExtrudeSettings(
    depth: real, bevelEnabled: bool, bevelThickness: real, bevelSize: real,
    bevelSegments: nat, curveSegments: nat)

  datatype TopGeometry =
    | BoxGeometry(width: real, height: real, depth: real)
    | ExtrudeGeometry(outline: seq<Curve>, settings: ExtrudeSettings)

  /** The geometry of a generated top: the extruded outline, or the 2 x t x 1
      box when there is no outline or the extrusion throws. */
  function Geometry(outline: Option<seq<Curve>>, thickness: real, profile: string, extrudeThrows: bool): (g: TopGeometry)
    ensures g.BoxGeometry? <==> outline.None? || extrudeThrows
    ensures g.BoxGeometry? ==> g == BoxGeometry(2.0, thickness, 1.0)
    ensures g.ExtrudeGeometry? ==> g.outline == outline.value && g.settings.depth == thickness && g.settings.curveSegments == 128
    ensures g.ExtrudeGeometry? ==>
              var b := ProfileBevel(profile, thickness);
              g.settings.bevelEnabled == b.enabled && g.settings.bevelThickness == b.thickness &&
              g.settings.bevelSize == b.size && g.settings.bevelSegments == b.segments
  {
    if outline.None? || extrudeThrows then BoxGeometry(2.0, thickness, 1.0)
    else
      var b := ProfileBevel(profile, thickness);
      ExtrudeGeometry(outline.value, ExtrudeSettings(thickness, b.enabled, b.thickness, b.size, b.segments, 128))
  }

  /** Lines 434-497: the extrude settings assigned profile by profile. */
  method CreateGeometry(outline: Option<seq<Curve>>, thickness: real, edgeProfile: string, extrudeThrows: bool)
    returns (g: TopGeometry)
    ensures g == Geometry(outline, thickness, edgeProfile, extrudeThrows)
  {
    if outline.None? {
      return BoxGeometry(2.0, thickness, 1.0);
    }
    var bevelEnabled := false;
    var bevelThickness := 0.0;
    var bevelSize := 0.0;
    var bevelSegments: nat := 0;
    match edgeProfile {
      case "standard" =>
        bevelEnabled := false;
      case "pencil-round" =>
        bevelEnabled := true;
        bevelThickness := thickness * 0.2;
        bevelSize := thickness * 0.2;
        bevelSegments := 32;
      case "shark-nose" =>
        bevelEnabled := true;
        bevelThickness := thickness * 0.5;
        bevelSize := thickness * 0.05;
        bevelSegments := 16;
      case "bull-nose" =>
        bevelEnabled := true;
        bevelThickness := thickness * 0.5;
        bevelSize := thickness * 0.5;
        bevelSegments := 64;
      case "bullnose" =>
        bevelEnabled := true;
        bevelThickness := thickness * 0.5;
        bevelSize := thickness * 0.5;
        bevelSegments := 64;
      case "eased" =>
        bevelEnabled := true;
        bevelThickness := thickness * 0.1;
        bevelSize := thickness * 0.1;
        bevelSegments := 24;
      case _ =>
        bevelEnabled := false;
    }
    var settings := ExtrudeSettings(thickness, bevelEnabled, bevelThickness, bevelSize, bevelSegments, 128);
    if extrudeThrows {
      g := BoxGeometry(2.0, thickness, 1.0);
    } else {
      g := ExtrudeGeometry(outline.value, settings);
    }
  }

  /** `GeneratedTableTop`: outline, then geometry. A missing thickness
      defaults to 0.02 m and a missing edge profile to 'straight'. */
  method GeneratedTableTop(shape: Option<string>, dims: Option<Dimensions>, thickness: Option<real>,
                           edgeProfile: Option<string>, extrudeThrows: bool)
    returns (g: TopGeometry)
    ensures var t := if thickness.Some? then thickness.value else 0.02;
            var profile := if edgeProfile.Some? then edgeProfile.value else "straight";
            g == Geometry(Outline(shape, dims), t, profile, extrudeThrows)
    ensures g.ExtrudeGeometry? ==> Connected(g.outline) && Closed(g.outline)
  {
    var outline := GenerateShape(shape, dims);
    var t := if thickness.Some? then thickness.value else 0.02;
    var profile := if edgeProfile.Some? then edgeProfile.value else "straight";
    g := CreateGeometry(outline, t, profile, extrudeThrows);
  }

  /** A 'curved-rectangular' top, which the generator does not know, is the fallback box. */
  lemma UnknownShapeGivesBox(shape: string, dims: Option<Dimensions>, thickness: real, profile: string, extrudeThrows: bool)
    requires shape !in {"round", "square", "rectangular", "oval"}
    ensures Geometry(Outline(Some(shape), dims), thickness, profile, extrudeThrows) == BoxGeometry(2.0, thickness, 1.0)
  {
  }
}
