/** What `draw` issues to a paint plane's 2D canvas context, as a command log rather
    than pixels, and the redraw policy: a disc while the stroke has fewer than three
    raw points, otherwise one path of quadratic segments through the simplified points. */
module Canvas {
  import opened Geometry

  /** One call on a `CanvasRenderingContext2D`. */
  datatype Cmd =
    | SetStrokeStyle(color: string)
    | SetLineCap(cap: string)
    | SetLineJoin(join: string)
    | SetLineWidth(width: real)
    | ClearRect(width: real, height: real)         // clearRect(0, 0, width, height)
    | Arc(center: Point2, radius: real)            // a full anticlockwise circle
    | Fill
    | ClosePath
    | BeginPath
    | MoveTo(p: Point2)
    | QuadraticCurveTo(control: Point2, end: Point2)
    | Stroke

  /** The context settings a new paint plane's canvas receives: the stroke colour of
      that moment (never set again), round caps and joins, and the current thickness. */
  function InitialCanvas(color: string, thickness: real): seq<Cmd> {
    [SetStrokeStyle(color), SetLineCap("round"), SetLineJoin("round"), SetLineWidth(thickness)]
  }

  /** What one redraw issued, and whether the source's code throws while issuing it. */
  datatype Redrawn = Redrawn(cmds: seq<Cmd>, threw: bool)

  /** The smooth-polyline construction: every segment but the last is controlled by a
      point and ends halfway to the next one; the last is controlled by the second to
      last point and ends on the last point. */
  function Curve(pts: seq<Point2>): (r: seq<Cmd>)
    requires |pts| >= 2
    ensures |r| == |pts| - 1
    ensures r[|r| - 1] == QuadraticCurveTo(pts[|pts| - 2], pts[|pts| - 1])
    decreases |pts|
  {
    if |pts| == 2 then [QuadraticCurveTo(pts[0], pts[1])]
    else [QuadraticCurveTo(pts[0], Midpoint(pts[0], pts[1]))] + Curve(pts[1..])
  }

  /** Segment `i` of the curve, for every `i`. */
  lemma {:induction false} CurveAt(pts: seq<Point2>, i: nat)
    requires |pts| >= 2 && i < |pts| - 1
    ensures i < |pts| - 2 ==> Curve(pts)[i] == QuadraticCurveTo(pts[i], Midpoint(pts[i], pts[i + 1]))
    ensures i == |pts| - 2 ==> Curve(pts)[i] == QuadraticCurveTo(pts[i], pts[i + 1])
    decreases |pts|
  {
    if |pts| > 2 && i > 0 {
      CurveAt(pts[1..], i - 1);
    }
  }

  /** Splitting off the first segment: what the loop in `draw` emits on each turn. */
  lemma CurveStep(pts: seq<Point2>, i: nat)
    requires i + 2 < |pts|
    ensures Curve(pts[i..]) == [QuadraticCurveTo(pts[i], Midpoint(pts[i], pts[i + 1]))] + Curve(pts[i + 1..])
  {
    assert pts[i..][1..] == pts[i + 1..];
  }

  /** The commands one redraw issues after a point was appended, given all raw points
      (`points`, the newest last), their simplification `pts` and the thickness. */
  function Redraw(points: seq<Point2>, pts: seq<Point2>, thickness: real): (r: Redrawn)
    requires |points| > 0
    ensures r.threw <==> |points| >= 3 && |pts| < 2
    ensures |r.cmds| > 0 && r.cmds[0] == ClearRect(PlaneWidth, PlaneHeight)
  {
    var clear := [ClearRect(PlaneWidth, PlaneHeight)];
    if |points| < 3 then
      Redrawn(clear + [Arc(points[|points| - 1], thickness / 2.0), Fill, ClosePath], false)
    else if |pts| == 0 then
      Redrawn(clear + [BeginPath, SetLineWidth(thickness)], true)
    else if |pts| == 1 then
      Redrawn(clear + [BeginPath, SetLineWidth(thickness), MoveTo(pts[0])], true)
    else
      Redrawn(clear + [BeginPath, SetLineWidth(thickness), MoveTo(pts[0])] + Curve(pts) + [Stroke], false)
  }

  /** Dot branch: with one or two raw points the redraw is a disc of radius
      `thickness / 2` at the newest point, filled without a new path and without a stroke. */
  lemma RedrawDot(points: seq<Point2>, pts: seq<Point2>, thickness: real)
    requires 0 < |points| < 3
    ensures var r := Redraw(points, pts, thickness);
      !r.threw && |r.cmds| == 4 &&
      r.cmds[1] == Arc(points[|points| - 1], thickness / 2.0) && r.cmds[2] == Fill &&
      BeginPath !in r.cmds && Stroke !in r.cmds
  {
  }

  /** Curve branch: from the third raw point on, and when the simplifier kept at least
      two points, the redraw is clear, a new path of width `thickness`, `moveTo(pts[0])`,
      exactly `|pts| - 1` quadratic segments and one stroke. */
  lemma {:induction false} RedrawCurve(points: seq<Point2>, pts: seq<Point2>, thickness: real)
    requires |points| >= 3 && |pts| >= 2
    ensures var r := Redraw(points, pts, thickness);
      var n := |pts|;
      !r.threw && |r.cmds| == n + 4 &&
      r.cmds[1] == BeginPath && r.cmds[2] == SetLineWidth(thickness) && r.cmds[3] == MoveTo(pts[0]) &&
      (forall i :: 0 <= i < n - 2 ==> r.cmds[4 + i] == QuadraticCurveTo(pts[i], Midpoint(pts[i], pts[i + 1]))) &&
      r.cmds[4 + (n - 2)] == QuadraticCurveTo(pts[n - 2], pts[n - 1]) &&
      r.cmds[n + 3] == Stroke
  {
    var r := Redraw(points, pts, thickness);
    var n := |pts|;
    var head := [ClearRect(PlaneWidth, PlaneHeight), BeginPath, SetLineWidth(thickness), MoveTo(pts[0])];
    assert r.cmds == head + Curve(pts) + [Stroke];
    forall i | 0 <= i < n - 1
      ensures r.cmds[4 + i] == Curve(pts)[i]
    {
    }
    forall i | 0 <= i < n - 2
      ensures r.cmds[4 + i] == QuadraticCurveTo(pts[i], Midpoint(pts[i], pts[i + 1]))
    {
      CurveAt(pts, i);
    }
  }

  /** The curve branch throws (reads a missing point) exactly when the simplifier
      returned fewer than two points; the commands before the failing read stay issued. */
  lemma RedrawThrows(points: seq<Point2>, pts: seq<Point2>, thickness: real)
    requires |points| >= 3 && |pts| < 2
    ensures var r := Redraw(points, pts, thickness);
      r.threw && r.cmds[..3] == [ClearRect(PlaneWidth, PlaneHeight), BeginPath, SetLineWidth(thickness)] &&
      |r.cmds| == 3 + |pts| && (|pts| == 1 ==> r.cmds[3] == MoveTo(pts[0]))
  {
  }
}
