/** The drawing session (`viewmodel/DrawingViewModel.kt`): the live shape
    list, the tools, the undo/redo history and the snap indicator, together
    with the hit tests and snapping rules the screen calls.

    The class `DrawingViewModel` keeps the source's mutable state as fields;
    its stateless helpers are module-level functions here, each specified on
    its own and used by the class. */
module ViewModel {
  import opened Util
  import opened Geometry
  import opened Shapes
  import opened Tools
  import opened UndoHistory

  // ---------------------------------------------------------------------
  // Tools

  /** A tap closer than this to a tool's position selects the tool. */
  const ToolHitRadius: real := 100.0

  /** The session's instruments: a ruler, a 45 degree set square and a
      protractor, in that order, with pairwise distinct ids. */
  ghost predicate ToolsWellFormed(ts: seq<Tool>) {
    && |ts| == 3
    && ts[0].Ruler? && ts[1].SetSquare? && ts[1].variant45 && ts[2].Protractor?
    && ts[0].id != ts[1].id && ts[0].id != ts[2].id && ts[1].id != ts[2].id
  }

  /** The initial tool list, with default transforms. The source draws the
      three ids from `UUID.randomUUID()`; here they are given. */
  function InitialTools(rulerId: string, setSquareId: string, protractorId: string): (ts: seq<Tool>)
    ensures |ts| == 3 && forall i :: 0 <= i < 3 ==> ts[i].transform == ToolTransform()
    ensures rulerId != setSquareId && rulerId != protractorId && setSquareId != protractorId ==>
      ToolsWellFormed(ts)
  {
    [Ruler(rulerId), SetSquare(setSquareId, variant45 := true), Protractor(protractorId)]
  }

  /** Kotlin's `{ it.id == toolId }`. */
  function HasId(id: string): Tool -> bool {
    (t: Tool) => t.id == id
  }

  /** `updateToolTransform` on a tool list: the first tool with id `id`
      takes the transform `tr`; every other tool, and every id and kind,
      stays as it was. An unknown id changes nothing. */
  function UpdateTransform(ts: seq<Tool>, id: string, tr: ToolTransform): (r: seq<Tool>)
    ensures |r| == |ts|
    ensures forall i :: 0 <= i < |ts| ==> r[i].id == ts[i].id && SameInstrument(r[i], ts[i])
    ensures forall i :: 0 <= i < |ts| ==>
      r[i].transform == if ts[i].id == id && (forall j :: 0 <= j < i ==> ts[j].id != id) then tr else ts[i].transform
    ensures (forall i :: 0 <= i < |ts| ==> ts[i].id != id) ==> r == ts
  {
    match IndexOfFirst(ts, HasId(id))
    case None => ts
    case Some(k) => ts[k := WithTransform(ts[k], tr)]
  }

  /** With pairwise distinct ids, exactly the tool named `id` moves, and the
      tool list stays well formed. */
  lemma {:induction false} UpdateTransformTargetsOnlyNamedTool(ts: seq<Tool>, id: string, tr: ToolTransform)
    requires ToolsWellFormed(ts)
    ensures ToolsWellFormed(UpdateTransform(ts, id, tr))
    ensures forall i :: 0 <= i < 3 ==>
      UpdateTransform(ts, id, tr)[i].transform == if ts[i].id == id then tr else ts[i].transform
  {
    var r := UpdateTransform(ts, id, tr);
    forall i | 0 <= i < 3
      ensures r[i].transform == if ts[i].id == id then tr else ts[i].transform
    {
      if ts[i].id == id {
        assert forall j :: 0 <= j < i ==> ts[j].id != id;
      }
    }
  }

  /** `findToolAt`'s test: the tool's position is closer than ToolHitRadius. */
  predicate NearTool(lib: MathLib, t: Tool, pos: Point) {
    Distance(lib, t.transform.position, pos) < ToolHitRadius
  }

  // ---------------------------------------------------------------------
  // Committing and previewing shapes

  /** `points.zipWithNext { a, b -> LineSegment(a, b) }`: one segment per
      consecutive pair of stroke points, in order. */
  function Polyline(points: seq<Point>): (r: seq<Shape>)
    ensures |r| == if |points| < 2 then 0 else |points| - 1
    ensures forall i :: 0 <= i < |r| ==> r[i] == LineSegment(points[i], points[i + 1])
  {
    if |points| < 2 then []
    else [LineSegment(points[0], points[1])] + Polyline(points[1..])
  }

  /** The preview step of `addArcPreview` and `addArc`: drop the last shape
      when it is of the same kind as the preview, then append the preview.
      The last shape is dropped whether it was an earlier preview or a
      committed shape. */
  function ReplacePreview(shapes: seq<Shape>, preview: Shape): (r: seq<Shape>)
    ensures |r| > 0 && r[|r| - 1] == preview
    ensures |shapes| > 0 && SameKind(shapes[|shapes| - 1], preview) ==> r[..|r| - 1] == shapes[..|shapes| - 1]
    ensures !(|shapes| > 0 && SameKind(shapes[|shapes| - 1], preview)) ==> r[..|r| - 1] == shapes
  {
    var kept := if |shapes| > 0 && SameKind(shapes[|shapes| - 1], preview) then shapes[..|shapes| - 1] else shapes;
    assert (kept + [preview])[..|kept|] == kept;
    kept + [preview]
  }

  /** Previews do not pile up: a second preview of the same kind replaces
      the first, leaving what a single preview would have left. */
  lemma {:induction false} PreviewsDoNotAccumulate(shapes: seq<Shape>, p1: Shape, p2: Shape)
    requires SameKind(p1, p2)
    ensures ReplacePreview(ReplacePreview(shapes, p1), p2) == ReplacePreview(shapes, p2)
  {
    var once := ReplacePreview(shapes, p1);
    assert once[..|once| - 1] + [p2] == ReplacePreview(once, p2);
    var kept := if |shapes| > 0 && SameKind(shapes[|shapes| - 1], p2) then shapes[..|shapes| - 1] else shapes;
    assert ReplacePreview(shapes, p2)[..|ReplacePreview(shapes, p2)| - 1] == kept;
    assert ReplacePreview(shapes, p2) == kept + [p2];
  }

  // ---------------------------------------------------------------------
  // Hit testing

  /** The hit-test threshold `findShapeAt` uses when none is given. */
  const DefaultShapeThreshold: real := 20.0

  /** `(ap . ab) / |ab|^2`: how far along `ab` the foot of the perpendicular
      from `p` lies, as a multiple of `ab`. */
  function ProjectionFactor(p: Point, a: Point, b: Point): (dot: real)
    requires (b.x - a.x) * (b.x - a.x) + (b.y - a.y) * (b.y - a.y) != 0.0
    ensures dot * ((b.x - a.x) * (b.x - a.x) + (b.y - a.y) * (b.y - a.y))
      == (p.x - a.x) * (b.x - a.x) + (p.y - a.y) * (b.y - a.y)
  {
    ((p.x - a.x) * (b.x - a.x) + (p.y - a.y) * (b.y - a.y))
      / ((b.x - a.x) * (b.x - a.x) + (b.y - a.y) * (b.y - a.y))
  }

  /** The foot of the perpendicular from `p` to the line through `a` and `b`,
      computed as `pointToLineDistance` does: `a + ((ap . ab) / |ab|^2) ab`.
      It lies on the line and `p - q` is perpendicular to it. */
  function Projection(p: Point, a: Point, b: Point): (q: Point)
    requires (b.x - a.x) * (b.x - a.x) + (b.y - a.y) * (b.y - a.y) != 0.0
    ensures OnLine(q, a, b)
    ensures (p.x - q.x) * (b.x - a.x) + (p.y - q.y) * (b.y - a.y) == 0.0
  {
    var abx, aby := b.x - a.x, b.y - a.y;
    var dot := ProjectionFactor(p, a, b);
    assert (p.x - (a.x + dot * abx)) * abx + (p.y - (a.y + dot * aby)) * aby
        == (p.x - a.x) * abx + (p.y - a.y) * aby - dot * (abx * abx + aby * aby);
    Point(a.x + dot * abx, a.y + dot * aby)
  }

  /** The projection is the point of the line nearest to `p`: no point
      `a + t (b - a)` of the line is closer (compared by squared distance). */
  lemma {:induction false} ProjectionIsNearest(p: Point, a: Point, b: Point, t: real)
    requires (b.x - a.x) * (b.x - a.x) + (b.y - a.y) * (b.y - a.y) != 0.0
    ensures var q := Projection(p, a, b);
      var other := Point(a.x + t * (b.x - a.x), a.y + t * (b.y - a.y));
      Sq(p.x - q.x) + Sq(p.y - q.y) <= Sq(p.x - other.x) + Sq(p.y - other.y)
  {
    NearestOnLine(p.x, p.y, a.x, a.y, b.x - a.x, b.y - a.y, ProjectionFactor(p, a, b), t);
  }

  /** ProjectionIsNearest in coordinates: if `u = p - (a + d w)` is
      perpendicular to `w`, then `a + d w` is no farther from `p` than
      `a + t w`. */
  lemma NearestOnLine(px: real, py: real, ax: real, ay: real, wx: real, wy: real, d: real, t: real)
    requires (px - (ax + d * wx)) * wx + (py - (ay + d * wy)) * wy == 0.0
    ensures Sq(px - (ax + d * wx)) + Sq(py - (ay + d * wy)) <= Sq(px - (ax + t * wx)) + Sq(py - (ay + t * wy))
  {
    var ux, uy := px - (ax + d * wx), py - (ay + d * wy);
    var vx, vy := (d - t) * wx, (d - t) * wy;
    ScaledStaysPerpendicular(ux, uy, wx, wy, d - t);
    assert px - (ax + t * wx) == ux + vx && py - (ay + t * wy) == uy + vy;
    PerpendicularIsShorter(ux, uy, vx, vy);
  }

  lemma ScaledStaysPerpendicular(ux: real, uy: real, wx: real, wy: real, k: real)
    requires ux * wx + uy * wy == 0.0
    ensures ux * (k * wx) + uy * (k * wy) == 0.0
  {
    assert ux * (k * wx) + uy * (k * wy) == k * (ux * wx + uy * wy);
  }

  /** Pythagoras: adding a perpendicular vector never shortens a vector. */
  lemma PerpendicularIsShorter(ux: real, uy: real, vx: real, vy: real)
    requires ux * vx + uy * vy == 0.0
    ensures Sq(ux) + Sq(uy) <= Sq(ux + vx) + Sq(uy + vy)
  {
    assert Sq(ux + vx) + Sq(uy + vy) == Sq(ux) + Sq(uy) + Sq(vx) + Sq(vy) + 2.0 * (ux * vx + uy * vy);
    SquareNonNegative(vx);
    SquareNonNegative(vy);
  }

  /** `pointToLineDistance`: the distance from `p` to its projection on the
      infinite line through `a` and `b`. When |ab|^2 is zero the source
      divides 0 by 0 and returns NaN, which no threshold comparison accepts;
      that case is None here. */
  function PointToLineDistance(lib: MathLib, p: Point, a: Point, b: Point): (r: Option<real>)
    ensures r.None? <==> (b.x - a.x) * (b.x - a.x) + (b.y - a.y) * (b.y - a.y) == 0.0
    ensures a == b ==> r.None?
    ensures r.Some? ==> r.value == Distance(lib, p, Projection(p, a, b))
    ensures r.Some? && SqrtLaw(lib) ==> r.value >= 0.0
  {
    var abx, aby := b.x - a.x, b.y - a.y;
    if abx * abx + aby * aby == 0.0 then None
    else Some(Distance(lib, p, Projection(p, a, b)))
  }

  /** A segment is hit anywhere along its infinite line: a point far beyond
      its end, but on the line, is at distance zero. */
  lemma {:induction false} SegmentHitBeyondEnd(lib: MathLib, threshold: real)
    requires SqrtLaw(lib) && threshold > 0.0
    ensures ShapeHit(lib, LineSegment(Point(0.0, 0.0), Point(10.0, 0.0)), Point(1000.0, 0.0), threshold)
  {
    var a, b, p := Point(0.0, 0.0), Point(10.0, 0.0), Point(1000.0, 0.0);
    assert Projection(p, a, b) == p;
    DistanceToSelf(lib, p);
  }

  /** `sweepAngleDeg % 360`, shifted into [0, 360) when negative: the sweep
      modulo whole turns. */
  function NormalizedSweep(sweepDeg: real): (ns: real)
    ensures 0.0 <= ns < 360.0
    ensures WholeTurns(ns - sweepDeg)
  {
    var sweep := Rem360(sweepDeg);
    if sweep < 0.0 then
      WholeTurnsNegatedShift(sweepDeg - sweep, 1);
      sweep + 360.0
    else
      WholeTurnsNegatedShift(sweepDeg - sweep, 0);
      sweep
  }

  lemma WholeTurnsNegatedShift(d: real, k: int)
    requires WholeTurns(d)
    ensures WholeTurns(360.0 * k as real - d)
  {
    var n := (d / 360.0).Floor;
    WholeTurnsOf(k - n);
    assert 360.0 * k as real - d == 360.0 * (k - n) as real;
  }

  /** A whole number of turns strictly between -360 and 720 is 0 or 360. */
  lemma WholeTurnsBetween(d: real)
    requires WholeTurns(d) && -360.0 < d < 720.0
    ensures d == 0.0 || d == 360.0
  {
    var n := (d / 360.0).Floor;
    assert d == 360.0 * n as real;
  }

  /** `angle` lies on the arc from `startDeg` sweeping `ns` counter-clockwise:
      between the two directly, or one turn later past 360. */
  predicate InSweep(startDeg: real, ns: real, angle: real) {
    startDeg <= angle <= startDeg + ns || angle + 360.0 <= startDeg + ns
  }

  /** For a start in [0, 360), `% 360` leaves the start alone and brings
      start + ns (ns in [0, 360)) back by at most one turn. */
  lemma ArcEndpoints(startDeg: real, ns: real)
    requires 0.0 <= ns < 360.0
    ensures 0.0 <= startDeg < 360.0 ==>
      && Rem360(startDeg) == startDeg
      && (Rem360(startDeg + ns) == startDeg + ns || Rem360(startDeg + ns) == startDeg + ns - 360.0)
  {
    if 0.0 <= startDeg < 360.0 {
      WholeTurnsBetween(startDeg - Rem360(startDeg));
      WholeTurnsBetween(startDeg + ns - Rem360(startDeg + ns));
    }
  }

  /** The angular range test of `findShapeAt` for an arc: the start and the
      sweep are reduced by `% 360`, the sweep made non-negative, and an arc
      whose end wraps past 360 accepts the angles on either side of 0. For a
      start angle and a point angle in [0, 360), as the screen and
      AngleDegrees supply them, this is exactly InSweep. */
  function ArcContainsAngle(startDeg: real, sweepDeg: real, angle: real): (r: bool)
    ensures 0.0 <= startDeg < 360.0 && 0.0 <= angle < 360.0 ==>
      (r <==> InSweep(startDeg, NormalizedSweep(sweepDeg), angle))
  {
    var start := Rem360(startDeg);
    var ns := NormalizedSweep(sweepDeg);
    ArcEndpoints(startDeg, ns);
    var end := Rem360(start + ns);
    if start <= end then start <= angle <= end else angle >= start || angle <= end
  }

  /** An arc from 350 degrees sweeping 20 wraps through 0: it contains 5
      and 0 but not 180. */
  lemma {:induction false} ArcWrapsThroughZero()
    ensures ArcContainsAngle(350.0, 20.0, 5.0) && ArcContainsAngle(350.0, 20.0, 0.0)
    ensures !ArcContainsAngle(350.0, 20.0, 180.0)
  {
    var ns := NormalizedSweep(20.0);
    WholeTurnsBetween(ns - 20.0);
  }

  /** A sweep of a whole turn reduces to 0 under `% 360`, so such an arc
      contains only its start angle rather than the full circle. */
  lemma {:induction false} FullSweepCoversOnlyStart(startDeg: real, angle: real)
    requires 0.0 <= startDeg < 360.0 && 0.0 <= angle < 360.0
    ensures ArcContainsAngle(startDeg, 360.0, angle) <==> angle == startDeg
  {
    var ns := NormalizedSweep(360.0);
    WholeTurnsBetween(ns - 360.0 + 360.0);
  }

  /** The rim test of `findShapeAt`: the distance from the centre is within
      `threshold` of the radius. */
  predicate NearRim(lib: MathLib, c: Point, radius: real, pos: Point, threshold: real) {
    Abs(Distance(lib, pos, c) - radius) < threshold
  }

  /** The segment test of `findShapeAt`: `pos` is within `threshold` of the
      foot of its perpendicular on the infinite line through `a` and `b`; a
      zero-length segment is never hit. */
  function SegmentHit(lib: MathLib, a: Point, b: Point, pos: Point, threshold: real): (r: bool)
    ensures r <==> (b.x - a.x) * (b.x - a.x) + (b.y - a.y) * (b.y - a.y) != 0.0
                   && Distance(lib, pos, Projection(pos, a, b)) < threshold
    ensures a == b ==> !r
  {
    match PointToLineDistance(lib, pos, a, b)
    case Some(d) => d < threshold
    case None => false
  }

  /** The arc test of `findShapeAt`: `pos` is near the rim and, for the start
      angles the screen supplies, its angle about the centre is swept by the
      arc. */
  function ArcHit(lib: MathLib, c: Point, radius: real, startDeg: real, sweepDeg: real, pos: Point, threshold: real): (r: bool)
    ensures r ==> NearRim(lib, c, radius, pos, threshold)
    ensures Atan2Law(lib) && 0.0 <= startDeg < 360.0 ==>
      (r <==> NearRim(lib, c, radius, pos, threshold)
              && InSweep(startDeg, NormalizedSweep(sweepDeg), AngleDegrees(lib, c, pos)))
  {
    NearRim(lib, c, radius, pos, threshold) && ArcContainsAngle(startDeg, sweepDeg, AngleDegrees(lib, c, pos))
  }

  /** The per-shape test of `findShapeAt`, by kind: SegmentHit for a
      segment, the rim test for a circle, ArcHit for an arc. A zero-length
      segment is never hit, and an arc is hit only near its rim. */
  function ShapeHit(lib: MathLib, s: Shape, pos: Point, threshold: real): (r: bool)
    ensures s.LineSegment? && s.start == s.end ==> !r
    ensures s.Circle? ==> (r <==> NearRim(lib, s.center, s.radius, pos, threshold))
    ensures s.Arc? && r ==> NearRim(lib, s.center, s.radius, pos, threshold)
  {
    match s
    case LineSegment(a, b) => SegmentHit(lib, a, b, pos, threshold)
    case Circle(c, radius) => NearRim(lib, c, radius, pos, threshold)
    case Arc(c, radius, startDeg, sweepDeg) => ArcHit(lib, c, radius, startDeg, sweepDeg, pos, threshold)
  }

  // ---------------------------------------------------------------------
  // Rotation snapping

  /** The angles `snapAngleIfClose` snaps to, in the order it tries them. */
  const CommonAngles: seq<real> := [0.0, 30.0, 45.0, 60.0, 90.0, 120.0, 135.0, 150.0, 180.0]

  /** What `snapAngleIfClose` promises: when some common angle is within
      `threshold` of `angle` (plain, not circular, difference) the result is
      the first such angle, flagged true; otherwise the angle itself,
      flagged false. */
  ghost predicate IsRotationSnap(angle: real, threshold: real, r: real, snapped: bool) {
    && (snapped <==> exists i :: 0 <= i < |CommonAngles| && Abs(angle - CommonAngles[i]) <= threshold)
    && (snapped ==>
          exists k :: 0 <= k < |CommonAngles| && r == CommonAngles[k]
            && Abs(angle - CommonAngles[k]) <= threshold
            && forall j :: 0 <= j < k ==> Abs(angle - CommonAngles[j]) > threshold)
    && (!snapped ==> r == angle)
  }

  /** IsRotationSnap fixes the result: any two outcomes it allows agree. */
  lemma {:induction false} RotationSnapIsDeterministic(angle: real, threshold: real, r1: real, s1: bool, r2: real, s2: bool)
    requires IsRotationSnap(angle, threshold, r1, s1) && IsRotationSnap(angle, threshold, r2, s2)
    ensures r1 == r2 && s1 == s2
  {
    if s1 {
      var k1 :| 0 <= k1 < |CommonAngles| && r1 == CommonAngles[k1]
        && Abs(angle - CommonAngles[k1]) <= threshold
        && forall j :: 0 <= j < k1 ==> Abs(angle - CommonAngles[j]) > threshold;
      var k2 :| 0 <= k2 < |CommonAngles| && r2 == CommonAngles[k2]
        && Abs(angle - CommonAngles[k2]) <= threshold
        && forall j :: 0 <= j < k2 ==> Abs(angle - CommonAngles[j]) > threshold;
      assert k1 == k2;
    }
  }

  /** 92 degrees with the default threshold of 5 snaps to 90. */
  lemma {:induction false} RotationSnapNear90(r: real, snapped: bool)
    requires IsRotationSnap(92.0, 5.0, r, snapped)
    ensures r == 90.0 && snapped
  {
    assert Abs(92.0 - CommonAngles[4]) <= 5.0;
    var k :| 0 <= k < |CommonAngles| && r == CommonAngles[k]
      && Abs(92.0 - CommonAngles[k]) <= 5.0
      && forall j :: 0 <= j < k ==> Abs(92.0 - CommonAngles[j]) > 5.0;
    assert k == 4;
  }

  /** 82 degrees is more than 5 away from every common angle and stays. */
  lemma {:induction false} RotationSnapMiss(r: real, snapped: bool)
    requires IsRotationSnap(82.0, 5.0, r, snapped)
    ensures r == 82.0 && !snapped
  {
    assert forall i :: 0 <= i < |CommonAngles| ==> Abs(82.0 - CommonAngles[i]) > 5.0;
  }

  /** The difference is not circular: 358 degrees is 2 degrees from 0 on the
      circle but does not snap, while 2 degrees does. */
  lemma {:induction false} RotationSnapDoesNotWrap(r: real, snapped: bool, r2: real, snapped2: bool)
    requires IsRotationSnap(358.0, 5.0, r, snapped)
    requires IsRotationSnap(2.0, 5.0, r2, snapped2)
    ensures r == 358.0 && !snapped
    ensures r2 == 0.0 && snapped2
  {
    assert forall i :: 0 <= i < |CommonAngles| ==> Abs(358.0 - CommonAngles[i]) > 5.0;
    assert Abs(2.0 - CommonAngles[0]) <= 5.0;
    var k :| 0 <= k < |CommonAngles| && r2 == CommonAngles[k]
      && Abs(2.0 - CommonAngles[k]) <= 5.0
      && forall j :: 0 <= j < k ==> Abs(2.0 - CommonAngles[j]) > 5.0;
    assert k == 0;
  }

  // ---------------------------------------------------------------------
  // Set-square snapping

  /** The directions a set square allows, in the order `minBy` scans them. */
  function SetSquareAngles(variant45: bool): seq<real> {
    if variant45 then [0.0, 45.0, 90.0, 135.0, 180.0, -45.0, -90.0]
    else [0.0, 30.0, 60.0, 90.0, 120.0, 150.0, -30.0, -60.0]
  }

  /** `minBy { abs(it - angle) }`: the index of the first candidate whose
      plain difference from `angle` is smallest. */
  function NearestFirst(cands: seq<real>, angle: real): (k: nat)
    requires |cands| > 0
    ensures k < |cands|
    ensures forall j :: 0 <= j < |cands| ==> Abs(cands[k] - angle) <= Abs(cands[j] - angle)
    ensures forall j :: 0 <= j < k ==> Abs(cands[k] - angle) < Abs(cands[j] - angle)
  {
    if |cands| == 1 then 0
    else
      var k := NearestFirst(cands[..|cands| - 1], angle);
      assert forall j :: 0 <= j < |cands| - 1 ==> cands[..|cands| - 1][j] == cands[j];
      if Abs(cands[|cands| - 1] - angle) < Abs(cands[k] - angle) then |cands| - 1 else k
  }

  /** The raw direction of the drag from `start` to `end`, in (-180, 180]. */
  function DragAngle(lib: MathLib, start: Point, end: Point): real {
    lib.atan2Deg(end.y - start.y, end.x - start.x)
  }

  /** The allowed direction `snapToSetSquareAngle` picks for a drag. */
  function SetSquareSnapAngle(lib: MathLib, start: Point, end: Point, variant45: bool): (a: real)
    ensures exists k ::
      0 <= k < |SetSquareAngles(variant45)| && a == SetSquareAngles(variant45)[k]
      && forall j :: 0 <= j < k ==>
           Abs(a - DragAngle(lib, start, end)) < Abs(SetSquareAngles(variant45)[j] - DragAngle(lib, start, end))
    ensures forall j :: 0 <= j < |SetSquareAngles(variant45)| ==>
      Abs(a - DragAngle(lib, start, end)) <= Abs(SetSquareAngles(variant45)[j] - DragAngle(lib, start, end))
  {
    var cands := SetSquareAngles(variant45);
    var k := NearestFirst(cands, DragAngle(lib, start, end));
    cands[k]
  }

  /** `snapToSetSquareAngle`: the end point moved onto the nearest allowed
      direction from `start`, keeping the drag's length (`hypot(dx, dy)`). */
  function SnapToSetSquareAngle(lib: MathLib, start: Point, end: Point, variant45: bool): (p: Point)
    ensures SqrtLaw(lib) && TrigLaw(lib) ==> Distance(lib, start, p) == Distance(lib, start, end)
  {
    var dx, dy := end.x - start.x, end.y - start.y;
    var snapped := SetSquareSnapAngle(lib, start, end, variant45);
    var length := lib.sqrt(Sq(dx) + Sq(dy));
    DragStepKeepsLength(lib, start, end, snapped);
    StepFrom(lib, start, snapped, length)
  }

  /** The point `len` away from `start` in direction `a` (degrees). */
  function StepFrom(lib: MathLib, start: Point, a: real, len: real): Point {
    Point(start.x + lib.cosDeg(a) * len, start.y + lib.sinDeg(a) * len)
  }

  /** `hypot(dx, dy)` is the distance from start to end. */
  lemma {:induction false} DragLength(lib: MathLib, start: Point, end: Point)
    ensures lib.sqrt(Sq(end.x - start.x) + Sq(end.y - start.y)) == Distance(lib, start, end)
  {
    assert Sq(end.x - start.x) == Sq(start.x - end.x);
    assert Sq(end.y - start.y) == Sq(start.y - end.y);
  }

  /** A step from `start` in any direction `a`, as long as the drag from
      `start` to `end`, ends as far from `start` as `end` is. */
  lemma DragStepKeepsLength(lib: MathLib, start: Point, end: Point, a: real)
    ensures SqrtLaw(lib) && TrigLaw(lib) ==>
      Distance(lib, start, StepFrom(lib, start, a, lib.sqrt(Sq(end.x - start.x) + Sq(end.y - start.y))))
        == Distance(lib, start, end)
  {
    if SqrtLaw(lib) && TrigLaw(lib) {
      var len := lib.sqrt(Sq(end.x - start.x) + Sq(end.y - start.y));
      SquareNonNegative(end.x - start.x);
      SquareNonNegative(end.y - start.y);
      DragLength(lib, start, end);
      assert lib.sqrt(Sq(len)) == len;
      StepLength(lib, start, a, len);
    }
  }

  /** A step of `len` from `start` along a unit direction ends `len` away
      (given that `sqrt` recovers `len` from its square). */
  lemma StepLength(lib: MathLib, start: Point, a: real, len: real)
    requires Sq(lib.cosDeg(a)) + Sq(lib.sinDeg(a)) == 1.0 && lib.sqrt(Sq(len)) == len
    ensures Distance(lib, start, StepFrom(lib, start, a, len)) == len
  {
    var q := StepFrom(lib, start, a, len);
    RotatedLength(start.x, start.y, lib.cosDeg(a), lib.sinDeg(a), len);
    assert Sq(start.x - q.x) + Sq(start.y - q.y) == Sq(len);
  }

  /** Moving by `len` along a unit direction `(c, s)` covers `len`, squared. */
  lemma RotatedLength(sx: real, sy: real, c: real, s: real, len: real)
    requires Sq(c) + Sq(s) == 1.0
    ensures Sq(sx - (sx + c * len)) + Sq(sy - (sy + s * len)) == Sq(len)
  {
    assert Sq(sx - (sx + c * len)) + Sq(sy - (sy + s * len)) == Sq(len) * (Sq(c) + Sq(s));
  }

  /** A drag within 22.5 degrees of +X (15 for the 30/60 square) snaps to the
      horizontal: the end point lands level with the start, the drag's
      length to the right of it. */
  lemma {:induction false} ShallowDragSnapsHorizontal(lib: MathLib, start: Point, end: Point, variant45: bool)
    requires TrigLaw(lib)
    requires var limit := if variant45 then 22.5 else 15.0;
      -limit < DragAngle(lib, start, end) < limit
    ensures SetSquareSnapAngle(lib, start, end, variant45) == 0.0
    ensures SnapToSetSquareAngle(lib, start, end, variant45) == Point(start.x + Distance(lib, start, end), start.y)
  {
    var cands := SetSquareAngles(variant45);
    var a := SetSquareSnapAngle(lib, start, end, variant45);
    var raw := DragAngle(lib, start, end);
    assert Abs(a - raw) <= Abs(cands[0] - raw);
    var k :| 0 <= k < |cands| && a == cands[k];
    assert k == 0;
    DragLength(lib, start, end);
  }

  /** The drag from (0, 0) to (100, 10) with the 45 degree square ends on
      the X axis, as far from the origin as the drag was long. */
  lemma {:induction false} SetSquareSnapsNearlyLevelDrag(lib: MathLib)
    requires TrigLaw(lib) && Atan2Law(lib)
    ensures SnapToSetSquareAngle(lib, Point(0.0, 0.0), Point(100.0, 10.0), true)
      == Point(Distance(lib, Point(0.0, 0.0), Point(100.0, 10.0)), 0.0)
  {
    assert -22.5 < lib.atan2Deg(10.0 - 0.0, 100.0 - 0.0) < 22.5;
    ShallowDragSnapsHorizontal(lib, Point(0.0, 0.0), Point(100.0, 10.0), true);
  }

  /** `minBy` compares plain differences, not circular ones: a drag at -170
      degrees, 10 degrees from 180 on the circle, snaps to -90. */
  lemma {:induction false} SetSquareSnapIsNotCircular()
    ensures SetSquareAngles(true)[NearestFirst(SetSquareAngles(true), -170.0)] == -90.0
    ensures CircularDistance(-170.0, 180.0) < CircularDistance(-170.0, -90.0)
  {
    var cands := SetSquareAngles(true);
    var k := NearestFirst(cands, -170.0);
    assert Abs(cands[k] + 170.0) <= Abs(cands[6] + 170.0);
    var d1 := NormalizeAngleDiff(-170.0, 180.0);
    var d2 := NormalizeAngleDiff(-170.0, -90.0);
    WholeTurnsBetween(d1 + 350.0);
    WholeTurnsBetween(d2 + 80.0 + 360.0);
  }

  // ---------------------------------------------------------------------
  // The view model

  class DrawingViewModel {
    var shapes: seq<Shape>
    var tools: seq<Tool>
    var selectedTool: Option<Tool>
    var selectedShape: Option<Shape>
    var undoStack: seq<seq<Shape>>
    var redoStack: seq<seq<Shape>>
    var lastSnapAngle: Option<real>
    var snapActive: bool
    var toolDrawMode: bool

    /** The history as a value, most recent snapshot last on each stack. */
    function HistoryState(): History
      reads this
    {
      History(shapes, undoStack, redoStack)
    }

    /** The history stays bounded, the three instruments stay in place
        with their ids, and the snap flag says whether a snap angle is
        shown. */
    ghost predicate Valid()
      reads this
    {
      && Bounded(HistoryState())
      && ToolsWellFormed(tools)
      && snapActive == lastSnapAngle.Some?
    }

    /** A fresh session: no shapes, empty history, the three default tools,
        nothing selected and no snap shown. */
    constructor(rulerId: string, setSquareId: string, protractorId: string)
      requires rulerId != setSquareId && rulerId != protractorId && setSquareId != protractorId
      ensures Valid()
      ensures shapes == [] && undoStack == [] && redoStack == []
      ensures tools == InitialTools(rulerId, setSquareId, protractorId)
      ensures selectedTool == None && selectedShape == None
      ensures lastSnapAngle == None && !snapActive && !toolDrawMode
    {
      shapes := [];
      tools := InitialTools(rulerId, setSquareId, protractorId);
      selectedTool := None;
      selectedShape := None;
      undoStack := [];
      redoStack := [];
      lastSnapAngle := None;
      snapActive := false;
      toolDrawMode := false;
    }

    /** `setSnap`: show (or clear) the snap indicator. */
    method SetSnap(angle: Option<real>)
      requires Valid()
      modifies this`lastSnapAngle, this`snapActive
      ensures Valid()
      ensures lastSnapAngle == angle && snapActive == angle.Some?
    {
      lastSnapAngle := angle;
      snapActive := angle.Some?;
    }

    /** `pushHistory`. */
    method PushHistory()
      requires Valid()
      modifies this`undoStack, this`redoStack
      ensures Valid()
      ensures HistoryState() == UndoHistory.PushHistory(old(HistoryState()))
    {
      var pushed := undoStack + [shapes];
      if |pushed| > MaxHistory {
        pushed := pushed[1..];
      }
      undoStack := pushed;
      redoStack := [];
    }

    /** `commitStroke`: a stroke of two or more points becomes its
        segments, as one undoable step; a shorter stroke changes nothing. */
    method CommitStroke(points: seq<Point>)
      requires Valid()
      modifies this`shapes, this`undoStack, this`redoStack
      ensures Valid()
      ensures HistoryState() == if |points| >= 2 then Commit(old(HistoryState()), Polyline(points)) else old(HistoryState())
    {
      if |points| >= 2 {
        PushHistory();
        shapes := shapes + Polyline(points);
      }
    }

    /** `commitRulerLine`: one segment, as one undoable step. */
    method CommitRulerLine(start: Point, end: Point)
      requires Valid()
      modifies this`shapes, this`undoStack, this`redoStack
      ensures Valid()
      ensures HistoryState() == Commit(old(HistoryState()), [LineSegment(start, end)])
    {
      PushHistory();
      shapes := shapes + [LineSegment(start, end)];
    }

    /** `commitArc(center, point)`: a full circle through `point`, as one
        undoable step. */
    method CommitCircleThrough(lib: MathLib, center: Point, point: Point)
      requires Valid()
      modifies this`shapes, this`undoStack, this`redoStack
      ensures Valid()
      ensures HistoryState() == Commit(old(HistoryState()), [Circle(center, Distance(lib, center, point))])
    {
      PushHistory();
      shapes := shapes + [Circle(center, Distance(lib, center, point))];
    }

    /** `commitArc(center, radius, start, sweep)`: an arc, as one undoable
        step. */
    method CommitArc(center: Point, radius: real, startAngleDeg: real, sweepAngleDeg: real)
      requires Valid()
      modifies this`shapes, this`undoStack, this`redoStack
      ensures Valid()
      ensures HistoryState() == Commit(old(HistoryState()), [Arc(center, radius, startAngleDeg, sweepAngleDeg)])
    {
      PushHistory();
      shapes := shapes + [Arc(center, radius, startAngleDeg, sweepAngleDeg)];
    }

    /** `addArcPreview`: replace a trailing arc by the new preview arc; the
        history is untouched. */
    method AddArcPreview(center: Point, radius: real, startAngleDeg: real, sweepAngleDeg: real)
      requires Valid()
      modifies this`shapes
      ensures Valid()
      ensures shapes == ReplacePreview(old(shapes), Arc(center, radius, startAngleDeg, sweepAngleDeg))
    {
      if |shapes| > 0 && shapes[|shapes| - 1].Arc? {
        shapes := shapes[..|shapes| - 1];
      }
      shapes := shapes + [Arc(center, radius, startAngleDeg, sweepAngleDeg)];
    }

    /** `addArc(center, point)`: replace a trailing circle by a preview
        circle through `point`; the history is untouched. */
    method AddCirclePreview(lib: MathLib, center: Point, point: Point)
      requires Valid()
      modifies this`shapes
      ensures Valid()
      ensures shapes == ReplacePreview(old(shapes), Circle(center, Distance(lib, center, point)))
    {
      if |shapes| > 0 && shapes[|shapes| - 1].Circle? {
        shapes := shapes[..|shapes| - 1];
      }
      shapes := shapes + [Circle(center, Distance(lib, center, point))];
    }

    /** `undo`. */
    method Undo()
      requires Valid()
      modifies this`shapes, this`undoStack, this`redoStack
      ensures Valid()
      ensures HistoryState() == UndoHistory.Undo(old(HistoryState()))
    {
      if |undoStack| > 0 {
        redoStack := redoStack + [shapes];
        var last := undoStack[|undoStack| - 1];
        undoStack := undoStack[..|undoStack| - 1];
        shapes := last;
      }
    }

    /** `redo`. */
    method Redo()
      requires Valid()
      modifies this`shapes, this`undoStack, this`redoStack
      ensures Valid()
      ensures HistoryState() == UndoHistory.Redo(old(HistoryState()))
    {
      if |redoStack| > 0 {
        undoStack := undoStack + [shapes];
        var last := redoStack[|redoStack| - 1];
        redoStack := redoStack[..|redoStack| - 1];
        shapes := last;
      }
    }

    /** `updateToolTransform`: move the tool named `toolId`. */
    method UpdateToolTransform(toolId: string, newTransform: ToolTransform)
      requires Valid()
      modifies this`tools
      ensures Valid()
      ensures tools == UpdateTransform(old(tools), toolId, newTransform)
    {
      UpdateTransformTargetsOnlyNamedTool(tools, toolId, newTransform);
      var index := IndexOfFirst(tools, HasId(toolId));
      if index.Some? {
        tools := tools[index.value := WithTransform(tools[index.value], newTransform)];
      }
    }

    /** `findToolAt`: the first tool whose position is closer than
        ToolHitRadius to `pos`, or None when no tool is. */
    function FindToolAt(lib: MathLib, pos: Point): (r: Option<Tool>)
      reads this
      ensures r.Some? ==>
        exists i :: 0 <= i < |tools| && tools[i] == r.value && NearTool(lib, tools[i], pos)
          && forall j :: 0 <= j < i ==> !NearTool(lib, tools[j], pos)
      ensures r.None? <==> forall i :: 0 <= i < |tools| ==> !NearTool(lib, tools[i], pos)
    {
      match IndexOfFirst(tools, t => NearTool(lib, t, pos))
      case None => None
      case Some(i) => Some(tools[i])
    }

    /** `snapAngleIfClose`: the first common angle within `threshold`, or
        the angle itself. */
    method SnapAngleIfClose(angle: real, threshold: real := 5.0) returns (r: real, snapped: bool)
      ensures IsRotationSnap(angle, threshold, r, snapped)
    {
      var i := 0;
      while i < |CommonAngles|
        invariant 0 <= i <= |CommonAngles|
        invariant forall j :: 0 <= j < i ==> Abs(angle - CommonAngles[j]) > threshold
      {
        if Abs(angle - CommonAngles[i]) <= threshold {
          return CommonAngles[i], true;
        }
        i := i + 1;
      }
      return angle, false;
    }

    /** `findShapeAt`: scanning from the most recently drawn shape, the
        first one hit; None when no shape is hit. */
    method FindShapeAt(lib: MathLib, pos: Point, threshold: real := DefaultShapeThreshold) returns (r: Option<Shape>)
      ensures r.Some? ==>
        exists i :: 0 <= i < |shapes| && shapes[i] == r.value
          && ShapeHit(lib, shapes[i], pos, threshold)
          && forall j :: i < j < |shapes| ==> !ShapeHit(lib, shapes[j], pos, threshold)
      ensures r.None? <==> forall i :: 0 <= i < |shapes| ==> !ShapeHit(lib, shapes[i], pos, threshold)
    {
      var i := |shapes|;
      while i > 0
        invariant 0 <= i <= |shapes|
        invariant forall j :: i <= j < |shapes| ==> !ShapeHit(lib, shapes[j], pos, threshold)
      {
        i := i - 1;
        if ShapeHit(lib, shapes[i], pos, threshold) {
          return Some(shapes[i]);
        }
      }
      return None;
    }
  }
}
