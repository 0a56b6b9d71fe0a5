/** The geometry kernel (`utils/Geometry.kt`): distances, midpoints, angles,
    tolerance-gated angle snapping with circular difference, and the
    intersection of two infinite lines.

    Coordinates and angles are exact reals. The floating-point library calls
    of the source (`sqrt`, `hypot`, `atan2` followed by `toDegrees`, `cos` and
    `sin` of `toRadians`) are the fields of a `MathLib` value that every
    operation using them takes as a parameter; the ghost predicates
    `SqrtLaw`, `Atan2Law` and `TrigLaw` state the facts about them that the
    proofs rely on. */
module Geometry {
  import opened Util

  /** Compose's `Offset`. */
  datatype Point = Point(x: real, y: real)

  /** The math library: `sqrt`, `atan2` in degrees (`toDegrees(atan2(y, x))`),
      and cosine and sine of an angle given in degrees. */
  datatype MathLib = MathLib(
    sqrt: real -> real,
    atan2Deg: (real, real) -> real,
    cosDeg: real -> real,
    sinDeg: real -> real)

  /** `x.pow(2)`. */
  function Sq(x: real): real {
    x * x
  }

  /** `sqrt` yields a non-negative result on a non-negative argument, and
      gives back a non-negative number from its square. */
  ghost predicate SqrtLaw(lib: MathLib) {
    && (forall x :: x >= 0.0 ==> lib.sqrt(x) >= 0.0)
    && (forall x :: x >= 0.0 ==> lib.sqrt(Sq(x)) == x)
  }

  /** `atan2` in degrees lies in (-180, 180]; and a vector pointing right whose
      slope is at most 0.4 in magnitude (tan 22.5 degrees is about 0.414) has
      an angle strictly within 22.5 degrees of the +X axis. */
  ghost predicate Atan2Law(lib: MathLib) {
    && (forall y, x :: -180.0 < lib.atan2Deg(y, x) <= 180.0)
    && (forall y, x :: x > 0.0 && 5.0 * y <= 2.0 * x && -5.0 * y <= 2.0 * x ==>
          -22.5 < lib.atan2Deg(y, x) < 22.5)
  }

  /** cos^2 + sin^2 = 1, and the values at 0 degrees. */
  ghost predicate TrigLaw(lib: MathLib) {
    && (forall d :: Sq(lib.cosDeg(d)) + Sq(lib.sinDeg(d)) == 1.0)
    && lib.cosDeg(0.0) == 1.0
    && lib.sinDeg(0.0) == 0.0
  }

  function Abs(x: real): real {
    if x < 0.0 then -x else x
  }

  lemma SquareNonNegative(d: real)
    ensures Sq(d) >= 0.0
  {
  }

  /** Euclidean distance (Geometry.distance). */
  function Distance(lib: MathLib, a: Point, b: Point): (r: real)
    ensures SqrtLaw(lib) ==> r >= 0.0
  {
    SquareNonNegative(a.x - b.x);
    SquareNonNegative(a.y - b.y);
    lib.sqrt(Sq(a.x - b.x) + Sq(a.y - b.y))
  }

  lemma {:induction false} DistanceSymmetric(lib: MathLib, a: Point, b: Point)
    ensures Distance(lib, a, b) == Distance(lib, b, a)
  {
    assert Sq(a.x - b.x) == Sq(b.x - a.x);
    assert Sq(a.y - b.y) == Sq(b.y - a.y);
  }

  lemma {:induction false} DistanceToSelf(lib: MathLib, a: Point)
    requires SqrtLaw(lib)
    ensures Distance(lib, a, a) == 0.0
  {
    assert Sq(a.x - a.x) + Sq(a.y - a.y) == Sq(0.0);
  }

  /** Component-wise average (Geometry.midpoint): the point halfway between
      `a` and `b` on each axis. */
  function Midpoint(a: Point, b: Point): (m: Point)
    ensures m.x - a.x == b.x - m.x && m.y - a.y == b.y - m.y
  {
    Point((a.x + b.x) / 2.0, (a.y + b.y) / 2.0)
  }

  lemma MidpointProperties(a: Point, b: Point)
    ensures Midpoint(a, b) == Midpoint(b, a)
    ensures Midpoint(a, a) == a
  {
  }

  /** Angle of the vector a -> b, counter-clockwise from +X, in [0, 360)
      (Geometry.angleDegrees): a negative raw atan2 angle has 360 added. */
  function AngleDegrees(lib: MathLib, a: Point, b: Point): (r: real)
    ensures Atan2Law(lib) ==> 0.0 <= r < 360.0
    ensures var raw := lib.atan2Deg(b.y - a.y, b.x - a.x); r == raw || r == raw + 360.0
  {
    var v := lib.atan2Deg(b.y - a.y, b.x - a.x);
    if v < 0.0 then v + 360.0 else v
  }

  /** `d` is a whole number of full turns. */
  ghost predicate WholeTurns(d: real) {
    d == 360.0 * (d / 360.0).Floor as real
  }

  /** Truncation toward zero (the JVM's conversion of a quotient for `%`). */
  function Trunc(x: real): (t: int)
    ensures x >= 0.0 ==> 0 <= t && t as real <= x < t as real + 1.0
    ensures x < 0.0 ==> t <= 0 && t as real - 1.0 < x <= t as real
  {
    if x >= 0.0 then x.Floor else -((-x).Floor)
  }

  lemma WholeTurnsOf(k: int)
    ensures WholeTurns(360.0 * k as real)
  {
    assert (360.0 * k as real) / 360.0 == k as real;
  }

  /** Kotlin's `x % 360f` on floats: a truncated remainder whose sign
      follows the dividend. */
  function Rem360(x: real): (r: real)
    ensures x >= 0.0 ==> 0.0 <= r < 360.0
    ensures x < 0.0 ==> -360.0 < r <= 0.0
    ensures WholeTurns(x - r)
  {
    var t := Trunc(x / 360.0);
    WholeTurnsOf(t);
    x - 360.0 * t as real
  }

  /** Geometry.normalizeAngleDiff: the signed difference a - b brought into
      [-180, 180) by whole turns. */
  function NormalizeAngleDiff(a: real, b: real): (r: real)
    ensures -180.0 <= r < 180.0
    ensures WholeTurns(r - (a - b))
  {
    var diff := Rem360(a - b + 180.0) - 180.0;
    var t := Trunc((a - b + 180.0) / 360.0);
    assert diff == a - b - 360.0 * t as real;
    if diff < -180.0 then
      WholeTurnsOf(1 - t);
      diff + 360.0
    else
      WholeTurnsOf(-t);
      diff
  }

  /** Shortest circular distance from `angle` to `b`, in degrees. */
  function CircularDistance(angle: real, b: real): real {
    Abs(NormalizeAngleDiff(angle, b))
  }

  /** The normalised difference is the shortest of all the differences
      a - b + 360k, so CircularDistance is the true angular distance. */
  lemma CircularDistanceIsShortest(a: real, b: real, k: int)
    ensures CircularDistance(a, b) <= Abs(a - b + 360.0 * k as real)
    ensures CircularDistance(a, b) <= 180.0
  {
    var r := NormalizeAngleDiff(a, b);
    var n := ((r - (a - b)) / 360.0).Floor;
    assert r == a - b + 360.0 * n as real;
    assert a - b + 360.0 * k as real == r + 360.0 * (k - n) as real;
    if k - n >= 1 {
      assert r + 360.0 * (k - n) as real >= r + 360.0;
    } else if k - n <= -1 {
      assert r + 360.0 * (k - n) as real <= r - 360.0;
    }
  }

  /** What Geometry.snapAngleDeg promises: when some allowed angle lies within
      `tolerance` of `angle` (circularly), the result is the first allowed
      angle of minimal circular distance, flagged true; otherwise it is the
      unchanged angle, flagged false. */
  ghost predicate IsAngleSnap(angle: real, allowed: seq<real>, tolerance: real, r: real, snapped: bool) {
    && (snapped <==> exists i :: 0 <= i < |allowed| && CircularDistance(angle, allowed[i]) <= tolerance)
    && (snapped ==> exists k :: 0 <= k < |allowed| && r == allowed[k] && IsFirstNearest(angle, allowed, k))
    && (!snapped ==> r == angle)
  }

  /** allowed[k] has minimal circular distance to `angle`, and no earlier
      entry ties with it. */
  ghost predicate IsFirstNearest(angle: real, allowed: seq<real>, k: int)
    requires 0 <= k < |allowed|
  {
    && (forall j :: 0 <= j < |allowed| ==> CircularDistance(angle, allowed[k]) <= CircularDistance(angle, allowed[j]))
    && (forall j :: 0 <= j < k ==> CircularDistance(angle, allowed[k]) < CircularDistance(angle, allowed[j]))
  }

  /** Geometry.snapAngleDeg. `allowed` must be non-empty: the source reads
      its first element unconditionally. */
  method SnapAngleDeg(angle: real, allowed: seq<real>, tolerance: real) returns (r: real, snapped: bool)
    requires |allowed| > 0
    ensures IsAngleSnap(angle, allowed, tolerance, r, snapped)
  {
    var best := allowed[0];
    var bestDiff := CircularDistance(angle, best);
    ghost var bi := 0;
    var i := 0;
    while i < |allowed|
      invariant 0 <= i <= |allowed|
      invariant 0 <= bi < |allowed| && bi <= i
      invariant best == allowed[bi] && bestDiff == CircularDistance(angle, best)
      invariant forall j :: 0 <= j < i ==> bestDiff <= CircularDistance(angle, allowed[j])
      invariant forall j :: 0 <= j < bi ==> bestDiff < CircularDistance(angle, allowed[j])
    {
      var d := CircularDistance(angle, allowed[i]);
      if d < bestDiff {
        best, bestDiff, bi := allowed[i], d, i;
      }
      i := i + 1;
    }
    if bestDiff <= tolerance {
      r, snapped := best, true;
    } else {
      r, snapped := angle, false;
    }
    assert IsFirstNearest(angle, allowed, bi);
  }

  /** Below this magnitude the determinant counts as zero (1e-6f). */
  const Epsilon: real := 0.000001

  function Denominator(p1: Point, p2: Point, p3: Point, p4: Point): real {
    (p1.x - p2.x) * (p3.y - p4.y) - (p1.y - p2.y) * (p3.x - p4.x)
  }

  /** `p` lies on the infinite line through `a` and `b` (a cross product of
      zero). */
  predicate OnLine(p: Point, a: Point, b: Point) {
    (p.x - a.x) * (b.y - a.y) == (p.y - a.y) * (b.x - a.x)
  }

  /** Numerators of the intersection's coordinates; each is divided by
      the determinant. */
  function NumeratorX(p1: Point, p2: Point, p3: Point, p4: Point): real {
    (p1.x * p2.y - p1.y * p2.x) * (p3.x - p4.x) - (p1.x - p2.x) * (p3.x * p4.y - p3.y * p4.x)
  }

  function NumeratorY(p1: Point, p2: Point, p3: Point, p4: Point): real {
    (p1.x * p2.y - p1.y * p2.x) * (p3.y - p4.y) - (p1.y - p2.y) * (p3.x * p4.y - p3.y * p4.x)
  }

  /** Geometry.lineIntersection: the crossing point of the infinite lines
      p1-p2 and p3-p4 by the 2x2 determinant formula, or None when the
      determinant is within Epsilon of zero. */
  function LineIntersection(p1: Point, p2: Point, p3: Point, p4: Point): (r: Option<Point>)
    ensures r.None? <==> Abs(Denominator(p1, p2, p3, p4)) < Epsilon
    ensures r.Some? ==> OnLine(r.value, p1, p2) && OnLine(r.value, p3, p4)
  {
    var denom := Denominator(p1, p2, p3, p4);
    if Abs(denom) < Epsilon then None
    else
      IntersectionOnLines(p1, p2, p3, p4);
      Some(Point(NumeratorX(p1, p2, p3, p4) / denom, NumeratorY(p1, p2, p3, p4) / denom))
  }

  /** n / d == base + a * (k / d) whenever n == base * d + a * k. */
  lemma DivideShifted(n: real, d: real, base: real, a: real, k: real)
    requires d != 0.0 && n == base * d + a * k
    ensures n / d == base + a * (k / d)
  {
    var q := k / d;
    assert k == q * d;
    assert n == (base + a * q) * d;
  }

  /** In exact arithmetic the formula's point lies on both lines. */
  lemma IntersectionOnLines(p1: Point, p2: Point, p3: Point, p4: Point)
    requires Denominator(p1, p2, p3, p4) != 0.0
    ensures var d := Denominator(p1, p2, p3, p4);
      var p := Point(NumeratorX(p1, p2, p3, p4) / d, NumeratorY(p1, p2, p3, p4) / d);
      OnLine(p, p1, p2) && OnLine(p, p3, p4)
  {
    IntersectionOnFirstLine(p1, p2, p3, p4);
    IntersectionOnFirstLine(p3, p4, p1, p2);
    LineIntersectionSwapsLines(p1, p2, p3, p4);
  }

  /** Offsets of the formula's point from p1 are multiples of p1 - p2. */
  lemma IntersectionOnFirstLine(p1: Point, p2: Point, p3: Point, p4: Point)
    requires Denominator(p1, p2, p3, p4) != 0.0
    ensures var d := Denominator(p1, p2, p3, p4);
      OnLine(Point(NumeratorX(p1, p2, p3, p4) / d, NumeratorY(p1, p2, p3, p4) / d), p1, p2)
  {
    var d := Denominator(p1, p2, p3, p4);
    var nx, ny := NumeratorX(p1, p2, p3, p4), NumeratorY(p1, p2, p3, p4);
    var a, b := p1.x - p2.x, p1.y - p2.y;
    var c, e := p3.x - p4.x, p3.y - p4.y;
    var c1, c2 := p1.x * p2.y - p1.y * p2.x, p3.x * p4.y - p3.y * p4.x;
    assert d == a * e - b * c;
    var k := c * p1.y - c2 - p1.x * e;
    assert c1 + p1.x * b == p1.y * a;
    assert c1 - p1.y * a == -p1.x * b;
    assert nx == p1.x * d + a * k;
    assert ny == p1.y * d + b * k;
    DivideShifted(nx, d, p1.x, a, k);
    DivideShifted(ny, d, p1.y, b, k);
  }

  /** Exchanging the two lines negates the determinant and both numerators. */
  lemma LineIntersectionSwapsLines(p1: Point, p2: Point, p3: Point, p4: Point)
    ensures Denominator(p3, p4, p1, p2) == -Denominator(p1, p2, p3, p4)
    ensures NumeratorX(p3, p4, p1, p2) == -NumeratorX(p1, p2, p3, p4)
    ensures NumeratorY(p3, p4, p1, p2) == -NumeratorY(p1, p2, p3, p4)
  {
  }

  lemma NegateBoth(n: real, d: real)
    requires d != 0.0
    ensures (-n) / (-d) == n / d
  {
    var q := n / d;
    assert n == q * d;
    assert -n == q * (-d);
  }

  /** Negating the determinant and both numerators does not move the point. */
  lemma NegatedFormula(p1: Point, p2: Point, p3: Point, p4: Point,
                       q1: Point, q2: Point, q3: Point, q4: Point)
    requires Denominator(q1, q2, q3, q4) == -Denominator(p1, p2, p3, p4)
    requires NumeratorX(q1, q2, q3, q4) == -NumeratorX(p1, p2, p3, p4)
    requires NumeratorY(q1, q2, q3, q4) == -NumeratorY(p1, p2, p3, p4)
    ensures LineIntersection(q1, q2, q3, q4) == LineIntersection(p1, p2, p3, p4)
  {
    var d := Denominator(p1, p2, p3, p4);
    assert Abs(-d) == Abs(d);
    if Abs(d) >= Epsilon {
      NegateBoth(NumeratorX(p1, p2, p3, p4), d);
      NegateBoth(NumeratorY(p1, p2, p3, p4), d);
    }
  }

  /** The result depends only on the two lines: it is the same whichever
      endpoint of each line comes first, and whichever line comes first. */
  lemma {:induction false} LineIntersectionSymmetric(p1: Point, p2: Point, p3: Point, p4: Point)
    ensures LineIntersection(p2, p1, p3, p4) == LineIntersection(p1, p2, p3, p4)
    ensures LineIntersection(p1, p2, p4, p3) == LineIntersection(p1, p2, p3, p4)
    ensures LineIntersection(p3, p4, p1, p2) == LineIntersection(p1, p2, p3, p4)
  {
    assert Denominator(p2, p1, p3, p4) == -Denominator(p1, p2, p3, p4);
    assert NumeratorX(p2, p1, p3, p4) == -NumeratorX(p1, p2, p3, p4);
    assert NumeratorY(p2, p1, p3, p4) == -NumeratorY(p1, p2, p3, p4);
    NegatedFormula(p1, p2, p3, p4, p2, p1, p3, p4);
    assert Denominator(p1, p2, p4, p3) == -Denominator(p1, p2, p3, p4);
    assert NumeratorX(p1, p2, p4, p3) == -NumeratorX(p1, p2, p3, p4);
    assert NumeratorY(p1, p2, p4, p3) == -NumeratorY(p1, p2, p3, p4);
    NegatedFormula(p1, p2, p3, p4, p1, p2, p4, p3);
    LineIntersectionSwapsLines(p1, p2, p3, p4);
    NegatedFormula(p1, p2, p3, p4, p3, p4, p1, p2);
  }
}
