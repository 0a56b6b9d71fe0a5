/** The drawn shapes (`model/Shape.kt`): immutable values with structural
    equality, so a history snapshot can share them with the live list. */
module Shapes {
  import opened Geometry

  /** Arc angles are in degrees: the start is measured from +X,
      counter-clockwise positive; the sweep is documented as 0..360 but not
      enforced here (the hit test normalises it itself). */
  datatype Shape =
    | LineSegment(start: Point, end: Point)
    | Circle(center: Point, radius: real)
    | Arc(center: Point, radius: real, startAngleDeg: real, sweepAngleDeg: real)

  /** Both shapes are built by the same constructor. */
  predicate SameKind(a: Shape, b: Shape) {
    (a.LineSegment? && b.LineSegment?) || (a.Circle? && b.Circle?) || (a.Arc? && b.Arc?)
  }
}
