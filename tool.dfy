/** The drafting instruments (`model/Tool.kt`). Every tool has an id fixed at
    construction and a transform; only the transform is ever replaced. The
    source draws ids from `UUID.randomUUID()`; here they are given. */
module Tools {
  import opened Geometry

  /** Position, rotation in degrees and length, with the source's defaults. */
  datatype ToolTransform = ToolTransform(
    position: Point := Point(500.0, 500.0),
    rotation: real := 0.0,
    length: real := 400.0)

  /** `variant45` is true for the 45 degree set square and false for the
      30/60 degree one; it defaults to the 45 degree variant. */
  datatype Tool =
    | Ruler(id: string, transform: ToolTransform := ToolTransform())
    | SetSquare(id: string, variant45: bool := true, transform: ToolTransform := ToolTransform())
    | Protractor(id: string, transform: ToolTransform := ToolTransform())

  /** The same instrument: same constructor, and the same variant for a set
      square. */
  predicate SameInstrument(a: Tool, b: Tool) {
    && a.Ruler? == b.Ruler?
    && a.SetSquare? == b.SetSquare?
    && a.Protractor? == b.Protractor?
    && (a.SetSquare? ==> a.variant45 == b.variant45)
  }

  /** `t.copy(transform = tr)`: the same tool moved to `tr`. */
  function WithTransform(t: Tool, tr: ToolTransform): (r: Tool)
    ensures r.id == t.id && SameInstrument(r, t) && r.transform == tr
  {
    t.(transform := tr)
  }

  /** A tool built with default arguments has the default transform: position
      (500, 500), rotation 0, length 400; a default set square is the 45
      degree variant. */
  lemma DefaultTools(id: string)
    ensures Ruler(id).transform == ToolTransform(Point(500.0, 500.0), 0.0, 400.0)
    ensures Protractor(id).transform == Ruler(id).transform
    ensures SetSquare(id).transform == Ruler(id).transform && SetSquare(id).variant45
  {
  }
}
