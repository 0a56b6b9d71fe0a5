# SnappyRuler drawing engine in Dafny

SnappyRuler is an Android drawing app. The user draws freehand strokes and ruler lines, circles and arcs, helped by three virtual instruments: a ruler, a set square and a protractor. This project models the app's engine and proves properties of it:

- **Shapes and tools** (`shape.dfy`, `tool.dfy`) are immutable values.
  - A shape is a line segment, a circle or an arc.
  - A tool is a ruler, a 45 or 30/60 degree set square, or a protractor. Each tool has an id and a transform.
- **The geometry kernel** (`geometry.dfy`) holds distance, midpoint, the angle of a vector, tolerance-gated snapping to the nearest allowed angle by circular difference, and the intersection of two infinite lines.
- **The undo/redo history** (`history.dfy`) is the live shape list plus two stacks of whole-list snapshots.
  - The undo stack is capped at 50 snapshots.
  - Every transition is a function.
- **The drawing session** (`viewmodel.dfy`) is the class `DrawingViewModel`. Its fields are the shapes, the tools, the two stacks, the snap indicator and the selection. Its methods commit, preview, undo and redo, move tools, and find the tool or shape under a touch. The history methods are specified by the history functions, the preview methods by `ReplacePreview`, and `UpdateToolTransform` by `UpdateTransform`. `SetSnap`, `FindToolAt`, `FindShapeAt` and `SnapAngleIfClose` state their results in their own contracts. Beside the class are the stateless rules these members and the screen use:
  - the per-shape hit test, including the arc's angular range with wrap-around, and the projection on a line;
  - the rotation snap to common angles;
  - the set-square snap.

Coordinates and angles are exact reals. The source calls floating-point `sqrt`, `hypot`, `atan2`, `cos` and `sin`. In the model these are the fields of a `MathLib` value, passed as a parameter. Three predicates state what the proofs rely on about them:

- `SqrtLaw`: `sqrt` is non-negative and recovers a non-negative number from its square.
- `Atan2Law`: `atan2` in degrees lies in (-180, 180], and a vector pointing right with slope at most 0.4 has an angle within 22.5 degrees.
- `TrigLaw`: cos² + sin² = 1, cos 0 = 1 and sin 0 = 0.

Kotlin's `Float %` is a truncated remainder whose sign follows the dividend. It is `Rem360`.

## Model

Source paths are relative to the repository root.

| member | source | states |
|---|---|---|
| Util.IndexOfFirst | app/src/main/java/com/sumedh/snappyruler/viewmodel/DrawingViewModel.kt:93 | `indexOfFirst`: the index found satisfies the predicate and no earlier one does; None exactly when no element does |
| Geometry.Distance | app/src/main/java/com/sumedh/snappyruler/utils/Geometry.kt:10-11 | the distance is non-negative (given `SqrtLaw`) |
| Geometry.DistanceSymmetric | app/src/main/java/com/sumedh/snappyruler/utils/Geometry.kt:10-11 | distance(a, b) == distance(b, a) |
| Geometry.DistanceToSelf | app/src/main/java/com/sumedh/snappyruler/utils/Geometry.kt:10-11 | the distance from a point to itself is 0 |
| Geometry.Midpoint | app/src/main/java/com/sumedh/snappyruler/utils/Geometry.kt:13-14 | the midpoint is equally far from both ends on each axis |
| Geometry.MidpointProperties | app/src/main/java/com/sumedh/snappyruler/utils/Geometry.kt:13-14 | the midpoint is symmetric, and midpoint(a, a) == a |
| Geometry.AngleDegrees | app/src/main/java/com/sumedh/snappyruler/utils/Geometry.kt:16-25 | the result is the raw atan2 angle or that plus 360, and lies in [0, 360) |
| Geometry.Trunc | app/src/main/java/com/sumedh/snappyruler/utils/Geometry.kt:42 | truncation toward zero: the integer between 0 and x within distance 1 of x |
| Geometry.Rem360 | app/src/main/java/com/sumedh/snappyruler/utils/Geometry.kt:42 | `x % 360f` differs from x by whole turns; it lies in [0, 360) for x >= 0 and in (-360, 0] for x < 0 |
| Geometry.NormalizeAngleDiff | app/src/main/java/com/sumedh/snappyruler/utils/Geometry.kt:41-45 | the result lies in [-180, 180) and differs from a - b by a whole number of turns |
| Geometry.CircularDistanceIsShortest | app/src/main/java/com/sumedh/snappyruler/utils/Geometry.kt:30-32 | the absolute normalised difference is at most 180 and at most \|a - b + 360k\| for every k, so it is the circular distance |
| Geometry.SnapAngleDeg | app/src/main/java/com/sumedh/snappyruler/utils/Geometry.kt:28-39 | on a non-empty list: a snap is reported exactly when some allowed angle is within the tolerance by circular distance; the snapped value is then the first allowed angle of minimal circular distance; otherwise the angle comes back unchanged |
| Geometry.LineIntersection | app/src/main/java/com/sumedh/snappyruler/utils/Geometry.kt:47-57 | None exactly when \|denom\| < 1e-6; otherwise the point lies on both infinite lines |
| Geometry.LineIntersectionSymmetric | app/src/main/java/com/sumedh/snappyruler/utils/Geometry.kt:47-57 | reversing either line's two points, or swapping the two lines, gives the same result |
| Tools.WithTransform | app/src/main/java/com/sumedh/snappyruler/viewmodel/DrawingViewModel.kt:95-99 | `copy(transform = ...)` keeps the id, the kind and the set-square variant, and sets the transform |
| Tools.DefaultTools | app/src/main/java/com/sumedh/snappyruler/model/Tool.kt:11-33 | the default transform is (500, 500), rotation 0, length 400, for every kind; a default set square is the 45 degree one |
| UndoHistory.PushHistory | app/src/main/java/com/sumedh/snappyruler/viewmodel/DrawingViewModel.kt:85-89 | keeps the shapes and clears redo; appends the live list to the undo stack, dropping the oldest snapshot when that would make more than 50; keeps the bound |
| UndoHistory.Commit | app/src/main/java/com/sumedh/snappyruler/viewmodel/DrawingViewModel.kt:47-64 | a commit appends exactly the new shapes to the unchanged list, after pushing the old list and clearing redo |
| UndoHistory.Undo | app/src/main/java/com/sumedh/snappyruler/viewmodel/DrawingViewModel.kt:67-74 | a no-op on an empty undo stack; otherwise the last snapshot becomes the live list and the live list goes onto the redo stack; the total number of snapshots is unchanged |
| UndoHistory.Redo | app/src/main/java/com/sumedh/snappyruler/viewmodel/DrawingViewModel.kt:76-83 | the mirror of undo, with the snapshot moving from the redo stack to the live list |
| UndoHistory.BoundedPreserved | app/src/main/java/com/sumedh/snappyruler/viewmodel/DrawingViewModel.kt:67-89 | \|undo\| + \|redo\| <= 50 is kept by push, commit, undo and redo (although redo pushes without checking), so the undo stack never exceeds 50 |
| UndoHistory.RedoAfterUndo | app/src/main/java/com/sumedh/snappyruler/viewmodel/DrawingViewModel.kt:67-83 | on a non-empty undo stack, redo after undo restores the exact earlier state |
| UndoHistory.UndoAfterRedo | app/src/main/java/com/sumedh/snappyruler/viewmodel/DrawingViewModel.kt:67-83 | on a non-empty redo stack, undo after redo restores the exact earlier state |
| UndoHistory.UndoReversesCommit | app/src/test/java/com/sumedh/snappyruler/viewmodel/DrawingViewModelTest.kt:31-43 | undoing a commit restores the earlier shapes and offers the committed list for redo; redo then repeats the commit |
| UndoHistory.CommitEvictsOldest | app/src/main/java/com/sumedh/snappyruler/viewmodel/DrawingViewModel.kt:86-87 | on a full undo stack, a commit evicts exactly the oldest snapshot and the size stays 50 |
| ViewModel.InitialTools | app/src/main/java/com/sumedh/snappyruler/viewmodel/DrawingViewModel.kt:21-25 | three tools with default transforms: a ruler, a 45 degree set square and a protractor; with distinct ids they are well formed |
| ViewModel.UpdateTransform | app/src/main/java/com/sumedh/snappyruler/viewmodel/DrawingViewModel.kt:92-101 | count, order, ids and kinds (set-square variant included) are kept; only the first tool with the id takes the new transform; an unknown id changes nothing |
| ViewModel.UpdateTransformTargetsOnlyNamedTool | app/src/main/java/com/sumedh/snappyruler/viewmodel/DrawingViewModel.kt:92-101 | with the session's distinct ids, exactly the tool with that id moves, and the tool list stays well formed |
| ViewModel.Polyline | app/src/main/java/com/sumedh/snappyruler/viewmodel/DrawingViewModel.kt:50 | `zipWithNext`: n >= 2 points give n - 1 segments, segment i joining points i and i+1; fewer give none |
| ViewModel.ReplacePreview | app/src/main/java/com/sumedh/snappyruler/viewmodel/DrawingViewModel.kt:119-125 | the preview ends the list; before it comes the old list, without its last shape when that shape was of the preview's kind, even a committed one |
| ViewModel.PreviewsDoNotAccumulate | app/src/main/java/com/sumedh/snappyruler/viewmodel/DrawingViewModel.kt:119-125 | two previews of the same kind in a row leave what the second alone would leave |
| ViewModel.Projection | app/src/main/java/com/sumedh/snappyruler/viewmodel/DrawingViewModel.kt:214-218 | the projected point is a + t·(b − a) with t·\|ab\|² = ap · ab; it lies on the infinite line ab, and p minus it is perpendicular to ab |
| ViewModel.ProjectionIsNearest | app/src/main/java/com/sumedh/snappyruler/viewmodel/DrawingViewModel.kt:213-220 | no point of the line ab is closer to p than the projection |
| ViewModel.PointToLineDistance | app/src/main/java/com/sumedh/snappyruler/viewmodel/DrawingViewModel.kt:213-220 | None exactly when \|ab\|² is 0, which includes a == b (the source gets NaN there, which is never a hit); otherwise the distance from p to its projection on the line, non-negative |
| ViewModel.SegmentHit | app/src/main/java/com/sumedh/snappyruler/viewmodel/DrawingViewModel.kt:172-175 | a segment is hit exactly when \|ab\|² ≠ 0 and p is closer than the threshold to its projection on the line ab; a zero-length segment is never hit |
| ViewModel.ArcHit | app/src/main/java/com/sumedh/snappyruler/viewmodel/DrawingViewModel.kt:181-206 | an arc is hit only near its rim; for an atan2 within its law and a start in [0, 360), exactly when p is near the rim and its angle about the centre is swept |
| ViewModel.ShapeHit | app/src/main/java/com/sumedh/snappyruler/viewmodel/DrawingViewModel.kt:171-207 | the test by kind: a zero-length segment is never hit, a circle exactly when p is within the threshold of its rim, an arc only near its rim |
| ViewModel.SegmentHitBeyondEnd | app/src/main/java/com/sumedh/snappyruler/viewmodel/DrawingViewModel.kt:173-176 | the segment test uses the infinite line: a point 1000 units along the line of a 10-unit segment is a hit |
| ViewModel.NormalizedSweep | app/src/main/java/com/sumedh/snappyruler/viewmodel/DrawingViewModel.kt:189-193 | the normalised sweep lies in [0, 360) and differs from the sweep by whole turns |
| ViewModel.ArcContainsAngle | app/src/main/java/com/sumedh/snappyruler/viewmodel/DrawingViewModel.kt:187-203 | for a start and a point angle in [0, 360): the arc test passes exactly when the angle lies between start and start + normalised sweep counter-clockwise, directly or one turn on |
| ViewModel.ArcWrapsThroughZero | app/src/main/java/com/sumedh/snappyruler/viewmodel/DrawingViewModel.kt:195-201 | the arc from 350 sweeping 20 contains 5 and 0 but not 180 |
| ViewModel.FullSweepCoversOnlyStart | app/src/main/java/com/sumedh/snappyruler/viewmodel/DrawingViewModel.kt:190-193 | a 360-degree sweep becomes 0 under `% 360f`, so that arc contains only its start angle |
| ViewModel.RotationSnapIsDeterministic | app/src/main/java/com/sumedh/snappyruler/viewmodel/DrawingViewModel.kt:109-117 | the specification of `snapAngleIfClose` allows exactly one result |
| ViewModel.RotationSnapNear90 | app/src/test/java/com/sumedh/snappyruler/viewmodel/DrawingViewModelTest.kt:70-75 | 92 with the default threshold 5 snaps to (90, true) |
| ViewModel.RotationSnapMiss | app/src/main/java/com/sumedh/snappyruler/viewmodel/DrawingViewModel.kt:109-117 | 82 is more than 5 from every common angle and gives (82, false) |
| ViewModel.RotationSnapDoesNotWrap | app/src/main/java/com/sumedh/snappyruler/viewmodel/DrawingViewModel.kt:112 | the difference is plain, not circular: 358 gives (358, false) while 2 gives (0, true) |
| ViewModel.NearestFirst | app/src/main/java/com/sumedh/snappyruler/viewmodel/DrawingViewModel.kt:147 | `minBy`: the chosen candidate has the smallest plain difference from the angle, and every earlier candidate's difference is strictly larger |
| ViewModel.SetSquareSnapAngle | app/src/main/java/com/sumedh/snappyruler/viewmodel/DrawingViewModel.kt:134-147 | the snapped direction is a member of the variant's list whose plain difference from the drag's atan2 angle is minimal, and on ties the first such member (every earlier member is strictly farther) |
| ViewModel.DragLength | app/src/main/java/com/sumedh/snappyruler/viewmodel/DrawingViewModel.kt:149 | `hypot(dx, dy)` is the distance from the start to the end of the drag |
| ViewModel.StepLength | app/src/main/java/com/sumedh/snappyruler/viewmodel/DrawingViewModel.kt:150-154 | a step of length len along a unit direction ends len away from its start |
| ViewModel.SnapToSetSquareAngle | app/src/main/java/com/sumedh/snappyruler/viewmodel/DrawingViewModel.kt:134-155 | under the sqrt and trig laws, the snapped end point is as far from the start as the dragged end point was |
| ViewModel.DragStepKeepsLength | app/src/main/java/com/sumedh/snappyruler/viewmodel/DrawingViewModel.kt:149-154 | stepping from the start by the drag length in any direction keeps the drag length |
| ViewModel.ShallowDragSnapsHorizontal | app/src/main/java/com/sumedh/snappyruler/viewmodel/DrawingViewModel.kt:134-155 | a drag within 22.5 degrees of +X (15 for the 30/60 square) snaps to 0 degrees, and the end point lands level with the start, the drag's length to its right |
| ViewModel.SetSquareSnapsNearlyLevelDrag | app/src/test/java/com/sumedh/snappyruler/viewmodel/DrawingViewModelTest.kt:60-67 | the drag (0,0) to (100,10) on the 45 degree square ends at (its length, 0), so y is 0 |
| ViewModel.SetSquareSnapIsNotCircular | app/src/main/java/com/sumedh/snappyruler/viewmodel/DrawingViewModel.kt:147 | a drag at -170 degrees snaps to -90, although 180 is nearer on the circle |
| ViewModel.DrawingViewModel.constructor | app/src/main/java/com/sumedh/snappyruler/viewmodel/DrawingViewModel.kt:20-39 | no shapes, empty stacks, the three default tools, nothing selected, no snap shown; the invariant holds |
| ViewModel.DrawingViewModel.SetSnap | app/src/main/java/com/sumedh/snappyruler/viewmodel/DrawingViewModel.kt:41-44 | the snap angle is stored, and the flag is set exactly when an angle is given |
| ViewModel.DrawingViewModel.PushHistory | app/src/main/java/com/sumedh/snappyruler/viewmodel/DrawingViewModel.kt:85-89 | the new history is `UndoHistory.PushHistory` of the old one; the shapes and tools are untouched |
| ViewModel.DrawingViewModel.CommitStroke | app/src/main/java/com/sumedh/snappyruler/viewmodel/DrawingViewModel.kt:47-53 | fewer than 2 points leave the shapes and both stacks unchanged; otherwise a commit of the stroke's consecutive segments |
| ViewModel.DrawingViewModel.CommitRulerLine | app/src/main/java/com/sumedh/snappyruler/viewmodel/DrawingViewModel.kt:55-58 | a commit of the one segment |
| ViewModel.DrawingViewModel.CommitCircleThrough | app/src/main/java/com/sumedh/snappyruler/viewmodel/DrawingViewModel.kt:60-64 | a commit of the circle about the centre through the point |
| ViewModel.DrawingViewModel.CommitArc | app/src/main/java/com/sumedh/snappyruler/viewmodel/DrawingViewModel.kt:128-131 | a commit of the one arc |
| ViewModel.DrawingViewModel.AddArcPreview | app/src/main/java/com/sumedh/snappyruler/viewmodel/DrawingViewModel.kt:119-125 | the shapes become `ReplacePreview` with the arc; the stacks and tools are untouched |
| ViewModel.DrawingViewModel.AddCirclePreview | app/src/main/java/com/sumedh/snappyruler/viewmodel/DrawingViewModel.kt:157-164 | the shapes become `ReplacePreview` with the circle through the point; the stacks and tools are untouched |
| ViewModel.DrawingViewModel.Undo | app/src/main/java/com/sumedh/snappyruler/viewmodel/DrawingViewModel.kt:67-74 | the new history is `UndoHistory.Undo` of the old one, and the invariant is kept |
| ViewModel.DrawingViewModel.Redo | app/src/main/java/com/sumedh/snappyruler/viewmodel/DrawingViewModel.kt:76-83 | the new history is `UndoHistory.Redo` of the old one, and the invariant is kept |
| ViewModel.DrawingViewModel.UpdateToolTransform | app/src/main/java/com/sumedh/snappyruler/viewmodel/DrawingViewModel.kt:92-101 | the tools become `UpdateTransform` of the old tools; nothing else changes, and the tools stay well formed |
| ViewModel.DrawingViewModel.FindToolAt | app/src/main/java/com/sumedh/snappyruler/viewmodel/DrawingViewModel.kt:104-106 | the first tool whose position is closer than 100 to the tap; None exactly when no tool is |
| ViewModel.DrawingViewModel.SnapAngleIfClose | app/src/main/java/com/sumedh/snappyruler/viewmodel/DrawingViewModel.kt:109-117 | the first of 0, 30, 45, 60, 90, 120, 135, 150, 180 within the threshold by plain difference, with true; otherwise the angle, with false |
| ViewModel.DrawingViewModel.FindShapeAt | app/src/main/java/com/sumedh/snappyruler/viewmodel/DrawingViewModel.kt:168-211 | the most recently drawn shape the hit test accepts (segment: distance to its infinite line; circle: distance to the rim; arc: that and the angular range); None exactly when no shape is hit |

## Left out

- Floating point: all arithmetic is exact real arithmetic. Float rounding, overflow, infinities and NaN are not modelled, apart from the one NaN case under PointToLineDistance below.
- `sqrt`, `hypot`, `atan2`/`toDegrees` and `cos`/`sin` of `toRadians` are `MathLib` parameters with only the facts in `SqrtLaw`, `Atan2Law` and `TrigLaw`. `hypot(dx, dy)` is `sqrt(dx² + dy²)`. The slope bound of 0.4 in `Atan2Law` is an assumption about `atan2` (tan 22.5° ≈ 0.414), not something derived.
- Geometry.Distance: the model proves non-negativity, symmetry and distance 0 to itself, but not that distance 0 implies equal points.
- ViewModel.PointToLineDistance: the degenerate case is stated as \|ab\|² = 0. The model proves that a == b lands there, but not that only a == b does.
- ViewModel.ShallowDragSnapsHorizontal: it relies on cos 0 = 1 and sin 0 = 0 exactly. The source's own check is y within 1 of 0.
- `canvasScale` and `canvasPan` are never read by the view model and are not modelled.
- `UUID.randomUUID()` ids are constructor parameters, required to be pairwise distinct.
- `selectedTool`, `selectedShape` and `toolDrawMode` are fields of the class, set to their initial values by the constructor. Only the screen writes them, and the screen is not part of this model.
- The Compose state holders (`mutableStateOf`, `mutableStateListOf`) and the `ArrayDeque` stacks are plain sequence fields. Observation, recomposition and the identity of the list objects are not modelled. A snapshot is a value, as `toList()` copies.
- `ui/screen/DrawingScreen.kt` (gestures, rendering, haptics, export), `MainActivity.kt` and the build script are not part of this model. That includes the screen's direct edits of `shapes` that bypass the view model.
