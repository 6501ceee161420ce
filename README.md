# SnapDraw core in Dafny

SnapDraw is an Android drawing app: free-hand pen strokes plus a ruler, a set
square and a protractor that snap to common angles and to a grid, with a
bounded undo/redo history. This project models its non-UI core:

- `geometry.dfy`, module `Geometry` (`utils/Helpers.kt`). It folds angles into
  [-180, 180) and snaps them to the reference list 0, 30, 45, 60, 90, 120, 135,
  150, 180. It also holds the screen/world viewport map, grid snapping, pixel
  to centimetre conversion, projection onto a tool's edge and the
  protractor's angle at a vertex. Degrees and coordinates are exact reals.
  Kotlin's float `%` is a truncated remainder. `roundToInt` is `Floor(x + 0.5)` over unbounded integers.
- `models.dfy`, module `Models` (`models/Models.kt`): the `Tool` enum, the
  `StrokeData` value with its default style, and the `RulerState` and
  `SetSquareState` classes whose fields the screen updates in place.
- `history.dfy`, module `UndoRedo` (`screens/SnapDrawScreen.kt` 112-132 and
  283). The undo and redo stacks are pure functions over a `History` value,
  with the lemmas: exact undo/redo round trips, the 20-snapshot bound under
  any sequence of operations, eviction of the oldest snapshot, and what
  Clear leaves behind.
- `session.dfy`, module `Session` (`screens/SnapDrawScreen.kt` 96-455). The
  screen's state is the class `DrawingSession`. Its handlers for
  undo/redo/clear, the two-finger transform and the drag start/move/end are
  methods. Each method's postcondition gives the new history as a
  `UndoRedo` function of the old one and says what stays unchanged.

`snapAngle` is a method with the source's loop, including its
`Float.MAX_VALUE` starting distance. It is proved against `SnapSpec`: the
earliest reference at the smallest scan distance from the normalised angle,
plus whether that distance is within the threshold.

Four behaviours of the code are easy to misread. The model keeps each one
as written:

- `normalizeSignedDeg` returns values in [-180, 180), so 180 becomes -180
  (Helpers.kt:24-25; `Geometry.NormalizeHalfTurn`).
- Clear empties the strokes before snapshotting (SnapDrawScreen.kt:283). The
  pushed snapshot is therefore the empty list, and undoing a Clear does not
  restore the cleared strokes (`UndoRedo.ClearThenUndo`).
- A two-finger pan moves the ruler or set square by `pan / canvasScale`
  (SnapDrawScreen.kt:301, 310), not by the raw pan.
- The protractor stores the snapped angle only when snapping is on and the
  reference is within 1 degree. Otherwise it stores the raw angle
  (SnapDrawScreen.kt:366-371).

## Model

| member | source | states |
|---|---|---|
| `Geometry.Rem360` | app/src/main/java/com/example/snapdraw/utils/Helpers.kt:24 | Float `%` by 360: the result has the dividend's sign, its magnitude is below 360, and it differs from the dividend by whole turns |
| `Geometry.NormalizeSignedDeg` | app/src/main/java/com/example/snapdraw/utils/Helpers.kt:23-27 | the folded angle lies in [-180, 180) and differs from the input by whole turns |
| `Geometry.NormalizeUnique` | app/src/main/java/com/example/snapdraw/utils/Helpers.kt:23-27 | the folded angle is the only angle of [-180, 180) that differs from the input by whole turns |
| `Geometry.NormalizeHalfTurn` | app/src/main/java/com/example/snapdraw/utils/Helpers.kt:23-27 | 180 and -180 both fold to -180 |
| `Geometry.NormalizeIdempotent` | app/src/main/java/com/example/snapdraw/utils/Helpers.kt:23-27 | angles already in [-180, 180) are unchanged, and folding twice equals folding once |
| `Geometry.NormalizePeriodic` | app/src/main/java/com/example/snapdraw/utils/Helpers.kt:23-27 | adding 360, or any whole number of turns, does not change the folded angle |
| `Geometry.AngleDistance` | app/src/main/java/com/example/snapdraw/utils/Helpers.kt:34 | the scan's candidate distance is never negative, and at most 180 whenever the remainder's dividend is non-negative |
| `Geometry.AngleDistanceIsCircular` | app/src/main/java/com/example/snapdraw/utils/Helpers.kt:34 | for a folded angle and a reference in [0, 180], the candidate distance lies in [0, 180] and equals the distance on the 360-degree circle |
| `Geometry.CircularDistanceMinimal` | app/src/main/java/com/example/snapdraw/utils/Helpers.kt:34 | the circular distance is at most the gap to every whole-turn shift of the reference |
| `Geometry.NearestExists` | app/src/main/java/com/example/snapdraw/utils/Helpers.kt:31-36 | every prefix of the reference list has a first nearest reference, so the scan always settles on a member of the list |
| `Geometry.NearestUnique` | app/src/main/java/com/example/snapdraw/utils/Helpers.kt:33-35 | the first nearest reference is unique, so the result is determined |
| `Geometry.SnapAngle` | app/src/main/java/com/example/snapdraw/utils/Helpers.kt:29-38 | the scan, starting from the Float.MAX_VALUE distance and replacing only on a strictly smaller distance, returns the earliest nearest reference and the within-threshold flag |
| `Geometry.SnapSpecNearest` | app/src/main/java/com/example/snapdraw/utils/Helpers.kt:29-38 | the snapped angle is a member of the reference list and at the least circular distance from the folded input; the flag is true exactly when that distance is within the threshold |
| `Geometry.SnapTieGoesToEarlier` | app/src/main/java/com/example/snapdraw/utils/Helpers.kt:33-35 | snapping 15 with threshold 20 gives (0, true): the tie between 0 and 30 goes to the earlier entry |
| `Geometry.SnapThresholdDecidesFlag` | app/src/main/java/com/example/snapdraw/utils/Helpers.kt:37 | 44 snaps to 45 with flag true at threshold 2 and with flag false at threshold 0.5 |
| `Geometry.ScreenToWorld` | app/src/main/java/com/example/snapdraw/utils/Helpers.kt:67-68 | the world point scaled by the zoom and shifted by the pan gives back the screen point |
| `Geometry.WorldToScreen` | app/src/main/java/com/example/snapdraw/screens/SnapDrawScreen.kt:474-475 | for a nonzero scale, screen-to-world maps the drawn position back to the world point |
| `Geometry.ScreenWorldRoundTrip` | app/src/main/java/com/example/snapdraw/screens/SnapDrawScreen.kt:474-475 | for any nonzero scale, screen-to-world undoes world-to-screen and world-to-screen undoes screen-to-world |
| `Geometry.SnapToGridIfClose` | app/src/main/java/com/example/snapdraw/utils/Helpers.kt:70-75 | the result is the input or its rounded grid point; it is the grid point whenever that is within the threshold, and it moves only to a point within the threshold |
| `Geometry.RoundToInt` | app/src/main/java/com/example/snapdraw/utils/Helpers.kt:71-72 | the rounded integer is within half a unit of its argument, halves rounding up |
| `Geometry.GridPoint` | app/src/main/java/com/example/snapdraw/utils/Helpers.kt:71-73 | each grid-point coordinate is a whole multiple of the spacing and at most half a spacing from the input |
| `Geometry.SnapToGridIdempotent` | app/src/main/java/com/example/snapdraw/utils/Helpers.kt:70-75 | with a non-negative threshold, snapping an already snapped point changes nothing |
| `Geometry.PxToCm` | app/src/main/java/com/example/snapdraw/utils/Helpers.kt:52 | centimetres times the density equal 2.54 × pixels × the calibration factor; one inch of pixels is 2.54 cm times the factor |
| `Geometry.PxToCmLinear` | app/src/main/java/com/example/snapdraw/utils/Helpers.kt:52 | one inch of pixels converts to 2.54 cm, and the conversion is additive in the pixel count |
| `Geometry.ProjectOntoLineIdempotent` | app/src/main/java/com/example/snapdraw/utils/Helpers.kt:40-48 | for a unit direction, projecting a projected point changes nothing, and the removed part is orthogonal to the edge |
| `Geometry.CosAtVertex` | app/src/main/java/com/example/snapdraw/utils/Helpers.kt:59-63 | the cosine passed to the arc cosine is clamped into [-1, 1] |
| `Geometry.ProjectOntoLine` | app/src/main/java/com/example/snapdraw/utils/Helpers.kt:40-48 | the projected point lies on the edge through the centre, and for a unit direction the removed part is orthogonal to the edge |
| `Geometry.AngleAtVertex` | app/src/main/java/com/example/snapdraw/utils/Helpers.kt:54-65 | with an arc cosine into [0, 180] the measured angle lies in [0, 180], and a zero-length ray measures 0 |
| `Models.ToolCases` | app/src/main/java/com/example/snapdraw/models/Models.kt:6-12 | every tool is exactly one of the three drawing tools (pen, ruler, set square), the protractor and PAN |
| `Models.StrokeDefaults` | app/src/main/java/com/example/snapdraw/models/Models.kt:14 | a stroke given only points is black and 6 pixels wide, and two strokes are equal exactly when their points, colours and widths are |
| `Models.RulerState.constructor` | app/src/main/java/com/example/snapdraw/models/Models.kt:16 | a ruler starts at the given centre, rotation and length, by default (0, 0), 0 and 800 |
| `Models.SetSquareState.constructor` | app/src/main/java/com/example/snapdraw/models/Models.kt:18 | a set square starts at the given centre, rotation and shape, by default (0, 0), 0 and 45 degrees |
| `UndoRedo.SnapshotPush` | app/src/main/java/com/example/snapdraw/screens/SnapDrawScreen.kt:114-118 | the live strokes go on top of the undo stack; the rest of the stack is an order-preserving prefix of the old one, one shorter when the old stack was full; the redo stack is emptied |
| `UndoRedo.Undo` | app/src/main/java/com/example/snapdraw/screens/SnapDrawScreen.kt:120-125 | with an empty undo stack nothing changes; otherwise the top snapshot becomes the live strokes and the live strokes go on top of the redo stack |
| `UndoRedo.Redo` | app/src/main/java/com/example/snapdraw/screens/SnapDrawScreen.kt:127-132 | with an empty redo stack nothing changes; otherwise the top snapshot becomes the live strokes and the live strokes go on top of the undo stack |
| `UndoRedo.UndoRedoRoundTrip` | app/src/main/java/com/example/snapdraw/screens/SnapDrawScreen.kt:120-132 | undo then redo, or redo then undo, restores the strokes and both stacks exactly |
| `UndoRedo.BoundedPreserved` | app/src/main/java/com/example/snapdraw/screens/SnapDrawScreen.kt:112-132 | push, undo, redo, commit and clear keep the two stacks together at 20 snapshots or fewer |
| `UndoRedo.RunBounded` | app/src/main/java/com/example/snapdraw/screens/SnapDrawScreen.kt:112-132 | any sequence of those operations from a bounded history stays bounded |
| `UndoRedo.EmptyStartBounded` | app/src/main/java/com/example/snapdraw/screens/SnapDrawScreen.kt:112-113 | starting from empty stacks, the two stacks never hold more than 20 snapshots between them |
| `UndoRedo.UndoTimesCount` | app/src/main/java/com/example/snapdraw/screens/SnapDrawScreen.kt:120-125 | each undo uses up one snapshot until the undo stack is empty |
| `UndoRedo.UndoFloor` | app/src/main/java/com/example/snapdraw/screens/SnapDrawScreen.kt:116 | within 20 undos the undo stack is empty and a further undo changes nothing |
| `UndoRedo.PushEvictsOldest` | app/src/main/java/com/example/snapdraw/screens/SnapDrawScreen.kt:115-116 | a push onto a full undo stack drops its oldest snapshot and keeps the others in order |
| `UndoRedo.CommitStroke` | app/src/main/java/com/example/snapdraw/screens/SnapDrawScreen.kt:412-420 | a committed stroke is appended to the live list after the previous list goes on top of the undo stack; the older snapshots stay below it in order, the oldest dropped when the stack was full; redo is emptied |
| `UndoRedo.CommitUndoRedo` | app/src/main/java/com/example/snapdraw/screens/SnapDrawScreen.kt:412-420 | undoing a commit restores the previous strokes, redoing restores the commit, and redo right after a commit is a no-op |
| `UndoRedo.TwoCommitsScenario` | app/src/main/java/com/example/snapdraw/screens/SnapDrawScreen.kt:114-132 | after two commits, two undos step back through both earlier lists and two redos return exactly; a commit after an undo disables redo |
| `UndoRedo.ClearStrokes` | app/src/main/java/com/example/snapdraw/screens/SnapDrawScreen.kt:283 | Clear leaves no strokes and an empty list on top of the undo stack; the older snapshots stay below it in order, the oldest dropped when the stack was full; redo is emptied |
| `UndoRedo.ClearThenUndo` | app/src/main/java/com/example/snapdraw/screens/SnapDrawScreen.kt:283 | an undo right after Clear still leaves no strokes |
| `Session.SnapIfEnabledCases` | app/src/main/java/com/example/snapdraw/screens/SnapDrawScreen.kt:303-308 | a twisted rotation or a protractor reading is the raw angle, or, only when snapping is on, a reference angle within the threshold; it is the reference whenever snapping is on and the flag is true |
| `Session.ProtractorTap` | app/src/main/java/com/example/snapdraw/screens/SnapDrawScreen.kt:349-374 | a first tap sets the vertex to the touched point, a second sets the first ray to it; either keeps the last reading. A third tap clears both points and stores the angle at the vertex between the ray and the touch, snapped when snapping is on and the reference is within 1 degree; that reading lies in [0, 180] for an arc cosine into [0, 180] |
| `Session.ProtractorThreeTaps` | app/src/main/java/com/example/snapdraw/screens/SnapDrawScreen.kt:348-375 | three taps from a fresh protractor set the vertex, then the first ray, then store the (optionally snapped) angle at the vertex and clear both |
| `Session.ProtractorTapOrdered` | app/src/main/java/com/example/snapdraw/screens/SnapDrawScreen.kt:349-373 | a tap never records a first ray without a vertex, and a new measurement always comes with both cleared |
| `Session.StartPoint` | app/src/main/java/com/example/snapdraw/screens/SnapDrawScreen.kt:329-346 | a pen sample lands where touched; a ruler or set-square sample lands on that tool's edge, at the foot of the perpendicular from the touch for a unit direction |
| `Session.MovePoint` | app/src/main/java/com/example/snapdraw/screens/SnapDrawScreen.kt:383-404 | a later sample lands as the first one does, except that a ruler sample with snapping on is that point passed through grid snapping with the 8-unit threshold, so it stays within 8 of it |
| `Session.StrokeStyle` | app/src/main/java/com/example/snapdraw/screens/SnapDrawScreen.kt:411-451 | pen strokes use the pen's colour and width; ruler strokes are dark grey and set-square strokes blue, both 4 wide |
| `Session.MovePointPlacement` | app/src/main/java/com/example/snapdraw/screens/SnapDrawScreen.kt:380-404 | pen samples are kept as drawn; set-square samples and unsnapped ruler samples lie on the tool's edge; a grid-snapped ruler sample is within the 8-unit threshold of its projection |
| `Session.DrawingSession.constructor` | app/src/main/java/com/example/snapdraw/screens/SnapDrawScreen.kt:96-142 | the screen starts with no strokes, empty stacks and buffer, zoom 1 at offset 0, the pen in black at width 6, snapping on, ruler at (400, 400) and set square at (600, 600) |
| `Session.DrawingSession.SelectTool` | app/src/main/java/com/example/snapdraw/screens/SnapDrawScreen.kt:208-223 | a tool button changes only the active tool |
| `Session.DrawingSession.SnapshotPush` | app/src/main/java/com/example/snapdraw/screens/SnapDrawScreen.kt:114-118 | the stacks change as `UndoRedo.SnapshotPush` says; nothing else changes |
| `Session.DrawingSession.Undo` | app/src/main/java/com/example/snapdraw/screens/SnapDrawScreen.kt:120-125 | strokes and stacks change as `UndoRedo.Undo` says; nothing else changes |
| `Session.DrawingSession.Redo` | app/src/main/java/com/example/snapdraw/screens/SnapDrawScreen.kt:127-132 | strokes and stacks change as `UndoRedo.Redo` says; nothing else changes |
| `Session.DrawingSession.Clear` | app/src/main/java/com/example/snapdraw/screens/SnapDrawScreen.kt:282-283 | strokes and stacks change as `UndoRedo.ClearStrokes` says; the buffer, tools and viewport are untouched |
| `Session.DrawingSession.Transform` | app/src/main/java/com/example/snapdraw/screens/SnapDrawScreen.kt:297-321 | with the ruler or set square active, its centre moves by pan / scale and its rotation becomes the snapped angle exactly when snapping is on and the flag is true, otherwise the old rotation plus the delta; with any other tool, including PAN, the canvas offset moves by pan and the scale becomes scale × zoom clamped to [0.3, 4]; strokes, stacks, buffer and protractor are untouched |
| `Session.DrawingSession.DragStart` | app/src/main/java/com/example/snapdraw/screens/SnapDrawScreen.kt:326-379 | for pen, ruler and set square the buffer becomes the one landed sample; the protractor takes one tap and leaves the buffer alone; PAN changes nothing; strokes and stacks are never touched |
| `Session.DrawingSession.DragMove` | app/src/main/java/com/example/snapdraw/screens/SnapDrawScreen.kt:380-408 | for pen, ruler and set square exactly one landed sample is appended (ruler grid-snapped when snapping is on, set square never); other tools change nothing |
| `Session.DrawingSession.DragEnd` | app/src/main/java/com/example/snapdraw/screens/SnapDrawScreen.kt:409-455 | for pen, ruler and set square a buffer of two or more samples is committed in the tool's style after a snapshot; fewer samples leave strokes and stacks unchanged; the buffer is always emptied; other tools change nothing |
| `Session.DrawingSession.CommitInProgress` | app/src/main/java/com/example/snapdraw/screens/SnapDrawScreen.kt:411-422 | the shared commit-if-two-or-more-samples step of each drawing tool's drag end |

## Left out

- Trigonometry, square roots and the radian-to-degree conversion are not computed. `projectOntoLine`, `angleAtVertex` and the transform handler call `cos`, `sin`, `sqrt`, `acos` and `Math.toDegrees`. The model takes these as the total functions of a `Trig` value. Facts about them appear only as hypotheses of lemmas: a unit direction, or an arc cosine into [0, 180].
- `distance` (`hypot`) has no separate function. The only use of it, `distance(world, snapped) <= threshold`, is modelled exactly as `threshold >= 0` and squared distance at most `threshold²`.
- Geometry.RoundToInt: grid indices are unbounded integers. Kotlin's `roundToInt` returns a 32-bit `Int` that saturates at -2^31 and 2^31 - 1, and the model does not saturate.
- Session.DrawingSession.SelectTool: accepts PAN, although the bottom bar (SnapDrawScreen.kt:208-223) has buttons only for pen, ruler, set square and protractor, and nothing in the screen assigns PAN. PAN is unreachable from the UI, and the model allows it.
- IEEE float rounding, NaN and infinities are not modelled. `Float.MAX_VALUE` is kept as a real constant.
- Geometry.ScreenToWorld: requires a nonzero scale. The source divides without a guard, but its only scale is clamped to [0.3, 4].
- Geometry.SnapToGridIfClose: requires a positive spacing. The only caller passes 40 / scale.
- Geometry.PxToCm: requires a nonzero `xdpi`, a display density. Nothing in the modelled core calls it.
- `saveBitmap` writes a PNG to MediaStore. It is I/O and not modelled.
- The Compose UI is not modelled: scaffold, bars, snackbars, canvas rendering, the grid-drawing loops and the info panel.
- The colour picker and the width slider only assign `strokeColor` and `strokeWidth`. They are not modelled, so those fields keep their initial black and 6. The grid switch only affects drawing. No control changes `snapEnabled`, which stays a field that starts true.
- The screen deep-copies snapshots. Strokes here are immutable values, so a snapshot cannot alias the live list, and the copy is the value itself.
- MainActivity.kt, SplashScreen.kt and SnapDrawApp.kt are not part of this model. They hold activity lifecycle, image launchers, an overlay without logic, splash animation and a splash-to-screen toggle.
