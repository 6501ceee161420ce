/**
 * The drawing screen's state machine: the canvas viewport, the active tool,
 * the drafting tools, the in-progress stroke, the committed strokes with
 * their undo/redo stacks, and the protractor's three-tap measurement.
 * Gesture delivery is outside the model: each handler receives the screen
 * position or the pan/zoom/rotation deltas the gesture layer extracted.
 */
module Session {
  import opened Geometry
  import opened Models
  import opened UndoRedo

  datatype Option<T> = None | Some(value: T)

  const MinScale: real := 0.3
  const MaxScale: real := 4.0
  /** Grid spacing in screen pixels at zoom 1. */
  const GridSpacingPx: real := 40.0
  /** Snapping tolerance, in degrees at zoom 1, for twisting the ruler or set square. */
  const RotationSnapDeg: real := 6.0
  /** Snapping tolerance, in degrees, for a protractor reading. */
  const ProtractorSnapDeg: real := 1.0
  /** Width of the strokes drawn along the ruler or the set square. */
  const EdgeStrokeWidth: real := 4.0

  /** A drafting tool's edge: the line through `center` at `rotationDeg`. */
  datatype Edge = Edge(center: Offset, rotationDeg: real)

  /**
   * The snapped reference angle when snapping is on and the reference is
   * within the threshold; the raw angle otherwise.
   */
  ghost function SnapIfEnabled(rawDeg: real, thresholdDeg: real, snapEnabled: bool): real {
    var (snapped, hard) := SnapSpec(rawDeg, thresholdDeg);
    if snapEnabled && hard then snapped else rawDeg
  }

  /**
   * The result is the raw angle, or (only when snapping is on) the nearest
   * reference angle, no further from the raw angle than the threshold; and it
   * is that reference whenever snapping is on and the reference is close.
   */
  lemma SnapIfEnabledCases(rawDeg: real, thresholdDeg: real, snapEnabled: bool)
    ensures var r := SnapIfEnabled(rawDeg, thresholdDeg, snapEnabled);
            && (r == rawDeg || (snapEnabled && r in CommonAngles
                                && CircularDistance(NormalizeSignedDeg(rawDeg), r) <= thresholdDeg))
            && (!snapEnabled ==> r == rawDeg)
            && (snapEnabled && SnapSpec(rawDeg, thresholdDeg).1 ==> r == SnapSpec(rawDeg, thresholdDeg).0)
  {
    SnapSpecNearest(rawDeg, thresholdDeg, 0);
  }

  /** The protractor's taps so far and its last reading. */
  datatype ProtractorState = ProtractorState(vertex: Option<Offset>, ray1: Option<Offset>, measuredDeg: Option<real>)

  /**
   * One protractor tap: the first sets the vertex, the second the first ray,
   * the third measures the angle (snapped within 1 degree when snapping is on)
   * and starts over.
   */
  ghost function ProtractorTap(p: ProtractorState, world: Offset, snapEnabled: bool, trig: Trig): (r: ProtractorState)
    ensures (p.vertex.None? || p.ray1.None?) ==> r.vertex.Some? && r.measuredDeg == p.measuredDeg
    ensures p.vertex.None? ==> r.vertex == Some(world) && r.ray1 == p.ray1
    ensures p.vertex.Some? && p.ray1.None? ==> r.vertex == p.vertex && r.ray1 == Some(world)
    ensures p.vertex.Some? && p.ray1.Some? ==>
              r.measuredDeg == Some(SnapIfEnabled(AngleAtVertex(p.ray1.value, p.vertex.value, world, trig),
                                                  ProtractorSnapDeg, snapEnabled))
    ensures p.vertex.Some? && p.ray1.Some? ==> r.vertex.None? && r.ray1.None? && r.measuredDeg.Some?
    ensures p.vertex.Some? && p.ray1.Some? && AcosInRange(trig) ==> 0.0 <= r.measuredDeg.value <= 180.0
  {
    if p.vertex.None? then p.(vertex := Some(world))
    else if p.ray1.None? then p.(ray1 := Some(world))
    else
      var angle := AngleAtVertex(p.ray1.value, p.vertex.value, world, trig);
      SnapIfEnabledCases(angle, ProtractorSnapDeg, snapEnabled);
      ProtractorState(None, None, Some(SnapIfEnabled(angle, ProtractorSnapDeg, snapEnabled)))
  }

  /**
   * Three taps from a fresh start pass through "vertex set" and "ray set"
   * and end with both cleared and the measurement at the third tap stored;
   * a first ray is never recorded without a vertex.
   */
  lemma ProtractorThreeTaps(p: ProtractorState, a: Offset, b: Offset, c: Offset, snapEnabled: bool, trig: Trig)
    requires p.vertex.None? && p.ray1.None?
    ensures var p1 := ProtractorTap(p, a, snapEnabled, trig);
            var p2 := ProtractorTap(p1, b, snapEnabled, trig);
            var p3 := ProtractorTap(p2, c, snapEnabled, trig);
            && p1 == ProtractorState(Some(a), None, p.measuredDeg)
            && p2 == ProtractorState(Some(a), Some(b), p.measuredDeg)
            && p3 == ProtractorState(None, None, Some(SnapIfEnabled(AngleAtVertex(b, a, c, trig), ProtractorSnapDeg, snapEnabled)))
  {
  }

  lemma ProtractorTapOrdered(p: ProtractorState, world: Offset, snapEnabled: bool, trig: Trig)
    requires p.ray1.Some? ==> p.vertex.Some?
    ensures var q := ProtractorTap(p, world, snapEnabled, trig);
            && (q.ray1.Some? ==> q.vertex.Some?)
            && (q.measuredDeg != p.measuredDeg ==> q.vertex.None? && q.ray1.None?)
  {
  }

  /** Where a drag's first sample lands: raw for the pen, on the edge for the ruler and set square. */
  function StartPoint(tool: Tool, world: Offset, ruler: Edge, square: Edge, trig: Trig): (p: Offset)
    requires tool.Draws()
    ensures tool == Pen ==> p == world
    ensures tool == Ruler ==> OnLine(p, ruler.center, ruler.rotationDeg, trig)
    ensures tool == SetSquare ==> OnLine(p, square.center, square.rotationDeg, trig)
    ensures tool == Ruler && UnitDirection(trig, ruler.rotationDeg) ==>
              (world.x - p.x) * trig.cosDeg(ruler.rotationDeg) + (world.y - p.y) * trig.sinDeg(ruler.rotationDeg) == 0.0
    ensures tool == SetSquare && UnitDirection(trig, square.rotationDeg) ==>
              (world.x - p.x) * trig.cosDeg(square.rotationDeg) + (world.y - p.y) * trig.sinDeg(square.rotationDeg) == 0.0
  {
    match tool
    case Pen => world
    case Ruler => ProjectOntoLine(world, ruler.center, ruler.rotationDeg, trig)
    case SetSquare => ProjectOntoLine(world, square.center, square.rotationDeg, trig)
  }

  /**
   * Where a later sample lands: as at the start, except that a ruler sample
   * is also pulled onto a nearby grid point when snapping is on.
   */
  function MovePoint(tool: Tool, world: Offset, ruler: Edge, square: Edge, snapEnabled: bool,
                     gridSpacingWorld: real, trig: Trig): (p: Offset)
    requires tool.Draws() && gridSpacingWorld > 0.0
    ensures tool != Ruler || !snapEnabled ==> p == StartPoint(tool, world, ruler, square, trig)
    ensures tool == Ruler && snapEnabled ==> p == SnapToGridIfClose(StartPoint(tool, world, ruler, square, trig), gridSpacingWorld)
    ensures WithinDistance(StartPoint(tool, world, ruler, square, trig), p, DefaultGridThreshold)
  {
    var p := StartPoint(tool, world, ruler, square, trig);
    if tool == Ruler && snapEnabled then SnapToGridIfClose(p, gridSpacingWorld) else p
  }

  /**
   * Pen samples are kept as drawn. Ruler and set-square samples lie on the
   * tool's edge (given a unit direction), except that a grid-snapped ruler
   * sample may sit up to the 8-unit grid threshold off it.
   */
  lemma MovePointPlacement(tool: Tool, world: Offset, ruler: Edge, square: Edge, snapEnabled: bool,
                           gridSpacingWorld: real, trig: Trig)
    requires tool.Draws() && gridSpacingWorld > 0.0
    ensures tool == Pen ==> MovePoint(tool, world, ruler, square, snapEnabled, gridSpacingWorld, trig) == world
    ensures tool == SetSquare && UnitDirection(trig, square.rotationDeg) ==>
              var p := MovePoint(tool, world, ruler, square, snapEnabled, gridSpacingWorld, trig);
              ProjectOntoLine(p, square.center, square.rotationDeg, trig) == p
    ensures tool == Ruler && !snapEnabled && UnitDirection(trig, ruler.rotationDeg) ==>
              var p := MovePoint(tool, world, ruler, square, snapEnabled, gridSpacingWorld, trig);
              ProjectOntoLine(p, ruler.center, ruler.rotationDeg, trig) == p
    ensures tool == Ruler ==>
              var q := ProjectOntoLine(world, ruler.center, ruler.rotationDeg, trig);
              WithinDistance(q, MovePoint(tool, world, ruler, square, snapEnabled, gridSpacingWorld, trig), DefaultGridThreshold)
  {
    if tool == SetSquare && UnitDirection(trig, square.rotationDeg) {
      ProjectOntoLineIdempotent(world, square.center, square.rotationDeg, trig);
    }
    if tool == Ruler {
      var q := ProjectOntoLine(world, ruler.center, ruler.rotationDeg, trig);
      if UnitDirection(trig, ruler.rotationDeg) {
        ProjectOntoLineIdempotent(world, ruler.center, ruler.rotationDeg, trig);
      }
      assert SquaredDistance(q, q) == 0.0;
    }
  }

  /** The colour and width a finished drag is committed with. */
  function StrokeStyle(tool: Tool, penColor: Color, penWidth: real): (style: (Color, real))
    requires tool.Draws()
    ensures tool == Pen ==> style == (penColor, penWidth)
    ensures tool == Ruler ==> style == (DarkGray, EdgeStrokeWidth)
    ensures tool == SetSquare ==> style == (Blue, EdgeStrokeWidth)
  {
    match tool
    case Pen => (penColor, penWidth)
    case Ruler => (DarkGray, EdgeStrokeWidth)
    case SetSquare => (Blue, EdgeStrokeWidth)
  }

  class DrawingSession {
    const trig: Trig
    const ruler: RulerState
    const setSquare: SetSquareState

    var canvasOffset: Offset
    var canvasScale: real
    var currentTool: Tool
    var snapEnabled: bool
    var strokeColor: Color
    var strokeWidth: real

    var strokes: seq<StrokeData>
    var currentStrokePoints: seq<Offset>
    var undoStack: seq<seq<StrokeData>>
    var redoStack: seq<seq<StrokeData>>

    var protractorVertex: Option<Offset>
    var protractorRay1: Option<Offset>
    var protractorMeasuredDeg: Option<real>

    ghost function Hist(): History
      reads this
    {
      History(strokes, undoStack, redoStack)
    }

    ghost function ProtractorTaps(): ProtractorState
      reads this
    {
      ProtractorState(protractorVertex, protractorRay1, protractorMeasuredDeg)
    }

    ghost function Settings(): (Tool, bool, Color, real)
      reads this
    {
      (currentTool, snapEnabled, strokeColor, strokeWidth)
    }

    ghost function Viewport(): (Offset, real)
      reads this
    {
      (canvasOffset, canvasScale)
    }

    /** The history stays within capacity, the zoom within its range, and no ray precedes its vertex. */
    ghost predicate Valid()
      reads this
    {
      && Bounded(Hist())
      && MinScale <= canvasScale <= MaxScale
      && (protractorRay1.Some? ==> protractorVertex.Some?)
    }

    ghost function RulerEdge(): Edge
      reads ruler
    {
      Edge(ruler.center, ruler.rotationDeg)
    }

    ghost function SquareEdge(): Edge
      reads setSquare
    {
      Edge(setSquare.center, setSquare.rotationDeg)
    }

    /** The screen as it first appears. */
    constructor (trig: Trig)
      ensures Valid() && fresh(ruler) && fresh(setSquare) && this.trig == trig
      ensures Viewport() == (Zero, 1.0) && Settings() == (Pen, true, Black, 6.0)
      ensures Hist() == Empty([]) && currentStrokePoints == []
      ensures ProtractorTaps() == ProtractorState(None, None, None)
      ensures ruler.center == Offset(400.0, 400.0) && ruler.rotationDeg == 0.0 && ruler.lengthPx == 800.0
      ensures setSquare.center == Offset(600.0, 600.0) && setSquare.rotationDeg == 0.0 && setSquare.is45
    {
      this.trig := trig;
      ruler := new RulerState(Offset(400.0, 400.0));
      setSquare := new SetSquareState(Offset(600.0, 600.0));
      canvasOffset, canvasScale := Zero, 1.0;
      currentTool, snapEnabled := Pen, true;
      strokeColor, strokeWidth := Black, 6.0;
      strokes, currentStrokePoints := [], [];
      undoStack, redoStack := [], [];
      protractorVertex, protractorRay1, protractorMeasuredDeg := None, None, None;
    }

    /** A tool button: only the active tool changes. */
    method SelectTool(tool: Tool)
      requires Valid()
      modifies this
      ensures Valid() && currentTool == tool
      ensures snapEnabled == old(snapEnabled) && strokeColor == old(strokeColor) && strokeWidth == old(strokeWidth)
      ensures Hist() == old(Hist()) && currentStrokePoints == old(currentStrokePoints)
      ensures Viewport() == old(Viewport()) && ProtractorTaps() == old(ProtractorTaps())
    {
      currentTool := tool;
    }

    /** Records the live strokes for undo and invalidates redo. */
    method SnapshotPush()
      requires Valid()
      modifies this
      ensures Valid() && Hist() == UndoRedo.SnapshotPush(old(Hist()))
      ensures currentStrokePoints == old(currentStrokePoints) && Settings() == old(Settings())
      ensures Viewport() == old(Viewport()) && ProtractorTaps() == old(ProtractorTaps())
    {
      BoundedPreserved(Hist(), StrokeData([]));
      undoStack := [strokes] + undoStack;
      if |undoStack| > Capacity {
        undoStack := undoStack[..|undoStack| - 1];
      }
      redoStack := [];
    }

    method Undo()
      requires Valid()
      modifies this
      ensures Valid() && Hist() == UndoRedo.Undo(old(Hist()))
      ensures currentStrokePoints == old(currentStrokePoints) && Settings() == old(Settings())
      ensures Viewport() == old(Viewport()) && ProtractorTaps() == old(ProtractorTaps())
    {
      if undoStack != [] {
        redoStack := [strokes] + redoStack;
        strokes := undoStack[0];
        undoStack := undoStack[1..];
      }
    }

    method Redo()
      requires Valid()
      modifies this
      ensures Valid() && Hist() == UndoRedo.Redo(old(Hist()))
      ensures currentStrokePoints == old(currentStrokePoints) && Settings() == old(Settings())
      ensures Viewport() == old(Viewport()) && ProtractorTaps() == old(ProtractorTaps())
    {
      if redoStack != [] {
        undoStack := [strokes] + undoStack;
        strokes := redoStack[0];
        redoStack := redoStack[1..];
      }
    }

    /** The Clear button: empties the strokes, then snapshots. */
    method Clear()
      requires Valid()
      modifies this
      ensures Valid() && Hist() == ClearStrokes(old(Hist()))
      ensures currentStrokePoints == old(currentStrokePoints) && Settings() == old(Settings())
      ensures Viewport() == old(Viewport()) && ProtractorTaps() == old(ProtractorTaps())
    {
      strokes := [];
      SnapshotPush();
    }

    /**
     * A two-finger gesture: twists and moves the ruler or the set square when
     * one is active, and otherwise pans the canvas and zooms it within its range.
     */
    method Transform(pan: Offset, zoom: real, rotation: real)
      requires Valid()
      modifies this, ruler, setSquare
      ensures Valid()
      ensures Hist() == old(Hist()) && currentStrokePoints == old(currentStrokePoints)
      ensures Settings() == old(Settings()) && ProtractorTaps() == old(ProtractorTaps())
      ensures currentTool == Ruler ==>
                && ruler.center == old(ruler.center).Plus(pan.Div(canvasScale))
                && ruler.rotationDeg == SnapIfEnabled(old(ruler.rotationDeg) + trig.toDegrees(rotation),
                                                      RotationSnapDeg / canvasScale, snapEnabled)
                && ruler.lengthPx == old(ruler.lengthPx)
                && unchanged(setSquare) && Viewport() == old(Viewport())
      ensures currentTool == SetSquare ==>
                && setSquare.center == old(setSquare.center).Plus(pan.Div(canvasScale))
                && setSquare.rotationDeg == SnapIfEnabled(old(setSquare.rotationDeg) + trig.toDegrees(rotation),
                                                          RotationSnapDeg / canvasScale, snapEnabled)
                && setSquare.is45 == old(setSquare.is45)
                && unchanged(ruler) && Viewport() == old(Viewport())
      ensures currentTool != Ruler && currentTool != SetSquare ==>
                && unchanged(ruler, setSquare)
                && canvasOffset == old(canvasOffset).Plus(pan)
                && canvasScale == Clamp(old(canvasScale) * zoom, MinScale, MaxScale)
    {
      if currentTool == Ruler {
        ruler.center := ruler.center.Plus(pan.Div(canvasScale));
        var deltaDeg := trig.toDegrees(rotation);
        var snapped, hard := SnapAngle(ruler.rotationDeg + deltaDeg, RotationSnapDeg / canvasScale);
        if snapEnabled && hard {
          ruler.rotationDeg := snapped;
        } else {
          ruler.rotationDeg := ruler.rotationDeg + deltaDeg;
        }
      } else if currentTool == SetSquare {
        setSquare.center := setSquare.center.Plus(pan.Div(canvasScale));
        var deltaDeg := trig.toDegrees(rotation);
        var snapped, hard := SnapAngle(setSquare.rotationDeg + deltaDeg, RotationSnapDeg / canvasScale);
        if snapEnabled && hard {
          setSquare.rotationDeg := snapped;
        } else {
          setSquare.rotationDeg := setSquare.rotationDeg + deltaDeg;
        }
      } else {
        var scaled := Clamp(canvasScale * zoom, MinScale, MaxScale);
        canvasOffset := canvasOffset.Plus(pan);
        canvasScale := scaled;
      }
    }

    /**
     * A drag starts: a drawing tool restarts the in-progress stroke with the
     * one landed sample; the protractor takes a tap; pan does nothing.
     */
    method DragStart(screen: Offset)
      requires Valid()
      modifies this
      ensures Valid()
      ensures Hist() == old(Hist()) && Settings() == old(Settings()) && Viewport() == old(Viewport())
      ensures currentTool.Draws() ==>
                && currentStrokePoints == [StartPoint(currentTool, ScreenToWorld(screen, canvasOffset, canvasScale),
                                                      RulerEdge(), SquareEdge(), trig)]
                && ProtractorTaps() == old(ProtractorTaps())
      ensures currentTool == Protractor ==>
                && currentStrokePoints == old(currentStrokePoints)
                && ProtractorTaps() == ProtractorTap(old(ProtractorTaps()), ScreenToWorld(screen, canvasOffset, canvasScale),
                                                 snapEnabled, trig)
      ensures currentTool == Pan ==> currentStrokePoints == old(currentStrokePoints) && ProtractorTaps() == old(ProtractorTaps())
    {
      var world := ScreenToWorld(screen, canvasOffset, canvasScale);
      match currentTool
      case Pen =>
        currentStrokePoints := [world];
      case Ruler =>
        var proj := ProjectOntoLine(world, ruler.center, ruler.rotationDeg, trig);
        currentStrokePoints := [proj];
      case SetSquare =>
        var proj := ProjectOntoLine(world, setSquare.center, setSquare.rotationDeg, trig);
        currentStrokePoints := [proj];
      case Protractor =>
        if protractorVertex == None {
          protractorVertex := Some(world);
        } else if protractorRay1 == None {
          protractorRay1 := Some(world);
        } else {
          var angle := AngleAtVertex(protractorRay1.value, protractorVertex.value, world, trig);
          var snapped, hard := SnapAngle(angle, ProtractorSnapDeg);
          protractorMeasuredDeg := Some(if snapEnabled && hard then snapped else angle);
          protractorVertex := None;
          protractorRay1 := None;
        }
      case Pan =>
    }

    /** A drag continues: a drawing tool appends exactly one landed sample; other tools do nothing. */
    method DragMove(screen: Offset)
      requires Valid()
      modifies this
      ensures Valid()
      ensures Hist() == old(Hist()) && Settings() == old(Settings())
      ensures Viewport() == old(Viewport()) && ProtractorTaps() == old(ProtractorTaps())
      ensures currentTool.Draws() ==>
                currentStrokePoints == old(currentStrokePoints)
                  + [MovePoint(currentTool, ScreenToWorld(screen, canvasOffset, canvasScale), RulerEdge(), SquareEdge(),
                               snapEnabled, GridSpacingPx / canvasScale, trig)]
      ensures !currentTool.Draws() ==> currentStrokePoints == old(currentStrokePoints)
    {
      var world := ScreenToWorld(screen, canvasOffset, canvasScale);
      match currentTool
      case Pen =>
        currentStrokePoints := currentStrokePoints + [world];
      case Ruler =>
        var proj := ProjectOntoLine(world, ruler.center, ruler.rotationDeg, trig);
        var snapped := if snapEnabled then SnapToGridIfClose(proj, GridSpacingPx / canvasScale) else proj;
        currentStrokePoints := currentStrokePoints + [snapped];
      case SetSquare =>
        var proj := ProjectOntoLine(world, setSquare.center, setSquare.rotationDeg, trig);
        currentStrokePoints := currentStrokePoints + [proj];
      case _ =>
    }

    /**
     * A drag ends: a drawing tool commits the in-progress stroke in its style
     * if it has at least two samples (snapshot first), and always empties it;
     * other tools do nothing.
     */
    method DragEnd()
      requires Valid()
      modifies this
      ensures Valid()
      ensures Settings() == old(Settings()) && Viewport() == old(Viewport()) && ProtractorTaps() == old(ProtractorTaps())
      ensures currentTool.Draws() ==>
                && currentStrokePoints == []
                && Hist() == if |old(currentStrokePoints)| >= 2
                             then var (color, width) := StrokeStyle(currentTool, strokeColor, strokeWidth);
                                  CommitStroke(old(Hist()), StrokeData(old(currentStrokePoints), color, width))
                             else old(Hist())
      ensures !currentTool.Draws() ==> currentStrokePoints == old(currentStrokePoints) && Hist() == old(Hist())
    {
      match currentTool
      case Pen =>
        CommitInProgress(strokeColor, strokeWidth);
      case Ruler =>
        CommitInProgress(DarkGray, EdgeStrokeWidth);
      case SetSquare =>
        CommitInProgress(Blue, EdgeStrokeWidth);
      case _ =>
    }

    /** Commits the in-progress stroke if it has two samples or more, then empties it. */
    method CommitInProgress(color: Color, width: real)
      requires Valid()
      modifies this
      ensures Valid() && currentStrokePoints == []
      ensures Hist() == if |old(currentStrokePoints)| >= 2
                        then CommitStroke(old(Hist()), StrokeData(old(currentStrokePoints), color, width))
                        else old(Hist())
      ensures Settings() == old(Settings()) && Viewport() == old(Viewport()) && ProtractorTaps() == old(ProtractorTaps())
    {
      if |currentStrokePoints| >= 2 {
        SnapshotPush();
        strokes := strokes + [StrokeData(currentStrokePoints, color, width)];
      }
      currentStrokePoints := [];
    }
  }
}
