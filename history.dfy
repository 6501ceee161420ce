/**
 * The drawing screen's bounded undo/redo history: two stacks of stroke-list
 * snapshots, most recent first, over the live stroke list. Strokes are
 * values, so the screen's deep copy of each snapshot is the snapshot itself.
 */
module UndoRedo {
  import opened Models

  /** Snapshots the two stacks hold between them. */
  const Capacity: nat := 20

  /** The live stroke list with the undo and redo stacks (index 0 is the top). */
  datatype History = History(strokes: seq<StrokeData>,
                             undoStack: seq<seq<StrokeData>>,
                             redoStack: seq<seq<StrokeData>>)

  function Empty(strokes: seq<StrokeData>): History {
    History(strokes, [], [])
  }

  /** The bound the history keeps once it starts with both stacks empty. */
  predicate Bounded(h: History) {
    |h.undoStack| + |h.redoStack| <= Capacity
  }

  /**
   * Records the live strokes on top of the undo stack, drops the bottom entry
   * when the stack has grown past the capacity, and forgets every redo.
   */
  function SnapshotPush(h: History): (r: History)
    ensures r.strokes == h.strokes && r.redoStack == []
    ensures |r.undoStack| > 0 && r.undoStack[0] == h.strokes
    ensures r.undoStack[1..] <= h.undoStack
    ensures |r.undoStack| == if |h.undoStack| < Capacity then |h.undoStack| + 1 else |h.undoStack|
  {
    var u := [h.strokes] + h.undoStack;
    History(h.strokes, if |u| > Capacity then u[..|u| - 1] else u, [])
  }

  /** Moves back one snapshot, saving the live strokes for redo; nothing to undo, nothing changes. */
  function Undo(h: History): (r: History)
    ensures h.undoStack == [] ==> r == h
    ensures h.undoStack != [] ==> [r.strokes] + r.undoStack == h.undoStack && r.redoStack == [h.strokes] + h.redoStack
    ensures |r.undoStack| + |r.redoStack| == |h.undoStack| + |h.redoStack|
  {
    if h.undoStack == [] then h
    else History(h.undoStack[0], h.undoStack[1..], [h.strokes] + h.redoStack)
  }

  /** Moves forward one snapshot, saving the live strokes for undo; nothing to redo, nothing changes. */
  function Redo(h: History): (r: History)
    ensures h.redoStack == [] ==> r == h
    ensures h.redoStack != [] ==> [r.strokes] + r.redoStack == h.redoStack && r.undoStack == [h.strokes] + h.undoStack
    ensures |r.undoStack| + |r.redoStack| == |h.undoStack| + |h.redoStack|
  {
    if h.redoStack == [] then h
    else History(h.redoStack[0], [h.strokes] + h.undoStack, h.redoStack[1..])
  }

  /** A finished drag: snapshot first, then append the stroke. */
  function CommitStroke(h: History, s: StrokeData): (r: History)
    ensures r.strokes == h.strokes + [s]
    ensures r.undoStack != [] && r.undoStack[0] == h.strokes && r.redoStack == []
    ensures r.undoStack[1..] <= h.undoStack
    ensures |r.undoStack| == if |h.undoStack| < Capacity then |h.undoStack| + 1 else |h.undoStack|
  {
    var p := SnapshotPush(h);
    p.(strokes := p.strokes + [s])
  }

  /** The Clear button: empty the strokes, then snapshot the (now empty) list. */
  function ClearStrokes(h: History): (r: History)
    ensures r.strokes == [] && r.redoStack == []
    ensures r.undoStack != [] && r.undoStack[0] == []
    ensures r.undoStack[1..] <= h.undoStack
    ensures |r.undoStack| == if |h.undoStack| < Capacity then |h.undoStack| + 1 else |h.undoStack|
  {
    SnapshotPush(h.(strokes := []))
  }

  /** Undo followed by redo, or redo followed by undo, restores everything exactly. */
  lemma UndoRedoRoundTrip(h: History)
    ensures h.undoStack != [] ==> Redo(Undo(h)) == h
    ensures h.redoStack != [] ==> Undo(Redo(h)) == h
  {
    if h.undoStack != [] {
      assert [h.undoStack[0]] + h.undoStack[1..] == h.undoStack;
    }
    if h.redoStack != [] {
      assert [h.redoStack[0]] + h.redoStack[1..] == h.redoStack;
    }
  }

  /** Every operation keeps both stacks within the capacity. */
  lemma BoundedPreserved(h: History, s: StrokeData)
    requires Bounded(h)
    ensures Bounded(SnapshotPush(h)) && Bounded(Undo(h)) && Bounded(Redo(h))
    ensures Bounded(CommitStroke(h, s)) && Bounded(ClearStrokes(h))
  {
  }

  /** The history operations the screen can perform. */
  datatype Step = DoPush | DoUndo | DoRedo | DoCommit(stroke: StrokeData) | DoClear

  function Apply(h: History, step: Step): History {
    match step
    case DoPush => SnapshotPush(h)
    case DoUndo => Undo(h)
    case DoRedo => Redo(h)
    case DoCommit(s) => CommitStroke(h, s)
    case DoClear => ClearStrokes(h)
  }

  function Run(h: History, steps: seq<Step>): History
    decreases |steps|
  {
    if steps == [] then h else Run(Apply(h, steps[0]), steps[1..])
  }

  /** Starting from empty stacks, no sequence of operations holds more than `Capacity` snapshots. */
  lemma {:induction false} RunBounded(h: History, steps: seq<Step>)
    requires Bounded(h)
    ensures Bounded(Run(h, steps))
    ensures |Run(h, steps).undoStack| <= Capacity
    decreases |steps|
  {
    if steps != [] {
      var s := if steps[0].DoCommit? then steps[0].stroke else StrokeData([]);
      BoundedPreserved(h, s);
      RunBounded(Apply(h, steps[0]), steps[1..]);
    }
  }

  lemma EmptyStartBounded(strokes: seq<StrokeData>, steps: seq<Step>)
    ensures |Run(Empty(strokes), steps).undoStack| + |Run(Empty(strokes), steps).redoStack| <= Capacity
  {
    RunBounded(Empty(strokes), steps);
  }

  function UndoTimes(h: History, n: nat): History
    decreases n
  {
    if n == 0 then h else UndoTimes(Undo(h), n - 1)
  }

  /** Each undo consumes one snapshot until none are left. */
  lemma {:induction false} UndoTimesCount(h: History, n: nat)
    ensures |UndoTimes(h, n).undoStack| == if n < |h.undoStack| then |h.undoStack| - n else 0
    decreases n
  {
    if n > 0 {
      UndoTimesCount(Undo(h), n - 1);
    }
  }

  /** Within `Capacity` undos the history reaches its floor: a further undo changes nothing. */
  lemma UndoFloor(h: History)
    requires Bounded(h)
    ensures UndoTimes(h, Capacity).undoStack == []
    ensures Undo(UndoTimes(h, Capacity)) == UndoTimes(h, Capacity)
  {
    UndoTimesCount(h, Capacity);
  }

  /** A push onto a full undo stack loses its oldest snapshot and keeps the rest in order. */
  lemma PushEvictsOldest(h: History)
    requires |h.undoStack| == Capacity
    ensures SnapshotPush(h).undoStack == [h.strokes] + h.undoStack[..Capacity - 1]
  {
  }

  /** Undoing a committed stroke brings back the strokes before it; redoing brings the stroke back. */
  lemma CommitUndoRedo(h: History, s: StrokeData)
    ensures Undo(CommitStroke(h, s)).strokes == h.strokes
    ensures Redo(Undo(CommitStroke(h, s))) == CommitStroke(h, s)
    ensures Redo(CommitStroke(h, s)) == CommitStroke(h, s)
  {
    UndoRedoRoundTrip(CommitStroke(h, s));
  }

  /**
   * Two commits, two undos, two redos: the strokes step back through both
   * earlier lists and forward again; a commit after an undo discards the redo.
   */
  lemma TwoCommitsScenario(h: History, s1: StrokeData, s2: StrokeData, s3: StrokeData)
    ensures var h2 := CommitStroke(CommitStroke(h, s1), s2);
            && Undo(h2).strokes == h.strokes + [s1]
            && Undo(Undo(h2)).strokes == h.strokes
            && Redo(Undo(Undo(h2))).strokes == h.strokes + [s1]
            && Redo(Redo(Undo(Undo(h2)))) == h2
            && Redo(CommitStroke(Undo(h2), s3)) == CommitStroke(Undo(h2), s3)
  {
    var h1 := CommitStroke(h, s1);
    var h2 := CommitStroke(h1, s2);
    assert |h2.undoStack| >= 2 && h2.undoStack[1] == h.strokes;
    UndoRedoRoundTrip(Undo(h2));
    UndoRedoRoundTrip(h2);
  }

  /**
   * Clear snapshots the list after emptying it, so undoing a Clear leaves the
   * strokes empty rather than restoring the cleared ones.
   */
  lemma ClearThenUndo(h: History)
    ensures Undo(ClearStrokes(h)).strokes == []
    ensures Undo(ClearStrokes(h)).redoStack == [[]]
  {
  }
}
