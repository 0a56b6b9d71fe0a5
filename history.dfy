/** The undo/redo history embedded in `DrawingViewModel`: the live shape
    list and two stacks of whole-list snapshots (most recent last). Each
    transition is a function here; the view model's methods are specified
    by them. */
module UndoHistory {
  import opened Shapes

  /** The undo stack keeps at most this many snapshots. */
  const MaxHistory: nat := 50

  datatype History = History(shapes: seq<Shape>, undoStack: seq<seq<Shape>>, redoStack: seq<seq<Shape>>)

  /** The history invariant: the two stacks together hold at most MaxHistory
      snapshots (`redo` pushes onto the undo stack without checking the
      bound, so the bound on the undo stack alone is not inductive). */
  predicate Bounded(h: History) {
    |h.undoStack| + |h.redoStack| <= MaxHistory
  }

  /** `pushHistory`: snapshot the live list onto the undo stack, evict the
      oldest snapshot when that makes more than MaxHistory, and clear the
      redo stack. */
  function PushHistory(h: History): (r: History)
    ensures r.shapes == h.shapes && r.redoStack == []
    ensures |r.undoStack| == if |h.undoStack| < MaxHistory then |h.undoStack| + 1 else |h.undoStack|
    ensures r.undoStack == h.undoStack[|h.undoStack| + 1 - |r.undoStack|..] + [h.shapes]
    ensures |h.undoStack| <= MaxHistory ==> Bounded(r)
  {
    var pushed := h.undoStack + [h.shapes];
    var kept := if |pushed| > MaxHistory then pushed[1..] else pushed;
    assert |pushed| > MaxHistory ==> kept == h.undoStack[1..] + [h.shapes];
    History(h.shapes, kept, [])
  }

  /** A committing operation: push history, then append the new shapes. */
  function Commit(h: History, added: seq<Shape>): (r: History)
    ensures r.shapes == h.shapes + added
    ensures r.undoStack == PushHistory(h).undoStack && r.redoStack == []
  {
    var p := PushHistory(h);
    p.(shapes := p.shapes + added)
  }

  /** `undo`: a no-op on an empty undo stack; otherwise the live list goes
      onto the redo stack and the most recent snapshot becomes the live
      list. */
  function Undo(h: History): (r: History)
    ensures |h.undoStack| == 0 ==> r == h
    ensures |h.undoStack| > 0 ==>
      && r.shapes == h.undoStack[|h.undoStack| - 1]
      && r.undoStack == h.undoStack[..|h.undoStack| - 1]
      && r.redoStack == h.redoStack + [h.shapes]
    ensures |r.undoStack| + |r.redoStack| == |h.undoStack| + |h.redoStack|
  {
    if |h.undoStack| == 0 then h
    else
      var n := |h.undoStack|;
      History(h.undoStack[n - 1], h.undoStack[..n - 1], h.redoStack + [h.shapes])
  }

  /** `redo`: the mirror image of `undo`. */
  function Redo(h: History): (r: History)
    ensures |h.redoStack| == 0 ==> r == h
    ensures |h.redoStack| > 0 ==>
      && r.shapes == h.redoStack[|h.redoStack| - 1]
      && r.redoStack == h.redoStack[..|h.redoStack| - 1]
      && r.undoStack == h.undoStack + [h.shapes]
    ensures |r.undoStack| + |r.redoStack| == |h.undoStack| + |h.redoStack|
  {
    if |h.redoStack| == 0 then h
    else
      var n := |h.redoStack|;
      History(h.redoStack[n - 1], h.undoStack + [h.shapes], h.redoStack[..n - 1])
  }

  /** Every transition keeps the history invariant, so the undo stack never
      holds more than MaxHistory snapshots. */
  lemma {:induction false} BoundedPreserved(h: History, added: seq<Shape>)
    requires Bounded(h)
    ensures Bounded(PushHistory(h)) && Bounded(Commit(h, added))
    ensures Bounded(Undo(h)) && Bounded(Redo(h))
    ensures |h.undoStack| <= MaxHistory
  {
  }

  /** `undo` then `redo` gives back exactly the state before the undo. */
  lemma {:induction false} RedoAfterUndo(h: History)
    requires |h.undoStack| > 0
    ensures Redo(Undo(h)) == h
  {
    var n := |h.undoStack|;
    assert h.undoStack[..n - 1] + [h.undoStack[n - 1]] == h.undoStack;
  }

  /** `redo` then `undo` gives back exactly the state before the redo. */
  lemma {:induction false} UndoAfterRedo(h: History)
    requires |h.redoStack| > 0
    ensures Undo(Redo(h)) == h
  {
    var n := |h.redoStack|;
    assert h.redoStack[..n - 1] + [h.redoStack[n - 1]] == h.redoStack;
  }

  /** Undoing a commit restores the shapes from before it and offers the
      committed list for redo; redoing then repeats the commit. */
  lemma {:induction false} UndoReversesCommit(h: History, added: seq<Shape>)
    ensures Undo(Commit(h, added)).shapes == h.shapes
    ensures Undo(Commit(h, added)).redoStack == [h.shapes + added]
    ensures Redo(Undo(Commit(h, added))) == Commit(h, added)
  {
    RedoAfterUndo(Commit(h, added));
  }

  /** On a full undo stack a commit evicts exactly the oldest snapshot. */
  lemma {:induction false} CommitEvictsOldest(h: History, added: seq<Shape>)
    requires |h.undoStack| == MaxHistory
    ensures Commit(h, added).undoStack == h.undoStack[1..] + [h.shapes]
    ensures |Commit(h, added).undoStack| == MaxHistory
  {
  }
}
