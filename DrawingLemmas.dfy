/** Properties of the drawing view that relate several transitions: what a
    trace of calls does to the history, the undo list and the picture. */
module DrawingLemmas {
  import opened DrawingTypes
  import opened DrawingSpec

  /** Every touch-up adds exactly one stroke to the history, undo moves one
      from the history to the undo list, and nothing else changes the total. */
  lemma {:induction false} CommittedCount(s: ViewState, ops: seq<Op>)
    ensures |Run(s, ops).paths| + |Run(s, ops).undoPaths|
         == |s.paths| + |s.undoPaths| + CountUps(ops)
    decreases |ops|
  {
    if ops != [] {
      CommittedCount(Apply(s, ops[0]), ops[1..]);
    }
  }

  /** From a freshly constructed view, the history and the undo list together
      hold exactly as many strokes as there were touch-up events. */
  lemma CommittedCountFromStart(ops: seq<Op>)
    ensures |Run(Initial(), ops).paths| + |Run(Initial(), ops).undoPaths| == CountUps(ops)
  {
    CommittedCount(Initial(), ops);
  }

  /** The undo list only grows at its end: nothing reads it back, clears it
      or removes from it. */
  lemma {:induction false} UndoPathsOnlyGrow(s: ViewState, ops: seq<Op>)
    ensures |s.undoPaths| <= |Run(s, ops).undoPaths|
    ensures Run(s, ops).undoPaths[..|s.undoPaths|] == s.undoPaths
    decreases |ops|
  {
    if ops != [] {
      var t := Apply(s, ops[0]);
      assert |s.undoPaths| <= |t.undoPaths| && t.undoPaths[..|s.undoPaths|] == s.undoPaths;
      UndoPathsOnlyGrow(t, ops[1..]);
      var u := Run(t, ops[1..]).undoPaths;
      assert u[..|s.undoPaths|] == u[..|t.undoPaths|][..|s.undoPaths|];
    }
  }

  /** Committed strokes are never altered or lost: the strokes in the history
      and the undo list are those there before, plus exactly the in-progress
      strokes that each touch-up committed, each with the colour, thickness
      and points it had when it was committed. */
  lemma {:induction false} CommittedStrokesKept(s: ViewState, ops: seq<Op>)
    ensures multiset(Run(s, ops).paths + Run(s, ops).undoPaths)
         == multiset(s.paths + s.undoPaths) + multiset(Commits(s, ops))
    decreases |ops|
  {
    if ops != [] {
      var t := Apply(s, ops[0]);
      StepKeepsCommitted(s, ops[0]);
      CommittedStrokesKept(t, ops[1..]);
    }
  }

  /** One call keeps every committed stroke and adds the in-progress one
      exactly when it is a touch-up. */
  lemma StepKeepsCommitted(s: ViewState, op: Op)
    ensures multiset(Apply(s, op).paths + Apply(s, op).undoPaths)
         == multiset(s.paths + s.undoPaths) + multiset(if IsTouchUp(op) then [s.active] else [])
  {
    if op.Undo? && s.paths != [] {
      var n := |s.paths| - 1;
      assert s.paths == s.paths[..n] + [s.paths[n]];
      assert Apply(s, op).paths + Apply(s, op).undoPaths == s.paths[..n] + (s.undoPaths + [s.paths[n]]);
    } else if IsTouchUp(op) {
      assert Apply(s, op).paths + Apply(s, op).undoPaths == s.paths + [s.active] + s.undoPaths;
    }
  }

  /** Without undo, the history only grows at its end: strokes committed
      earlier keep their place and their value. */
  lemma {:induction false} HistoryGrowsWithoutUndo(s: ViewState, ops: seq<Op>)
    requires forall i :: 0 <= i < |ops| ==> !ops[i].Undo?
    ensures |s.paths| <= |Run(s, ops).paths|
    ensures Run(s, ops).paths[..|s.paths|] == s.paths
    decreases |ops|
  {
    if ops != [] {
      var t := Apply(s, ops[0]);
      assert t.paths[..|s.paths|] == s.paths;
      HistoryGrowsWithoutUndo(t, ops[1..]);
      var p := Run(t, ops[1..]).paths;
      assert p[..|s.paths|] == p[..|t.paths|][..|s.paths|];
    }
  }

  /** A tool change alters only the current colour or brush size: the history,
      the undo list, the in-progress path and the picture stay as they were.
      Strokes committed before the change keep their own colour and
      thickness. */
  lemma {:induction false} ToolChangesOnlyAffectTool(s: ViewState, ops: seq<Op>)
    requires forall i :: 0 <= i < |ops| ==> ops[i].ChangeColor? || ops[i].ChangeBrushSize?
    ensures Run(s, ops).paths == s.paths
    ensures Run(s, ops).undoPaths == s.undoPaths
    ensures Run(s, ops).active == s.active
    ensures Run(s, ops).redraws == s.redraws
    ensures Render(Run(s, ops)) == Render(s)
    decreases |ops|
  {
    if ops != [] {
      ToolChangesOnlyAffectTool(Apply(s, ops[0]), ops[1..]);
    }
  }

  /** Forgets the undo list. */
  function WithoutUndoPaths(s: ViewState): ViewState {
    s.(undoPaths := [])
  }

  /** The undo list is write-only: what it holds never influences the
      history, the in-progress path, the tool, the redraw requests or the
      picture, whatever calls follow. */
  lemma {:induction false} UndoPathsWriteOnly(s: ViewState, ops: seq<Op>)
    ensures WithoutUndoPaths(Run(s, ops)) == WithoutUndoPaths(Run(WithoutUndoPaths(s), ops))
    ensures Render(Run(s, ops)) == Render(Run(WithoutUndoPaths(s), ops))
    decreases |ops|
  {
    if ops != [] {
      var t := Apply(s, ops[0]);
      var t' := Apply(WithoutUndoPaths(s), ops[0]);
      assert WithoutUndoPaths(t) == WithoutUndoPaths(t');
      UndoPathsWriteOnly(t, ops[1..]);
      UndoPathsWriteOnly(t', ops[1..]);
    }
  }

  /** A touch-up does not change the picture when the in-progress path has
      points: its draw call moves from last place into the history's, and the
      fresh path is empty. Committing an empty path adds a draw call for it. */
  lemma RenderAcrossTouchUp(s: ViewState, x: real, y: real)
    ensures var t := TouchEvent(s, Some(MotionEvent(ACTION_UP, x, y))).state;
      Render(t) == Render(s) + (if s.active.IsEmpty() then [StrokeCommand(s.active)] else [])
  {
    var t := TouchEvent(s, Some(MotionEvent(ACTION_UP, x, y))).state;
    assert t.paths == s.paths + [s.active];
    assert t.active.IsEmpty();
  }

  /** Undo on a non-empty history removes exactly the draw call of the last
      committed stroke; on an empty history the picture is unchanged. */
  lemma RenderAfterUndo(s: ViewState)
    ensures s.paths == [] ==> Render(ClickUndo(s)) == Render(s)
    ensures s.paths != [] ==>
      var r := Render(s);
      Render(ClickUndo(s)) == r[..|s.paths|] + r[|s.paths| + 1..]
  {
    if s.paths != [] {
      var n := |s.paths|;
      var kept, last := s.paths[..n - 1], s.paths[n - 1];
      var head := [DrawCanvasBitmap] + PathCommands(kept);
      var tail := if s.active.IsEmpty() then [] else [StrokeCommand(s.active)];
      assert Render(s) == head + [StrokeCommand(last)] + tail by {
        assert s.paths == kept + [last];
        PathCommandsAppend(kept, last);
      }
      assert Render(ClickUndo(s)) == head + tail by {
        assert ClickUndo(s).paths == kept;
      }
      assert |head| == n;
    }
  }

  /** Unfolds a trace by one call at position k. */
  lemma RunStep(s: ViewState, ops: seq<Op>, k: nat)
    requires k < |ops|
    ensures Run(s, ops[k..]) == Run(Apply(s, ops[k]), ops[k + 1..])
  {
  }

  /** Running two traces one after the other is running their concatenation. */
  lemma {:induction false} RunAppend(s: ViewState, a: seq<Op>, b: seq<Op>)
    ensures Run(s, a + b) == Run(Run(s, a), b)
    decreases |a|
  {
    if a == [] {
      assert a + b == b;
    } else {
      assert (a + b)[0] == a[0] && (a + b)[1..] == a[1..] + b;
      RunAppend(Apply(s, a[0]), a[1..], b);
    }
  }

  /** Select a colour and a brush size, then draw one stroke from `p` to `q`:
      the history gains that stroke with that colour and thickness. */
  lemma DrawOneStroke(s: ViewState, c: int, b: real, p: Point, q: Point)
    ensures var t := Run(s, [ChangeColor(c), ChangeBrushSize(b),
                             Touch(Some(MotionEvent(ACTION_DOWN, p.x, p.y))),
                             Touch(Some(MotionEvent(ACTION_MOVE, q.x, q.y))),
                             Touch(Some(MotionEvent(ACTION_UP, q.x, q.y)))]);
      t.paths == s.paths + [Stroke(c, b, [p, q])] && t.undoPaths == s.undoPaths
      && t.active == Stroke(c, b, []) && t.color == c && t.brushSize == b
  {
    var ops := [ChangeColor(c), ChangeBrushSize(b),
                Touch(Some(MotionEvent(ACTION_DOWN, p.x, p.y))),
                Touch(Some(MotionEvent(ACTION_MOVE, q.x, q.y))),
                Touch(Some(MotionEvent(ACTION_UP, q.x, q.y)))];
    assert ops[0..] == ops;
    RunStep(s, ops, 0); var s1 := Apply(s, ops[0]);
    RunStep(s1, ops, 1); var s2 := Apply(s1, ops[1]);
    RunStep(s2, ops, 2); var s3 := Apply(s2, ops[2]);
    RunStep(s3, ops, 3); var s4 := Apply(s3, ops[3]);
    RunStep(s4, ops, 4); var s5 := Apply(s4, ops[4]);
    assert ops[5..] == [];
    assert s3.active == Stroke(c, b, [p]);
    assert s4.active == Stroke(c, b, [p, q]);
  }

  /** Select a colour and a brush size, then tap at `p`: the history gains a
      one-point stroke with that colour and thickness. */
  lemma DrawOneTap(s: ViewState, c: int, b: real, p: Point)
    ensures var t := Run(s, [ChangeColor(c), ChangeBrushSize(b),
                             Touch(Some(MotionEvent(ACTION_DOWN, p.x, p.y))),
                             Touch(Some(MotionEvent(ACTION_UP, p.x, p.y)))]);
      t.paths == s.paths + [Stroke(c, b, [p])] && t.undoPaths == s.undoPaths
      && t.active == Stroke(c, b, [])
  {
    var ops := [ChangeColor(c), ChangeBrushSize(b),
                Touch(Some(MotionEvent(ACTION_DOWN, p.x, p.y))),
                Touch(Some(MotionEvent(ACTION_UP, p.x, p.y)))];
    assert ops[0..] == ops;
    RunStep(s, ops, 0); var s1 := Apply(s, ops[0]);
    RunStep(s1, ops, 1); var s2 := Apply(s1, ops[1]);
    RunStep(s2, ops, 2); var s3 := Apply(s2, ops[2]);
    RunStep(s3, ops, 3); var s4 := Apply(s3, ops[3]);
    assert ops[4..] == [];
    assert s3.active == Stroke(c, b, [p]);
  }

  /** Commit stroke A (red, 10) and stroke B (blue, 20), then undo: the
      history is [A], B is on the undo list, and the picture shows A alone,
      in red at thickness 10. */
  lemma UndoExample(a0: Point, a1: Point, b0: Point)
    ensures var red, blue := 0xFFFF0000 - 0x1_0000_0000, 0xFF0000FF - 0x1_0000_0000;
      var strokeA := [ChangeColor(red), ChangeBrushSize(10.0),
                      Touch(Some(MotionEvent(ACTION_DOWN, a0.x, a0.y))),
                      Touch(Some(MotionEvent(ACTION_MOVE, a1.x, a1.y))),
                      Touch(Some(MotionEvent(ACTION_UP, a1.x, a1.y)))];
      var strokeB := [ChangeColor(blue), ChangeBrushSize(20.0),
                      Touch(Some(MotionEvent(ACTION_DOWN, b0.x, b0.y))),
                      Touch(Some(MotionEvent(ACTION_UP, b0.x, b0.y)))];
      var s := Run(Initial(), strokeA + strokeB + [Undo]);
      s.paths == [Stroke(red, 10.0, [a0, a1])]
      && s.undoPaths == [Stroke(blue, 20.0, [b0])]
      && Render(s) == [DrawCanvasBitmap, DrawPath([a0, a1], red, 10.0)]
  {
    var red, blue := 0xFFFF0000 - 0x1_0000_0000, 0xFF0000FF - 0x1_0000_0000;
    var strokeA := [ChangeColor(red), ChangeBrushSize(10.0),
                    Touch(Some(MotionEvent(ACTION_DOWN, a0.x, a0.y))),
                    Touch(Some(MotionEvent(ACTION_MOVE, a1.x, a1.y))),
                    Touch(Some(MotionEvent(ACTION_UP, a1.x, a1.y)))];
    var strokeB := [ChangeColor(blue), ChangeBrushSize(20.0),
                    Touch(Some(MotionEvent(ACTION_DOWN, b0.x, b0.y))),
                    Touch(Some(MotionEvent(ACTION_UP, b0.x, b0.y)))];
    RunAppend(Initial(), strokeA + strokeB, [Undo]);
    RunAppend(Initial(), strokeA, strokeB);
    DrawOneStroke(Initial(), red, 10.0, a0, a1);
    var sA := Run(Initial(), strokeA);
    DrawOneTap(sA, blue, 20.0, b0);
    var sB := Run(sA, strokeB);
    assert sB.paths == [Stroke(red, 10.0, [a0, a1]), Stroke(blue, 20.0, [b0])];
    assert Run(sB, [Undo]) == ClickUndo(sB);
  }
}
