/** The drawing view as DrawingView.kt writes it: an object whose fields the touch
    handler, undo and the tool setters update in place, holding the strokes as
    CustomPath objects. Each state-changing entry point of DrawingView is
    proved to follow the matching transition of module DrawingSpec, through
    Model(). */
module View {
  import opened DrawingTypes
  import opened DrawingSpec

  /** A Path that carries its own colour and brush thickness. The path itself
      is abstracted to the sequence of points it passes through. */
  class CustomPath {
    var color: int
    var brushThickness: real
    var points: seq<Point>

    constructor (color: int, brushThickness: real)
      ensures this.color == color && this.brushThickness == brushThickness
      ensures points == []
    {
      this.color := color;
      this.brushThickness := brushThickness;
      points := [];
    }

    /** The value this path holds now. */
    function Value(): Stroke
      reads this
    {
      Stroke(color, brushThickness, points)
    }

    predicate IsEmpty()
      reads this
    {
      points == []
    }

    /** Path.reset: forget every point. */
    method Reset()
      modifies this`points
      ensures points == []
    {
      points := [];
    }

    /** Path.moveTo: start a contour at `p`. The view calls it only right
        after reset, where it makes `p` the path's only point. */
    method MoveTo(p: Point)
      modifies this`points
      ensures points == old(points) + [p]
    {
      points := points + [p];
    }

    /** Path.lineTo: extend the path by a segment to `p`. */
    method LineTo(p: Point)
      modifies this`points
      ensures points == old(points) + [p]
    {
      points := points + [p];
    }
  }

  /** The shared Paint object onDraw reconfigures before each draw call. */
  class Paint {
    var color: int
    var strokeWidth: real

    /** A new Paint draws in black with a hairline width. */
    constructor ()
      ensures color == BLACK && strokeWidth == 0.0
    {
      color := BLACK;
      strokeWidth := 0.0;
    }
  }

  /** The values of the path objects `ps`, in order. */
  ghost function Values(ps: seq<CustomPath>): (r: seq<Stroke>)
    reads ps
    ensures |r| == |ps|
  {
    if ps == [] then [] else Values(ps[..|ps| - 1]) + [ps[|ps| - 1].Value()]
  }

  /** Each entry of Values is the value of the object at the same place. */
  lemma {:induction false} ValuesAt(ps: seq<CustomPath>, i: nat)
    requires i < |ps|
    ensures Values(ps)[i] == ps[i].Value()
    decreases |ps|
  {
    if i < |ps| - 1 {
      ValuesAt(ps[..|ps| - 1], i);
    }
  }

  /** No element occurs twice in `s`. */
  ghost predicate NoDuplicates<T>(s: seq<T>) {
    forall x :: x in s ==> multiset(s)[x] == 1
  }

  /** Reordering keeps a sequence free of duplicates. */
  lemma NoDuplicatesPermuted<T>(a: seq<T>, b: seq<T>)
    requires NoDuplicates(a) && multiset(a) == multiset(b)
    ensures NoDuplicates(b)
  {
  }

  /** Appending an element not yet present keeps it free of duplicates. */
  lemma NoDuplicatesAppend<T>(a: seq<T>, x: T)
    requires NoDuplicates(a) && x !in a
    ensures NoDuplicates(a + [x])
  {
  }

  class DrawingView {
    var drawPath: CustomPath
    var drawPaint: Paint
    var brushSize: real
    var color: int
    var paths: seq<CustomPath>
    var undoPaths: seq<CustomPath>
    /** The number of invalidate() calls made so far. */
    var redraws: nat

    /** The in-progress path is never one of the committed paths, and no path
        object is committed twice; so mutating the in-progress path never
        changes a committed stroke. */
    ghost predicate Valid()
      reads this
    {
      drawPath !in paths && drawPath !in undoPaths
      && NoDuplicates(paths + undoPaths)
    }

    /** The state of the view as a value. */
    ghost function Model(): ViewState
      reads this, drawPath, paths, undoPaths
    {
      ViewState(Values(paths), Values(undoPaths), drawPath.Value(), color, brushSize, redraws)
    }

    /** Construction, including setUpDrawing: no strokes, black, brush size 0,
        and an empty in-progress path carrying that tool. */
    constructor ()
      ensures Valid() && Model() == Initial()
      ensures fresh(drawPath) && fresh(drawPaint)
      ensures drawPaint.color == BLACK && drawPaint.strokeWidth == 0.0
    {
      brushSize := 0.0;
      color := BLACK;
      paths := [];
      undoPaths := [];
      redraws := 0;
      drawPaint := new Paint();
      drawPath := new CustomPath(BLACK, 0.0);
    }

    /** View.invalidate: ask for onDraw to run again. */
    method Invalidate()
      modifies this`redraws
      ensures redraws == old(redraws) + 1
    {
      redraws := redraws + 1;
    }

    /** onTouchEvent. Down reconfigures and restarts the in-progress path in
        place; move extends it; up commits that very object and replaces it by
        a fresh one. Those three request a redraw and return true; a null event
        or any other action returns false and changes nothing. */
    method OnTouchEvent(event: Option<MotionEvent>) returns (handled: bool)
      requires Valid()
      modifies this, drawPath
      ensures Valid()
      ensures Model() == TouchEvent(old(Model()), event).state
      ensures handled == TouchEvent(old(Model()), event).handled
      ensures handled == IsHandled(event)
      ensures !handled ==> unchanged(this) && unchanged(old(drawPath))
      ensures handled && event.value.action != ACTION_UP ==>
        drawPath == old(drawPath) && paths == old(paths)
      ensures handled && event.value.action == ACTION_UP ==>
        fresh(drawPath) && paths == old(paths) + [old(drawPath)]
      ensures undoPaths == old(undoPaths) && drawPaint == old(drawPaint)
    {
      if event.None? {
        return false;
      }
      var touch := Point(event.value.x, event.value.y);
      var action := event.value.action;
      if action == ACTION_DOWN {
        TouchDown(touch);
      } else if action == ACTION_MOVE {
        TouchMove(touch);
      } else if action == ACTION_UP {
        TouchUp();
      } else {
        return false;
      }
      Invalidate();
      return true;
    }

    /** The ACTION_DOWN branch: the in-progress path object takes the current
        colour and brush size and is reset to the touch point alone. */
    method TouchDown(touch: Point)
      requires Valid()
      modifies drawPath
      ensures Valid()
      ensures Model() == old(Model()).(active := Stroke(color, brushSize, [touch]))
    {
      drawPath.color := color;
      drawPath.brushThickness := brushSize;
      drawPath.Reset();
      drawPath.MoveTo(touch);
    }

    /** The ACTION_MOVE branch: the touch point is appended to the in-progress
        path object. */
    method TouchMove(touch: Point)
      requires Valid()
      modifies drawPath
      ensures Valid()
      ensures Model() == old(Model()).(active := old(Model()).active.(points := old(drawPath.points) + [touch]))
    {
      drawPath.LineTo(touch);
    }

    /** The ACTION_UP branch: the in-progress path object is committed as it
        is, with no check that it has points, and a fresh empty path carrying
        the current tool takes its place. */
    method TouchUp()
      requires Valid()
      modifies this
      ensures Valid()
      ensures fresh(drawPath) && paths == old(paths) + [old(drawPath)]
      ensures undoPaths == old(undoPaths) && drawPaint == old(drawPaint)
      ensures color == old(color) && brushSize == old(brushSize) && redraws == old(redraws)
      ensures Model() == old(Model()).(paths := old(Model()).paths + [old(Model()).active],
                                       active := Stroke(color, brushSize, []))
    {
      NoDuplicatesAppend(paths + undoPaths, drawPath);
      assert multiset(paths + [drawPath] + undoPaths) == multiset(paths + undoPaths + [drawPath]);
      NoDuplicatesPermuted(paths + undoPaths + [drawPath], paths + [drawPath] + undoPaths);
      paths := paths + [drawPath];
      drawPath := new CustomPath(color, brushSize);
    }

    /** onClickUndo: move the last committed path object, unchanged, to the end
        of undoPaths and request a redraw; with no committed path, do nothing. */
    method OnClickUndo()
      requires Valid()
      modifies this
      ensures Valid()
      ensures Model() == ClickUndo(old(Model()))
      ensures old(paths) == [] ==> unchanged(this)
      ensures old(paths) != [] ==>
        paths == old(paths)[..|old(paths)| - 1]
        && undoPaths == old(undoPaths) + [old(paths)[|old(paths)| - 1]]
      ensures drawPath == old(drawPath) && drawPaint == old(drawPaint)
      ensures color == old(color) && brushSize == old(brushSize)
    {
      if paths != [] {
        var last := paths[|paths| - 1];
        assert paths == paths[..|paths| - 1] + [last];
        paths := paths[..|paths| - 1];
        undoPaths := undoPaths + [last];
        assert multiset(paths + undoPaths) == multiset(old(paths) + old(undoPaths));
        NoDuplicatesPermuted(old(paths) + old(undoPaths), paths + undoPaths);
        Invalidate();
      }
    }

    /** setSizeForBrush, given the size already converted to pixels: the new
        size is the current tool's and the paint's stroke width. */
    method SetSizeForBrush(newSize: real)
      requires Valid()
      modifies this, drawPaint
      ensures Valid()
      ensures Model() == DrawingSpec.SetSizeForBrush(old(Model()), newSize)
      ensures drawPaint == old(drawPaint) && drawPaint.strokeWidth == newSize
      ensures drawPaint.color == old(drawPaint.color)
      ensures drawPath == old(drawPath) && paths == old(paths) && undoPaths == old(undoPaths)
    {
      brushSize := newSize;
      drawPaint.strokeWidth := brushSize;
    }

    /** setColor, given the colour already parsed from its string: the new
        colour is the current tool's and the paint's colour. */
    method SetColor(newColor: int)
      requires Valid()
      modifies this, drawPaint
      ensures Valid()
      ensures Model() == DrawingSpec.SetColor(old(Model()), newColor)
      ensures drawPaint == old(drawPaint) && drawPaint.color == newColor
      ensures drawPaint.strokeWidth == old(drawPaint.strokeWidth)
      ensures drawPath == old(drawPath) && paths == old(paths) && undoPaths == old(undoPaths)
    {
      color := newColor;
      drawPaint.color := color;
    }

    /** onDraw: blit the cached bitmap, then draw each committed path after
        setting the shared paint to that path's own width and colour, then the
        in-progress path in the same way if it has points. The calls made on
        the canvas are returned in order. */
    method OnDraw() returns (canvas: seq<DrawCommand>)
      modifies drawPaint
      ensures canvas == Render(old(Model()))
    {
      ghost var m := Model();
      forall i | 0 <= i < |paths|
        ensures m.paths[i] == Stroke(paths[i].color, paths[i].brushThickness, paths[i].points)
      {
        ValuesAt(paths, i);
      }
      canvas := [DrawCanvasBitmap];
      for i := 0 to |paths|
        invariant canvas == [DrawCanvasBitmap] + PathCommands(m.paths[..i])
      {
        var path := paths[i];
        PathCommandsAppend(m.paths[..i], m.paths[i]);
        assert m.paths[..i + 1] == m.paths[..i] + [m.paths[i]];
        drawPaint.strokeWidth := path.brushThickness;
        drawPaint.color := path.color;
        canvas := canvas + [DrawPath(path.points, drawPaint.color, drawPaint.strokeWidth)];
      }
      assert m.paths[..|paths|] == m.paths;
      if !drawPath.IsEmpty() {
        drawPaint.strokeWidth := drawPath.brushThickness;
        drawPaint.color := drawPath.color;
        canvas := canvas + [DrawPath(drawPath.points, drawPaint.color, drawPaint.strokeWidth)];
      }
    }
  }
}
