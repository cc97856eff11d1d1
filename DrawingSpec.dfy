/** The drawing view as a pure state machine: the state it keeps, one function
    per transition (touch events, undo, the two tool setters), traces of
    transitions, and the sequence of draw calls onDraw makes. The class in
    module View is proved to follow these functions. */
module DrawingSpec {
  import opened DrawingTypes

  /** Everything DrawingView keeps that its behaviour depends on.
      `redraws` counts the calls to invalidate(). */
  datatype ViewState = ViewState(
    paths: seq<Stroke>,
    undoPaths: seq<Stroke>,
    active: Stroke,
    color: int,
    brushSize: real,
    redraws: nat)

  /** The state right after construction: no strokes, an empty in-progress
      path carrying the initial tool (black, thickness 0). */
  function Initial(): (r: ViewState)
    ensures r.paths == [] && r.undoPaths == [] && r.redraws == 0
    ensures r.color == BLACK && r.brushSize == 0.0
    ensures r.active.IsEmpty() && r.active.color == r.color && r.active.thickness == r.brushSize
  {
    ViewState([], [], Stroke(BLACK, 0.0, []), BLACK, 0.0, 0)
  }

  /** True of the events onTouchEvent handles: down, move and up. */
  predicate IsHandled(event: Option<MotionEvent>) {
    event.Some? && event.value.action in {ACTION_DOWN, ACTION_MOVE, ACTION_UP}
  }

  /** The result of onTouchEvent: the new state and the returned flag. */
  datatype TouchResult = TouchResult(state: ViewState, handled: bool)

  /** onTouchEvent. Down restarts the in-progress path at the touch point with
      the current tool; move appends the touch point; up commits the
      in-progress path whatever it holds and starts a fresh empty one with the
      current tool. A null event or any other action is not handled. */
  function TouchEvent(s: ViewState, event: Option<MotionEvent>): (r: TouchResult)
    ensures r.handled <==> IsHandled(event)
    ensures !r.handled ==> r.state == s
    ensures r.handled ==> r.state.redraws == s.redraws + 1
  {
    match event
    case None => TouchResult(s, false)
    case Some(e) =>
      if e.action == ACTION_DOWN then
        TouchResult(s.(active := Stroke(s.color, s.brushSize, [Point(e.x, e.y)]),
                       redraws := s.redraws + 1), true)
      else if e.action == ACTION_MOVE then
        TouchResult(s.(active := s.active.(points := s.active.points + [Point(e.x, e.y)]),
                       redraws := s.redraws + 1), true)
      else if e.action == ACTION_UP then
        TouchResult(s.(paths := s.paths + [s.active],
                       active := Stroke(s.color, s.brushSize, []),
                       redraws := s.redraws + 1), true)
      else
        TouchResult(s, false)
  }

  /** onClickUndo: move the last committed stroke to the undo list. */
  function ClickUndo(s: ViewState): (r: ViewState)
    ensures r.active == s.active && r.color == s.color && r.brushSize == s.brushSize
    ensures s.paths == [] ==> r == s
    ensures s.paths != [] ==> r.redraws == s.redraws + 1
    ensures s.paths != [] ==>
      r.paths + [s.paths[|s.paths| - 1]] == s.paths
      && r.undoPaths == s.undoPaths + [s.paths[|s.paths| - 1]]
  {
    if s.paths == [] then s
    else s.(paths := s.paths[..|s.paths| - 1],
            undoPaths := s.undoPaths + [s.paths[|s.paths| - 1]],
            redraws := s.redraws + 1)
  }

  /** setColor, given the colour already parsed from its string. */
  function SetColor(s: ViewState, newColor: int): (r: ViewState)
    ensures r.color == newColor && r.brushSize == s.brushSize
    ensures r.paths == s.paths && r.undoPaths == s.undoPaths && r.active == s.active
    ensures r.redraws == s.redraws && Render(r) == Render(s)
  {
    s.(color := newColor)
  }

  /** setSizeForBrush, given the size already scaled to pixels. */
  function SetSizeForBrush(s: ViewState, newSize: real): (r: ViewState)
    ensures r.brushSize == newSize && r.color == s.color
    ensures r.paths == s.paths && r.undoPaths == s.undoPaths && r.active == s.active
    ensures r.redraws == s.redraws && Render(r) == Render(s)
  {
    s.(brushSize := newSize)
  }

  /** One call into the view from outside. */
  datatype Op =
    | Touch(event: Option<MotionEvent>)
    | Undo
    | ChangeColor(newColor: int)
    | ChangeBrushSize(newSize: real)

  function Apply(s: ViewState, op: Op): ViewState {
    match op
    case Touch(e) => TouchEvent(s, e).state
    case Undo => ClickUndo(s)
    case ChangeColor(c) => SetColor(s, c)
    case ChangeBrushSize(b) => SetSizeForBrush(s, b)
  }

  /** The state after the calls `ops`, in order, starting from `s`. */
  function Run(s: ViewState, ops: seq<Op>): ViewState
    decreases |ops|
  {
    if ops == [] then s else Run(Apply(s, ops[0]), ops[1..])
  }

  predicate IsTouchUp(op: Op) {
    op.Touch? && op.event.Some? && op.event.value.action == ACTION_UP
  }

  /** The number of touch-up events among `ops`. */
  function CountUps(ops: seq<Op>): nat {
    if ops == [] then 0 else (if IsTouchUp(ops[0]) then 1 else 0) + CountUps(ops[1..])
  }

  /** The strokes the touch-ups among `ops` commit, in order. */
  function Commits(s: ViewState, ops: seq<Op>): seq<Stroke>
    decreases |ops|
  {
    if ops == [] then []
    else (if IsTouchUp(ops[0]) then [s.active] else []) + Commits(Apply(s, ops[0]), ops[1..])
  }

  /** The draw calls for the committed strokes, one per stroke, in list
      order, each with the stroke's own colour and thickness. */
  function PathCommands(paths: seq<Stroke>): (r: seq<DrawCommand>)
    ensures |r| == |paths|
    ensures forall i :: 0 <= i < |paths| ==> r[i] == StrokeCommand(paths[i])
  {
    if paths == [] then []
    else PathCommands(paths[..|paths| - 1]) + [StrokeCommand(paths[|paths| - 1])]
  }

  /** Drawing one more committed stroke adds its call at the end. */
  lemma PathCommandsAppend(paths: seq<Stroke>, s: Stroke)
    ensures PathCommands(paths + [s]) == PathCommands(paths) + [StrokeCommand(s)]
  {
  }

  /** onDraw: the cached bitmap first, then every committed stroke in list
      order, then the in-progress path last, only when it has points. */
  function Render(s: ViewState): (r: seq<DrawCommand>)
    ensures |r| == 1 + |s.paths| + (if s.active.IsEmpty() then 0 else 1)
    ensures r[0] == DrawCanvasBitmap
    ensures forall i :: 0 <= i < |s.paths| ==> r[1 + i] == StrokeCommand(s.paths[i])
    ensures !s.active.IsEmpty() ==> r[|r| - 1] == StrokeCommand(s.active)
  {
    [DrawCanvasBitmap] + PathCommands(s.paths)
      + (if s.active.IsEmpty() then [] else [StrokeCommand(s.active)])
  }
}
