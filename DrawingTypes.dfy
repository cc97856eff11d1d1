/** Value types shared by the specification and the view class: the abstract
    stand-ins for the Android types the drawing view uses (MotionEvent, Path,
    Color, the draw calls made on a Canvas). */
module DrawingTypes {

  datatype Option<+T> = None | Some(value: T)

  /** A touch coordinate. Coordinates are only stored and copied, never
      computed with, so `real` stands in for the platform's Float. */
  datatype Point = Point(x: real, y: real)

  /** The value of one CustomPath: its own colour, its own brush thickness and
      the polyline it traces (reset = no points, moveTo/lineTo = one more point). */
  datatype Stroke = Stroke(color: int, thickness: real, points: seq<Point>)
  {
    predicate IsEmpty() { points == [] }
  }

  /** The part of an Android MotionEvent the view looks at. */
  datatype MotionEvent = MotionEvent(action: int, x: real, y: real)

  /** MotionEvent action codes, as the Android platform defines them. */
  const ACTION_DOWN: int := 0
  const ACTION_UP: int := 1
  const ACTION_MOVE: int := 2

  /** Color.BLACK (0xFF000000) read as a signed 32-bit Int. */
  const BLACK: int := -16777216

  /** One call made on the Canvas by onDraw: the cached bitmap blit, or a path
      drawn with the paint's colour and stroke width at the time of the call. */
  datatype DrawCommand =
    | DrawCanvasBitmap
    | DrawPath(points: seq<Point>, color: int, strokeWidth: real)

  /** The command that draws stroke `s` with its own colour and thickness. */
  function StrokeCommand(s: Stroke): DrawCommand {
    DrawPath(s.points, s.color, s.thickness)
  }
}
