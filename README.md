# Drawing view model

This project models `DrawingView`, the custom Android view at the centre of a
finger-painting app. The view keeps:

- the in-progress path (`drawPath`), a `CustomPath` that carries its own colour
  and brush thickness;
- the committed strokes (`paths`) and the undone strokes (`undoPaths`);
- the current tool, which is a colour and a brush size;
- a shared `Paint` that `onDraw` reconfigures before every draw call.

A touch-down restarts the in-progress path with the current tool. A move
extends it. A touch-up commits it and starts a fresh one. Undo moves the last
committed stroke to the undo list. The setters change the tool. `onDraw` draws
the background bitmap, then every committed stroke with its own colour and
thickness, then the in-progress path if it has points.

The project has four modules:

- `DrawingTypes` holds the value types: points, strokes (the value of a
  `CustomPath`), the part of a `MotionEvent` the view reads, the Android
  constants, and the draw calls made on a `Canvas`.
- `DrawingSpec` is the view as a pure state machine. It has one function per
  entry point (`TouchEvent`, `ClickUndo`, `SetColor`, `SetSizeForBrush`),
  `Run` for a trace of calls, and `Render` for the calls `onDraw` makes.
- `View` is the view as `DrawingView.kt` writes it. It has the classes
  `CustomPath`, `Paint` and `DrawingView`, with fields updated in place and
  strokes held as `CustomPath` objects. `DrawingView.Model()` reads the object
  graph as a `ViewState`. Every state-changing `DrawingView` entry point is
  proved to follow its `DrawingSpec` transition and to keep `Valid()`. `Valid()` says that the in-progress path
  object is never a committed one and that no object is committed twice. So a
  later touch never alters a stroke already drawn.
- `DrawingLemmas` holds the properties of whole traces: counting, history
  growth, undo behaviour, the independence of tool changes, and how the
  picture changes.

Calls to `invalidate()` are counted in a `redraws` field, so every contract
also states whether a redraw was requested.

In four places the code is looser than one might expect, and the model
follows the code:

- A touch-up commits the in-progress path unconditionally, even when it has
  no points (for instance, an up that arrives with no down before it).
  `RenderAcrossTouchUp` shows the extra draw call this adds.
- `onDraw` draws the in-progress path with that path's own colour and
  thickness, not with the current tool. After a tool change in the middle of
  a stroke, the stroke keeps the tool it started with.
- `setColor` and `setSizeForBrush` do not call `invalidate()`.
- The undo list is only ever appended to. No redo reads it back and nothing
  clears it.

## Model

| member | source | states |
|---|---|---|
| View.DrawingView.constructor | app/src/main/java/com/example/drawingapp/view/DrawingView.kt:17-45 | A new view has no committed or undone strokes, colour black (-16777216), brush size 0, no redraws, and an empty in-progress path carrying that tool; the shared paint is black with width 0; the object invariant holds |
| View.CustomPath.constructor | app/src/main/java/com/example/drawingapp/view/DrawingView.kt:162 | A new CustomPath carries the given colour and brush thickness and holds no points |
| View.Paint.constructor | app/src/main/java/com/example/drawingapp/view/DrawingView.kt:36 | A new Paint draws in black with width 0 |
| View.CustomPath.Reset | app/src/main/java/com/example/drawingapp/view/DrawingView.kt:112 | Path.reset leaves the path with no points and touches only its points |
| View.CustomPath.MoveTo | app/src/main/java/com/example/drawingapp/view/DrawingView.kt:113 | Path.moveTo adds the point at the end of the path |
| View.CustomPath.LineTo | app/src/main/java/com/example/drawingapp/view/DrawingView.kt:118 | Path.lineTo adds the point at the end of the path |
| View.DrawingView.Invalidate | app/src/main/java/com/example/drawingapp/view/DrawingView.kt:131 | One more redraw is requested and nothing else changes |
| View.DrawingView.OnTouchEvent | app/src/main/java/com/example/drawingapp/view/DrawingView.kt:103-134 | The new state is DrawingSpec.TouchEvent of the old state. The result is true exactly for down, move and up. A null event or any other action returns false and changes no field. Down and move keep the same path object and history. Up appends the old path object itself to `paths` and installs a fresh one. The undo list and the paint are untouched. The invariant is kept |
| View.DrawingView.TouchDown | app/src/main/java/com/example/drawingapp/view/DrawingView.kt:108-115 | The in-progress path takes the current colour and brush size and holds only the touch point; nothing else changes |
| View.DrawingView.TouchMove | app/src/main/java/com/example/drawingapp/view/DrawingView.kt:117-119 | The touch point is appended to the in-progress path; nothing else changes |
| View.DrawingView.TouchUp | app/src/main/java/com/example/drawingapp/view/DrawingView.kt:121-124 | The in-progress path object is appended to `paths` whatever it holds, and a fresh empty path with the current tool replaces it. The undo list, the tool and the paint are unchanged |
| View.DrawingView.OnClickUndo | app/src/main/java/com/example/drawingapp/view/DrawingView.kt:50-55 | The new state is DrawingSpec.ClickUndo of the old one. With no committed stroke nothing changes and no redraw is asked. Otherwise the last path object moves, unchanged, from the end of `paths` to the end of `undoPaths`. The in-progress path, the tool and the paint are unchanged |
| View.DrawingView.SetSizeForBrush | app/src/main/java/com/example/drawingapp/view/DrawingView.kt:141-144 | Only the brush size changes, and the paint's stroke width becomes the new size; no redraw |
| View.DrawingView.SetColor | app/src/main/java/com/example/drawingapp/view/DrawingView.kt:151-154 | Only the colour changes, and the paint's colour becomes the new colour; no redraw |
| View.DrawingView.OnDraw | app/src/main/java/com/example/drawingapp/view/DrawingView.kt:76-95 | The canvas calls made are exactly DrawingSpec.Render of the view's state |
| DrawingSpec.TouchEvent | app/src/main/java/com/example/drawingapp/view/DrawingView.kt:103-134 | A touch event is handled exactly when it is non-null and a down, move or up. An unhandled event leaves the state as it was. A handled one asks for exactly one redraw |
| DrawingSpec.Initial | app/src/main/java/com/example/drawingapp/view/DrawingView.kt:22-45 | After set-up there are no committed or undone strokes and no redraws; the tool is black (-16777216) with size 0, and the in-progress path is empty and carries exactly that tool |
| DrawingSpec.ClickUndo | app/src/main/java/com/example/drawingapp/view/DrawingView.kt:50-55 | Undo never touches the in-progress path or the tool. With no committed stroke the state is unchanged. Otherwise the last committed stroke is removed from the end of the history and appended to the undo list, and exactly one redraw is asked |
| DrawingSpec.SetColor | app/src/main/java/com/example/drawingapp/view/DrawingView.kt:151-154 | The colour becomes the new one; the brush size, the history, the undo list, the in-progress path and the redraw count are unchanged, and so is the picture |
| DrawingSpec.SetSizeForBrush | app/src/main/java/com/example/drawingapp/view/DrawingView.kt:141-144 | The brush size becomes the new one; the colour, the history, the undo list, the in-progress path and the redraw count are unchanged, and so is the picture |
| DrawingSpec.PathCommands | app/src/main/java/com/example/drawingapp/view/DrawingView.kt:80-86 | One draw call per committed stroke, in list order, each with that stroke's own points, colour and thickness |
| DrawingSpec.PathCommandsAppend | app/src/main/java/com/example/drawingapp/view/DrawingView.kt:80-86 | Committing one more stroke adds its draw call at the end of the committed strokes' calls |
| DrawingSpec.Render | app/src/main/java/com/example/drawingapp/view/DrawingView.kt:76-95 | The picture is the bitmap first, then one call per committed stroke in order with the stroke's own colour and thickness, then the in-progress path last. The in-progress path is drawn only when it has points, and with its own colour and thickness |
| DrawingLemmas.CommittedCount | app/src/main/java/com/example/drawingapp/view/DrawingView.kt:50-124 | Over any trace, the total of committed and undone strokes grows by exactly the number of touch-up events |
| DrawingLemmas.CommittedCountFromStart | app/src/main/java/com/example/drawingapp/view/DrawingView.kt:25-26 | From a new view, the committed and undone strokes together number exactly the touch-ups handled |
| DrawingLemmas.UndoPathsOnlyGrow | app/src/main/java/com/example/drawingapp/view/DrawingView.kt:52 | Over any trace, the undo list keeps its old contents as a prefix: it is never shortened, reordered or cleared |
| DrawingLemmas.CommittedStrokesKept | app/src/main/java/com/example/drawingapp/view/DrawingView.kt:121-124 | Over any trace, the committed and undone strokes are the old ones plus the strokes the touch-ups committed, as a multiset: no stroke is lost or altered |
| DrawingLemmas.StepKeepsCommitted | app/src/main/java/com/example/drawingapp/view/DrawingView.kt:50-124 | A single call keeps every committed or undone stroke. A touch-up adds the in-progress stroke and nothing else adds one |
| DrawingLemmas.HistoryGrowsWithoutUndo | app/src/main/java/com/example/drawingapp/view/DrawingView.kt:122 | With no undo in a trace, the committed strokes keep their old contents as a prefix |
| DrawingLemmas.ToolChangesOnlyAffectTool | app/src/main/java/com/example/drawingapp/view/DrawingView.kt:141-154 | Any run of colour and size changes leaves these alone: the committed strokes, the undo list, the in-progress path, the redraw count and the picture |
| DrawingLemmas.UndoPathsWriteOnly | app/src/main/java/com/example/drawingapp/view/DrawingView.kt:26 | What the undo list holds never influences the rest of the state or the picture, over any trace |
| DrawingLemmas.RenderAcrossTouchUp | app/src/main/java/com/example/drawingapp/view/DrawingView.kt:121-124 | A touch-up leaves the picture unchanged when the in-progress path has points. It adds a draw call of the empty path when it has none |
| DrawingLemmas.RenderAfterUndo | app/src/main/java/com/example/drawingapp/view/DrawingView.kt:50-55 | Undo removes exactly the draw call of the last committed stroke. With no committed stroke the picture is unchanged |
| DrawingLemmas.DrawOneStroke | app/src/main/java/com/example/drawingapp/view/DrawingView.kt:108-124 | Choosing a colour and a size, then down, move and up, commits the two-point stroke with that colour and size. The undo list is untouched and the new path carries the new tool |
| DrawingLemmas.DrawOneTap | app/src/main/java/com/example/drawingapp/view/DrawingView.kt:108-124 | Choosing a colour and a size, then down and up, commits a one-point stroke with that colour and size |
| DrawingLemmas.UndoExample | app/src/main/java/com/example/drawingapp/view/DrawingView.kt:50-55 | Start from a new view. Draw a red stroke of size 10, then a blue tap of size 20, then undo. The history holds the red stroke, the undo list holds the blue one, and the picture shows only the red stroke |

## Left out

- The bitmap, `canvasBitmap` and `onSizeChanged`: the background blit is a single `DrawCanvasBitmap` call. The `!!` failure when `onDraw` runs before any size is known is not modelled.
- Paint style, join, cap and the dither flag of `canvasPaint`: these are fixed at set-up and never read by the view's logic.
- `Color.parseColor`, and the exception it throws on a malformed string, is platform code. `setColor` is modelled taking the already parsed colour.
- `TypedValue.applyDimension` (dp to pixel conversion) depends on the display. `setSizeForBrush` is modelled taking the already converted size.
- Float coordinates and sizes are modelled as `real`; the view only stores and copies them.
- Path geometry: a path is modelled as the list of points it passes through. A `lineTo` on an empty path, where the platform inserts an implicit move to (0, 0), is modelled as simply adding the point.
- `invalidate()` is modelled as a counter of redraw requests. The actual redraw scheduling is platform code.
- The nullable `drawPath` and `drawPaint` fields are modelled as non-null, since set-up assigns them at construction and nothing resets them to null.
- The `color = color` inside set-up's `apply` block assigns the paint's colour to itself, because the name resolves to the paint's own property. A new `Paint` is already black, which equals the view's initial colour, so the model's paint starts black either way.
- View.DrawingView.OnDraw: the colour and stroke width the shared paint keeps after drawing are not stated. Only the calls made on the canvas are.
- The rest of the app (the activity, permissions, file saving, sharing, constants, brush-size choices and tests) is not part of this model.
