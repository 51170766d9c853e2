# calculus-vis: the curve-sampling and estimation session, in Dafny

calculus-vis lets a user draw a curve freehand on a grid. As the curve is drawn, it plots two derived curves: a running integral (left-rectangle areas) and a coarse derivative (slopes over batches of five samples). This project models the session state machine in `src/main.ts` and proves properties of it. Every pointer event turns a pixel into a grid point. The point is fed into two separate queues, one per estimator. Each move while capturing takes one drawing step: the pen stroke, then one integral step and one derivative step. Zooming clamps the scale, erases everything and snaps the axes back onto gridlines.

Layout:

- `geometry.dfy` (module `Geometry`): `Option` (JavaScript's `null`), `Point`, `Segment`.
- `coordinates.dfy` (module `Coordinates`): the pixel-to-grid mapping and `gridToCanvas`, with their round trips.
- `axes.dfy` (module `Axes`): the axis-snapping loop of `drawGrid`, with lemmas saying which gridline it picks.
- `estimators.dfy` (module `Estimators`): `calcIntegral`, the slope of a derivative batch, and pure step functions for the integral half and the derivative half of `draw`. It also has runs of several moves and lemmas over those runs.
- `sketch.dfy` (module `Sketch`): class `Session`, which holds the module-level state of the page. Its methods are `zoom`, `erase`, `drawGrid`, `calcDerivative`, `draw`, `setDrawingCoords`, the checkbox listeners and the key handler. `Draw`, `MovePen` and `SetDrawingCoords` state their new queues, integral and previous slope through the step functions of `Estimators`. `Zoom`, `Erase` and `DrawGrid` state theirs through the predicates `Cleared` and `AxesSnapped` and the function `ZoomedBoxWidth`. `KeyDown` states its new state key by key with the same predicates. `CalcDerivative` states what it removes from the queue and returns its slope through `Slope`. The canvas drawing calls a handler makes are returned as a list of marks: the dot and the pen stroke in pixels, and the derivative and integral segments in grid units.

In a few places the code behaves differently from what a reader of the user interface would expect. The model follows the code:

- A hidden integral is not accumulated at all (src/main.ts:160). A hidden derivative does not consume its queue (src/main.ts:141-147). One would expect only the drawing to stop while the estimate goes on. `HiddenIntegralRunKeepsTotal` proves that the total stays put while the display is off.
- A slope of exactly 0 is falsy (src/main.ts:149). Once a previous slope is set, a zero slope is neither drawn nor stored, as if it were missing. One would expect every new slope to replace the previous one. The same applies to an area of 0 (src/main.ts:160). `CalcIntegral` and `IntegralStep` prove that skipping a zero area loses nothing from the running integral.
- `draw` runs before the new point is queued (src/main.ts:217, 222). A pointer-down queues its point twice (src/main.ts:203, 222). So the area of a pair is added by the move after the pair is complete (`StrokeLagsOneMove`). For the samples (0,0), (1,2), (3,2), the total is still 0 after the third point and reaches 4 only on a fourth move, not as soon as the pair (1,2)-(3,2) is complete (`IntegralLagsOneMove`).
- The axis snap keeps the last gridline that is less than one box past the midpoint. On a canvas at least two boxes wide, this is the first gridline at or after the midpoint, which need not be the nearest one (`SnapAtOrAfterMidpoint`).

## Model

| member | source | states |
|---|---|---|
| Coordinates.CanvasToGrid | src/main.ts:185-186 | the grid point lies right of / above the axes exactly when the pixel lies right of / above the axis origin |
| Coordinates.GridToCanvas | src/main.ts:278-280 | a grid point with positive x / y is drawn right of / above the axis origin |
| Coordinates.PixelRoundTrip | src/main.ts:185-186 | drawing the grid point sampled from a pixel gives back that pixel exactly (over the reals), for any nonzero box width |
| Coordinates.GridRoundTrip | src/main.ts:278-280 | sampling the pixel at which a grid point is drawn gives back that grid point |
| Axes.SnapAxis | src/main.ts:239-245 | after the sweep, the axis is a multiple of the box width; it passes the test (on the canvas and less than one box past the midpoint) and the next gridline fails it; on a canvas of zero extent the axis is unchanged |
| Axes.SnapIsLastMatch | src/main.ts:239-240 | last match wins: every gridline that passes the test lies at or before the snapped axis |
| Axes.SnapIsUnique | src/main.ts:244-245 | the snap condition determines the axis uniquely, so the x and y loops each settle on one gridline |
| Axes.SnapAtOrAfterMidpoint | src/main.ts:239-240 | on a canvas at least two boxes wide, the axis lies in [midpoint, midpoint + boxWidth) |
| Estimators.Shift | src/main.ts:138 | the leading point is removed and the rest is kept in order; an empty queue stays empty |
| Estimators.CalcIntegral | src/main.ts:272-276 | no value exactly when fewer than two points are queued or the first two share x; a value is the left-rectangle area of the first pair; counting a refused or zero area as 0 always equals the left-rectangle area of the first pair |
| Estimators.Slope | src/main.ts:264-269 | no value exactly when the batch has fewer than five points or its 1st and 5th share x; otherwise the line through the 1st point with that slope passes through the 5th, so no other point matters |
| Estimators.IntegralStep | src/main.ts:137-169 | the queue always loses exactly its leading point; the integral changes only when shown with a truthy area, and then by exactly that area; shown, it always grows by the first pair's left-rectangle area; the segment runs from (p1.x, old integral) to (p2.x, new integral) |
| Estimators.DerivativeStep | src/main.ts:139-158 | the window is untouched unless the derivative is shown and more than five points are queued; then exactly five leave; an unset previous slope takes the batch's slope undrawn; a drawn segment spans the batch's 1st to 5th x and runs from the previous slope to the new truthy slope, which becomes the previous slope; a set previous slope changes only when a segment is drawn; a segment is drawn exactly when the derivative is shown, more than five points are queued, a previous slope is set and the batch's slope is truthy |
| Estimators.IntegralRunIsLeftSum | src/main.ts:160-169 | over any run of moves with the integral shown, starting from a queue of at least two points, the queue keeps its length and the running integral plus the left Riemann sum of the queue equals the starting integral plus the left Riemann sum of everything queued; a later stroke therefore also counts the rectangle bridging from the previous stroke's last point to its press |
| Estimators.SinglePointRunKeepsTotal | src/main.ts:160-164 | from a one-point queue (a clear or zoom while the button is held, followed by moves) no run of moves changes the running integral, shown or not, and the queue stays at one point |
| Estimators.StrokeFromClearIsLeftSum | src/main.ts:189-227 | a stroke drawn after a clear accumulates the left Riemann sum of its points, apart from the last pair, which is still pending |
| Estimators.HiddenIntegralRunKeepsTotal | src/main.ts:160-164 | with the integral hidden, no run of moves changes the running integral |
| Estimators.StrokeLagsOneMove | src/main.ts:211-227 | for any stroke pressed at a and moved through b and c after a clear, the total after c is only the a-b rectangle; the b-c rectangle is added by the next move, whatever its point |
| Estimators.IntegralLagsOneMove | src/main.ts:211-227 | samples (0,0), (1,2), (3,2) give a total of 0 after the third point and of 4 only after a fourth move |
| Estimators.DerivativeRunIsContinuous | src/main.ts:148-158 | each drawn derivative segment starts at the height where the previous one ended (in x it starts at the point carried over after the previous batch, so the segments need not touch); the first starts at an already-set previous slope; afterwards the previous slope is the last segment's end |
| Estimators.DerivativeRunConsumesBatches | src/main.ts:263 | the derivative queue is only ever consumed from the front, in whole batches of five |
| Sketch.ZoomedBoxWidth | src/main.ts:119-121 | the box width is the requested width clamped into [8, 70] |
| Sketch.Session.constructor | src/main.ts:34-64 | the initial state (scale 20, pen width 4, both displays on, not capturing) after the erase of page load: cleared, axes snapped |
| Sketch.Session.Zoom | src/main.ts:118-127 | box width = clamp(w, 8, 70); pen width 1 at or below 15, else 4; integral 0, both queues empty, no previous slope, axes snapped; an axis whose canvas extent is zero keeps its old position |
| Sketch.Session.Erase | src/main.ts:172-182 | integral 0, both queues empty, no previous slope, axes re-snapped (an axis whose canvas extent is zero keeps its old position); scale and capturing state unchanged |
| Sketch.Session.DrawGrid | src/main.ts:234-259 | both axes snapped as the sweep defines, an axis whose canvas extent is zero keeping its old position; nothing else changes |
| Sketch.Session.CalcDerivative | src/main.ts:261-270 | removes exactly the first min(5, n) points and keeps the rest in order; returns the slope of the removed batch |
| Sketch.Session.Draw | src/main.ts:129-170 | integral, queues and previous slope become exactly what the two estimator steps give; returns the pen stroke, then the derivative segment, then the integral segment, each only when drawn |
| Sketch.Session.SetDrawingCoords | src/main.ts:184-228 | down: capture and queue the grid point twice on both queues, draw a dot; move while capturing: draw step, then the same point queued once on both; up/out: stop capturing; otherwise queues, integral and previous slope are unchanged |
| Sketch.Session.MovePen | src/main.ts:212-217 | the pen moves to the pixel (the old current position becomes the previous one) and the estimators take exactly one step each; returns the pen stroke, then the derivative and integral segments when drawn |
| Sketch.Session.Enqueue | src/main.ts:220-224 | the same point is appended to both queues and nothing else in them changes |
| Sketch.Session.SetShowDerivative | src/main.ts:102-105 | the derivative display follows the checkbox |
| Sketch.Session.SetShowIntegral | src/main.ts:98-101 | the integral display follows the checkbox |
| Sketch.Session.KeyDown | src/main.ts:107-112 | C clears; R zooms to 20 only when the scale differs from 20, otherwise changes nothing; D and I toggle their displays; no key touches the capturing state or the pen position; an axis whose canvas extent is zero keeps its old position |

## Left out

- DOM lookups, listener registration and the button click that wires `erase` (src/main.ts:14-33, 66-116): the handlers are methods called directly.
- Canvas rendering (stroke colours, line widths, `clearRect`, the 2×2 `fillRect`, the gridlines of `drawGrid`): the marks a handler returns stand for what it draws. Derivative and integral segments are kept in grid units instead of being passed through `gridToCanvas`.
- `round` and the numeric readouts (`dataset.x`, `dataset.y`, `dataset.derivative`, `dataset.auc`): they only format values for display.
- `console.log` and `console.clear`.
- The wheel handler's `boxWidth * Math.E ** (deltaY / 1000)`: `Zoom` takes any real.
- IEEE-754 arithmetic: all coordinates are exact reals. So the repeated `x += boxWidth` of the grid sweep has no rounding error. The pixel/grid round trip is exact only over the reals. NaN and infinities do not arise.
- `canvas.offsetLeft` and `canvas.offsetTop`: pointer positions are given relative to the canvas.
- `dot_flag` (it has no effect) and `numberOfPoints` (a debug counter).
- Sketch.Session.KeyDown: the D and I keys are modelled as toggling the display flags. This assumes that each checkbox's checked state mirrors its flag. The checkboxes' initial markup is not part of this model.
