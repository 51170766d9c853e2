/** The drawing session: the module-level state of the page and the handlers
    that change it. Pixel positions are relative to the canvas's top-left corner;
    canvas drawing calls are represented by the marks each handler returns. */
module Sketch {
  import opened Geometry
  import opened Coordinates
  import opened Axes
  import opened Estimators

  const MinBoxWidth: real := 8.0
  const MaxBoxWidth: real := 70.0
  const DefaultBoxWidth: real := 20.0

  /** The pointer events the canvas listens for. */
  datatype MouseEvent = Down | Up | Out | Move

  /** The keyboard shortcuts; any other key does nothing. */
  datatype Key = KeyC | KeyR | KeyD | KeyI | OtherKey

  /** What one handler draws: the initial dot and the pen stroke in pixels,
      the derivative and integral segments in grid units. */
  datatype Mark =
    | Dot(at: Point)
    | Pen(from: Point, to: Point)
    | DerivativeLine(seg: Segment)
    | IntegralLine(seg: Segment)

  function DerivativeMarks(s: Option<Segment>): seq<Mark>
  {
    if s.Some? then [DerivativeLine(s.value)] else []
  }

  function IntegralMarks(s: Option<Segment>): seq<Mark>
  {
    if s.Some? then [IntegralLine(s.value)] else []
  }

  /** The box width zoom settles on: the requested width raised to at least 8, then lowered to at most 70. */
  function ZoomedBoxWidth(requested: real): (w: real)
    ensures MinBoxWidth <= w <= MaxBoxWidth
    ensures MinBoxWidth <= requested <= MaxBoxWidth ==> w == requested
    ensures requested < MinBoxWidth ==> w == MinBoxWidth
    ensures requested > MaxBoxWidth ==> w == MaxBoxWidth
  {
    Min(Max(requested, MinBoxWidth), MaxBoxWidth)
  }

  /** Thin lines for a fine grid, thick ones otherwise. */
  function PenWidthFor(boxWidth: real): nat
  {
    if boxWidth <= 15.0 then 1 else 4
  }

  class Session {
    const width: nat
    const height: nat
    var boxWidth: real
    var penWidth: nat
    var xAxis: real
    var yAxis: real
    var flag: bool
    var prevX: real
    var prevY: real
    var currX: real
    var currY: real
    var integral: real
    var integralPoints: seq<Point>
    var derivativePoints: seq<Point>
    var prevDerivative: Option<real>
    var showDerivative: bool
    var showIntegral: bool

    /** The scale stays within the zoom bounds and the pen width follows it. */
    ghost predicate Valid()
      reads this
    {
      MinBoxWidth <= boxWidth <= MaxBoxWidth && penWidth == PenWidthFor(boxWidth)
    }

    /** Both axes sit where the grid sweep puts them, on every dimension the canvas has. */
    ghost predicate AxesSnapped()
      reads this
    {
      && (width > 0 ==> IsAxisSnap(xAxis, width as real, boxWidth))
      && (height > 0 ==> IsAxisSnap(yAxis, height as real, boxWidth))
    }

    /** Nothing accumulated: the state erase leaves behind. */
    ghost predicate Cleared()
      reads this
    {
      integral == 0.0 && integralPoints == [] && derivativePoints == [] && prevDerivative == None
    }

    function Integrator(): IntegralWindow
      reads this`integral, this`integralPoints
    {
      IntegralWindow(integral, integralPoints)
    }

    function Differentiator(): DerivativeWindow
      reads this`prevDerivative, this`derivativePoints
    {
      DerivativeWindow(prevDerivative, derivativePoints)
    }

    /** Page load: the initial values, then the erase that runs before any event arrives. */
    constructor (width: nat, height: nat)
      ensures Valid() && Cleared() && AxesSnapped()
      ensures this.width == width && this.height == height
      ensures boxWidth == DefaultBoxWidth && penWidth == 4
      ensures width == 0 ==> xAxis == 0.0
      ensures height == 0 ==> yAxis == 10.0
      ensures !flag && showDerivative && showIntegral
      ensures prevX == 0.0 && prevY == 0.0 && currX == 0.0 && currY == 0.0
    {
      this.width := width;
      this.height := height;
      boxWidth := DefaultBoxWidth;
      xAxis := width as real / 2.0;
      yAxis := 10.0 + height as real / 2.0;
      flag := false;
      prevX, currX, prevY, currY := 0.0, 0.0, 0.0, 0.0;
      showDerivative := true;
      prevDerivative := None;
      derivativePoints := [];
      integral := 0.0;
      showIntegral := true;
      penWidth := 4;
      integralPoints := [Point(0.0, 0.0)];
      new;
      Erase();
    }

    /** Rescale the grid: clamp the requested box width, pick the pen width,
        then erase everything and redraw the grid. */
    method Zoom(newSquareWidth: real)
      requires Valid()
      modifies this`boxWidth, this`penWidth, this`xAxis, this`yAxis,
               this`integral, this`integralPoints, this`derivativePoints, this`prevDerivative
      ensures Valid() && Cleared() && AxesSnapped()
      ensures boxWidth == ZoomedBoxWidth(newSquareWidth)
      ensures penWidth == if boxWidth <= 15.0 then 1 else 4
      ensures width == 0 ==> xAxis == old(xAxis)
      ensures height == 0 ==> yAxis == old(yAxis)
    {
      boxWidth := newSquareWidth;
      boxWidth := Max(boxWidth, MinBoxWidth);
      boxWidth := Min(boxWidth, MaxBoxWidth);
      if boxWidth <= 15.0 {
        penWidth := 1;
      } else {
        penWidth := 4;
      }
      Erase();
      DrawGrid();
    }

    /** Clear the canvas: redraw the grid and discard the integral, both queues and the previous slope. */
    method Erase()
      requires Valid()
      modifies this`xAxis, this`yAxis, this`integral, this`integralPoints, this`derivativePoints, this`prevDerivative
      ensures Valid() && Cleared() && AxesSnapped()
      ensures width == 0 ==> xAxis == old(xAxis)
      ensures height == 0 ==> yAxis == old(yAxis)
    {
      DrawGrid();
      integral := 0.0;
      integralPoints := [];
      derivativePoints := [];
      prevDerivative := None;
    }

    /** Redraw the grid; of its work only the snapping of both axes onto gridlines is modelled. */
    method DrawGrid()
      requires Valid()
      modifies this`xAxis, this`yAxis
      ensures AxesSnapped()
      ensures width == 0 ==> xAxis == old(xAxis)
      ensures height == 0 ==> yAxis == old(yAxis)
    {
      xAxis := SnapAxis(width, boxWidth, xAxis);
      yAxis := SnapAxis(height, boxWidth, yAxis);
    }

    /** Remove the first batch (up to five points) from the derivative queue and
        return its slope. */
    method CalcDerivative() returns (derivative: Option<real>)
      modifies this`derivativePoints
      ensures var n := if |old(derivativePoints)| < DerivativePrecision then |old(derivativePoints)| else DerivativePrecision;
              && derivativePoints == old(derivativePoints)[n..]
              && derivative == Slope(old(derivativePoints)[..n])
    {
      var n := if |derivativePoints| < DerivativePrecision then |derivativePoints| else DerivativePrecision;
      var pts := derivativePoints[..n];
      derivativePoints := derivativePoints[n..];
      var p1: Option<Point> := if |pts| > 0 then Some(pts[0]) else None;
      var p2: Option<Point> := if |pts| > DerivativePrecision - 1 then Some(pts[DerivativePrecision - 1]) else None;
      if p1.None? || p2.None? || p1.value.x == p2.value.x {
        return None;
      }
      derivative := Some((p2.value.y - p1.value.y) / (p2.value.x - p1.value.x));
    }

    /** One drawing step: the pen stroke from the previous to the current pixel,
        then one step of each estimator. */
    method Draw() returns (marks: seq<Mark>)
      modifies this`integral, this`integralPoints, this`derivativePoints, this`prevDerivative
      ensures Integrator() == IntegralStep(old(Integrator()), showIntegral).0
      ensures Differentiator() == DerivativeStep(old(Differentiator()), showDerivative).0
      ensures marks == [Pen(Point(prevX, prevY), Point(currX, currY))]
                       + DerivativeMarks(DerivativeStep(old(Differentiator()), showDerivative).1)
                       + IntegralMarks(IntegralStep(old(Integrator()), showIntegral).1)
    {
      marks := [Pen(Point(prevX, prevY), Point(currX, currY))];
      var area := CalcIntegral(integralPoints);
      var prevPoint: Option<Point> := None;
      if |integralPoints| > 0 {
        prevPoint := Some(integralPoints[0]);
        integralPoints := integralPoints[1..];
      }
      var prevDerivPoint: Option<Point> := if |derivativePoints| > 0 then Some(derivativePoints[0]) else None;
      var lastDerivPoint: Option<Point> :=
        if |derivativePoints| > DerivativePrecision - 1 then Some(derivativePoints[DerivativePrecision - 1]) else None;
      if showDerivative && prevDerivPoint.Some? && lastDerivPoint.Some? && |derivativePoints| > DerivativePrecision {
        var derivative := CalcDerivative();
        if prevDerivative.None? {
          prevDerivative := derivative;
        } else if Truthy(derivative) {
          var seg := Segment(Point(prevDerivPoint.value.x, prevDerivative.value), Point(lastDerivPoint.value.x, derivative.value));
          marks := marks + [DerivativeLine(seg)];
          prevDerivative := derivative;
        }
      }
      if showIntegral && Truthy(area) && prevPoint.Some? {
        var from := Point(prevPoint.value.x, integral);
        integral := integral + area.value;
        marks := marks + [IntegralLine(Segment(from, Point(integralPoints[0].x, integral)))];
      }
    }

    /** The pointer handler. The pixel is mapped to a grid point; a press starts
        capturing, draws a dot and queues the point twice; a move while capturing
        draws and queues the point once; a release or leaving the canvas stops
        capturing. Both queues always receive the same points. */
    method SetDrawingCoords(res: MouseEvent, px: real, py: real) returns (marks: seq<Mark>)
      requires Valid()
      modifies this`flag, this`prevX, this`prevY, this`currX, this`currY,
               this`integral, this`integralPoints, this`derivativePoints, this`prevDerivative
      ensures flag == match res
                      case Down => true
                      case Up => false
                      case Out => false
                      case Move => old(flag)
      ensures var g := CanvasToGrid(px, py, xAxis, yAxis, boxWidth);
              res == Down ==>
                && integralPoints == old(integralPoints) + [g, g]
                && derivativePoints == old(derivativePoints) + [g, g]
                && integral == old(integral) && prevDerivative == old(prevDerivative)
                && prevX == old(currX) && prevY == old(currY) && currX == px && currY == py
                && marks == [Dot(Point(px, py))]
      ensures res == Up || res == Out || (res == Move && !old(flag)) ==>
                && Integrator() == old(Integrator()) && Differentiator() == old(Differentiator())
                && prevX == old(prevX) && prevY == old(prevY) && currX == old(currX) && currY == old(currY)
                && marks == []
      ensures var g := CanvasToGrid(px, py, xAxis, yAxis, boxWidth);
              var istep := IntegralStep(old(Integrator()), showIntegral);
              var dstep := DerivativeStep(old(Differentiator()), showDerivative);
              res == Move && old(flag) ==>
                && integral == istep.0.total && integralPoints == istep.0.queue + [g]
                && prevDerivative == dstep.0.prev && derivativePoints == dstep.0.queue + [g]
                && prevX == old(currX) && prevY == old(currY) && currX == px && currY == py
                && marks == [Pen(Point(old(currX), old(currY)), Point(px, py))]
                            + DerivativeMarks(dstep.1) + IntegralMarks(istep.1)
    {
      marks := [];
      var grid := CanvasToGrid(px, py, xAxis, yAxis, boxWidth);
      // the event kinds exclude each other, so the source's separate tests form one chain
      if res == Down {
        prevX := currX;
        prevY := currY;
        currX := px;
        currY := py;
        flag := true;
        marks := [Dot(Point(currX, currY))];
        Enqueue(grid);
      } else if res == Up || res == Out {
        flag := false;
      } else if flag {
        marks := MovePen(px, py);
      }
      if flag {
        Enqueue(grid);
      }
    }

    /** Move the pen to a pixel and draw the step both estimators take. */
    method MovePen(px: real, py: real) returns (marks: seq<Mark>)
      modifies this`prevX, this`prevY, this`currX, this`currY,
               this`integral, this`integralPoints, this`derivativePoints, this`prevDerivative
      ensures prevX == old(currX) && prevY == old(currY) && currX == px && currY == py
      ensures Integrator() == IntegralStep(old(Integrator()), showIntegral).0
      ensures Differentiator() == DerivativeStep(old(Differentiator()), showDerivative).0
      ensures marks == [Pen(Point(old(currX), old(currY)), Point(px, py))]
                       + DerivativeMarks(DerivativeStep(old(Differentiator()), showDerivative).1)
                       + IntegralMarks(IntegralStep(old(Integrator()), showIntegral).1)
    {
      prevX := currX;
      prevY := currY;
      currX := px;
      currY := py;
      marks := Draw();
    }

    /** Queue a sample point for both estimators at once. */
    method Enqueue(p: Point)
      modifies this`integralPoints, this`derivativePoints
      ensures integralPoints == old(integralPoints) + [p]
      ensures derivativePoints == old(derivativePoints) + [p]
    {
      integralPoints := integralPoints + [p];
      derivativePoints := derivativePoints + [p];
    }

    /** The derivative checkbox's change listener. */
    method SetShowDerivative(checked: bool)
      modifies this`showDerivative
      ensures showDerivative == checked
    {
      showDerivative := checked;
    }

    /** The integral checkbox's change listener. */
    method SetShowIntegral(checked: bool)
      modifies this`showIntegral
      ensures showIntegral == checked
    {
      showIntegral := checked;
    }

    /** The keyboard shortcuts: C clears, R resets the scale to 20 unless it
        already is 20, D and I click the derivative and integral checkboxes
        (modelled as toggling the flags those checkboxes mirror). */
    method KeyDown(code: Key)
      requires Valid()
      modifies this
      ensures Valid()
      ensures code == KeyC ==> Cleared() && AxesSnapped() && boxWidth == old(boxWidth)
      ensures code == KeyR && old(boxWidth) != DefaultBoxWidth ==>
                Cleared() && AxesSnapped() && boxWidth == DefaultBoxWidth && penWidth == 4
      ensures code == KeyR && old(boxWidth) == DefaultBoxWidth ==>
                Integrator() == old(Integrator()) && Differentiator() == old(Differentiator())
                && xAxis == old(xAxis) && yAxis == old(yAxis) && boxWidth == old(boxWidth)
      ensures showDerivative == (if code == KeyD then !old(showDerivative) else old(showDerivative))
      ensures showIntegral == (if code == KeyI then !old(showIntegral) else old(showIntegral))
      ensures code != KeyC && !(code == KeyR && old(boxWidth) != DefaultBoxWidth) ==>
                Integrator() == old(Integrator()) && Differentiator() == old(Differentiator())
                && xAxis == old(xAxis) && yAxis == old(yAxis) && boxWidth == old(boxWidth)
      ensures flag == old(flag) && currX == old(currX) && currY == old(currY)
              && prevX == old(prevX) && prevY == old(prevY)
      ensures width == 0 ==> xAxis == old(xAxis)
      ensures height == 0 ==> yAxis == old(yAxis)
    {
      if code == KeyC {
        Erase();
      }
      if code == KeyR && boxWidth != DefaultBoxWidth {
        Zoom(DefaultBoxWidth);
      }
      if code == KeyD {
        SetShowDerivative(!showDerivative);
      }
      if code == KeyI {
        SetShowIntegral(!showIntegral);
      }
    }
  }
}
