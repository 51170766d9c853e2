/** The two coordinate transforms between pixels on the canvas and grid units.
    The grid origin sits at pixel (xAxis, yAxis), one grid unit is boxWidth
    pixels, and the grid's y axis points up while the pixel y axis points down. */
module Coordinates {
  import opened Geometry

  /** The grid point under pixel (px, py), measured from the canvas's top-left. */
  function CanvasToGrid(px: real, py: real, xAxis: real, yAxis: real, boxWidth: real): (g: Point)
    requires boxWidth != 0.0
    ensures boxWidth > 0.0 ==> (g.x > 0.0 <==> px > xAxis) && (g.y > 0.0 <==> py < yAxis)
  {
    Point((px - xAxis) / boxWidth, (yAxis - py) / boxWidth)
  }

  /** The pixel at which grid point (x, y) is drawn. */
  function GridToCanvas(x: real, y: real, xAxis: real, yAxis: real, boxWidth: real): (p: Point)
    ensures boxWidth > 0.0 ==> (p.x > xAxis <==> x > 0.0) && (p.y < yAxis <==> y > 0.0)
  {
    Point(boxWidth * x + xAxis, yAxis - boxWidth * y)
  }

  /** Drawing a sampled point puts it back on the pixel it was sampled from (exact over the reals). */
  lemma PixelRoundTrip(px: real, py: real, xAxis: real, yAxis: real, boxWidth: real)
    requires boxWidth != 0.0
    ensures var g := CanvasToGrid(px, py, xAxis, yAxis, boxWidth);
            GridToCanvas(g.x, g.y, xAxis, yAxis, boxWidth) == Point(px, py)
  {
  }

  /** Sampling the pixel at which a grid point is drawn gives that grid point back. */
  lemma GridRoundTrip(x: real, y: real, xAxis: real, yAxis: real, boxWidth: real)
    requires boxWidth != 0.0
    ensures var p := GridToCanvas(x, y, xAxis, yAxis, boxWidth);
            CanvasToGrid(p.x, p.y, xAxis, yAxis, boxWidth) == Point(x, y)
  {
  }
}
