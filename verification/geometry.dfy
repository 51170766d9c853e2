/** Values shared by the whole model: optional numbers (the source's `number | null`),
    points in grid or pixel space, and the segments a drawing step produces. */
module Geometry {

  /** `None` stands for JavaScript's `null` (and for a missing array element). */
  datatype Option<T> = None | Some(value: T)

  /** A sample point `{x, y}`; grid coordinates or pixel coordinates depending on use. */
  datatype Point = Point(x: real, y: real)

  /** A straight line from `from` to `to`, in grid coordinates. */
  datatype Segment = Segment(from: Point, to: Point)

  function Max(a: real, b: real): real { if a >= b then a else b }

  function Min(a: real, b: real): real { if a <= b then a else b }
}
