/** Plane geometry of a chart, in Java2D device coordinates: x grows to the right, y grows downward. */
module Geometry {

  datatype Point = Point(x: real, y: real)

  /** A straight line from `from` to `to`, as a Line2D holds it. */
  datatype Segment = Segment(from: Point, to: Point)

  /** A Rectangle2D: its top-left corner and its size. */
  datatype Rect = Rect(x: real, y: real, width: real, height: real) {
    function MaxX(): real { x + width }
    function MaxY(): real { y + height }
  }

  /** The side of the data area that an axis occupies. */
  datatype Edge = Top | Bottom | Left | Right {
    predicate IsTopOrBottom() { this == Top || this == Bottom }
    predicate IsLeftOrRight() { this == Left || this == Right }
  }

  /** The coordinate that runs along an axis drawn on `edge`. */
  function Along(edge: Edge, p: Point): real {
    if edge.IsTopOrBottom() then p.x else p.y
  }

  /** The coordinate that runs across an axis drawn on `edge`, towards or away from the data area. */
  function Across(edge: Edge, p: Point): real {
    if edge.IsTopOrBottom() then p.y else p.x
  }

  /** The sign of the direction, across the axis, that points away from the data area. */
  function Outward(edge: Edge): real {
    match edge
    case Top | Left => -1.0
    case Bottom | Right => 1.0
  }
}
