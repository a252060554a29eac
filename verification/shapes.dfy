/** Values shared by the overlay's modules: integer screen points and rectangles. */
module Shapes {

  /** A point in screen coordinates. Mouse and window coordinates are
      integers, so the three points stay integral after every drag. */
  datatype Point = Point(x: int, y: int)

  /** A window rectangle: top-left corner, width and height. */
  datatype Rect = Rect(x: int, y: int, w: int, h: int)

  /** A value or nothing (the Python `None`). */
  datatype Option<T> = None | Some(value: T)

  function Max(a: int, b: int): (r: int)
    ensures r >= a && r >= b && (r == a || r == b)
  {
    if a >= b then a else b
  }

  function Min(a: int, b: int): (r: int)
    ensures r <= a && r <= b && (r == a || r == b)
  {
    if a <= b then a else b
  }
}
