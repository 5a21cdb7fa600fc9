/** Small value types shared by the component models. */
module Common {

  /** A value that may be absent (`undefined`/`null` in the page). */
  datatype Option<+T> = None | Some(value: T)

  /** A point in CSS pixels. */
  datatype Point = Point(x: real, y: real)

  /** A bounding rectangle as `getBoundingClientRect` reports it. */
  datatype Rect = Rect(left: real, top: real, width: real, height: real)
  {
    function Bottom(): real { top + height }
    function Centre(): (c: Point)
      ensures left + width == c.x + (c.x - left) && top + height == c.y + (c.y - top)
    {
      Point(left + width / 2.0, top + height / 2.0)
    }
  }

  /** `Math.abs`. */
  function Abs(x: real): real
  {
    if x < 0.0 then -x else x
  }
}
