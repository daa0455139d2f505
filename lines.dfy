/** `Line` (draw.py:10-19): a list of points and the attributes it is drawn with. */
module Lines {
  import opened Geometry

  /** `DOTS` draws every point as a separate dot; `LINE` joins them into one polyline. */
  datatype Style = Dots | Polyline

  /**
   * A curve. `len` is the point count cached at construction; `color` and
   * `width` are the pen, which the host may change afterwards.
   */
  datatype Line = Line(points: seq<Point>, len: nat, color: string, style: Style, width: int)

  /** `Line.__init__`: the style follows from the point count, the pen is the fixed default. */
  function NewLine(points: seq<Point>): Line {
    Line(points, |points|, "#000000", if |points| > 3 then Polyline else Dots, 4)
  }

  /** A curve of more than three points is a polyline, one of up to three points is dots; the pen is always black and 4 wide. */
  lemma NewLineFacts(points: seq<Point>)
    ensures var l := NewLine(points);
      l.points == points && l.len == |points| &&
      (l.style == Polyline <==> |points| > 3) &&
      (l.style == Dots <==> |points| <= 3) &&
      l.color == "#000000" && l.width == 4
  {
  }
}
