/**
 * The view transform of `PlotDrawer` (draw.py:54-83, 122-138) as pure
 * functions of a `View` value: the drawer's nine fields at one moment.
 * A data point is normalised by the bounds, shifted by the pan, scaled
 * about the centre 0.5 by `ZOOM_FACTOR ** zoom`, and projected onto the
 * pixel grid with the y axis flipped.
 */
module ViewTransform {
  import opened Geometry

  /** The fields of a `PlotDrawer`: bounds, viewport size, pan and zoom exponent. */
  datatype View = View(xmin: real, ymin: real, xmax: real, ymax: real,
                       width: real, height: real,
                       transX: real, transY: real, zoom: int)

  /** What draw.py:56-57 divides by: neither axis of the bounds is flat. */
  predicate ProperBounds(v: View) {
    v.xmax != v.xmin && v.ymax != v.ymin
  }

  /** What draw.py:75 and draw.py:135-136 divide by: the viewport has area. */
  predicate ProperSize(v: View) {
    v.width != 0.0 && v.height != 0.0
  }

  /** Data space to normalised space: the bounds become the unit square. */
  function Normalised(v: View, p: Point): Point
    requires ProperBounds(v)
  {
    Point((p.x - v.xmin) / (v.xmax - v.xmin), (p.y - v.ymin) / (v.ymax - v.ymin))
  }

  /** Normalised space back to data space (the inverse of `Normalised`). */
  function Denormalised(v: View, q: Point): Point {
    Point(v.xmin + q.x * (v.xmax - v.xmin), v.ymin + q.y * (v.ymax - v.ymin))
  }

  /** Scale about the pivot (0.5, 0.5) by the factor `s`. */
  function ZoomBy(s: real, p: Point): Point {
    Point((p.x - 0.5) * s + 0.5, (p.y - 0.5) * s + 0.5)
  }

  /** Scale about the pivot (0.5, 0.5) by the factor `1 / s`. */
  function UnzoomBy(s: real, p: Point): Point
    requires s != 0.0
  {
    Point((p.x - 0.5) / s + 0.5, (p.y - 0.5) / s + 0.5)
  }

  /** `zoomed`: scale about the pivot 0.5 by `ZOOM_FACTOR ** zoom`. */
  function Zoomed(v: View, p: Point): Point {
    ZoomBy(Pow(v.zoom), p)
  }

  /** `unzoomed`: scale about the pivot 0.5 by `1 / ZOOM_FACTOR ** zoom`. */
  function Unzoomed(v: View, p: Point): Point {
    UnzoomBy(Pow(v.zoom), p)
  }

  /** The pixel step that ends `translate_point`: width and height, y flipped. */
  function Projected(v: View, t: Point): Point {
    Point(t.x * v.width, (1.0 - t.y) * v.height)
  }

  /** `scaled`: a pixel back to zoomed normalised coordinates. */
  function Scaled(v: View, pixel: Point): Point
    requires ProperSize(v)
  {
    Point(pixel.x / v.width, 1.0 - pixel.y / v.height)
  }

  /** `translate_point`: a data point to the pixel it is drawn at. */
  function TranslatePoint(v: View, p: Point): Point
    requires ProperBounds(v)
  {
    var rel := Normalised(v, p);
    Projected(v, Zoomed(v, Point(rel.x - v.transX, rel.y - v.transY)))
  }

  /** The data point drawn at a pixel: every step of `TranslatePoint` undone in reverse order. */
  function DataPointAt(v: View, pixel: Point): Point
    requires ProperBounds(v) && ProperSize(v)
  {
    var u := Unzoomed(v, Scaled(v, pixel));
    Denormalised(v, Point(u.x + v.transX, u.y + v.transY))
  }

  /** `zoom_to_point`: change the zoom by `direction` and re-pan so the cursor's point stays put. */
  function ZoomToPoint(v: View, direction: int, pixel: Point): View
    requires ProperSize(v)
  {
    var s := Scaled(v, pixel);
    var o := Unzoomed(v, s);
    var z := v.(zoom := v.zoom + direction);
    var n := Unzoomed(z, s);
    z.(transX := v.transX + (o.x - n.x), transY := v.transY + (o.y - n.y))
  }

  /** `move_zoomed`: pan by `(dx, dy)` screens' worth at the current zoom. */
  function MoveZoomed(v: View, dx: real, dy: real): View {
    v.(transX := v.transX + dx / Pow(v.zoom), transY := v.transY + dy / Pow(v.zoom))
  }

  /** `modify_zoom`: change the zoom exponent and nothing else. */
  function ModifyZoom(v: View, z: int): View {
    v.(zoom := v.zoom + z)
  }

  /**
   * `PlotDrawerDrag.update`: the pan recomputed from the press pixel `start`
   * and the pan `trans` taken at press time, for the current pixel `(x, y)`.
   */
  function DragPan(v: View, start: Point, trans: Point, x: real, y: real): View
    requires ProperSize(v)
  {
    var rdx := (start.x - x) / v.width / Pow(v.zoom);
    var rdy := - (start.y - y) / v.height / Pow(v.zoom);
    v.(transX := trans.x + rdx, transY := trans.y + rdy)
  }

  // ---------------------------------------------------------------------
  // Inverse laws
  // ---------------------------------------------------------------------

  /** Multiplying and dividing by the same non-zero real cancel. */
  lemma Cancel(a: real, s: real)
    requires s != 0.0
    ensures a * s / s == a && a / s * s == a
  {
  }

  /** Division distributes over a difference. */
  lemma DivideDifference(a: real, b: real, s: real)
    requires s != 0.0
    ensures (a - b) / s == a / s - b / s
  {
  }

  /** Division commutes with negation. */
  lemma NegateDivide(a: real, s: real)
    requires s != 0.0
    ensures (- a) / s == - (a / s)
  {
  }

  /** Shifting a coordinate by `e / s` before zooming by `s` shifts the zoomed coordinate by `e`. */
  lemma PanShift(u: real, c: real, e: real, s: real)
    requires s != 0.0
    requires (u - 0.5) * s + 0.5 == c
    ensures (u - e / s - 0.5) * s + 0.5 == c - e
  {
  }

  /** `unzoomed` undoes `zoomed` and the other way round, at every integer zoom level. */
  lemma ZoomRoundTrip(v: View, p: Point)
    ensures Unzoomed(v, Zoomed(v, p)) == p
    ensures Zoomed(v, Unzoomed(v, p)) == p
  {
    ZoomByRoundTrip(Pow(v.zoom), p);
  }

  /** Scaling about the pivot by `s` and by `1 / s` cancel, in either order. */
  lemma ZoomByRoundTrip(s: real, p: Point)
    requires s != 0.0
    ensures UnzoomBy(s, ZoomBy(s, p)) == p
    ensures ZoomBy(s, UnzoomBy(s, p)) == p
  {
    Cancel(p.x - 0.5, s);
    Cancel(p.y - 0.5, s);
  }

  /** `scaled` inverts the pixel step of `translate_point`, and the other way round. */
  lemma ScaledRoundTrip(v: View, t: Point, pixel: Point)
    requires ProperSize(v)
    ensures Scaled(v, Projected(v, t)) == t
    ensures Projected(v, Scaled(v, pixel)) == pixel
  {
  }

  /** Normalising by the bounds is undone by `Denormalised`, and the other way round. */
  lemma NormaliseRoundTrip(v: View, p: Point, q: Point)
    requires ProperBounds(v)
    ensures Denormalised(v, Normalised(v, p)) == p
    ensures Normalised(v, Denormalised(v, q)) == q
  {
  }

  /** Projecting a data point and reading back the point under that pixel gives the point again. */
  lemma TranslateRoundTrip(v: View, p: Point)
    requires ProperBounds(v) && ProperSize(v)
    ensures DataPointAt(v, TranslatePoint(v, p)) == p
  {
    var rel := Normalised(v, p);
    var shifted := Point(rel.x - v.transX, rel.y - v.transY);
    ScaledRoundTrip(v, Zoomed(v, shifted), Point(0.0, 0.0));
    ZoomRoundTrip(v, shifted);
    NormaliseRoundTrip(v, p, rel);
  }

  /** The data point read back from a pixel is drawn at exactly that pixel. */
  lemma DataPointRoundTrip(v: View, pixel: Point)
    requires ProperBounds(v) && ProperSize(v)
    ensures TranslatePoint(v, DataPointAt(v, pixel)) == pixel
  {
    var u := Unzoomed(v, Scaled(v, pixel));
    var q := Point(u.x + v.transX, u.y + v.transY);
    NormaliseRoundTrip(v, pixel, q);
    ZoomRoundTrip(v, Scaled(v, pixel));
    ScaledRoundTrip(v, Point(0.0, 0.0), pixel);
  }

  // ---------------------------------------------------------------------
  // The default view
  // ---------------------------------------------------------------------

  /** With no pan and no zoom the bounds fill the viewport: lower-left corner to the bottom-left pixel, upper-right to the top-right. */
  lemma DefaultViewCorners(v: View)
    requires ProperBounds(v)
    requires v.transX == 0.0 && v.transY == 0.0 && v.zoom == 0
    ensures TranslatePoint(v, Point(v.xmin, v.ymin)) == Point(0.0, v.height)
    ensures TranslatePoint(v, Point(v.xmax, v.ymax)) == Point(v.width, 0.0)
  {
    DefaultViewIsNormalised(v, Point(v.xmin, v.ymin));
    DefaultViewIsNormalised(v, Point(v.xmax, v.ymax));
  }

  /** With no pan and no zoom a point is drawn at its normalised position stretched over the viewport. */
  lemma DefaultViewIsNormalised(v: View, p: Point)
    requires ProperBounds(v)
    requires v.transX == 0.0 && v.transY == 0.0 && v.zoom == 0
    ensures TranslatePoint(v, p) == Projected(v, Normalised(v, p))
  {
    assert Pow(0) == 1.0;
  }

  /** Bounds (0,0,10,10) in an 800x600 viewport at the default view. */
  lemma DefaultViewExample()
    ensures var v := View(0.0, 0.0, 10.0, 10.0, 800.0, 600.0, 0.0, 0.0, 0);
      TranslatePoint(v, Point(0.0, 0.0)) == Point(0.0, 600.0) &&
      TranslatePoint(v, Point(10.0, 10.0)) == Point(800.0, 0.0) &&
      TranslatePoint(v, Point(5.0, 5.0)) == Point(400.0, 300.0)
  {
    var v := View(0.0, 0.0, 10.0, 10.0, 800.0, 600.0, 0.0, 0.0, 0);
    DefaultViewCorners(v);
    DefaultViewIsNormalised(v, Point(5.0, 5.0));
    assert Normalised(v, Point(5.0, 5.0)) == Point(0.5, 0.5);
  }

  // ---------------------------------------------------------------------
  // Zoom about the cursor, zoom about the centre
  // ---------------------------------------------------------------------

  /**
   * `zoom_to_point(d, pixel)` changes the zoom by exactly `d`, touches only the
   * zoom and the pan, and keeps `unzoomed(scaled(pixel)) + trans` as it was.
   */
  lemma ZoomToPointKeepsCursor(v: View, d: int, pixel: Point)
    requires ProperSize(v)
    ensures var r := ZoomToPoint(v, d, pixel);
      r.zoom == v.zoom + d &&
      r == v.(zoom := r.zoom, transX := r.transX, transY := r.transY) &&
      Unzoomed(r, Scaled(r, pixel)).x + r.transX == Unzoomed(v, Scaled(v, pixel)).x + v.transX &&
      Unzoomed(r, Scaled(r, pixel)).y + r.transY == Unzoomed(v, Scaled(v, pixel)).y + v.transY
  {
  }

  /** The data point under the cursor before a wheel zoom is still under it afterwards. */
  lemma ZoomToPointFixesDataPoint(v: View, d: int, pixel: Point)
    requires ProperBounds(v) && ProperSize(v)
    ensures DataPointAt(ZoomToPoint(v, d, pixel), pixel) == DataPointAt(v, pixel)
    ensures TranslatePoint(ZoomToPoint(v, d, pixel), DataPointAt(v, pixel)) == pixel
  {
    var r := ZoomToPoint(v, d, pixel);
    ZoomToPointKeepsCursor(v, d, pixel);
    var ur, uv := Unzoomed(r, Scaled(r, pixel)), Unzoomed(v, Scaled(v, pixel));
    var k := Point(uv.x + v.transX, uv.y + v.transY);
    assert Point(ur.x + r.transX, ur.y + r.transY) == k;
    assert DataPointAt(r, pixel) == Denormalised(r, k);
    assert Denormalised(r, k) == Denormalised(v, k);
    DataPointRoundTrip(r, pixel);
  }

  /** The keyboard zoom `modify_zoom` is a cursor zoom at the centre pixel of the viewport. */
  lemma ModifyZoomIsCentredZoom(v: View, z: int)
    requires ProperSize(v)
    ensures ModifyZoom(v, z) == ZoomToPoint(v, z, Point(v.width / 2.0, v.height / 2.0))
  {
    var c := Point(v.width / 2.0, v.height / 2.0);
    assert Scaled(v, c) == Point(0.5, 0.5);
    assert Unzoomed(v, Point(0.5, 0.5)) == Point(0.5, 0.5);
    assert Unzoomed(ModifyZoom(v, z), Point(0.5, 0.5)) == Point(0.5, 0.5);
  }

  /** One step of `modify_zoom(+1)` moves every drawn point 1.2 times as far from the viewport centre. */
  lemma ZoomStepMagnifies(v: View, p: Point)
    requires ProperBounds(v)
    ensures var a, b := TranslatePoint(v, p), TranslatePoint(ModifyZoom(v, 1), p);
      b.x - v.width / 2.0 == ZoomFactor * (a.x - v.width / 2.0) &&
      b.y - v.height / 2.0 == ZoomFactor * (a.y - v.height / 2.0)
  {
    var rel := Normalised(v, p);
    assert Normalised(ModifyZoom(v, 1), p) == rel;
    PowStep(v.zoom);
    ProjectedMagnifies(v, Pow(v.zoom), ZoomFactor, Point(rel.x - v.transX, rel.y - v.transY));
  }

  /** Zooming by `f * s` instead of `s` puts a point's pixel `f` times as far from the centre pixel. */
  lemma ProjectedMagnifies(v: View, s: real, f: real, q: Point)
    ensures var a, b := Projected(v, ZoomBy(s, q)), Projected(v, ZoomBy(f * s, q));
      b.x - v.width / 2.0 == f * (a.x - v.width / 2.0) &&
      b.y - v.height / 2.0 == f * (a.y - v.height / 2.0)
  {
    MagnifyX(q.x - 0.5, s, f, v.width);
    MagnifyY(q.y - 0.5, s, f, v.height);
  }

  /** A horizontal offset `e` from the pivot, zoomed by `f * s` instead of `s`, lands `f` times as far from the centre pixel. */
  lemma MagnifyX(e: real, s: real, f: real, w: real)
    ensures (e * (f * s) + 0.5) * w - w / 2.0 == f * ((e * s + 0.5) * w - w / 2.0)
  {
  }

  /** The vertical counterpart of `MagnifyX`, with the y axis flipped. */
  lemma MagnifyY(e: real, s: real, f: real, h: real)
    ensures (1.0 - (e * (f * s) + 0.5)) * h - h / 2.0 == f * ((1.0 - (e * s + 0.5)) * h - h / 2.0)
  {
  }

  // ---------------------------------------------------------------------
  // Keyboard pan
  // ---------------------------------------------------------------------

  /**
   * `move_zoomed(dx, dy)` touches only the pan, and shifts the whole picture by
   * `dx` viewport widths to the left and `dy` viewport heights down, whatever the zoom.
   */
  lemma MoveZoomedShiftsPicture(v: View, dx: real, dy: real, p: Point)
    requires ProperBounds(v)
    ensures var r := MoveZoomed(v, dx, dy);
      r == v.(transX := r.transX, transY := r.transY) &&
      TranslatePoint(r, p) == Point(TranslatePoint(v, p).x - dx * v.width,
                                    TranslatePoint(v, p).y + dy * v.height)
  {
    var r := MoveZoomed(v, dx, dy);
    var s := Pow(v.zoom);
    var rel := Normalised(v, p);
    var q := Point(rel.x - v.transX, rel.y - v.transY);
    var shifted := Point(q.x - dx / s, q.y - dy / s);
    assert Normalised(r, p) == rel;
    assert Point(rel.x - r.transX, rel.y - r.transY) == shifted;
    assert TranslatePoint(r, p) == Projected(r, Zoomed(r, shifted));
    assert Projected(r, Zoomed(r, shifted)) == Projected(v, ZoomBy(s, shifted));
    ZoomedShift(s, q, dx, dy);
    ProjectedShift(v, ZoomBy(s, q), dx, dy);
  }

  /** Shifting by `d / s` before zooming by `s` shifts by `d` after. */
  lemma ZoomedShift(s: real, q: Point, dx: real, dy: real)
    requires s != 0.0
    ensures ZoomBy(s, Point(q.x - dx / s, q.y - dy / s)) == Point(ZoomBy(s, q).x - dx, ZoomBy(s, q).y - dy)
  {
    PanShift(q.x, (q.x - 0.5) * s + 0.5, dx, s);
    PanShift(q.y, (q.y - 0.5) * s + 0.5, dy, s);
  }

  /** Shifting a zoomed point by `(dx, dy)` shifts its pixel by `dx` widths left and `dy` heights down. */
  lemma ProjectedShift(v: View, t: Point, dx: real, dy: real)
    ensures Projected(v, Point(t.x - dx, t.y - dy)) ==
      Point(Projected(v, t).x - dx * v.width, Projected(v, t).y + dy * v.height)
  {
  }

  // ---------------------------------------------------------------------
  // Drag to pan
  // ---------------------------------------------------------------------

  /** A drag update touches only the pan, and the pan depends only on the snapshot, the zoom and the size. */
  lemma DragPanOnlyPan(v: View, w: View, start: Point, trans: Point, x: real, y: real)
    requires ProperSize(v) && ProperSize(w)
    requires v.zoom == w.zoom && v.width == w.width && v.height == w.height
    ensures var r := DragPan(v, start, trans, x, y);
      r == v.(transX := r.transX, transY := r.transY) &&
      r.transX == DragPan(w, start, trans, x, y).transX &&
      r.transY == DragPan(w, start, trans, x, y).transY
  {
  }

  /** Repeating a drag update at the same pixel changes nothing more. */
  lemma DragPanIdempotent(v: View, start: Point, trans: Point, x: real, y: real)
    requires ProperSize(v)
    ensures DragPan(DragPan(v, start, trans, x, y), start, trans, x, y) == DragPan(v, start, trans, x, y)
  {
  }

  /** A drag update at the press pixel restores the pan taken at press time. */
  lemma DragPanAtStart(v: View, start: Point, trans: Point)
    requires ProperSize(v)
    ensures DragPan(v, start, trans, start.x, start.y) == v.(transX := trans.x, transY := trans.y)
  {
  }

  /** In zoomed normalised coordinates, the press-time point under `start` lands at the pointer `(x, y)`. */
  lemma DragPanZoomed(v: View, start: Point, trans: Point, x: real, y: real)
    requires ProperSize(v)
    ensures var r, u := DragPan(v, start, trans, x, y), Unzoomed(v, Scaled(v, start));
      Zoomed(r, Point(u.x + trans.x - r.transX, u.y + trans.y - r.transY)) == Scaled(v, Point(x, y))
  {
    var r := DragPan(v, start, trans, x, y);
    var s := Pow(v.zoom);
    var c := Scaled(v, start);
    var u := Unzoomed(v, c);
    var ex, ey := (start.x - x) / v.width, - (start.y - y) / v.height;
    assert Point(u.x + trans.x - r.transX, u.y + trans.y - r.transY) == Point(u.x - ex / s, u.y - ey / s);
    ZoomedShift(s, u, ex, ey);
    ZoomByRoundTrip(s, c);
    // the pan shift cancels the pointer's offset from the press pixel, with the y axis flipped
    DivideDifference(start.x, x, v.width);
    NegateDivide(start.y - y, v.height);
    DivideDifference(start.y, y, v.height);
  }

  /**
   * The data point that was under the press pixel, with the pan of press time,
   * is drawn under the current pixel after the update: the picture follows the pointer.
   */
  lemma DragPanFollowsPointer(v: View, start: Point, trans: Point, x: real, y: real)
    requires ProperBounds(v) && ProperSize(v)
    ensures var pressed := v.(transX := trans.x, transY := trans.y);
      TranslatePoint(DragPan(v, start, trans, x, y), DataPointAt(pressed, start)) == Point(x, y)
  {
    var pressed := v.(transX := trans.x, transY := trans.y);
    var r := DragPan(v, start, trans, x, y);
    var u := Unzoomed(v, Scaled(v, start));
    assert Unzoomed(pressed, Scaled(pressed, start)) == u;
    var q := DataPointAt(pressed, start);
    NormaliseRoundTrip(v, q, Point(u.x + trans.x, u.y + trans.y));
    assert Normalised(r, q) == Point(u.x + trans.x, u.y + trans.y);
    DragPanZoomed(v, start, trans, x, y);
    ScaledRoundTrip(v, Point(0.0, 0.0), Point(x, y));
  }
}
