/**
 * `PlotDrawer` and `PlotDrawerDrag` (draw.py:28-138): the view state that the
 * window's event handlers update in place, and the path commands a curve is
 * turned into. Painting itself (`draw_line`, `draw_lines`) is not modelled.
 */
module Drawer {
  import opened Geometry
  import opened ViewTransform
  import opened Lines

  /** The `QPainterPath` calls `path` makes, in order. */
  datatype Command = MoveTo(to: Point) | LineTo(to: Point) | AddEllipse(x: real, y: real, w: real, h: real)

  /** The ellipse `path` adds for a dot: always the rectangle (-5, -5, 10, 10), wherever the dot is. */
  const DotEllipse: Command := AddEllipse(-5.0, -5.0, 10.0, 10.0)

  class PlotDrawer {
    var xmin: real
    var ymin: real
    var xmax: real
    var ymax: real
    var width: real
    var height: real
    var transX: real
    var transY: real
    var zoom: int

    /** The drawer's fields as one value, the argument of the pure view maps. */
    function State(): View
      reads this
    {
      View(xmin, ymin, xmax, ymax, width, height, transX, transY, zoom)
    }

    /** `__init__`: the default view, unit bounds and a 100x100 viewport. */
    constructor ()
      ensures State() == View(0.0, 0.0, 1.0, 1.0, 100.0, 100.0, 0.0, 0.0, 0)
    {
      transX, transY, zoom := 0.0, 0.0, 0;
      xmin, ymin := 0.0, 0.0;
      xmax, ymax := 1.0, 1.0;
      width, height := 100.0, 100.0;
    }

    /** `drag`: start a drag session at the press pixel `(x, y)`. */
    method Drag(x: real, y: real) returns (d: PlotDrawerDrag)
      ensures fresh(d)
      ensures d.drawer == this && d.start == Point(x, y) && d.trans == Point(transX, transY)
    {
      d := new PlotDrawerDrag(this, x, y);
    }

    /** `reset_view`: no pan and no zoom, from any state; bounds and size untouched. */
    method ResetView()
      modifies this
      ensures State() == old(State()).(transX := 0.0, transY := 0.0, zoom := 0)
    {
      transX := 0.0;
      transY := 0.0;
      zoom := 0;
    }

    /** `set_bounds`: replace the bounds; pan, zoom and size untouched. */
    method SetBounds(xmin': real, ymin': real, xmax': real, ymax': real)
      modifies this
      ensures State() == old(State()).(xmin := xmin', ymin := ymin', xmax := xmax', ymax := ymax')
    {
      xmin := xmin';
      ymin := ymin';
      xmax := xmax';
      ymax := ymax';
    }

    /** `set_size`: replace the viewport size; bounds, pan and zoom untouched. */
    method SetSize(width': real, height': real)
      modifies this
      ensures State() == old(State()).(width := width', height := height')
    {
      width := width';
      height := height';
    }

    /**
     * `zoom_to_point`: zoom by `direction` steps about the pixel `point`.
     * `ViewTransform.ZoomToPointKeepsCursor` and `ZoomToPointFixesDataPoint`
     * state what the new state means.
     */
    method ZoomToPoint(direction: int, point: Point)
      requires ProperSize(State())
      modifies this
      ensures State() == ViewTransform.ZoomToPoint(old(State()), direction, point)
    {
      var s := Scaled(State(), point);
      var o := Unzoomed(State(), s);
      zoom := zoom + direction;
      var n := Unzoomed(State(), s);
      transX := transX + (o.x - n.x);
      transY := transY + (o.y - n.y);
    }

    /**
     * `move_zoomed`: pan by `(dx, dy)` divided by the current scale;
     * `ViewTransform.MoveZoomedShiftsPicture` states what that does to the picture.
     */
    method MoveZoomed(dx: real, dy: real)
      modifies this
      ensures State() == ViewTransform.MoveZoomed(old(State()), dx, dy)
    {
      transX := transX + dx / Pow(zoom);
      transY := transY + dy / Pow(zoom);
    }

    /**
     * `path`: the commands that draw `line`. A polyline is one `MoveTo` to its
     * first point and a `LineTo` to each later point; dots are a `MoveTo` and
     * the fixed ellipse for every point; no points, no commands.
     */
    method Path(line: Line) returns (cmds: seq<Command>)
      requires ProperBounds(State())
      ensures line.style == Polyline ==> |cmds| == |line.points|
      ensures line.style == Polyline ==> forall i :: 0 <= i < |line.points| ==>
        cmds[i] == if i == 0 then MoveTo(TranslatePoint(State(), line.points[i]))
                   else LineTo(TranslatePoint(State(), line.points[i]))
      ensures line.style == Dots ==> |cmds| == 2 * |line.points|
      ensures line.style == Dots ==> forall i :: 0 <= i < |line.points| ==>
        cmds[2 * i] == MoveTo(TranslatePoint(State(), line.points[i])) && cmds[2 * i + 1] == DotEllipse
    {
      var isFirst := true;
      cmds := [];
      for i := 0 to |line.points|
        invariant isFirst <==> i == 0
        invariant line.style == Polyline ==> |cmds| == i
        invariant line.style == Polyline ==> forall k :: 0 <= k < i ==>
          cmds[k] == if k == 0 then MoveTo(TranslatePoint(State(), line.points[k]))
                     else LineTo(TranslatePoint(State(), line.points[k]))
        invariant line.style == Dots ==> |cmds| == 2 * i
        invariant line.style == Dots ==> forall k :: 0 <= k < i ==>
          cmds[2 * k] == MoveTo(TranslatePoint(State(), line.points[k])) && cmds[2 * k + 1] == DotEllipse
      {
        var q := TranslatePoint(State(), line.points[i]);
        if isFirst || line.style == Dots {
          cmds := cmds + [MoveTo(q)];
        } else {
          cmds := cmds + [LineTo(q)];
        }
        if line.style == Dots {
          cmds := cmds + [DotEllipse];
        }
        isFirst := false;
      }
    }
  }

  /** A drag session: the press pixel and the pan at press time, and the drawer it pans. */
  class PlotDrawerDrag {
    const drawer: PlotDrawer
    const start: Point
    const trans: Point

    /** `__init__`: snapshot the press pixel and the drawer's current pan. */
    constructor (drawer: PlotDrawer, x: real, y: real)
      ensures this.drawer == drawer && start == Point(x, y)
      ensures trans == Point(drawer.transX, drawer.transY)
    {
      this.drawer := drawer;
      start := Point(x, y);
      trans := Point(drawer.transX, drawer.transY);
    }

    /**
     * `update`: recompute the drawer's pan from the snapshot for the pointer
     * at `(x, y)`. The `DragPan` lemmas in `ViewTransform` state that this is
     * idempotent, restores the press-time pan at the press pixel, touches only
     * the pan, and keeps the grabbed point under the pointer.
     */
    method Update(x: real, y: real)
      requires ProperSize(drawer.State())
      modifies drawer
      ensures drawer.State() == DragPan(old(drawer.State()), start, trans, x, y)
    {
      var sx, sy := start.x, start.y;
      var tx, ty := trans.x, trans.y;
      var rdx := (sx - x) / drawer.width / Pow(drawer.zoom);
      var rdy := - (sy - y) / drawer.height / Pow(drawer.zoom);
      drawer.transX := tx + rdx;
      drawer.transY := ty + rdy;
    }
  }
}
