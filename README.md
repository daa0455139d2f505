# Plot viewer view transform, in Dafny

A model of the core of `draw.py`, a small PyQt plot viewer. It reads `x y`
pairs from standard input, keeps them as curves, and draws them in a window
that can be panned and zoomed.

The model covers these parts:

- **`Geometry`**: points, the constants `ZOOM_FACTOR = 1.2` and `TRANS_DELTA = 0.2`, and the scale `ZOOM_FACTOR ** zoom` for every integer exponent.
- **`ViewTransform`**: the drawer's state as one `View` value, with the pure maps of `PlotDrawer`.
  - `translate_point`, `zoomed`, `unzoomed` and `scaled`.
  - The state changes of `zoom_to_point`, `move_zoomed`, `modify_zoom` and `PlotDrawerDrag.update`.
  - Lemmas about what these maps mean.
- **`Lines`**: `Line.__init__`.
- **`Bounds`**: `pointfn`, plus the two nested loops of `load_lines` that fold `min` and `max` over every point.
- **`Drawer`**: the classes `PlotDrawer` and `PlotDrawerDrag`, whose methods update the drawer's fields in place. `path` is a method that returns the list of path commands it would issue.
- **`Window`**: `PlotWindow` without its Qt widget.
  - Its curves and drawer, `load_lines`, `reset_view`, `modify_tr` and `modify_zoom`.
  - The key table as a map, the action table's effect on the view, and the wheel's sign rule.
- **`InputFilter`**: the input loop of `main`.
  - It cuts each line at `#` and strips whitespace the way Python's `str.strip` does.
  - It skips blank lines and splits the rest as `str.split` does.
  - Each kept line must give exactly two numbers. Number conversion (`float`) is a parameter.

The view transform of `PlotDrawer` works in four steps:

1. Normalise the data point by the bounds.
2. Subtract the pan.
3. Scale about the centre 0.5 by `1.2 ** zoom`.
4. Stretch over the viewport, with the y axis flipped.

The main results state how these steps fit together:

- Every step is undone by its inverse, so a pixel maps back to the data point drawn there.
- A wheel zoom keeps the data point under the cursor fixed.
- A keyboard zoom is a wheel zoom at the viewport centre, and it moves every drawn point 1.2 times as far from the centre.
- A keyboard pan shifts the whole picture by a fixed fraction of the viewport, whatever the zoom.
- A drag update is idempotent, touches only the pan, and keeps the grabbed data point under the pointer.
- The bounds fold gives the tightest box around all points, with each side touched by some point.

`translate_point` (draw.py:56-57) divides by `xmax - xmin` and `ymax - ymin` with no guard for a flat axis, so a plot whose points all share an x or a y coordinate divides by zero. The model keeps that behaviour: every member that normalises requires `ProperBounds` (both spans non-zero). Members that divide by the viewport size require `ProperSize` (draw.py:75, 135-136).

`path` (draw.py:109) adds the ellipse `(-5, -5, 10, 10)` for every dot. That rectangle is fixed, so every dot's circle is drawn around the painter's origin, not around the dot. `Drawer.DotEllipse` keeps this literal on purpose: it is the code's own behaviour.

## Model

| member | source | states |
|---|---|---|
| Geometry.Pow | draw.py:63 | `ZOOM_FACTOR ** z` is positive for every integer exponent, negative ones included |
| Geometry.PowStep | draw.py:8 | each zoom step multiplies the scale by exactly `ZOOM_FACTOR`, at every level |
| ViewTransform.ZoomRoundTrip | draw.py:61-71 | `unzoomed` undoes `zoomed`, and `zoomed` undoes `unzoomed`, at every zoom level |
| ViewTransform.ZoomByRoundTrip | draw.py:63-70 | scaling about the pivot 0.5 by `s` and by `1/s` cancel in either order, for any non-zero `s` |
| ViewTransform.ScaledRoundTrip | draw.py:59-75 | `scaled` inverts the final pixel step of `translate_point`, and the other way round |
| ViewTransform.NormaliseRoundTrip | draw.py:56-57 | normalising by non-degenerate bounds is a bijection onto normalised space |
| ViewTransform.TranslateRoundTrip | draw.py:54-75 | reading back the data point under the pixel where a point is drawn gives that point again |
| ViewTransform.DataPointRoundTrip | draw.py:54-75 | the data point read back from a pixel is drawn at exactly that pixel |
| ViewTransform.DefaultViewCorners | draw.py:54-59 | with no pan and no zoom, the bounds' lower-left corner is drawn at the bottom-left pixel and the upper-right corner at the top-right pixel |
| ViewTransform.DefaultViewIsNormalised | draw.py:54-65 | with no pan and no zoom, a point is drawn at its normalised position stretched over the viewport |
| ViewTransform.DefaultViewExample | draw.py:54-59 | bounds 0..10 in an 800x600 viewport map (0,0) to (0,600), (10,10) to (800,0) and (5,5) to (400,300) |
| ViewTransform.ZoomToPointKeepsCursor | draw.py:77-83 | `zoom_to_point(d, pixel)` changes the zoom by exactly `d`, changes nothing but zoom and pan, and keeps `unzoomed(scaled(pixel)) + trans` as it was |
| ViewTransform.ZoomToPointFixesDataPoint | draw.py:77-83 | the data point under the cursor before a wheel zoom is the one under it after, and it is drawn at the cursor pixel |
| ViewTransform.ModifyZoomIsCentredZoom | draw.py:169-170 | `modify_zoom(z)` gives the same state as `zoom_to_point(z, centre pixel)` |
| ViewTransform.ZoomStepMagnifies | draw.py:169-170 | after `modify_zoom(1)` every drawn point is 1.2 times as far from the viewport centre, on both axes |
| ViewTransform.MoveZoomedShiftsPicture | draw.py:122-124 | `move_zoomed(dx, dy)` changes only the pan, and shifts every drawn point by `dx` widths left and `dy` heights down, at any zoom |
| ViewTransform.DragPanOnlyPan | draw.py:132-138 | a drag update changes only the pan, and the new pan depends only on the snapshot, the zoom and the viewport size |
| ViewTransform.DragPanIdempotent | draw.py:132-138 | a second drag update at the same pixel changes nothing |
| ViewTransform.DragPanAtStart | draw.py:132-138 | a drag update at the press pixel restores the pan of press time |
| ViewTransform.DragPanFollowsPointer | draw.py:126-138 | the data point under the press pixel at press time is drawn under the current pointer pixel after the update |
| Lines.NewLineFacts | draw.py:12-19 | a new line keeps its points and their count; it is `LINE` exactly when it has more than 3 points and `DOTS` otherwise; its color is `#000000` and its width 4 |
| Bounds.FoldStep | draw.py:158-159 | one `pointfn(min)`/`pointfn(max)` step keeps the accumulators the tight box of the points seen; from the `None` start, the box is the point itself |
| Bounds.FoldSnoc | draw.py:158-159 | folding one more point applies `pointfn` once more to the fold so far |
| Bounds.FoldIsTight | draw.py:155-159 | folding min and max gives `None` for no points and otherwise the tightest box, each side touched by a point |
| Bounds.AllPointsMembers | draw.py:156-157 | the nested loops visit exactly the points that lie on some curve |
| Bounds.FoldLine | draw.py:157-159 | the inner loop continues both folds over one curve's points |
| Bounds.LinesBounds | draw.py:155-159 | the result is `None` exactly when there are no points; otherwise it is the tightest box around all points of all curves |
| Drawer.PlotDrawer.constructor | draw.py:29-34 | a new drawer has no pan and no zoom, unit bounds and a 100x100 viewport |
| Drawer.PlotDrawer.Drag | draw.py:36-37 | `drag` starts a new session bound to this drawer, at the press pixel, with the current pan |
| Drawer.PlotDrawer.ResetView | draw.py:39-42 | pan and zoom become 0; bounds and size are unchanged |
| Drawer.PlotDrawer.SetBounds | draw.py:44-48 | the bounds are replaced; nothing else changes |
| Drawer.PlotDrawer.SetSize | draw.py:50-52 | the viewport size is replaced; nothing else changes |
| Drawer.PlotDrawer.ZoomToPoint | draw.py:77-83 | the new state is the cursor zoom of the old state, whose meaning `ZoomToPointKeepsCursor` and `ZoomToPointFixesDataPoint` state |
| Drawer.PlotDrawer.MoveZoomed | draw.py:122-124 | the pan grows by `(dx, dy)` divided by the current scale; nothing else changes |
| Drawer.PlotDrawer.Path | draw.py:98-111 | a polyline gives one `moveTo` to its first pixel and a `lineTo` to each later one; dots give a `moveTo` plus the fixed ellipse (-5,-5,10,10) per point; each target is the point's `translate_point` |
| Drawer.PlotDrawerDrag.constructor | draw.py:127-130 | a session records its drawer, the press pixel and the drawer's pan at press time |
| Drawer.PlotDrawerDrag.Update | draw.py:132-138 | the drawer's pan becomes the press-time pan plus the pointer offset divided by size and scale; nothing else changes |
| Window.ActionFor | draw.py:238-254 | the key table binds exactly arrows and h/j/k/l to the four pans, + and = to zoom in, - to zoom out, r to reset, Escape and q to exit, w to quick-save, and no other key code |
| Window.WheelDirection | draw.py:214 | the wheel direction is -1, 0 or 1, is 0 exactly when the angle is 0, and has the angle's sign |
| Window.OppositeActionsCancel | draw.py:256-263 | a pan or zoom key followed by its opposite restores the view exactly |
| Window.ResetForgetsHistory | draw.py:264 | reset is idempotent, and after any action it gives the same view as reset alone |
| Window.PlotWindow.constructor | draw.py:141-147 | a new window holds the curves as lines, has the widget's size, no pan and no zoom, and bounds tight around all points |
| Window.PlotWindow.ResetView | draw.py:149-150 | the window's reset is the drawer's reset |
| Window.PlotWindow.LoadLines | draw.py:152-160 | every point list becomes a `Line`; with points, the drawer's bounds become their tightest box and nothing else changes |
| Window.PlotWindow.ModifyTr | draw.py:166-167 | a keyboard pan is `move_zoomed` by `(x, y)` steps of `TRANS_DELTA` |
| Window.PlotWindow.ModifyZoom | draw.py:169-170 | the zoom exponent changes by `z`; nothing else changes |
| Window.PlotWindow.Perform | draw.py:256-266 | each action of the action table has its view effect: the four pans, zoom in and out, and reset |
| InputFilter.BeforeHashFacts | draw.py:278 | `split('#', maxsplit=1)[0]` is the longest prefix of the line without `#` |
| InputFilter.TrimLeftFacts | draw.py:278 | `lstrip` drops exactly the leading whitespace |
| InputFilter.TrimRightFacts | draw.py:278 | `rstrip` drops exactly the trailing whitespace |
| InputFilter.StripFacts | draw.py:278 | `strip` keeps one contiguous piece with no whitespace at either end and drops only whitespace |
| InputFilter.CleanFacts | draw.py:278-279 | a cleaned line is empty or non-empty, free of `#` and without whitespace at either end |
| InputFilter.KeptFacts | draw.py:277-280 | every line that survives the blank-line skip is tidy |
| InputFilter.KeptPrefix | draw.py:277-280 | the lines kept from a prefix of the input are a prefix of those kept from all of it |
| InputFilter.WordFacts | draw.py:281 | a token is the longest prefix without whitespace |
| InputFilter.TokensArePieces | draw.py:281 | `split()` gives exactly the non-empty pieces of the line cut at every whitespace character, in order |
| InputFilter.TokensFacts | draw.py:281 | `split()` yields only non-empty tokens without whitespace |
| InputFilter.ReadPoints | draw.py:276-282 | the input is rejected exactly when some kept line does not split into two numbers; otherwise it gives one point per kept line, in order |

## Left out

- Painting is not modelled because it is Qt rendering: `draw_line`, `draw_lines`, the `QColor` fallback to black, the pen and brush, and the white background rectangle.
- `quicksave` and `save_svg` are not modelled because they open a file dialog and write SVG. In the model the quick-save action leaves the view unchanged.
- The exit action (`QWidget.close`) is not modelled, because closing a window is a Qt call. In the model it leaves the view unchanged.
- The Qt event handlers are not modelled; they are Qt plumbing.
  - This covers `keyPressEvent`, `wheelEvent`, `mousePressEvent`, `mouseMoveEvent`, `mouseReleaseEvent`, `paintEvent` and `resizeEvent`.
  - It also covers the window's `drag` field and `update_size` (one `set_size` with the widget's size).
  - Each handler's effect is the model's `Perform`, `ZoomToPoint` with `WheelDirection`, `Drag` and `PlotDrawerDrag.Update`.
- `Line.as_line` and `Line.__iter__` are not modelled: `load_lines` is given point lists, and a curve's points are its `points` field.
- Reading standard input and the `float` conversion are not modelled. The input is a sequence of lines, and `float` is the parameter `toReal`. Creating the application and window in `main` is left out.
- Arithmetic uses exact reals, not IEEE doubles, so rounding, NaN and infinities are not modelled. The viewport size is a real number, while Qt gives integers.
- `IsSpace`: treats as whitespace exactly the characters that Python's `str.isspace` accepts. No other Unicode handling appears.
- `Bounds.PointFn`: models the accumulator as an `Option<Point>` rather than a pair with two `None` parts. The source only ever passes `(None, None)` or a full pair.
- `Window.PlotWindow.LoadLines`: when there are no points at all, the source calls `set_bounds(None, None, None, None)`, and the next paint then fails. The model leaves the drawer's bounds as they were.
- `ViewTransform.ProperBounds` is required wherever `translate_point` runs, because draw.py:56-57 divide by the bounds' spans unguarded; the model does not give a flat axis any meaning.
