/**
 * The bounding box of all curves (`pointfn` at draw.py:268-273 and the fold
 * in `PlotWindow.load_lines` at draw.py:152-160).
 */
module Bounds {
  import opened Wrappers
  import opened Geometry
  import opened Lines

  /** `(xmin, ymin, xmax, ymax)`, the four arguments of `set_bounds`. */
  datatype Box = Box(xmin: real, ymin: real, xmax: real, ymax: real)

  /** Python's `min(a, b)`: `a` unless `b` is strictly smaller. */
  function Min(a: real, b: real): real {
    if b < a then b else a
  }

  /** Python's `max(a, b)`: `a` unless `b` is strictly larger. */
  function Max(a: real, b: real): real {
    if b > a then b else a
  }

  /** `pointfn`: combine `fn` componentwise; a missing target (the `None` start) yields `src`. */
  function PointFn(fn: (real, real) -> real, target: Option<Point>, src: Point): Point {
    match target
    case None => src
    case Some(t) => Point(fn(t.x, src.x), fn(t.y, src.y))
  }

  /** Every point of every curve, curve by curve, in the order `load_lines` visits them. */
  function AllPoints(lines: seq<Line>): seq<Point> {
    if lines == [] then [] else AllPoints(lines[..|lines| - 1]) + lines[|lines| - 1].points
  }

  predicate Inside(b: Box, p: Point) {
    b.xmin <= p.x <= b.xmax && b.ymin <= p.y <= b.ymax
  }

  /** Each side of the box is some point's coordinate. */
  predicate Attained(b: Box, pts: seq<Point>) {
    (exists p :: p in pts && p.x == b.xmin) && (exists p :: p in pts && p.y == b.ymin) &&
    (exists p :: p in pts && p.x == b.xmax) && (exists p :: p in pts && p.y == b.ymax)
  }

  /** `b` is the smallest box around `pts`: it holds them all and each side touches one. */
  predicate TightBox(b: Box, pts: seq<Point>) {
    b.xmin <= b.xmax && b.ymin <= b.ymax &&
    (forall p :: p in pts ==> Inside(b, p)) && Attained(b, pts)
  }

  /** The accumulators `pmin`, `pmax` after folding `seen`. */
  predicate Folded(pmin: Option<Point>, pmax: Option<Point>, seen: seq<Point>) {
    (seen == [] <==> pmin.None?) && (seen == [] <==> pmax.None?) &&
    (seen != [] ==> TightBox(Box(pmin.value.x, pmin.value.y, pmax.value.x, pmax.value.y), seen))
  }

  /** One step of the fold keeps `pmin`, `pmax` the componentwise min and max of what has been seen. */
  lemma FoldStep(pmin: Option<Point>, pmax: Option<Point>, seen: seq<Point>, p: Point)
    requires Folded(pmin, pmax, seen)
    ensures Folded(Some(PointFn(Min, pmin, p)), Some(PointFn(Max, pmax, p)), seen + [p])
  {
    var lo, hi := PointFn(Min, pmin, p), PointFn(Max, pmax, p);
    var b := Box(lo.x, lo.y, hi.x, hi.y);
    var all := seen + [p];
    assert p in all;
    if seen != [] {
      var b0 := Box(pmin.value.x, pmin.value.y, pmax.value.x, pmax.value.y);
      forall q | q in all ensures Inside(b, q) {
        if q in seen { assert Inside(b0, q); }
      }
      assert Attained(b0, seen);
      var qx :| qx in seen && qx.x == b0.xmin;
      var qy :| qy in seen && qy.y == b0.ymin;
      var rx :| rx in seen && rx.x == b0.xmax;
      var ry :| ry in seen && ry.y == b0.ymax;
      assert qx in all && qy in all && rx in all && ry in all;
    } else {
      assert all == [p];
    }
  }

  /** Visiting one more curve appends its points. */
  lemma AllPointsStep(lines: seq<Line>, i: nat)
    requires i < |lines|
    ensures AllPoints(lines[..i + 1]) == AllPoints(lines[..i]) + lines[i].points
  {
    assert lines[..i + 1][..i] == lines[..i];
  }

  /** A point lies in `AllPoints(lines)` exactly when it lies on one of the curves. */
  lemma {:induction false} AllPointsMembers(lines: seq<Line>, p: Point)
    ensures p in AllPoints(lines) <==> exists k :: 0 <= k < |lines| && p in lines[k].points
  {
    if lines != [] {
      var front := lines[..|lines| - 1];
      AllPointsMembers(front, p);
      if p in AllPoints(lines) && p !in lines[|lines| - 1].points {
        var k :| 0 <= k < |front| && p in front[k].points;
        assert lines[k] == front[k];
      }
      if p !in AllPoints(lines) {
        forall k | 0 <= k < |lines| ensures p !in lines[k].points {
          if k < |front| { assert lines[k] == front[k]; }
        }
      }
    }
  }

  /** `pointfn(fn, ...)` folded over `pts` from the `None` start, as `load_lines` does. */
  function Fold(fn: (real, real) -> real, pts: seq<Point>): Option<Point> {
    if pts == [] then None else Some(PointFn(fn, Fold(fn, pts[..|pts| - 1]), pts[|pts| - 1]))
  }

  /** Folding one more point applies `pointfn` once more. */
  lemma FoldSnoc(fn: (real, real) -> real, pts: seq<Point>, p: Point)
    ensures Fold(fn, pts + [p]) == Some(PointFn(fn, Fold(fn, pts), p))
  {
    assert (pts + [p])[..|pts|] == pts;
  }

  /** Folding `min` and `max` gives nothing for no points and the tightest box otherwise. */
  lemma {:induction false} FoldIsTight(pts: seq<Point>)
    ensures Folded(Fold(Min, pts), Fold(Max, pts), pts)
  {
    if pts != [] {
      var front := pts[..|pts| - 1];
      FoldIsTight(front);
      FoldStep(Fold(Min, front), Fold(Max, front), front, pts[|pts| - 1]);
      assert front + [pts[|pts| - 1]] == pts;
    }
  }

  /**
   * The inner loop of `load_lines`, over one curve's points: continues the
   * `min` and `max` folds that have already absorbed `before`.
   */
  method FoldLine(pmin: Option<Point>, pmax: Option<Point>, points: seq<Point>, ghost before: seq<Point>)
    returns (lo: Option<Point>, hi: Option<Point>)
    requires pmin == Fold(Min, before) && pmax == Fold(Max, before)
    ensures lo == Fold(Min, before + points) && hi == Fold(Max, before + points)
  {
    lo, hi := pmin, pmax;
    assert before + points[..0] == before;
    for j := 0 to |points|
      invariant lo == Fold(Min, before + points[..j]) && hi == Fold(Max, before + points[..j])
    {
      FoldExtend(Min, before, points, j);
      FoldExtend(Max, before, points, j);
      lo := Some(PointFn(Min, lo, points[j]));
      hi := Some(PointFn(Max, hi, points[j]));
    }
    assert points[..|points|] == points;
  }

  /** Extending the folded prefix of `points` by one point applies `pointfn` once more. */
  lemma FoldExtend(fn: (real, real) -> real, before: seq<Point>, points: seq<Point>, j: nat)
    requires j < |points|
    ensures Fold(fn, before + points[..j + 1]) == Some(PointFn(fn, Fold(fn, before + points[..j]), points[j]))
  {
    assert before + points[..j + 1] == (before + points[..j]) + [points[j]];
    FoldSnoc(fn, before + points[..j], points[j]);
  }

  /**
   * The loops of `load_lines`: fold `pointfn(min, ...)` and `pointfn(max, ...)`
   * over every point. No points give `None` (the source's `None` bounds);
   * otherwise the result is the tightest box around all the points.
   */
  method LinesBounds(lines: seq<Line>) returns (box: Option<Box>)
    ensures box.None? <==> AllPoints(lines) == []
    ensures box.Some? ==> TightBox(box.value, AllPoints(lines))
  {
    var pmin: Option<Point> := None;
    var pmax: Option<Point> := None;
    for i := 0 to |lines|
      invariant pmin == Fold(Min, AllPoints(lines[..i])) && pmax == Fold(Max, AllPoints(lines[..i]))
    {
      pmin, pmax := FoldLine(pmin, pmax, lines[i].points, AllPoints(lines[..i]));
      AllPointsStep(lines, i);
    }
    assert lines[..|lines|] == lines;
    FoldIsTight(AllPoints(lines));
    if pmin.None? || pmax.None? {
      box := None;
    } else {
      box := Some(Box(pmin.value.x, pmin.value.y, pmax.value.x, pmax.value.y));
    }
  }
}
