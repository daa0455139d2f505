/**
 * `PlotWindow` (draw.py:140-266) with its windowing stripped away: the curves it
 * holds, the drawer it owns, loading curves, the keyboard's pan and zoom
 * actions, the key table and the wheel's direction rule.
 */
module Window {
  import opened Wrappers
  import opened Geometry
  import opened ViewTransform
  import opened Lines
  import opened Bounds
  import opened Drawer

  /** The keys of the key table; every other key code is `OtherKey`. */
  datatype Key = Escape | KeyQ | Up | KeyK | Down | KeyJ | Left | KeyH | Right | KeyL
               | Plus | Equal | Minus | KeyR | KeyW | OtherKey(code: int)

  /** The named actions of the action table. */
  datatype Action = Exit | MoveUp | MoveDown | MoveLeft | MoveRight | ZoomIn | ZoomOut | Reset | QuickSave

  /** `keymap`: arrows and h/j/k/l pan, +/=/- zoom, r resets, w saves, Escape and q quit. */
  const KeyMap: map<Key, Action> := map[
    Escape := Exit, KeyQ := Exit,
    Up := MoveUp, KeyK := MoveUp,
    Down := MoveDown, KeyJ := MoveDown,
    Left := MoveLeft, KeyH := MoveLeft,
    Right := MoveRight, KeyL := MoveRight,
    Plus := ZoomIn, Equal := ZoomIn, Minus := ZoomOut,
    KeyR := Reset, KeyW := QuickSave]

  /** `keymap.get(key, None)`: the action bound to a key, if any. */
  function ActionFor(k: Key): (r: Option<Action>)
    ensures r.None? <==> k.OtherKey?
    ensures r == Some(MoveUp) <==> k == Up || k == KeyK
    ensures r == Some(MoveDown) <==> k == Down || k == KeyJ
    ensures r == Some(MoveLeft) <==> k == Left || k == KeyH
    ensures r == Some(MoveRight) <==> k == Right || k == KeyL
    ensures r == Some(ZoomIn) <==> k == Plus || k == Equal
    ensures r == Some(ZoomOut) <==> k == Minus
    ensures r == Some(Reset) <==> k == KeyR
    ensures r == Some(Exit) <==> k == Escape || k == KeyQ
    ensures r == Some(QuickSave) <==> k == KeyW
  {
    if k in KeyMap then Some(KeyMap[k]) else None
  }

  /** `(y > 0) - (y < 0)` at draw.py:214: the sign of the wheel's vertical angle. */
  function WheelDirection(angleY: int): (d: int)
    ensures -1 <= d <= 1
    ensures d == 0 <==> angleY == 0
    ensures d * angleY >= 0
  {
    (if angleY > 0 then 1 else 0) - (if angleY < 0 then 1 else 0)
  }

  /** `modify_tr`: a keyboard pan of `(x, y)` steps of `TRANS_DELTA`. */
  function KeyboardPan(v: View, x: real, y: real): View {
    MoveZoomed(v, x * TransDelta, y * TransDelta)
  }

  /** What an action of the action table does to the view; closing and saving leave it as it is. */
  function ActionEffect(v: View, a: Action): View {
    match a
    case MoveUp => KeyboardPan(v, 0.0, 1.0)
    case MoveDown => KeyboardPan(v, 0.0, -1.0)
    case MoveLeft => KeyboardPan(v, -1.0, 0.0)
    case MoveRight => KeyboardPan(v, 1.0, 0.0)
    case ZoomIn => ModifyZoom(v, 1)
    case ZoomOut => ModifyZoom(v, -1)
    case Reset => v.(transX := 0.0, transY := 0.0, zoom := 0)
    case Exit => v
    case QuickSave => v
  }

  /** The action that undoes a pan or zoom key. */
  function Opposite(a: Action): Action {
    match a
    case MoveUp => MoveDown
    case MoveDown => MoveUp
    case MoveLeft => MoveRight
    case MoveRight => MoveLeft
    case ZoomIn => ZoomOut
    case ZoomOut => ZoomIn
    case other => other
  }

  /** Pressing a pan or zoom key and then its opposite returns to exactly the view before. */
  lemma OppositeActionsCancel(v: View, a: Action)
    requires a in {MoveUp, MoveDown, MoveLeft, MoveRight, ZoomIn, ZoomOut}
    ensures ActionEffect(ActionEffect(v, a), Opposite(a)) == v
  {
    var s := Pow(v.zoom);
    assert TransDelta / s - TransDelta / s == 0.0;
  }

  /** Reset is idempotent and, after any other action, gives the same view as reset alone. */
  lemma ResetForgetsHistory(v: View, a: Action)
    ensures ActionEffect(ActionEffect(v, a), Reset) == ActionEffect(v, Reset)
    ensures ActionEffect(ActionEffect(v, Reset), Reset) == ActionEffect(v, Reset)
  {
  }

  class PlotWindow {
    const drawer: PlotDrawer
    var lines: seq<Line>

    /**
     * `__init__`: a fresh drawer sized to the widget (`width` by `height`), the
     * curves loaded and the view reset.
     */
    constructor (raw: seq<seq<Point>>, width: real, height: real)
      ensures fresh(drawer)
      ensures lines == seq(|raw|, i requires 0 <= i < |raw| => NewLine(raw[i]))
      ensures drawer.width == width && drawer.height == height
      ensures drawer.transX == 0.0 && drawer.transY == 0.0 && drawer.zoom == 0
      ensures AllPoints(lines) != [] ==>
        TightBox(Box(drawer.xmin, drawer.ymin, drawer.xmax, drawer.ymax), AllPoints(lines))
      ensures AllPoints(lines) == [] ==>
        drawer.xmin == 0.0 && drawer.ymin == 0.0 && drawer.xmax == 1.0 && drawer.ymax == 1.0
    {
      drawer := new PlotDrawer();
      lines := [];
      new;
      drawer.SetSize(width, height);
      LoadLines(raw);
      ResetView();
    }

    /** `reset_view`: delegate to the drawer. */
    method ResetView()
      modifies drawer
      ensures drawer.State() == old(drawer.State()).(transX := 0.0, transY := 0.0, zoom := 0)
    {
      drawer.ResetView();
    }

    /**
     * `load_lines`: wrap each point list as a `Line`, keep them, and set the
     * drawer's bounds to the tightest box around all their points. With no
     * points at all the source hands `None` bounds to the drawer; the model
     * leaves the drawer as it was.
     */
    method LoadLines(raw: seq<seq<Point>>)
      modifies this, drawer
      ensures lines == seq(|raw|, i requires 0 <= i < |raw| => NewLine(raw[i]))
      ensures AllPoints(lines) != [] ==>
        TightBox(Box(drawer.xmin, drawer.ymin, drawer.xmax, drawer.ymax), AllPoints(lines)) &&
        drawer.State() == old(drawer.State()).(xmin := drawer.xmin, ymin := drawer.ymin,
                                               xmax := drawer.xmax, ymax := drawer.ymax)
      ensures AllPoints(lines) == [] ==> drawer.State() == old(drawer.State())
    {
      lines := seq(|raw|, i requires 0 <= i < |raw| => NewLine(raw[i]));
      var box := LinesBounds(lines);
      if box.Some? {
        drawer.SetBounds(box.value.xmin, box.value.ymin, box.value.xmax, box.value.ymax);
      }
    }

    /** `modify_tr`: pan by `(x, y)` keyboard steps. */
    method ModifyTr(x: real, y: real)
      modifies drawer
      ensures drawer.State() == KeyboardPan(old(drawer.State()), x, y)
    {
      drawer.MoveZoomed(x * TransDelta, y * TransDelta);
    }

    /** `modify_zoom`: change the zoom exponent by `z`, about the viewport centre (`ModifyZoomIsCentredZoom`). */
    method ModifyZoom(z: int)
      modifies drawer
      ensures drawer.State() == ViewTransform.ModifyZoom(old(drawer.State()), z)
    {
      drawer.zoom := drawer.zoom + z;
    }

    /** `actionmap[action](self)` for the actions that change the view. */
    method Perform(a: Action)
      modifies drawer
      ensures drawer.State() == ActionEffect(old(drawer.State()), a)
    {
      match a
      case MoveUp => ModifyTr(0.0, 1.0);
      case MoveDown => ModifyTr(0.0, -1.0);
      case MoveLeft => ModifyTr(-1.0, 0.0);
      case MoveRight => ModifyTr(1.0, 0.0);
      case ZoomIn => ModifyZoom(1);
      case ZoomOut => ModifyZoom(-1);
      case Reset => ResetView();
      case Exit =>
      case QuickSave =>
    }
  }
}
