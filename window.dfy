/**
 * Window geometry and root state of a PygameGUI window (`WindowParams`).
 *
 * The three geometry fields `_window_width`, `_window_height` and
 * `_window_size` are three views over one pair of numbers: every setter
 * writes one view and re-derives the others, so that, with the size always
 * given as a pair of integers, `size == (width, height)` holds after any
 * setter, in any order. The `window_root` setter stores the
 * new root and mirrors it into the displayer's `main`.
 *
 * The geometry is first described as a value (`Geometry`, `Apply`, `Run`),
 * which is what the lemmas talk about; the class `WindowParams` then keeps
 * the fields and its setter methods are tied to `Apply`.
 */
module Window {

  /** The abstract value of the three geometry fields. */
  datatype Geometry = Geometry(width: int, height: int, size: (int, int))

  /** The invariant the setters keep: the size pair is (width, height). */
  predicate Synced(g: Geometry) {
    g.size == (g.width, g.height)
  }

  const DefaultWidth: int := 500
  const DefaultHeight: int := 500

  /** The class-level defaults; the size is built from the other two. */
  const Defaults: Geometry := Geometry(DefaultWidth, DefaultHeight, (DefaultWidth, DefaultHeight))

  /** One call of a geometry property setter. */
  datatype Setter =
    | SetWidth(w: int)
    | SetHeight(h: int)
    | SetSize(s: (int, int))

  /**
   * The effect of one setter call. Each setter writes its own view and
   * recomputes the others from it, so the result is synced whatever the
   * state it started from.
   */
  function Apply(g: Geometry, op: Setter): (r: Geometry)
    ensures Synced(r)
    ensures op.SetWidth? ==> r.width == op.w && r.height == g.height
    ensures op.SetHeight? ==> r.height == op.h && r.width == g.width
    ensures op.SetSize? ==> r.size == op.s
  {
    match op
    case SetWidth(w) => Geometry(w, g.height, (w, g.height))
    case SetHeight(h) => Geometry(g.width, h, (g.width, h))
    case SetSize(s) => Geometry(s.0, s.1, s)
  }

  /** The effect of a sequence of setter calls, made in order. */
  function Run(g: Geometry, ops: seq<Setter>): Geometry
    decreases |ops|
  {
    if ops == [] then g else Apply(Run(g, ops[..|ops| - 1]), ops[|ops| - 1])
  }

  /** The width written by the last setter in `ops` that writes one, or `w0`. */
  function LastWidth(w0: int, ops: seq<Setter>): int
    decreases |ops|
  {
    if ops == [] then w0
    else match ops[|ops| - 1]
      case SetWidth(w) => w
      case SetSize(s) => s.0
      case SetHeight(_) => LastWidth(w0, ops[..|ops| - 1])
  }

  /** The height written by the last setter in `ops` that writes one, or `h0`. */
  function LastHeight(h0: int, ops: seq<Setter>): int
    decreases |ops|
  {
    if ops == [] then h0
    else match ops[|ops| - 1]
      case SetHeight(h) => h
      case SetSize(s) => s.1
      case SetWidth(_) => LastHeight(h0, ops[..|ops| - 1])
  }

  /** The class defaults start the invariant, at 500 by 500. */
  lemma DefaultsSynced()
    ensures Synced(Defaults)
    ensures Defaults.size == (Defaults.width, Defaults.height) == (500, 500)
  {
  }

  /** The invariant holds after any sequence of setter calls from a synced state. */
  lemma {:induction false} RunKeepsSynced(g: Geometry, ops: seq<Setter>)
    requires Synced(g)
    ensures Synced(Run(g, ops))
  {
    if ops != [] {
      RunKeepsSynced(g, ops[..|ops| - 1]);
    }
  }

  /**
   * After any sequence of setter calls the width is the last width written
   * (by `window_width` or `window_size`) and the height the last height
   * written; the size is their pair as soon as one setter has run.
   */
  lemma {:induction false} RunIsLastWrite(g: Geometry, ops: seq<Setter>)
    ensures Run(g, ops).width == LastWidth(g.width, ops)
    ensures Run(g, ops).height == LastHeight(g.height, ops)
    ensures ops != [] ==> Run(g, ops).size == (LastWidth(g.width, ops), LastHeight(g.height, ops))
  {
    if ops != [] {
      RunIsLastWrite(g, ops[..|ops| - 1]);
    }
  }

  /** Applying the same setter twice leaves the state of applying it once. */
  lemma ApplyIdempotent(g: Geometry, op: Setter)
    ensures Apply(Apply(g, op), op) == Apply(g, op)
  {
  }

  /**
   * The displayer (`WindowDisplayer`) as far as `WindowParams` touches it:
   * its `main` root drawable, `None` by default.
   */
  class Displayer {
    var main: object?

    constructor ()
      ensures main == null
    {
      main := null;
    }
  }

  /** `WindowParams`: the geometry fields, the displayer and the root. */
  class WindowParams {
    var width: int
    var height: int
    var size: (int, int)
    var display: Displayer?
    var root: object?

    /** The geometry fields as a value. */
    ghost function State(): Geometry
      reads this
    {
      Geometry(width, height, size)
    }

    ghost predicate Valid()
      reads this
    {
      Synced(State())
    }

    /** A window starts from the class-level defaults. */
    constructor ()
      ensures State() == Defaults && Valid()
      ensures display == null && root == null
    {
      width := DefaultWidth;
      height := DefaultHeight;
      size := (DefaultWidth, DefaultHeight);
      display := null;
      root := null;
    }

    /**
     * The `window_width` getter as written: it returns the stored height,
     * so it gives the width back only when the window is square.
     */
    function WindowWidth(): (r: int)
      reads this
      ensures Valid() ==> r == size.1
      ensures r == width <==> width == height
    {
      height
    }

    /** The width the `window_width` getter evidently means to return. */
    function IntendedWindowWidth(): (r: int)
      reads this
      ensures Valid() ==> r == size.0
    {
      width
    }

    /** The `window_height` getter; on a valid window it agrees with the size. */
    function WindowHeight(): (r: int)
      reads this
      ensures Valid() ==> r == size.1
    {
      height
    }

    /** The `window_size` getter; on a valid window it is (width, height). */
    function WindowSize(): (r: (int, int))
      reads this
      ensures Valid() ==> r == (width, height)
    {
      size
    }

    /** The `window_root` getter. */
    function WindowRoot(): object?
      reads this
    {
      root
    }

    /** The `display` getter. */
    function Display(): Displayer?
      reads this
    {
      display
    }

    /** The `window_width` setter. */
    method SetWindowWidth(newWidth: int)
      modifies this
      ensures State() == Apply(old(State()), SetWidth(newWidth)) && Valid()
      ensures width == newWidth && height == old(height) && size == (newWidth, old(height))
      ensures IntendedWindowWidth() == newWidth
      ensures root == old(root) && display == old(display)
    {
      width := newWidth;
      size := (width, height);
    }

    /** The `window_height` setter. */
    method SetWindowHeight(newHeight: int)
      modifies this
      ensures State() == Apply(old(State()), SetHeight(newHeight)) && Valid()
      ensures height == newHeight && width == old(width) && size == (old(width), newHeight)
      ensures WindowHeight() == newHeight
      ensures root == old(root) && display == old(display)
    {
      height := newHeight;
      size := (width, height);
    }

    /** The `window_size` setter. */
    method SetWindowSize(newSize: (int, int))
      modifies this
      ensures State() == Apply(old(State()), SetSize(newSize)) && Valid()
      ensures width == newSize.0 && height == newSize.1 && size == newSize
      ensures WindowSize() == newSize
      ensures root == old(root) && display == old(display)
    {
      size := newSize;
      width := size.0;
      height := size.1;
    }

    /**
     * The `window_root` setter. It stores the new root, then mirrors it into
     * the displayer's `main`. With no displayer attached (`_display` is
     * `None`) the second step raises an attribute error, reported here as
     * `raised`, after the root has already been stored.
     */
    method SetWindowRoot(newRoot: object?) returns (raised: bool)
      modifies this, display
      ensures raised <==> old(display) == null
      ensures display == old(display) && Display() == old(Display())
      ensures root == newRoot && WindowRoot() == newRoot
      ensures !raised ==> display.main == newRoot
      ensures State() == old(State())
    {
      root := newRoot;
      if display == null {
        raised := true;
        return;
      }
      raised := false;
      display.main := root;
    }
  }

  /**
   * The geometry walk-through: a default window, then width 800, height 600
   * and size (300, 300), reading the size back after each step.
   */
  method GeometryWalkthrough() returns (afterWidth: (int, int), afterHeight: (int, int), final: Geometry)
    ensures afterWidth == (800, 500)
    ensures afterHeight == (800, 600)
    ensures final == Geometry(300, 300, (300, 300))
  {
    var p := new WindowParams();
    p.SetWindowWidth(800);
    afterWidth := p.WindowSize();
    p.SetWindowHeight(600);
    afterHeight := p.WindowSize();
    p.SetWindowSize((300, 300));
    final := Geometry(p.width, p.height, p.WindowSize());
  }

  /**
   * Reading `window_width` back after setting it, on a default window:
   * the getter as written gives the height (500), not the value set.
   */
  method WidthReadBackAsWritten(w: int) returns (got: int)
    ensures got == DefaultHeight
    ensures w != DefaultHeight ==> got != w
  {
    var p := new WindowParams();
    p.SetWindowWidth(w);
    got := p.WindowWidth();
  }

  /**
   * The same read-back on any window: the getter as written gives the old
   * height, so it returns the width just set exactly when that width equals
   * the height.
   */
  method SetWidthThenReadAsWritten(p: WindowParams, w: int) returns (got: int)
    modifies p
    ensures got == old(p.height)
    ensures got == w <==> w == old(p.height)
    ensures p.width == w && p.height == old(p.height) && p.size == (w, old(p.height))
    ensures p.root == old(p.root) && p.display == old(p.display)
  {
    p.SetWindowWidth(w);
    got := p.WindowWidth();
  }

  /** The same read-back through the intended getter gives the value set. */
  method WidthReadBackIntended(w: int) returns (got: int)
    ensures got == w
  {
    var p := new WindowParams();
    p.SetWindowWidth(w);
    got := p.IntendedWindowWidth();
  }

  /**
   * Setting the root of a default window raises, because `_display` starts
   * as `None`; once a displayer is attached, the same root is mirrored into
   * its `main` and the window's geometry is untouched.
   */
  method RootMirrorWalkthrough(r: object?)
    returns (raisedWithoutDisplay: bool, raisedWithDisplay: bool, mirrored: object?, geometry: Geometry)
    ensures raisedWithoutDisplay && !raisedWithDisplay
    ensures mirrored == r
    ensures geometry == Defaults
  {
    var p := new WindowParams();
    raisedWithoutDisplay := p.SetWindowRoot(r);
    var d := new Displayer();
    p.display := d;
    raisedWithDisplay := p.SetWindowRoot(r);
    mirrored := d.main;
    geometry := Geometry(p.width, p.height, p.WindowSize());
  }
}
