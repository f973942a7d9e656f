/**
 * Geometry shared by every widget: points, axis-aligned rectangles, colors and
 * the open-rectangle hit test. Screen space has its origin at the top left and
 * y grows downwards. The source's `f32` coordinates are modelled as exact reals.
 */
module Geometry {

  /** `Vertex { p: [x, y] }` of the source. */
  datatype Point = Point(x: real, y: real)

  /** `Rect { top_left, width, height }`; nothing in the source forces the sizes to be non-negative. */
  datatype Rect = Rect(topLeft: Point, width: real, height: real) {
    function Left(): real { topLeft.x }
    function Top(): real { topLeft.y }
    function Right(): real { topLeft.x + width }
    function Bottom(): real { topLeft.y + height }
  }

  /** `Vec4` holding r, g, b, a. */
  datatype Color = Color(r: real, g: real, b: real, a: real)

  /**
   * Widget options. Their struct is not part of this model and the constructor is
   * called with two flags in one widget and four in another, so the options are an
   * opaque list of flags that the widgets only store and hand back.
   */
  datatype MenuOptions = MenuOptions(flags: seq<bool>)

  /** Highlight drawn around a hovered widget: red, stroke 4, 2 px outside the widget. */
  const HighlightColor: Color := Color(1.0, 0.0, 0.0, 1.0)
  const HighlightThickness: real := 4.0
  const HighlightPad: real := 2.0

  /** `Rect::new`: the rectangle spanning `width` by `height` from `topLeft`. */
  function NewRect(topLeft: Point, width: real, height: real): (r: Rect)
    ensures r.Left() == topLeft.x && r.Top() == topLeft.y
    ensures r.Right() - r.Left() == width && r.Bottom() - r.Top() == height
  {
    Rect(topLeft, width, height)
  }

  /** `lo < v < hi`: both ends excluded. */
  predicate InOpenInterval(lo: real, v: real, hi: real)
  {
    lo < v && v < hi
  }

  /**
   * The hit test every rect widget repeats: the point lies in the open rectangle,
   * so points on an edge are outside.
   */
  predicate Hit(r: Rect, p: Point)
  {
    InOpenInterval(r.Left(), p.x, r.Right()) && InOpenInterval(r.Top(), p.y, r.Bottom())
  }

  /** `inner` lies inside `outer` without touching any of its edges. */
  predicate StrictlyInside(inner: Rect, outer: Rect)
  {
    && outer.Left() < inner.Left() && inner.Right() < outer.Right()
    && outer.Top() < inner.Top() && inner.Bottom() < outer.Bottom()
  }

  function TranslatePoint(p: Point, dx: real, dy: real): Point
  {
    Point(p.x + dx, p.y + dy)
  }

  /** The same rectangle moved by (dx, dy); its size is kept. */
  function Translate(r: Rect, dx: real, dy: real): (t: Rect)
    ensures t.width == r.width && t.height == r.height
    ensures t.Left() - r.Left() == dx && t.Top() - r.Top() == dy
    ensures t.Right() - r.Right() == dx && t.Bottom() - r.Bottom() == dy
  {
    r.(topLeft := TranslatePoint(r.topLeft, dx, dy))
  }

  /**
   * The hover outline's rectangle: 2 px further out on every side, so 4 px larger
   * on each axis, and strictly enclosing the widget.
   */
  function Outline(r: Rect): (o: Rect)
    ensures o.Left() == r.Left() - HighlightPad && o.Right() == r.Right() + HighlightPad
    ensures o.Top() == r.Top() - HighlightPad && o.Bottom() == r.Bottom() + HighlightPad
    ensures o.width == r.width + 2.0 * HighlightPad && o.height == r.height + 2.0 * HighlightPad
    ensures StrictlyInside(r, o)
  {
    NewRect(Point(r.topLeft.x - 2.0, r.topLeft.y - 2.0), r.width + 4.0, r.height + 4.0)
  }

  /** A point on any of the four edge lines is never a hit. */
  lemma EdgePointsAreOutside(r: Rect, p: Point)
    requires p.x == r.Left() || p.x == r.Right() || p.y == r.Top() || p.y == r.Bottom()
    ensures !Hit(r, p)
  {
  }

  /** Some point hits a rectangle exactly when both its sides are positive. */
  lemma HitPossibleIffNonEmpty(r: Rect)
    ensures (exists p :: Hit(r, p)) <==> r.width > 0.0 && r.height > 0.0
  {
    if r.width > 0.0 && r.height > 0.0 {
      var c := Point(r.Left() + r.width / 2.0, r.Top() + r.height / 2.0);
      assert Hit(r, c);
    }
  }

  /** Moving a rectangle and the pointer by the same amount does not change the hit test. */
  lemma HitTranslationInvariant(r: Rect, p: Point, dx: real, dy: real)
    ensures Hit(Translate(r, dx, dy), TranslatePoint(p, dx, dy)) <==> Hit(r, p)
  {
  }

  /** Whatever hits a rectangle also hits every rectangle that strictly encloses it. */
  lemma HitInsideEnclosing(inner: Rect, outer: Rect, p: Point)
    requires StrictlyInside(inner, outer)
    requires Hit(inner, p)
    ensures Hit(outer, p)
  {
  }

  /** A rectangle strictly inside another has the smaller extent on each axis. */
  lemma StrictlyInsideIsSmaller(inner: Rect, outer: Rect)
    requires StrictlyInside(inner, outer)
    ensures inner.width < outer.width && inner.height < outer.height
  {
  }
}
