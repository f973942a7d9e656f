/**
 * Captions. A label owns no rectangle: each frame its top-left corner is derived
 * from the host widget's rectangle and the label's anchor direction.
 */
module LabelWidget {
  import opened Geometry

  datatype Direction = Top | Left | Right | Bottom

  /** The derived `Default` of `Direction`. */
  function DefaultDirection(): (d: Direction)
    ensures d.Top?
  {
    Top
  }

  datatype Label = Label(
    color: Color,
    direction: Direction,
    originalText: string,
    text: string,
    scale: real,
    distScale: real)

  /** `Label::new`: the given string becomes both the original and the current text. */
  function New(color: Color, direction: Direction, text: string, scale: real, distScale: real): (l: Label)
    ensures l.originalText == l.text == text
    ensures l.color == color && l.direction == direction
    ensures l.scale == scale && l.distScale == distScale
  {
    Label(color, direction, text, text, scale, distScale)
  }

  /** Where the label's text starts, relative to the host rectangle `r`. */
  function Anchor(l: Label, r: Rect): (p: Point)
    ensures l.direction.Top? ==> p.x == r.Left() && r.Top() - p.y == r.height * l.distScale
    ensures l.direction.Bottom? ==> p.x == r.Left() && p.y - r.Bottom() == r.height * l.distScale
    ensures l.direction.Left? ==> r.Left() - p.x == r.width && p.y - r.Top() == r.height * l.distScale
    ensures l.direction.Right? ==> p.x == r.Right() && p.y - r.Top() == r.height * l.distScale
  {
    match l.direction
    case Top => Point(r.topLeft.x, r.topLeft.y - r.height * l.distScale)
    case Left => Point(r.topLeft.x - r.width, r.topLeft.y + r.height * l.distScale)
    case Right => Point(r.topLeft.x + r.width, r.topLeft.y + r.height * l.distScale)
    case Bottom => Point(r.topLeft.x, r.topLeft.y + r.height * (l.distScale + 1.0))
  }

  /** Top and Bottom captions start at the host's left edge; Top sits `height * distScale` above the host's top. */
  lemma TopAndBottomShareHostX(l: Label, r: Rect)
    ensures Anchor(l.(direction := Top), r).x == r.Left()
    ensures Anchor(l.(direction := Bottom), r).x == r.Left()
    ensures r.Top() - Anchor(l.(direction := Top), r).y == r.height * l.distScale
  {
  }

  /**
   * Left and Right captions share a y and lie one host width either side of the
   * host's left edge, so the Right caption starts exactly at the host's right edge.
   */
  lemma LeftRightMirror(l: Label, r: Rect)
    ensures Anchor(l.(direction := Left), r).y == Anchor(l.(direction := Right), r).y
    ensures Anchor(l.(direction := Right), r).x - Anchor(l.(direction := Left), r).x == 2.0 * r.width
    ensures Anchor(l.(direction := Right), r).x == r.Right()
    ensures r.Left() - Anchor(l.(direction := Left), r).x == r.width
  {
  }

  /**
   * The Bottom caption mirrors the Top one about the host's top edge and then
   * moves a further host height down: it sits `height * distScale` below the
   * host's bottom edge.
   */
  lemma BottomMirrorsTop(l: Label, r: Rect)
    ensures Anchor(l.(direction := Bottom), r).y - r.Top()
         == (r.Top() - Anchor(l.(direction := Top), r).y) + r.height
    ensures Anchor(l.(direction := Bottom), r).y - r.Bottom() == r.height * l.distScale
  {
  }

  /** The anchor follows its host: moving the host moves the anchor by the same amount. */
  lemma AnchorFollowsHost(l: Label, r: Rect, dx: real, dy: real)
    ensures Anchor(l, Translate(r, dx, dy)) == TranslatePoint(Anchor(l, r), dx, dy)
  {
  }

  /**
   * With non-negative host sizes and distance scale, no caption starts strictly
   * inside its host, so a caption never covers the widget it labels at its start.
   */
  lemma {:induction false} AnchorOutsideHost(l: Label, r: Rect)
    requires r.width >= 0.0 && r.height >= 0.0 && l.distScale >= 0.0
    ensures !Hit(r, Anchor(l, r))
  {
    var p := Anchor(l, r);
    match l.direction
    case Top =>
      NonNegativeProduct(r.height, l.distScale);
      assert p.y <= r.Top();
    case Left =>
      assert p.x <= r.Left();
    case Right =>
      assert p.x == r.Right();
    case Bottom =>
      NonNegativeProduct(r.height, l.distScale);
      assert p.y >= r.Bottom();
  }

  lemma NonNegativeProduct(a: real, b: real)
    requires a >= 0.0 && b >= 0.0
    ensures a * b >= 0.0
  {
  }
}
