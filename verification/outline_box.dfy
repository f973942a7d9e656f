/** An unfilled rectangle with a stroke thickness; also the shape of the hover highlight. */
module OutlineBoxWidget {
  import opened Geometry
  import opened Menu

  datatype OutlineBox = OutlineBox(options: MenuOptions, rect: Rect, color: Color, thickness: real)

  /** `OutlineBox::new`: stores its four arguments as given. */
  function New(options: MenuOptions, rect: Rect, color: Color, thickness: real): (b: OutlineBox)
    ensures b.options == options && b.rect == rect && b.color == color && b.thickness == thickness
  {
    OutlineBox(options, rect, color, thickness)
  }

  /** `in_bounds`, written as the source compares; it agrees with the shared hit test. */
  function InBounds<Obj>(b: OutlineBox, m: MenuState<Obj>): (hit: bool)
    ensures hit <==> Hit(b.rect, m.mousePos)
  {
    m.mousePos.x < b.rect.topLeft.x + b.rect.width && m.mousePos.x > b.rect.topLeft.x
    && m.mousePos.y < b.rect.topLeft.y + b.rect.height && m.mousePos.y > b.rect.topLeft.y
  }

  /** `clicked`: the pointer is strictly inside the box while the click latch is set. */
  function Clicked<Obj>(b: OutlineBox, m: MenuState<Obj>): (c: bool)
    ensures c <==> m.clicked && b.rect.Left() < m.mousePos.x < b.rect.Right()
                             && b.rect.Top() < m.mousePos.y < b.rect.Bottom()
  {
    InBounds(b, m) && m.clicked
  }

  /**
   * `is_hovering` tests the hit, but the branch it guards holds only comments, so
   * nothing is drawn and the menu comes back as it was.
   */
  function IsHovering<Obj>(b: OutlineBox, m: MenuState<Obj>): (m': MenuState<Obj>)
    ensures m' == m
  {
    m
  }

  function GetOptions(b: OutlineBox): MenuOptions
  {
    b.options
  }

  /** The options handed back are the ones the box was built with. */
  lemma OptionsRoundTrip(options: MenuOptions, rect: Rect, color: Color, thickness: real)
    ensures GetOptions(New(options, rect, color, thickness)) == options
  {
  }

  /**
   * The hover highlight of a widget rectangle `r`: an outline 2 px outside it in
   * the highlight color with stroke 4, carrying the options the caller supplies.
   */
  function Highlight(r: Rect, options: MenuOptions): (o: OutlineBox)
    ensures StrictlyInside(r, o.rect)
    ensures o.rect.Left() == r.Left() - 2.0 && o.rect.Right() == r.Right() + 2.0
    ensures o.rect.Top() == r.Top() - 2.0 && o.rect.Bottom() == r.Bottom() + 2.0
    ensures o.thickness == 4.0 && o.color == Color(1.0, 0.0, 0.0, 1.0) && o.options == options
  {
    New(options, Outline(r), HighlightColor, HighlightThickness)
  }
}
