/**
 * A checkbox bound to a boolean cell the application shares with it. A click on
 * the box flips the cell, and every other holder of the cell sees the change.
 */
module CheckBoxWidget {
  import opened Wrappers
  import opened Geometry
  import opened Menu
  import OutlineBoxWidget

  /** The shared, interior-mutable boolean (`Rc<RefCell<bool>>`). */
  class BoolCell {
    var value: bool

    constructor (v: bool)
      ensures value == v
    {
      value := v;
    }
  }

  datatype CheckBox = CheckBox(options: MenuOptions, rect: Rect, color: Color, cell: BoolCell)

  /** Options of the highlight outline a checkbox draws when hovered. */
  const HighlightOptions: MenuOptions := MenuOptions([false, false])

  /** `CheckBox::new`: stores its arguments, keeping the very cell the caller holds. */
  function New(options: MenuOptions, rect: Rect, color: Color, cell: BoolCell): (b: CheckBox)
    ensures b.options == options && b.rect == rect && b.color == color && b.cell == cell
  {
    CheckBox(options, rect, color, cell)
  }

  /** `toggle`: negates the shared value in place. */
  method Toggle(b: CheckBox)
    modifies b.cell
    ensures b.cell.value == !old(b.cell.value)
  {
    b.cell.value := !b.cell.value;
  }

  /** `in_bounds`, written as the source compares; it agrees with the shared hit test. */
  function InBounds<Obj>(b: CheckBox, m: MenuState<Obj>): (hit: bool)
    ensures hit <==> Hit(b.rect, m.mousePos)
  {
    m.mousePos.x < b.rect.topLeft.x + b.rect.width && m.mousePos.x > b.rect.topLeft.x
    && m.mousePos.y < b.rect.topLeft.y + b.rect.height && m.mousePos.y > b.rect.topLeft.y
  }

  /**
   * What one `clicked` call does to a checkbox whose cell holds `v`: the call
   * reports a click when the pointer is strictly inside the box while the click
   * latch is set, and the cell ends up changed exactly when a click is reported.
   */
  function ClickStep<Obj>(b: CheckBox, m: MenuState<Obj>, v: bool): (r: (bool, bool))
    ensures r.0 <==> m.clicked && b.rect.Left() < m.mousePos.x < b.rect.Right()
                              && b.rect.Top() < m.mousePos.y < b.rect.Bottom()
    ensures r.1 != v <==> r.0
  {
    var hit := InBounds(b, m) && m.clicked;
    (hit, if hit then !v else v)
  }

  /**
   * `clicked` on the heap: toggles the shared cell once when the box is clicked and
   * leaves it alone otherwise; the box's own fields are immutable.
   */
  method Clicked<Obj>(b: CheckBox, m: MenuState<Obj>) returns (hit: bool)
    modifies b.cell
    ensures (hit, b.cell.value) == ClickStep(b, m, old(b.cell.value))
  {
    if InBounds(b, m) && m.clicked {
      Toggle(b);
      return true;
    } else {
      return false;
    }
  }

  /** Two toggles bring the shared cell back to its value before them. */
  method ToggleTwice(b: CheckBox)
    modifies b.cell
    ensures b.cell.value == old(b.cell.value)
  {
    Toggle(b);
    Toggle(b);
  }

  /** Two qualifying frames in a row restore the cell's value; the first one flips it. */
  lemma TwoClicksRestore<Obj>(b: CheckBox, m: MenuState<Obj>, v: bool)
    requires Hit(b.rect, m.mousePos) && m.clicked
    ensures ClickStep(b, m, v).1 == !v
    ensures ClickStep(b, m, ClickStep(b, m, v).1).1 == v
  {
  }

  /** A frame without a qualifying click never mutates the cell, however often it is repeated. */
  lemma NoClickKeepsCell<Obj>(b: CheckBox, m: MenuState<Obj>, v: bool)
    requires !m.clicked || !Hit(b.rect, m.mousePos)
    ensures ClickStep(b, m, v) == (false, v)
  {
  }

  /** `is_hovering`: the outline drawn around the box, present exactly when the pointer is over it. */
  function HoverOutline<Obj>(b: CheckBox, m: MenuState<Obj>): (o: Option<OutlineBoxWidget.OutlineBox>)
    ensures o.Some? <==> Hit(b.rect, m.mousePos)
    ensures o.Some? ==> StrictlyInside(b.rect, o.value.rect)
    ensures o.Some? ==> o.value.rect.width == b.rect.width + 4.0 && o.value.rect.height == b.rect.height + 4.0
    ensures o.Some? ==> o.value.rect.Left() == b.rect.Left() - 2.0 && o.value.rect.Top() == b.rect.Top() - 2.0
    ensures o.Some? ==> o.value.thickness == 4.0 && o.value.color == HighlightColor
  {
    if InBounds(b, m) then Some(OutlineBoxWidget.Highlight(b.rect, HighlightOptions)) else None
  }

  function GetOptions(b: CheckBox): MenuOptions
  {
    b.options
  }

  /** The options handed back are the ones the box was built with. */
  lemma OptionsRoundTrip(options: MenuOptions, rect: Rect, color: Color, cell: BoolCell)
    ensures GetOptions(New(options, rect, color, cell)) == options
  {
  }
}
