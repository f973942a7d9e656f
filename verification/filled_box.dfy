/**
 * A filled rectangle with an optional caption; the only widget that can be dragged.
 */
module FilledBoxWidget {
  import opened Wrappers
  import opened Geometry
  import opened Menu
  import LabelWidget
  import OutlineBoxWidget

  datatype FilledBox = FilledBox(
    options: MenuOptions,
    rect: Rect,
    color: Color,
    caption: Option<LabelWidget.Label>)

  /** Options of the highlight outline a filled box draws when hovered. */
  const HighlightOptions: MenuOptions := MenuOptions([false, false, false, true])

  /** `FilledBox::new`: stores its arguments as given. */
  function New(options: MenuOptions, rect: Rect, color: Color, caption: Option<LabelWidget.Label>): (b: FilledBox)
    ensures b.options == options && b.rect == rect && b.color == color && b.caption == caption
  {
    FilledBox(options, rect, color, caption)
  }

  /** `in_bounds`, written as the source compares; it agrees with the shared hit test. */
  function InBounds<Obj>(b: FilledBox, m: MenuState<Obj>): (hit: bool)
    ensures hit <==> Hit(b.rect, m.mousePos)
  {
    m.mousePos.x < b.rect.topLeft.x + b.rect.width && m.mousePos.x > b.rect.topLeft.x
    && m.mousePos.y < b.rect.topLeft.y + b.rect.height && m.mousePos.y > b.rect.topLeft.y
  }

  /** `clicked`: the pointer is strictly inside the box while the click latch is set. */
  function Clicked<Obj>(b: FilledBox, m: MenuState<Obj>): (c: bool)
    ensures c <==> m.clicked && b.rect.Left() < m.mousePos.x < b.rect.Right()
                             && b.rect.Top() < m.mousePos.y < b.rect.Bottom()
  {
    InBounds(b, m) && m.clicked
  }

  /** `is_hovering`: the outline drawn around the box, present exactly when the pointer is over it. */
  function HoverOutline<Obj>(b: FilledBox, m: MenuState<Obj>): (o: Option<OutlineBoxWidget.OutlineBox>)
    ensures o.Some? <==> Hit(b.rect, m.mousePos)
    ensures o.Some? ==> StrictlyInside(b.rect, o.value.rect)
    ensures o.Some? ==> o.value.rect.width == b.rect.width + 4.0 && o.value.rect.height == b.rect.height + 4.0
    ensures o.Some? ==> o.value.rect.Left() == b.rect.Left() - 2.0 && o.value.rect.Top() == b.rect.Top() - 2.0
    ensures o.Some? ==> o.value.thickness == 4.0 && o.value.color == HighlightColor
  {
    if InBounds(b, m) then Some(OutlineBoxWidget.Highlight(b.rect, HighlightOptions)) else None
  }

  function GetOptions(b: FilledBox): MenuOptions
  {
    b.options
  }

  /** The options handed back are the ones the box was built with. */
  lemma OptionsRoundTrip(options: MenuOptions, rect: Rect, color: Color, caption: Option<LabelWidget.Label>)
    ensures GetOptions(New(options, rect, color, caption)) == options
  {
  }

  /** A click always lands where the hover highlight is shown. */
  lemma ClickedImpliesHighlight<Obj>(b: FilledBox, m: MenuState<Obj>)
    requires Clicked(b, m)
    ensures HoverOutline(b, m).Some?
  {
  }

  /** The top-left corner the box would move to: shifted by the pointer's motion since the last consumed position. */
  function ProposedTopLeft<Obj>(b: FilledBox, m: MenuState<Obj>): Point
  {
    Point(b.rect.topLeft.x + m.mousePos.x - m.cachedMousePos.x,
          b.rect.topLeft.y + m.mousePos.y - m.cachedMousePos.y)
  }

  /** The guard of `is_dragging`, written as the source compares. */
  predicate DragCommits<Obj>(b: FilledBox, m: MenuState<Obj>)
  {
    var p := ProposedTopLeft(b, m);
    && (m.mousePos.x != m.cachedMousePos.x || m.mousePos.y != m.cachedMousePos.y)
    && InBounds(b, m) && m.dragging
    && p.x < m.base.topLeft.x + m.base.width - b.rect.width
    && p.x > m.base.topLeft.x
    && p.y < m.base.topLeft.y + m.base.height - b.rect.height
    && p.y > m.base.topLeft.y
  }

  /** The pointer's motion since the position last consumed by a drag. */
  function DeltaX<Obj>(m: MenuState<Obj>): real { m.mousePos.x - m.cachedMousePos.x }
  function DeltaY<Obj>(m: MenuState<Obj>): real { m.mousePos.y - m.cachedMousePos.y }

  /**
   * `is_dragging`: the box follows the pointer's motion when the pointer moved,
   * the box was under the pointer before the move, the drag latch is set, and the
   * moved box would lie strictly inside the base panel. A committed move consumes
   * the motion by advancing the cached pointer; otherwise nothing changes.
   */
  function IsDragging<Obj>(b: FilledBox, m: MenuState<Obj>): (r: (FilledBox, MenuState<Obj>))
    ensures var moved := Translate(b.rect, DeltaX(m), DeltaY(m));
      if m.mousePos != m.cachedMousePos && Hit(b.rect, m.mousePos) && m.dragging
         && StrictlyInside(moved, m.base)
      then r == (b.(rect := moved), m.(cachedMousePos := m.mousePos))
      else r == (b, m)
  {
    if DragCommits(b, m) then
      (b.(rect := b.rect.(topLeft := ProposedTopLeft(b, m))), m.(cachedMousePos := m.mousePos))
    else
      (b, m)
  }

  /** The box has no size change, no other field change, and the menu changes only in its cache. */
  lemma DragFrame<Obj>(b: FilledBox, m: MenuState<Obj>)
    ensures var r := IsDragging(b, m);
      && r.0.rect.width == b.rect.width && r.0.rect.height == b.rect.height
      && r.0.options == b.options && r.0.color == b.color && r.0.caption == b.caption
      && r.1 == m.(cachedMousePos := r.1.cachedMousePos)
  {
  }

  /** A pointer that has not moved since the last consumed position never moves the box. */
  lemma StillPointerNoDrag<Obj>(b: FilledBox, m: MenuState<Obj>)
    requires m.mousePos == m.cachedMousePos
    ensures IsDragging(b, m) == (b, m)
  {
  }

  /**
   * After a committed move the box lies strictly inside the base panel, has moved
   * by exactly the pointer's motion, and the cache has caught up with the pointer.
   */
  lemma CommittedMove<Obj>(b: FilledBox, m: MenuState<Obj>)
    requires IsDragging(b, m).0 != b
    ensures var r := IsDragging(b, m);
      && StrictlyInside(r.0.rect, m.base)
      && r.0.rect.Left() - b.rect.Left() == m.mousePos.x - m.cachedMousePos.x
      && r.0.rect.Top() - b.rect.Top() == m.mousePos.y - m.cachedMousePos.y
      && r.1.cachedMousePos == m.mousePos
  {
  }

  /** Running the drag step twice in the same frame does nothing more than running it once. */
  lemma DragIdempotent<Obj>(b: FilledBox, m: MenuState<Obj>)
    ensures var r := IsDragging(b, m); IsDragging(r.0, r.1) == r
  {
  }

  /** A box strictly inside the base panel stays strictly inside it after a drag step. */
  lemma DragKeepsInsideBase<Obj>(b: FilledBox, m: MenuState<Obj>)
    requires StrictlyInside(b.rect, m.base)
    ensures StrictlyInside(IsDragging(b, m).0.rect, IsDragging(b, m).1.base)
  {
  }

  /**
   * The offset between the box's corner and the last consumed pointer position is
   * invariant under a drag step: a move shifts both by the same amount.
   */
  lemma DragKeepsGrip<Obj>(b: FilledBox, m: MenuState<Obj>)
    ensures var r := IsDragging(b, m);
      && r.0.rect.topLeft.x - r.1.cachedMousePos.x == b.rect.topLeft.x - m.cachedMousePos.x
      && r.0.rect.topLeft.y - r.1.cachedMousePos.y == b.rect.topLeft.y - m.cachedMousePos.y
  {
  }

  /** The drag step run once per frame, with the pointer at each sample of `path` in turn. */
  function DragAlong<Obj>(b: FilledBox, m: MenuState<Obj>, path: seq<Point>): (FilledBox, MenuState<Obj>)
    decreases |path|
  {
    if path == [] then (b, m)
    else
      var r := IsDragging(b, m.(mousePos := path[0]));
      DragAlong(r.0, r.1, path[1..])
  }

  /**
   * Over any sequence of pointer samples, a box that starts strictly inside the
   * base panel stays strictly inside it, keeps its size, and has moved by exactly
   * the pointer motion the drags consumed; the base panel itself never moves.
   */
  lemma {:induction false} DragAlongStaysInside<Obj>(b: FilledBox, m: MenuState<Obj>, path: seq<Point>)
    requires StrictlyInside(b.rect, m.base)
    ensures var r := DragAlong(b, m, path);
      && r.1.base == m.base
      && StrictlyInside(r.0.rect, m.base)
      && r.0.rect.width == b.rect.width && r.0.rect.height == b.rect.height
      && r.0.rect.topLeft.x - b.rect.topLeft.x == r.1.cachedMousePos.x - m.cachedMousePos.x
      && r.0.rect.topLeft.y - b.rect.topLeft.y == r.1.cachedMousePos.y - m.cachedMousePos.y
    decreases |path|
  {
    if path != [] {
      var m0 := m.(mousePos := path[0]);
      var r := IsDragging(b, m0);
      DragKeepsGrip(b, m0);
      DragKeepsInsideBase(b, m0);
      DragAlongStaysInside(r.0, r.1, path[1..]);
    }
  }

  /**
   * In a fresh menu the cache equals the pointer, so no drag step can move a box
   * before the pointer has moved.
   */
  lemma FreshMenuNoDrag<Obj>(b: FilledBox, baseSize: (real, real))
    ensures IsDragging(b, NewMenu<Obj>(baseSize)) == (b, NewMenu<Obj>(baseSize))
  {
  }
}
