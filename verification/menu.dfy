/**
 * The menu (scene) state the widgets read and the draw list it owns.
 *
 * The record gathers every field the widgets consult: the pointer position,
 * the pointer position last consumed by a drag, the click and drag latches,
 * the base panel's rectangle, the base size given at construction, and the
 * insertion-ordered list of objects. It is generic over the object type so that
 * widget modules can read it while the scene's object enum holds widgets.
 */
module Menu {
  import opened Geometry

  datatype MenuState<Obj> = MenuState(
    mousePos: Point,
    cachedMousePos: Point,
    clicked: bool,
    dragging: bool,
    base: Rect,
    baseSize: (real, real),
    objects: seq<Obj>)

  const Origin: Point := Point(0.0, 0.0)

  /**
   * `Menu::new`: pointer at the origin, no objects, the given base size. The
   * cache, latches and base rectangle are not fields of the struct declared at
   * `src/lib.rs:117-126`; they start at rest (cache equal to the pointer, both
   * latches clear) with the base panel at the origin spanning the base size.
   */
  function NewMenu<Obj>(baseSize: (real, real)): (m: MenuState<Obj>)
    ensures m.mousePos == Point(0.0, 0.0) && m.objects == [] && m.baseSize == baseSize
    ensures m.cachedMousePos == m.mousePos && !m.clicked && !m.dragging
    ensures m.base.topLeft == Origin && m.base.width == baseSize.0 && m.base.height == baseSize.1
  {
    MenuState(Origin, Origin, false, false, NewRect(Origin, baseSize.0, baseSize.1), baseSize, [])
  }

  /** `add_to_draw_list`: the object goes to the end; nothing else changes. */
  function AddToDrawList<Obj>(m: MenuState<Obj>, o: Obj): (m': MenuState<Obj>)
    ensures |m'.objects| == |m.objects| + 1
    ensures m'.objects[..|m.objects|] == m.objects
    ensures m'.objects[|m.objects|] == o
    ensures m' == m.(objects := m'.objects)
  {
    m.(objects := m.objects + [o])
  }

  /** Adds the objects one after the other, as a caller building a menu does. */
  function AddAll<Obj>(m: MenuState<Obj>, os: seq<Obj>): MenuState<Obj>
    decreases |os|
  {
    if os == [] then m else AddAll(AddToDrawList(m, os[0]), os[1..])
  }

  /** Adding a list of objects appends exactly that list, in order, and touches no other field. */
  lemma {:induction false} AddAllAppends<Obj>(m: MenuState<Obj>, os: seq<Obj>)
    ensures AddAll(m, os) == m.(objects := m.objects + os)
    decreases |os|
  {
    if os == [] {
      assert m.objects + os == m.objects;
    } else {
      AddAllAppends(AddToDrawList(m, os[0]), os[1..]);
      assert m.objects + [os[0]] + os[1..] == m.objects + os;
    }
  }

  /** A fresh menu filled by successive additions holds exactly the added objects, in insertion order. */
  lemma FreshMenuHoldsAdditions<Obj>(baseSize: (real, real), os: seq<Obj>)
    ensures AddAll(NewMenu<Obj>(baseSize), os).objects == os
  {
    AddAllAppends(NewMenu<Obj>(baseSize), os);
  }

  /**
   * `draw_menu`: the objects are taken out of the menu, drawn one by one in
   * insertion order, and put back. The drawing itself is not modelled; the
   * method reports the objects in the order they were visited.
   */
  method DrawMenu<Obj>(m: MenuState<Obj>) returns (m': MenuState<Obj>, visited: seq<Obj>)
    ensures visited == m.objects
    ensures m' == m
  {
    var objects := m.objects;
    var taken := m.(objects := []);
    visited := [];
    var i := 0;
    while i < |objects|
      invariant 0 <= i <= |objects|
      invariant visited == objects[..i]
    {
      visited := visited + [objects[i]];
      i := i + 1;
    }
    m' := taken.(objects := objects);
  }
}
