/** The menu's object enum and the menu over it, as the library declares them. */
module Scene {
  import opened Geometry
  import opened Menu
  import CheckBoxWidget

  /** `MenuObject`: only the checkbox variant is enabled; the others are commented out. */
  datatype MenuObject = CheckBoxObject(box: CheckBoxWidget.CheckBox)

  type SceneMenu = MenuState<MenuObject>

  /**
   * Adding checkboxes to a fresh menu and running a draw pass leaves exactly those
   * checkboxes, in insertion order, each still bound to the cell its caller holds.
   */
  method BuildAndDraw(baseSize: (real, real), boxes: seq<CheckBoxWidget.CheckBox>)
    returns (m: SceneMenu, visited: seq<MenuObject>)
    ensures |m.objects| == |boxes| && visited == m.objects
    ensures forall i :: 0 <= i < |boxes| ==> m.objects[i] == CheckBoxObject(boxes[i])
    ensures forall i :: 0 <= i < |boxes| ==> m.objects[i].box.cell == boxes[i].cell
  {
    m := NewMenu(baseSize);
    var i := 0;
    while i < |boxes|
      invariant 0 <= i <= |boxes|
      invariant |m.objects| == i
      invariant forall j :: 0 <= j < i ==> m.objects[j] == CheckBoxObject(boxes[j])
    {
      m := AddToDrawList(m, CheckBoxObject(boxes[i]));
      i := i + 1;
    }
    m, visited := DrawMenu(m);
  }
}
