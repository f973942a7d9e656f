# menu_api overlay widgets — a Dafny model

`menu_api` draws a small GUI into a transparent, always-on-top overlay window
placed over another application's window. This project models the logic of its
widgets and of the menu that owns them, leaving out the GPU drawing:

- the open-rectangle hit test (`in_bounds`) that the filled box, the checkbox and
  the outline box each repeat;
- click detection (`clicked`), including the checkbox's flip of a boolean cell it
  shares with the application;
- the filled box's drag step (`is_dragging`), which moves the box by the pointer's
  motion only if the moved box stays strictly inside the base panel, and then
  advances the cached pointer position;
- the hover highlight's geometry, and a label's anchor point relative to its host;
- the menu's draw list (`add_to_draw_list`, `draw_menu`), and the size, position
  and error paths of `create_overlay`.

Coordinates (`f32` in the source) are exact `real`s. Widgets and the menu are
immutable datatypes, and an operation that mutates returns the new value. The
exception is the checkbox's `Rc<RefCell<bool>>`, which is a heap object
(`CheckBoxWidget.BoolCell`) so that every holder sees a toggle. The `clicked`
functions of the filled box and of the outline box return only a boolean, so
they cannot change any state.

Modules: `Wrappers` (Option, Result), `Geometry`, `Menu`, `LabelWidget`,
`OutlineBoxWidget`, `FilledBoxWidget`, `CheckBoxWidget`, `Scene` (the
`MenuObject` enum), `Overlay` (`create_overlay`).

The library's files come from different stages of a rewrite and disagree in places:

- `Menu` as declared in `src/lib.rs` has no cached pointer, no click or drag
  latch, and no base panel, yet the widgets read all four. The model has one
  menu record, `Menu.MenuState`, with every field some widget reads.
- `Menu.NewMenu` sets `mouse_pos`, `base_size` and `objects` as `Menu::new`
  does. The four fields the struct lacks start at rest: the cache equals the pointer, both latches
  are clear, and the base panel sits at the origin with the base size.
- `MenuOptions::new` is called with two flags by the checkbox and with four by the
  filled box. Options are therefore an opaque list of flags that widgets store and
  hand back.
- The filled box calls `OutlineBox::new` with a fifth caption argument.
  `OutlineBox::new` in `src/outline_box.rs` takes four, and the model follows the
  four-argument version.
- The code excludes all four edges from the hit test.

## Model

| member | source | states |
|---|---|---|
| Geometry.NewRect | src/lib.rs:107-115 | the rectangle starts at the given corner and spans exactly the given width and height |
| Geometry.Translate | src/filled_box.rs:65-74 | a moved rectangle keeps its size and all four edges shift by the same (dx, dy) |
| Geometry.Outline | src/filled_box.rs:45-48 | the highlight rectangle lies 2 px outside every edge, is 4 px larger on each axis, and strictly encloses the widget |
| Geometry.EdgePointsAreOutside | src/filled_box.rs:29-30 | a point on any of the four edge lines is never a hit |
| Geometry.HitPossibleIffNonEmpty | src/filled_box.rs:29-30 | some point hits a rectangle if and only if its width and height are both positive |
| Geometry.HitTranslationInvariant | src/filled_box.rs:29-30 | moving the rectangle and the pointer by the same amount leaves the hit test unchanged |
| Geometry.HitInsideEnclosing | src/filled_box.rs:44-48 | a pointer over a widget is also over any rectangle strictly enclosing it, such as its highlight |
| Geometry.StrictlyInsideIsSmaller | src/filled_box.rs:68-71 | a box that fits strictly inside the base panel is narrower and shorter than it, so a box as wide as the panel can never be dragged |
| Menu.NewMenu | src/lib.rs:129-149 | a new menu has its pointer at (0,0), no objects and the given base size; no drag or click is pending |
| Menu.AddToDrawList | src/lib.rs:168-170 | the list grows by one, earlier objects keep their order, the new object is last, and no other field changes |
| Menu.AddAllAppends | src/lib.rs:168-170 | successive additions append exactly the added objects in order and change nothing else |
| Menu.FreshMenuHoldsAdditions | src/lib.rs:145-170 | a fresh menu filled by additions holds exactly those objects, in insertion order |
| Menu.DrawMenu | src/lib.rs:150-167 | the draw pass visits the objects in insertion order and leaves the menu, objects included, identical |
| LabelWidget.DefaultDirection | src/label.rs:5-12 | the default anchor direction is Top |
| LabelWidget.New | src/label.rs:24-34 | the given text becomes both the original and the current text; color, direction, scale and distance scale are stored as given |
| LabelWidget.Anchor | src/label.rs:41-55 | Top and Bottom start at the host's left edge, Top height × distance-scale above its top and Bottom that far below its bottom; Left starts one width left of the host and Right at its right edge, both height × distance-scale below its top |
| LabelWidget.TopAndBottomShareHostX | src/label.rs:43-54 | Top and Bottom captions start at the host's left edge, and Top sits height × distance-scale above the host's top |
| LabelWidget.LeftRightMirror | src/label.rs:46-51 | Left and Right captions share a y, lie one host width either side of its left edge, and so differ by twice the width |
| LabelWidget.BottomMirrorsTop | src/label.rs:43-54 | the Bottom caption's offset below the host's top is the Top caption's offset above it plus one host height |
| LabelWidget.AnchorFollowsHost | src/label.rs:41-55 | moving the host moves the caption's anchor by the same amount, for every direction |
| LabelWidget.AnchorOutsideHost | src/label.rs:41-55 | with non-negative sizes and distance scale, no caption starts strictly inside its host |
| OutlineBoxWidget.New | src/outline_box.rs:12-19 | options, rectangle, color and thickness are stored as given |
| OutlineBoxWidget.InBounds | src/outline_box.rs:23-33 | the outline box's own comparisons agree with the shared open-rectangle hit test |
| OutlineBoxWidget.Clicked | src/outline_box.rs:51-61 | clicked if and only if the click latch is set and the pointer is strictly inside on both axes |
| OutlineBoxWidget.IsHovering | src/outline_box.rs:37-47 | hovering an outline box has no effect on the menu |
| OutlineBoxWidget.OptionsRoundTrip | src/outline_box.rs:64-67 | the options returned are those the box was built with |
| OutlineBoxWidget.Highlight | src/check_box.rs:50-57 | the highlight outline is red with stroke 4, lies 2 px outside every edge and strictly encloses the widget |
| FilledBoxWidget.New | src/filled_box.rs:14-21 | options, rectangle, color and caption are stored as given |
| FilledBoxWidget.InBounds | src/filled_box.rs:25-35 | the filled box's own comparisons agree with the shared open-rectangle hit test |
| FilledBoxWidget.Clicked | src/filled_box.rs:82-92 | clicked if and only if the click latch is set and the pointer is strictly inside on both axes |
| FilledBoxWidget.HoverOutline | src/filled_box.rs:39-55 | a highlight exists exactly when the pointer is over the box; it is 4 px larger per axis, 2 px further out, stroke 4, and strictly encloses the box |
| FilledBoxWidget.OptionsRoundTrip | src/filled_box.rs:95-98 | the options returned are those the box was built with |
| FilledBoxWidget.ClickedImpliesHighlight | src/filled_box.rs:81-92 | a click is only reported where the hover highlight is shown |
| FilledBoxWidget.IsDragging | src/filled_box.rs:59-78 | the box moves by the pointer's motion and the cache catches up if and only if the pointer moved, the box was hit, the drag latch is set and the moved box lies strictly inside the base; otherwise nothing changes |
| FilledBoxWidget.DragFrame | src/filled_box.rs:63-76 | a drag step never changes the box's size, options, color or caption, and changes only the cached pointer in the menu |
| FilledBoxWidget.StillPointerNoDrag | src/filled_box.rs:63 | when the pointer equals the cached pointer, the box and the menu are left unchanged |
| FilledBoxWidget.CommittedMove | src/filled_box.rs:65-75 | after a move the box lies strictly inside the base, has moved by exactly the pointer delta on each axis, and the cache equals the pointer |
| FilledBoxWidget.DragIdempotent | src/filled_box.rs:67-75 | repeating the drag step on its own result changes nothing |
| FilledBoxWidget.DragKeepsInsideBase | src/filled_box.rs:67-72 | a box strictly inside the base panel is still strictly inside it after a drag step |
| FilledBoxWidget.DragKeepsGrip | src/filled_box.rs:73-75 | the offset between the box's corner and the cached pointer is the same before and after a drag step |
| FilledBoxWidget.DragAlongStaysInside | src/filled_box.rs:59-78 | over any sequence of frames the box stays strictly inside the unmoved base, keeps its size, and has moved by exactly the pointer motion the drags consumed |
| FilledBoxWidget.FreshMenuNoDrag | src/filled_box.rs:63 | in a freshly created menu no drag step can move a box |
| CheckBoxWidget.New | src/check_box.rs:16-23 | options, rectangle and color are stored, and the box keeps the very cell the caller holds |
| CheckBoxWidget.Toggle | src/check_box.rs:24-27 | the shared cell ends up holding the negation of its previous value |
| CheckBoxWidget.ToggleTwice | src/check_box.rs:24-27 | two toggles restore the shared cell's original value |
| CheckBoxWidget.InBounds | src/check_box.rs:31-41 | the checkbox's own comparisons agree with the shared open-rectangle hit test |
| CheckBoxWidget.ClickStep | src/check_box.rs:64-75 | a click is reported if and only if the latch is set and the pointer is strictly inside; the cell changes exactly when a click is reported |
| CheckBoxWidget.Clicked | src/check_box.rs:69-74 | on the heap, the shared cell is toggled once when a click is reported and left alone otherwise; nothing but the cell is modified |
| CheckBoxWidget.TwoClicksRestore | src/check_box.rs:69-71 | one qualifying frame flips the cell and a second one restores it |
| CheckBoxWidget.NoClickKeepsCell | src/check_box.rs:72-74 | without a qualifying click the call reports false and the cell keeps its value |
| CheckBoxWidget.HoverOutline | src/check_box.rs:45-60 | a highlight exists exactly when the pointer is over the box; it is 4 px larger per axis, 2 px further out, stroke 4, and strictly encloses the box |
| CheckBoxWidget.OptionsRoundTrip | src/check_box.rs:79-81 | the options returned are those the box was built with |
| Scene.BuildAndDraw | src/lib.rs:150-170 | checkboxes added to a fresh menu survive a draw pass unchanged and in insertion order, each still bound to its caller's cell |
| Overlay.OverlaySize | src/lib.rs:30-31 | each side of the overlay is a 32-bit signed value congruent modulo 2^32 to the target's side less 15 (width) or 40 (height) |
| Overlay.WrapI32 | src/lib.rs:30-31 | the result is a 32-bit signed value congruent to the exact one modulo 2^32 |
| Overlay.OverlaySizeExact | src/lib.rs:30-31 | without overflow the overlay is the target's width less 15 and its height less 40 |
| Overlay.OverlayAttributes | src/lib.rs:34-40 | the overlay window is transparent, undecorated and always on top, with the given title, at the target's top-left corner |
| Overlay.OverlayInsetFromTarget | src/lib.rs:30-37 | without overflow the overlay ends 15 px left of the target's right edge and 40 px above its bottom edge |
| Overlay.CreateOverlay | src/lib.rs:20-67 | succeeds if and only if both handle lookups succeed; a missing raw handle and a failed native conversion give their own error messages in that order; on success the window is click-through |

## Left out

- GPU drawing: every `draw` implementation (vertex buffers, shaders, `frame.draw`, the `unwrap` panics), the frame clear and `frame.finish`. It is an opaque backend, so `Menu.DrawMenu` only records the visiting order.
- Label text rendering: text layout, scale matrix and device-coordinate projection. These are foreign calls and floating-point rendering; only the anchor point is modelled.
- `src/line_list.rs`: it has a constructor, an options getter and a GPU draw, and nothing else to state.
- Window creation in `create_overlay`: the event loop and the window builder. The raw-handle lookup and its conversion to a native handle are parameters of `Overlay.CreateOverlay`. The call that makes the window click-through is modelled as an effect that always succeeds (the `clickThrough` flag of the result). The target rectangle comes from a platform query that is not part of this model. `create_overlay` takes a window handle (`src/lib.rs:20`) and has no fallback rectangle.
- The menu's `display`, `window_size` (read from the framebuffer), `system`, `font` and `handle` fields that `Menu::new` also sets: they serve only drawing, text rendering and the platform window, none of which is modelled.
- The example program: its event loop, key-state polling and `toggle_overlay`, which is not defined in the library.
- The base-panel drag that moves children, eviction of widgets marked for deletion, and the click-through toggle state machine. None of them appears in the source modelled here.
- IEEE-754 `f32` behaviour: rounding, NaN and infinities. Coordinates are exact reals, and the `i32`-to-`f32` conversion of the overlay size is exact.
- `Rc<RefCell>` borrow panics: the shared cell is a plain heap object. `toggle` (`src/check_box.rs:24-27`) releases its borrow before returning, and no code in the modelled files holds a borrow of the cell across a call to it.
- CheckBoxWidget.Toggle, CheckBoxWidget.ToggleTwice and CheckBoxWidget.Clicked: their contracts are about heap state (`old`, `modifies`). The pure `CheckBoxWidget.ClickStep` carries the same behaviour as a function.
- Overlay.OverlaySize: `i32` subtraction is modelled as the wrapping of a release build. A debug build would panic on overflow instead, and that panic is not modelled.
