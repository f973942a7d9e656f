/**
 * The arithmetic and the error paths of `create_overlay`. Locating the target
 * window's rectangle, obtaining the raw window handle and turning it into a
 * native handle are platform calls; their outcomes are parameters here.
 */
module Overlay {
  import opened Wrappers

  const I32Min: int := -0x8000_0000
  const I32Max: int := 0x7fff_ffff

  /** Two's-complement wrap-around of a 32-bit signed integer, as release builds compute `i32` arithmetic. */
  function WrapI32(x: int): (w: int)
    ensures I32Min <= w <= I32Max
    ensures (w - x) % 0x1_0000_0000 == 0
  {
    (x - I32Min) % 0x1_0000_0000 + I32Min
  }

  /** A value that fits in an `i32` is left as it is by the wrap. */
  lemma WrapI32Fits(x: int)
    requires I32Min <= x <= I32Max
    ensures WrapI32(x) == x
  {
  }

  /** The values of a Rust `i32`. */
  type I32 = x: int | I32Min <= x <= I32Max

  /** The target window's screen rectangle; its fields are `i32`. */
  datatype WindowRect = WindowRect(left: I32, top: I32, right: I32, bottom: I32)

  /** The overlay is 15 px narrower and 40 px shorter than the target window. */
  const WidthInset: int := 15
  const HeightInset: int := 40

  /** The window attributes `create_overlay` builds. */
  datatype WindowAttributes = WindowAttributes(
    title: string,
    innerSize: (real, real),
    position: (real, real),
    transparent: bool,
    decorations: bool,
    alwaysOnTop: bool)

  /** The overlay's size in `i32` arithmetic: each subtraction wraps on overflow. */
  function OverlaySize(t: WindowRect): (s: (I32, I32))
    ensures (s.0 - (t.right - t.left - WidthInset)) % 0x1_0000_0000 == 0
    ensures (s.1 - (t.bottom - t.top - HeightInset)) % 0x1_0000_0000 == 0
  {
    (WrapI32(WrapI32(t.right - t.left) - WidthInset), WrapI32(WrapI32(t.bottom - t.top) - HeightInset))
  }

  /** When nothing overflows, the size is the exact difference less the insets. */
  lemma {:induction false} OverlaySizeExact(t: WindowRect)
    requires I32Min <= t.right - t.left - WidthInset && t.right - t.left <= I32Max
    requires I32Min <= t.bottom - t.top - HeightInset && t.bottom - t.top <= I32Max
    ensures OverlaySize(t) == (t.right - t.left - 15, t.bottom - t.top - 40)
  {
    WrapI32Fits(t.right - t.left);
    WrapI32Fits(t.right - t.left - WidthInset);
    WrapI32Fits(t.bottom - t.top);
    WrapI32Fits(t.bottom - t.top - HeightInset);
  }

  /**
   * Transparent, undecorated, always on top, at the target's top-left corner and
   * of the size above.
   */
  function OverlayAttributes(t: WindowRect, title: string): (a: WindowAttributes)
    ensures a.title == title && a.transparent && !a.decorations && a.alwaysOnTop
    ensures a.position == (t.left as real, t.top as real)
    ensures a.innerSize == (OverlaySize(t).0 as real, OverlaySize(t).1 as real)
  {
    var size := OverlaySize(t);
    WindowAttributes(title, (size.0 as real, size.1 as real), (t.left as real, t.top as real), true, false, true)
  }

  /**
   * Without overflow the overlay shares the target's top-left corner and ends 15 px
   * left of its right edge and 40 px above its bottom edge.
   */
  lemma OverlayInsetFromTarget(t: WindowRect, title: string)
    requires I32Min <= t.right - t.left - WidthInset && t.right - t.left <= I32Max
    requires I32Min <= t.bottom - t.top - HeightInset && t.bottom - t.top <= I32Max
    ensures var a := OverlayAttributes(t, title);
      && a.position.0 + a.innerSize.0 == (t.right - 15) as real
      && a.position.1 + a.innerSize.1 == (t.bottom - 40) as real
  {
    OverlaySizeExact(t);
  }

  /** What `create_overlay` hands back: the attributes it built and the native handle, made click-through. */
  datatype Overlay = Overlay(attributes: WindowAttributes, handle: int, clickThrough: bool)

  const RawHandleError: string := "Raw Window handle is invald!"
  const NativeHandleError: string := "HWND is invald!"

  /**
   * `create_overlay`. `rawHandle` is the outcome of asking the new window for its
   * raw handle and `toNative` the platform conversion to a native handle. A missing
   * raw handle fails first; a failed conversion fails second; otherwise the window
   * is made click-through and returned.
   */
  function CreateOverlay(t: WindowRect, title: string, rawHandle: Option<int>, toNative: int -> Option<int>)
    : (r: Result<Overlay>)
    ensures r.Ok? <==> rawHandle.Some? && toNative(rawHandle.value).Some?
    ensures rawHandle.None? ==> r == Err("Raw Window handle is invald!")
    ensures rawHandle.Some? && toNative(rawHandle.value).None? ==> r == Err("HWND is invald!")
    ensures r.Ok? ==> && r.value.handle == toNative(rawHandle.value).value
                      && r.value.clickThrough
                      && r.value.attributes == OverlayAttributes(t, title)
  {
    var attributes := OverlayAttributes(t, title);
    match rawHandle
    case None => Err(RawHandleError)
    case Some(h) =>
      match toNative(h)
      case None => Err(NativeHandleError)
      case Some(native) => Ok(Overlay(attributes, native, true))
  }
}
