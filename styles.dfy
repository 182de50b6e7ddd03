/**
 * The native window style masks of src/utilities.rs (`get_window_style`,
 * `get_window_ex_style`): a `Style` record becomes a 32-bit Win32
 * WINDOW_STYLE and a 32-bit WINDOW_EX_STYLE.
 *
 * The flag values are those of the Window Styles and Extended Window Styles
 * tables of the Win32 API (winuser.h).
 */
module Styles {
  import opened Wrappers
  import opened Words

  // Window Styles (winuser.h)
  const WS_OVERLAPPED: bv32 := 0x0000_0000
  const WS_POPUP: bv32 := 0x8000_0000
  const WS_VISIBLE: bv32 := 0x1000_0000
  const WS_CLIPSIBLINGS: bv32 := 0x0400_0000
  const WS_BORDER: bv32 := 0x0080_0000
  const WS_DLGFRAME: bv32 := 0x0040_0000
  /** A title bar; the flag includes WS_BORDER. */
  const WS_CAPTION: bv32 := WS_BORDER | WS_DLGFRAME
  const WS_SYSMENU: bv32 := 0x0008_0000
  const WS_THICKFRAME: bv32 := 0x0004_0000
  const WS_SIZEBOX: bv32 := WS_THICKFRAME
  const WS_MINIMIZEBOX: bv32 := 0x0002_0000
  const WS_MAXIMIZEBOX: bv32 := 0x0001_0000
  const WS_OVERLAPPEDWINDOW: bv32 :=
    WS_OVERLAPPED | WS_CAPTION | WS_SYSMENU | WS_THICKFRAME | WS_MINIMIZEBOX | WS_MAXIMIZEBOX

  // Extended Window Styles (winuser.h)
  const WS_EX_WINDOWEDGE: bv32 := 0x0000_0100
  const WS_EX_CLIENTEDGE: bv32 := 0x0000_0200
  const WS_EX_APPWINDOW: bv32 := 0x0004_0000
  const WS_EX_OVERLAPPEDWINDOW: bv32 := WS_EX_WINDOWEDGE | WS_EX_CLIENTEDGE

  /** The three buttons and the sizing border a resizeable window gets. */
  const ResizeFlags: bv32 := WS_SIZEBOX | WS_MAXIMIZEBOX | WS_MINIMIZEBOX

  datatype Visibility = Shown | Hidden

  /** The only fullscreen mode; "not fullscreen" is `None` of an Option. */
  datatype Fullscreen = Borderless

  /** The window's current style configuration. */
  datatype Style = Style(
    resizeable: bool,
    visibility: Visibility,
    decorations: Visibility,
    fullscreen: Option<Fullscreen>)

  predicate IsBorderless(info: Style) {
    info.fullscreen == Some(Borderless)
  }

  /** A window that is not borderless fullscreen and shows its decorations. */
  predicate IsDecorated(info: Style) {
    !IsBorderless(info) && info.decorations == Shown
  }

  /**
   * The window style, flag by flag: the condition under which each flag
   * appears in the mask `get_window_style` builds.
   */
  function NativeStyle(info: Style): bv32 {
    WS_CLIPSIBLINGS
    | (if IsDecorated(info) then WS_CAPTION else 0)
    | (if !IsBorderless(info) then WS_SYSMENU else 0)
    | (if info.resizeable && !IsBorderless(info) then ResizeFlags else 0)
    | (if info.visibility == Shown then WS_VISIBLE else 0)
    | (if IsBorderless(info) then WS_POPUP else 0)
  }

  /** The extended window style, flag by flag. */
  function NativeExStyle(info: Style): bv32 {
    WS_EX_APPWINDOW | (if IsDecorated(info) then WS_EX_WINDOWEDGE else 0)
  }

  /** `get_window_style`: start from a base mask, then set and clear flags in turn. */
  method GetWindowStyle(info: Style) returns (style: bv32)
    ensures style == NativeStyle(info)
    ensures !info.resizeable ==> HasNone(style, ResizeFlags)
    ensures IsFlagSet(style, WS_VISIBLE) <==> info.visibility == Shown
    ensures IsFlagSet(style, WS_CLIPSIBLINGS)
    ensures IsBorderless(info) ==> IsFlagSet(style, WS_POPUP) && HasNone(style, WS_OVERLAPPEDWINDOW)
    ensures info.decorations == Hidden ==> HasNone(style, WS_CAPTION | WS_BORDER)
  {
    style := WS_CAPTION | WS_BORDER | WS_CLIPSIBLINGS | WS_SYSMENU;

    if info.resizeable {
      style := style | WS_SIZEBOX;
      style := style | WS_MAXIMIZEBOX;
      style := style | WS_MINIMIZEBOX;
    }

    if info.visibility == Shown {
      style := style | WS_VISIBLE;
    }

    if info.fullscreen == Some(Borderless) {
      style := style & !WS_OVERLAPPEDWINDOW;
      style := style | WS_POPUP;
    }

    if info.decorations == Hidden {
      style := style & !(WS_CAPTION | WS_BORDER);
    }
  }

  /** `get_window_ex_style`: the same scheme for the extended style. */
  method GetWindowExStyle(info: Style) returns (style: bv32)
    ensures style == NativeExStyle(info)
    ensures IsFlagSet(style, WS_EX_APPWINDOW)
    ensures IsFlagSet(style, WS_EX_WINDOWEDGE) <==> !IsBorderless(info) && info.decorations == Shown
    ensures HasNone(style, !(WS_EX_APPWINDOW | WS_EX_WINDOWEDGE))
  {
    style := WS_EX_WINDOWEDGE | WS_EX_APPWINDOW;

    if info.fullscreen == Some(Borderless) {
      style := style & !WS_EX_OVERLAPPEDWINDOW;
    }

    if info.decorations == Hidden {
      style := style & !WS_EX_WINDOWEDGE;
    }
  }

  /**
   * Each flag of the window style depends only on the fields named here:
   * two styles that agree on those fields agree on that flag.
   */
  lemma StyleFlagDependencies(a: Style, b: Style)
    ensures a.visibility == b.visibility ==>
      NativeStyle(a) & WS_VISIBLE == NativeStyle(b) & WS_VISIBLE
    ensures a.fullscreen == b.fullscreen ==>
      NativeStyle(a) & (WS_POPUP | WS_SYSMENU) == NativeStyle(b) & (WS_POPUP | WS_SYSMENU)
    ensures a.fullscreen == b.fullscreen && a.decorations == b.decorations ==>
      NativeStyle(a) & WS_CAPTION == NativeStyle(b) & WS_CAPTION
    ensures a.fullscreen == b.fullscreen && a.resizeable == b.resizeable ==>
      NativeStyle(a) & ResizeFlags == NativeStyle(b) & ResizeFlags
    ensures NativeStyle(a) & WS_CLIPSIBLINGS == NativeStyle(b) & WS_CLIPSIBLINGS
  {
  }

  /**
   * After the base mask and the optional resize and visibility flags, the
   * later steps only clear bits or add WS_POPUP: no other flag can appear.
   */
  lemma StyleBitsComeFromKnownFlags(info: Style)
    ensures HasNone(NativeStyle(info),
      !(WS_CAPTION | WS_BORDER | WS_CLIPSIBLINGS | WS_SYSMENU | ResizeFlags | WS_VISIBLE | WS_POPUP))
    ensures !IsBorderless(info) ==> !IsFlagSet(NativeStyle(info), WS_POPUP)
  {
  }

  /** The window edge of the extended style accompanies the title bar of the style. */
  lemma EdgeAccompaniesCaption(info: Style)
    ensures IsFlagSet(NativeExStyle(info), WS_EX_WINDOWEDGE) <==> IsFlagSet(NativeStyle(info), WS_CAPTION)
    ensures IsFlagSet(NativeExStyle(info), WS_EX_WINDOWEDGE) <==> IsFlagSet(NativeStyle(info), WS_BORDER)
  {
  }

  /**
   * A borderless fullscreen window keeps its visibility and is a popup without
   * decorations whatever its other fields say.
   */
  lemma BorderlessOverridesDecorations(info: Style)
    requires IsBorderless(info)
    ensures NativeStyle(info) == NativeStyle(info.(resizeable := false, decorations := Hidden))
    ensures NativeExStyle(info) == WS_EX_APPWINDOW
  {
  }
}
