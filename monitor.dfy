/**
 * Monitor and desktop geometry of src/utilities.rs: `Monitor::position`,
 * `Monitor::size` and `get_desktop_rect`.
 *
 * RECT coordinates are `i32`. The source's `+` and `-` on them can leave
 * the range; they are modelled as wrapping, as Rust's release builds do.
 */
module Monitors {
  import opened Wrappers
  import opened Ints

  /** A Win32 RECT. */
  datatype Rect = Rect(left: Int32, top: Int32, right: Int32, bottom: Int32)

  datatype PhysicalPosition = PhysicalPosition(x: Int32, y: Int32)

  datatype PhysicalSize = PhysicalSize(width: Dword, height: Dword)

  /** `(to - from) as u32`, with the `i32` subtraction wrapping. */
  function Extent(from: Int32, to: Int32): (e: Dword)
    // the extent is the one that carries `from` to `to`, modulo 2^32
    ensures (from + e - to) % Modulus == 0
    ensures 0 <= to - from ==> e == to - from
  {
    AsDword(WrapInt32(to - from))
  }

  /**
   * `Monitor::position`, given the monitor rectangle `GetMonitorInfoW`
   * reported (`None` when it failed): its top-left corner, or (0, 0).
   */
  function MonitorPosition(rcMonitor: Option<Rect>): (p: PhysicalPosition)
    ensures rcMonitor.None? ==> p == PhysicalPosition(0, 0)
    ensures rcMonitor.Some? ==> p.x == rcMonitor.value.left && p.y == rcMonitor.value.top
  {
    match rcMonitor
    case None => PhysicalPosition(0, 0)
    case Some(rect) => PhysicalPosition(rect.left, rect.top)
  }

  /**
   * `Monitor::size`: `(right - left) as u32` by `(bottom - top) as u32`, or
   * (0, 0) when the monitor information is unavailable.
   */
  function MonitorSize(rcMonitor: Option<Rect>): (s: PhysicalSize)
    ensures rcMonitor.None? ==> s == PhysicalSize(0, 0)
    ensures rcMonitor.Some? ==>
      var rect := rcMonitor.value;
      (rect.left <= rect.right ==> s.width == rect.right - rect.left)
      && (rect.top <= rect.bottom ==> s.height == rect.bottom - rect.top)
      && (rect.left + s.width - rect.right) % Modulus == 0
      && (rect.top + s.height - rect.bottom) % Modulus == 0
  {
    match rcMonitor
    case None => PhysicalSize(0, 0)
    case Some(rect) => PhysicalSize(Extent(rect.left, rect.right), Extent(rect.top, rect.bottom))
  }

  /**
   * Position and size together give the monitor rectangle back (with the
   * same wrapping `+` as the source).
   */
  lemma PositionAndSizeRebuildRect(rect: Rect)
    ensures var p, s := MonitorPosition(Some(rect)), MonitorSize(Some(rect));
      Rect(p.x, p.y, WrapInt32(p.x + s.width), WrapInt32(p.y + s.height)) == rect
  {
  }

  /**
   * An inverted rectangle gets the negative difference plus 2^32 as its width:
   * a difference that fits in `i32` keeps its bits through `as u32`, one below
   * `i32::MIN` wraps to that same positive value first. When the difference
   * fits, the width is 2^31 or more, never a small one.
   */
  lemma InvertedRectWraps(rect: Rect)
    requires rect.right < rect.left
    ensures MonitorSize(Some(rect)).width == rect.right - rect.left + Modulus
    ensures -0x8000_0000 <= rect.right - rect.left ==> MonitorSize(Some(rect)).width >= 0x8000_0000
  {
  }

  /** The four virtual-screen metrics `GetSystemMetrics` reports. */
  datatype VirtualScreenMetrics = VirtualScreenMetrics(
    xVirtualScreen: Int32,
    yVirtualScreen: Int32,
    cxVirtualScreen: Int32,
    cyVirtualScreen: Int32)

  /**
   * `get_desktop_rect`: the bounding rectangle of all monitors, from its
   * top-left corner and its extent.
   */
  function GetDesktopRect(m: VirtualScreenMetrics): (rect: Rect)
    ensures rect.left == m.xVirtualScreen && rect.top == m.yVirtualScreen
    ensures (rect.right - rect.left - m.cxVirtualScreen) % Modulus == 0
    ensures (rect.bottom - rect.top - m.cyVirtualScreen) % Modulus == 0
    ensures -0x8000_0000 <= m.xVirtualScreen + m.cxVirtualScreen < 0x8000_0000 ==>
      rect.right == m.xVirtualScreen + m.cxVirtualScreen
    ensures -0x8000_0000 <= m.yVirtualScreen + m.cyVirtualScreen < 0x8000_0000 ==>
      rect.bottom == m.yVirtualScreen + m.cyVirtualScreen
  {
    var left := m.xVirtualScreen;
    var top := m.yVirtualScreen;
    Rect(left, top, WrapInt32(left + m.cxVirtualScreen), WrapInt32(top + m.cyVirtualScreen))
  }

  /**
   * Read back as a monitor rectangle, the desktop has the metrics' origin and
   * extent, even when `left + cx` wraps.
   */
  lemma DesktopRectAsMonitor(m: VirtualScreenMetrics)
    ensures MonitorPosition(Some(GetDesktopRect(m))) == PhysicalPosition(m.xVirtualScreen, m.yVirtualScreen)
    ensures MonitorSize(Some(GetDesktopRect(m))) ==
      PhysicalSize(AsDword(m.cxVirtualScreen), AsDword(m.cyVirtualScreen))
  {
  }
}
