/**
 * The decisions src/utilities.rs takes on what the operating system reports:
 * Windows 10 build detection, dark-mode support and state, the window DPI
 * fallback and the raw-input wrappers. What the OS call returned is a
 * parameter of each function here.
 */
module Platform {
  import opened Wrappers
  import opened Ints

  /** An NTSTATUS; negative values are errors. */
  type NtStatus = Int32

  /** The status `RtlGetVersion` returned, with the version fields it filled in. */
  datatype OsVersionInfo = OsVersionInfo(
    status: NtStatus,
    majorVersion: Dword,
    minorVersion: Dword,
    buildNumber: Dword)

  /** The first Windows 10 build with a dark mode (the October 2018 update). */
  const DarkModeMinimumBuild: Dword := 17763

  /**
   * `windows_10_build_version`: the build number, when `RtlGetVersion` could be
   * loaded (`Some`), succeeded and reported version 10.0.
   */
  function Windows10BuildVersion(rtlGetVersion: Option<OsVersionInfo>): (build: Option<Dword>)
    ensures build.Some? <==>
      rtlGetVersion.Some?
      && rtlGetVersion.value.status >= 0
      && rtlGetVersion.value.majorVersion == 10
      && rtlGetVersion.value.minorVersion == 0
    ensures build.Some? ==> build.value == rtlGetVersion.value.buildNumber
  {
    match rtlGetVersion
    case None => None
    case Some(vi) =>
      if vi.status >= 0 && vi.majorVersion == 10 && vi.minorVersion == 0 then Some(vi.buildNumber)
      else None
  }

  /** `is_dark_mode_supported`, given the build version. */
  function IsDarkModeSupported(buildVersion: Option<Dword>): (r: bool)
    ensures r <==> buildVersion.Some? && buildVersion.value >= DarkModeMinimumBuild
  {
    match buildVersion
    case Some(v) => v >= DarkModeMinimumBuild
    case None => false
  }

  /** Dark mode is supported exactly on a successful Windows 10.0 of build 17763 or later. */
  lemma DarkModeSupportedOn(rtlGetVersion: Option<OsVersionInfo>)
    ensures IsDarkModeSupported(Windows10BuildVersion(rtlGetVersion)) <==>
      rtlGetVersion.Some?
      && rtlGetVersion.value.status >= 0
      && rtlGetVersion.value.majorVersion == 10
      && rtlGetVersion.value.minorVersion == 0
      && rtlGetVersion.value.buildNumber >= 17763
  {
  }

  /** The panics of these helpers: `hwnd_dpi`'s and the `UISettings` unwrap. */
  datatype Panic = InvalidDeviceContext | SettingsUnavailable

  /** A `windows::UI::Color`; its `Default` is all zeros. */
  datatype Color = Color(a: Byte, r: Byte, g: Byte, b: Byte)

  const DefaultColor: Color := Color(0, 0, 0, 0)

  /**
   * `is_color_light`: a weighted luminance 5 G + 2 R + B out of 8 parts is
   * above half of 256. The sum is at most 2040, so its `u32` never wraps.
   */
  function IsColorLight(clr: Color): (light: bool)
    ensures light <==> 5 * clr.g + 2 * clr.r + clr.b >= 1025
    ensures 5 * clr.g + 2 * clr.r + clr.b <= 2040
  {
    (5 * clr.g + 2 * clr.r + clr.b) > 8 * 128
  }

  /** Lightness ignores alpha and grows with every channel. */
  lemma ColorLightMonotone(c: Color, d: Color)
    requires c.r <= d.r && c.g <= d.g && c.b <= d.b
    ensures IsColorLight(c) ==> IsColorLight(d)
  {
  }

  lemma ColorLightExamples()
    ensures IsColorLight(Color(255, 255, 255, 255))
    ensures !IsColorLight(DefaultColor)
    ensures IsColorLight(Color(255, 0, 255, 0)) && !IsColorLight(Color(255, 255, 0, 255))
    ensures !IsColorLight(Color(255, 128, 128, 128)) && IsColorLight(Color(255, 129, 128, 128))
  {
  }

  /**
   * `is_system_dark_mode_enabled`: panics when the `UISettings` object cannot
   * be created; otherwise the theme is dark when its foreground (text) colour
   * is light, and a foreground the settings cannot report counts as the
   * default colour, black.
   */
  function IsSystemDarkModeEnabled(settingsCreated: bool, foreground: Option<Color>): (r: Result<bool, Panic>)
    ensures r.Err? <==> !settingsCreated
    ensures r.Err? ==> r.error == SettingsUnavailable
    ensures r.Ok? && foreground.None? ==> !r.value
    ensures r.Ok? && foreground.Some? ==> (r.value <==> IsColorLight(foreground.value))
  {
    if !settingsCreated then Err(SettingsUnavailable)
    else Ok(IsColorLight(foreground.GetOr(DefaultColor)))
  }

  /** The DPI Windows treats as a scale factor of 1. */
  const BaseDpi: Dword := 96


  /**
   * `hwnd_dpi`: panics when the window's device context is invalid; otherwise
   * the window's DPI, with 0 (what `GetDpiForWindow` returns for an invalid
   * window) replaced by the base DPI.
   */
  function HwndDpi(deviceContextValid: bool, dpiForWindow: Dword): (r: Result<Dword, Panic>)
    ensures r.Err? <==> !deviceContextValid
    ensures r.Err? ==> r.error == InvalidDeviceContext
    ensures r.Ok? ==> r.value != 0
    ensures r.Ok? ==> (r.value == dpiForWindow <==> dpiForWindow != 0)
    ensures r.Ok? && dpiForWindow == 0 ==> r.value == BaseDpi
  {
    if !deviceContextValid then Err(InvalidDeviceContext)
    else if dpiForWindow == 0 then Ok(BaseDpi)
    else Ok(dpiForWindow)
  }

  /**
   * `read_raw_input`: the filled-in record, unless `GetRawInputData` returned
   * `u32::MAX` (an error) or 0 (nothing copied).
   */
  function ReadRawInput<T>(status: Dword, data: T): (r: Option<T>)
    ensures r.None? <==> status == DwordMax || status == 0
    ensures r.Some? ==> r.value == data
  {
    if status == DwordMax || status == 0 then None else Some(data)
  }

  // HID usage identifiers and raw-input flags (hidusage.h, winuser.h)
  const HidUsagePageGeneric: nat := 0x01
  const HidUsageGenericMouse: nat := 0x02
  const HidUsageGenericKeyboard: nat := 0x06
  const RidevDevNotify: Dword := 0x2000

  /** A RAWINPUTDEVICE entry; the window handle is an opaque number. */
  datatype RawInputDevice = RawInputDevice(usagePage: nat, usage: nat, flags: Dword, hwndTarget: nat)

  /**
   * The device list of `register_all_mice_and_keyboards_for_raw_input`: every
   * mouse, then every keyboard, each with hot-plug notifications, for `hwnd`.
   */
  function AllMiceAndKeyboards(hwnd: nat): (devices: seq<RawInputDevice>)
    ensures |devices| == 2
    ensures forall d :: d in devices ==>
      d.usagePage == HidUsagePageGeneric && d.flags == RidevDevNotify && d.hwndTarget == hwnd
    ensures devices[0].usage == HidUsageGenericMouse && devices[1].usage == HidUsageGenericKeyboard
  {
    [ RawInputDevice(HidUsagePageGeneric, HidUsageGenericMouse, RidevDevNotify, hwnd),
      RawInputDevice(HidUsagePageGeneric, HidUsageGenericKeyboard, RidevDevNotify, hwnd) ]
  }

  /**
   * `register_all_mice_and_keyboards_for_raw_input`: hands the device list to
   * `register`, which stands for `RegisterRawInputDevices`. Like
   * `register_raw_input_devices`, `true` means the registration FAILED.
   */
  function RegisterAllMiceAndKeyboards<E>(hwnd: nat, register: seq<RawInputDevice> -> Result<(), E>): (failed: bool)
    ensures failed <==> register(AllMiceAndKeyboards(hwnd)).Err?
  {
    RegisterRawInputDevices(register(AllMiceAndKeyboards(hwnd)))
  }

  /**
   * `register_raw_input_devices`, given what `RegisterRawInputDevices`
   * returned: it reports `is_err()`, so `true` means the registration FAILED.
   */
  function RegisterRawInputDevices<E>(registration: Result<(), E>): (failed: bool)
    ensures failed <==> registration.Err?
  {
    registration.Err?
  }
}
