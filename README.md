# ezwin helpers and key translation in Dafny

This project models the sequential helpers that the ezwin window code relies
on, and proves properties of them.

- `src/utilities.rs` supplies:
  - the word and byte splitting helpers and `is_flag_set`;
  - the Win32 style masks built by `get_window_style` and `get_window_ex_style`;
  - the process-wide cursor-visibility toggle `set_cursor_visibility`;
  - the decisions taken on what the OS reports: the Windows 10 build, dark-mode support and state, the DPI fallback and raw input;
  - the monitor and desktop rectangle arithmetic;
  - the cursor icon mapping `to_windows_cursor`.
- `src/window/input/key.rs` supplies the portable `Key` enumeration, with its discriminants, and its `From<VIRTUAL_KEY>` conversion.

Files:

- `wrappers.dfy` (`Wrappers`): `Option` and `Result`.
- `ints.dfy` (`Ints`): `i32`, `u32` and `u8` as bounded integers, with the wrap-around of release builds.
- `words.dfy` (`Words`): the word and byte helpers and `is_flag_set`, on bit-vectors.
- `styles.dfy` (`Styles`): the `Style` record and the two style masks.
  - The mask builders are methods that set and clear flags step by step, as the source does.
  - Each is proved equal to a flag-by-flag reference function.
- `cursor.dfy` (`Cursor`):
  - the cursor toggle, as a class holding the `HIDDEN` flag and a ghost log of the `ShowCursor` calls;
  - the icon mapping.
- `platform.dfy` (`Platform`): the OS-result decisions. What the OS call returned is a parameter.
- `monitor.dfy` (`Monitors`): `Monitor::position`, `Monitor::size` and `get_desktop_rect`.
- `keys.dfy` (`Keys`): the key enumeration and the virtual-key conversion.
  - The discriminants follow Rust's rule: an explicit `= n`, or the predecessor's plus one.
  - The conversion `FromVirtualKey` is the source's match, arm by arm, in source order.
  - The explicit `= n` values of the ASCII group are defined once, by `ExplicitDiscriminant`, a binary search over the position.
  - Three more tables are written as binary searches over integers, and restate a definition: `KeyAt` inverts `Position`, `KeyOfCode` inverts `Code`, `ArmsByCode` mirrors `FromVirtualKey`. They only keep the proofs over 164 variants and 142 arms small.
  - Each of the three is tied to its definition by a lemma: `PositionRoundTrip`, `CodeRoundTrip` and `ArmsByCodeAgree`. Every headline property is stated about `Position`, `Code`, `FromVirtualKey` and the per-key table `ArmFor`; the lemmas about the three are steps towards them.
  - Lemmas whose name ends in `On` and a bound each prove one range of the lemma of the same name.

## Model

| member | source | states |
|---|---|---|
| Words.WordRoundTrip | src/utilities.rs:54-68 | putting `hi_word(d)` back above `lo_word(d)` gives `d`, for every dword |
| Words.WordSplitRoundTrip | src/utilities.rs:58-68 | `hi_word` and `lo_word` of a dword built from two words give those words back |
| Words.ByteRoundTrip | src/utilities.rs:70-84 | putting `hi_byte(w)` back above `lo_byte(w)` gives `w`, for every word |
| Words.ByteSplitRoundTrip | src/utilities.rs:74-84 | `hi_byte` and `lo_byte` of a word built from two bytes give those bytes back |
| Words.SignedWordsAgree | src/utilities.rs:54-68 | `signed_lo_word` and `signed_hi_word` have the same bits as `lo_word` and `hi_word`: the sign bits the arithmetic shift copies in are cut off by the cast |
| Words.SignedBytesAgree | src/utilities.rs:70-84 | `signed_lo_byte` and `signed_hi_byte` have the same bits as `lo_byte` and `hi_byte` |
| Words.SignedHiWord | src/utilities.rs:62-64 | the signed high word is negative exactly when the dword is |
| Words.SignedHiByte | src/utilities.rs:78-80 | the signed high byte is negative exactly when the word is |
| Words.LoWord | src/utilities.rs:58-60 | no contract: the low 16 bits of the dword (`as u16`); its partner is `Words.WordRoundTrip` |
| Words.HiWord | src/utilities.rs:66-68 | no contract: the dword shifted right by 16, cut to 16 bits; its partner is `Words.WordRoundTrip` |
| Words.SignedLoWord | src/utilities.rs:54-56 | no contract: the low 16 bits of the signed dword (`as i16`); its partner is `Words.SignedWordsAgree` |
| Words.LoByte | src/utilities.rs:74-76 | no contract: the low 8 bits of the word (`as u8`); its partner is `Words.ByteRoundTrip` |
| Words.HiByte | src/utilities.rs:82-84 | no contract: the word shifted right by 8, cut to 8 bits; its partner is `Words.ByteRoundTrip` |
| Words.SignedLoByte | src/utilities.rs:70-72 | no contract: the low 8 bits of the signed word (`as i8`); its partner is `Words.SignedBytesAgree` |
| Words.IsFlagSet | src/utilities.rs:331-336 | the flag is set iff none of its bits is missing from the value, iff OR-ing it in changes nothing |
| Words.FlagSetAndClear | src/utilities.rs:331-336 | an OR-ed-in flag is set; a cleared flag is set only if it is empty; the empty flag is always set |
| Styles.GetWindowStyle | src/utilities.rs:183-209 | the step-by-step mask equals the flag-by-flag reference `NativeStyle`; no resize flag unless resizeable; `WS_VISIBLE` iff shown; `WS_CLIPSIBLINGS` always; borderless gives `WS_POPUP` and no `WS_OVERLAPPEDWINDOW` bit; hidden decorations give neither `WS_CAPTION` nor `WS_BORDER` |
| Styles.GetWindowExStyle | src/utilities.rs:211-224 | the mask equals `NativeExStyle`; it always has `WS_EX_APPWINDOW`; it has `WS_EX_WINDOWEDGE` iff not borderless and decorations are shown; it has no other bit |
| Styles.StyleFlagDependencies | src/utilities.rs:183-209 | each flag group of the style depends only on the named `Style` fields |
| Styles.StyleBitsComeFromKnownFlags | src/utilities.rs:184-209 | the style holds only the base, resize, visibility and popup flags; a popup only when borderless |
| Styles.EdgeAccompaniesCaption | src/utilities.rs:183-224 | the extended style has the window edge iff the style has the title bar, iff it has the border |
| Styles.BorderlessOverridesDecorations | src/utilities.rs:199-223 | for a borderless window, resizeability and decorations do not change the style, and the extended style is just `WS_EX_APPWINDOW` |
| Cursor.AfterSetVisibility | src/utilities.rs:252-259 | no contract: one call on the value state (swap the flag, log `ShowCursor(!hidden)` when it changed); its properties are the Cursor lemmas below |
| Cursor.CursorVisibility.constructor | src/utilities.rs:254 | `HIDDEN` starts false, with no `ShowCursor` call made |
| Cursor.CursorVisibility.SetCursorVisibility | src/utilities.rs:252-259 | afterwards `hidden == (visible == Hidden)`; `ShowCursor(!hidden)` is logged exactly when the flag changed; flag and log stay in step |
| Cursor.SetVisibilityIdempotent | src/utilities.rs:252-259 | repeating a call changes nothing; setting the current visibility changes nothing |
| Cursor.ShowCursorOnTransitionOnly | src/utilities.rs:252-259 | one `ShowCursor` call is added exactly on a change, and it passes the new visibility |
| Cursor.SetVisibilityKeepsSync | src/utilities.rs:252-259 | every call keeps the calls alternating and the flag equal to their parity |
| Cursor.AlternatingDisplayCount | src/utilities.rs:256-258 | alternating calls keep the modelled display counter (from 0, counting only this toggle's calls) at 0 or -1 |
| Cursor.InSyncCursorDrawn | src/utilities.rs:252-259 | with flag and calls in step, the modelled display counter is not negative, so the cursor is drawn, iff the flag says it is not hidden |
| Cursor.ToWindowsCursor | src/utilities.rs:402-431 | every icon gets a stock cursor; the arrow exactly for `Default` and unmapped icons |
| Cursor.ResizeIconsUseTheirAxis | src/utilities.rs:402-431 | every edge and corner resize icon gets the sizing arrow along its own axis |
| Ints.WrapInt32 | src/utilities.rs:245-246 | the wrapped `i32` is congruent to the exact sum modulo 2^32 and equals it when it fits |
| Ints.AsDword | src/utilities.rs:383-384 | `as u32` keeps the bits: congruent modulo 2^32, unchanged when not negative, 2^31 or more when negative |
| Ints.AsDwordRoundTrip | src/utilities.rs:383-384 | reading the `u32` back as `i32` gives the original value |
| Platform.Windows10BuildVersion | src/utilities.rs:124-153 | the build is reported iff `RtlGetVersion` was found, succeeded (`status >= 0`) and reported 10.0; it is then the build number |
| Platform.IsDarkModeSupported | src/utilities.rs:155-165 | supported iff a build is known and it is at least 17763 |
| Platform.DarkModeSupportedOn | src/utilities.rs:141-163 | dark mode is supported iff the version call succeeded on Windows 10.0 with a build of 17763 or later |
| Platform.IsColorLight | src/utilities.rs:179-181 | light iff 5 G + 2 R + B is at least 1025; that sum never exceeds 2040, so the `u32` cannot wrap |
| Platform.ColorLightMonotone | src/utilities.rs:179-181 | raising any channel keeps a light colour light; alpha plays no part |
| Platform.ColorLightExamples | src/utilities.rs:179-181 | white is light, the default colour is not; green outweighs red and blue together; the threshold lies between grey 128 and 129 in red |
| Platform.IsSystemDarkModeEnabled | src/utilities.rs:167-176 | panics iff the `UISettings` object cannot be created; otherwise dark iff the foreground colour is light, and an unreadable foreground counts as black, so not dark |
| Platform.HwndDpi | src/utilities.rs:267-277 | panics iff the device context is invalid; otherwise never 0: the window DPI, or 96 where `GetDpiForWindow` gave 0 |
| Platform.ReadRawInput | src/utilities.rs:309-329 | no record iff the status is `u32::MAX` or 0; otherwise the filled-in record |
| Platform.AllMiceAndKeyboards | src/utilities.rs:283-298 | two devices, mouse then keyboard, both generic desktop page, `RIDEV_DEVNOTIFY`, for the given window |
| Platform.RegisterAllMiceAndKeyboards | src/utilities.rs:279-301 | the two devices are handed to the registration call, and `true` means that call failed |
| Platform.RegisterRawInputDevices | src/utilities.rs:303-307 | true iff the registration failed |
| Monitors.Extent | src/utilities.rs:383-384 | `(to - from) as u32` carries `from` to `to` modulo 2^32 and is the plain difference when that is not negative |
| Monitors.MonitorPosition | src/utilities.rs:364-375 | the monitor's top-left corner, or (0, 0) without monitor information |
| Monitors.MonitorSize | src/utilities.rs:377-388 | the width and height of the monitor rectangle, modulo 2^32 and exact when not inverted; (0, 0) without monitor information |
| Monitors.PositionAndSizeRebuildRect | src/utilities.rs:364-388 | position and size give the monitor rectangle back |
| Monitors.InvertedRectWraps | src/utilities.rs:383-384 | an inverted rectangle gets the negative difference plus 2^32 as its width; when the difference fits in `i32`, that is 2^31 or more |
| Monitors.GetDesktopRect | src/utilities.rs:239-250 | the desktop rectangle starts at the virtual-screen origin, and its extent is the virtual-screen size modulo 2^32 (exactly, when the sum fits) |
| Monitors.DesktopRectAsMonitor | src/utilities.rs:239-250 | read as a monitor rectangle, the desktop has the metrics' origin and, with `as u32`, their size |
| Keys.PositionRoundTrip | src/window/input/key.rs:4-172 | every variant sits at its own position in the declaration |
| Keys.Discriminant | src/window/input/key.rs:4-172 | no contract: the explicit `= n` through `Accent`, then `Escape = 256` and one more for each later variant; its properties are the discriminant lemmas below |
| Keys.Code | src/window/input/key.rs:4-172 | no contract: `k as u32`, the discriminant at the variant's position; its partner is `Keys.CodeRoundTrip` |
| Keys.ExplicitDiscriminant | src/window/input/key.rs:6-57 | the explicit discriminants of the ASCII group are below 256 |
| Keys.ExplicitDiscriminantsIncrease | src/window/input/key.rs:6-57 | the explicit discriminants increase along the declaration |
| Keys.AsciiDiscriminantsDecode | src/window/input/key.rs:6-57 | `KeyOfCode` finds each ASCII-group variant from its discriminant |
| Keys.LaterDiscriminantsDecode | src/window/input/key.rs:58-171 | `KeyOfCode` finds each later variant from its implicit discriminant |
| Keys.CodeRoundTrip | src/window/input/key.rs:4-172 | every variant is recovered from its discriminant |
| Keys.CodeInjective | src/window/input/key.rs:4-172 | the discriminants are pairwise distinct |
| Keys.KeyOfCodeInjective | src/window/input/key.rs:4-172 | no two numbers are the discriminant of the same variant |
| Keys.KeyOfCodeSound | src/window/input/key.rs:4-172 | a variant found for a number has that number as its discriminant |
| Keys.AsciiGroupBelow256 | src/window/input/key.rs:6-57 | a variant is in the ASCII group iff its discriminant is below 256 |
| Keys.EscapeIs256 | src/window/input/key.rs:59 | `Escape` and no other variant has the discriminant 256 |
| Keys.DiscriminantsIncrease | src/window/input/key.rs:4-172 | discriminants increase strictly along the declaration |
| Keys.SuccessorDiscriminantIncreases | src/window/input/key.rs:4-172 | each variant's discriminant is above its predecessor's |
| Keys.SuccessorDiscriminantAfterEscape | src/window/input/key.rs:59-171 | from `Escape` on, each variant is its predecessor plus one |
| Keys.FromVirtualKey | src/window/input/key.rs:174-343 | no contract: the 142 arms in source order, then `Unknown`; its properties are the conversion lemmas below |
| Keys.ArmsByCodeAgree | src/window/input/key.rs:174-343 | the sorted table of arms gives the same key as the match, for every code |
| Keys.ProducedKeysHaveArms | src/window/input/key.rs:178-340 | every variant other than `Unknown` and the 21 never-produced ones has an arm |
| Keys.ArmsByCodeOfArm | src/window/input/key.rs:178-340 | the sorted table maps each arm's code back to that arm's key |
| Keys.TranslationOfArm | src/window/input/key.rs:178-340 | a variant with an arm is what that arm's code translates to |
| Keys.ArmsByCodeInjective | src/window/input/key.rs:178-340 | no two codes of the sorted table give the same key other than `Unknown` |
| Keys.FromVirtualKeyInjective | src/window/input/key.rs:178-340 | no two codes translate to the same key, except into `Unknown` |
| Keys.ArmsByCodeNeverProduce | src/window/input/key.rs:255-340 | the sorted table never gives one of the 21 variants without an arm |
| Keys.NeverProducedKeys | src/window/input/key.rs:255-340 | `Caret`, `NumComma`, `NumEnter`, `NumEquals`, `Asterisk`, `At`, `Calculator`, `Colon`, `MyComputer`, `NavigateForward`, `NavigateBackward`, `Plus`, `Power`, `Stop`, `SysRq`, `Underline`, `Wake`, `Yen`, `Paste`, `Cut` and `F25` are never produced |
| Keys.ArmOfTranslation | src/window/input/key.rs:178-341 | a code that translates to a key other than `Unknown` is that key's arm |
| Keys.UnlistedCodesAreUnknown | src/window/input/key.rs:174-343 | a code translates to `Unknown` iff no arm names it |
| Keys.DigitAndLetterArms | src/window/input/key.rs:178-213 | a digit or letter code translates to the variant `KeyOfCode` finds for it |
| Keys.DigitAndLetterCodes | src/window/input/key.rs:178-213 | a digit or letter code translates to the variant whose discriminant is that code |
| Keys.ReturnIsEnter | src/window/input/key.rs:253 | `VK_RETURN` is `Enter`, not `NumEnter` |
| Keys.PageKeys | src/window/input/key.rs:246-247 | `VK_PRIOR` is `PageUp` and `VK_NEXT` is `PageDown` |
| Keys.OemPlusIsEquals | src/window/input/key.rs:289 | `VK_OEM_PLUS` is `Equals` |
| Keys.GenericModifiersAreUnknown | src/window/input/key.rs:178-341 | the generic `VK_SHIFT`, `VK_CONTROL` and `VK_MENU` fall to `Unknown` |
| Keys.SidedModifiersAreMapped | src/window/input/key.rs:293-317 | the left and right shift, control and alt codes are mapped |

## Left out

- Foreign calls are not modelled: `RtlGetVersion`, `UISettings`, `GetSystemMetrics`, `GetDC`, `GetDpiForWindow`, `RegisterRawInputDevices`, `GetRawInputData`, `GetMonitorInfoW`, `GetDpiForMonitor` and `ShowCursor`. Their results are parameters, and `ShowCursor`'s arguments go into a ghost log.
- `get_function_impl` and the `get_function!` macro (`LoadLibraryA`, `GetProcAddress`, `transmute`): whether the function was found is the `Option` passed to `Windows10BuildVersion`.
- `set_cursor_clip` and `get_cursor_clip`: they only forward to `ClipCursor` and `GetClipCursor`.
- `dpi_to_scale_factor` and `Monitor::scale_factor`: floating point.
- The `OnceLock` caches of the build version, dark-mode support and the dark-mode state: only the value computed on first use is modelled.
- `HIDDEN` is an `AtomicBool` swapped with sequentially consistent ordering. The model is a single-threaded object with the same swap-then-compare behaviour.
- `hwnd_dpi` never releases the device context it obtains; the model has no resources.
- `Monitor::new` and `monitor_info` are not modelled. The `Option` of a rectangle passed to `MonitorPosition` and `MonitorSize` stands for what `monitor_info` returns.
- Window handles are opaque numbers. `RAWINPUT` records are a type parameter of `ReadRawInput`.
- `Style`, `Visibility`, `Fullscreen` and `CursorIcon` are defined in parts of the crate outside these two files. They are modelled from their use here. Every `CursorIcon` that `to_windows_cursor` does not name is `Other`.
- Words: signed Rust integers are carried as their two's-complement bit patterns.
- Words: Rust's `>>` on `i32` and `i16` is modelled as a sign-filling shift, in `ArithmeticShiftRight16` and `ArithmeticShiftRight8`. No separate contract relates it to division of the signed value.
- Words.IsFlagSet: the source is generic over any copyable type with `&` and `==`; the model fixes 32-bit masks, the width of the style flags it is used with.
- Cursor.AlternatingDisplayCount: the modelled counter starts at 0 and counts only this toggle's `ShowCursor` calls. Windows starts the counter at -1 when no mouse is installed, and other callers of `ShowCursor` change it too.
- Cursor.InSyncCursorDrawn: rests on the same counter, so the same assumptions apply.
- Cursor.CursorVisibility: `HIDDEN` is one static per process. The model does not prevent several `CursorVisibility` objects; each one stands for the whole process.
- Ints.WrapInt32: the `+` of `get_desktop_rect` and the `-` of `Monitor::size` wrap, as in release builds. A debug build would panic on overflow instead.
- Keys: Rust's variants `_0` to `_9` are named `Digit0` to `Digit9`.
- src/main.rs only builds a window and prints its events; it is not part of this model.
