/**
 * The portable key enumeration of src/window/input/key.rs and its
 * `From<VIRTUAL_KEY>` conversion from 16-bit Win32 virtual-key codes.
 *
 * Several tables below are written as binary searches over integers.
 * Three of them state nothing new: `KeyAt` inverts `Position`, `KeyOfCode`
 * inverts `Code` and `ArmsByCode` mirrors `FromVirtualKey`, each tied to
 * that definition by a lemma; they exist so that the proofs about 164
 * variants and 142 arms stay small. The fourth, `ExplicitDiscriminant`,
 * mirrors nothing: it is the one definition of the ASCII group's `= n`
 * values. Lemmas whose name ends in `On` and a hexadecimal bound prove one
 * range of codes of the lemma without that suffix.
 */
module Keys {
  import opened Wrappers

  /** `VIRTUAL_KEY`: a 16-bit unsigned virtual-key code. */
  type VirtualKey = x: int | 0 <= x < 0x1_0000

  // Win32 virtual-key codes (Virtual-Key Codes table, winuser.h), by value.
  const VK_BACK: VirtualKey := 0x08
  const VK_TAB: VirtualKey := 0x09
  const VK_RETURN: VirtualKey := 0x0D
  const VK_SHIFT: VirtualKey := 0x10
  const VK_CONTROL: VirtualKey := 0x11
  const VK_MENU: VirtualKey := 0x12
  const VK_PAUSE: VirtualKey := 0x13
  const VK_CAPITAL: VirtualKey := 0x14
  const VK_KANA: VirtualKey := 0x15
  const VK_KANJI: VirtualKey := 0x19
  const VK_ESCAPE: VirtualKey := 0x1B
  const VK_CONVERT: VirtualKey := 0x1C
  const VK_NONCONVERT: VirtualKey := 0x1D
  const VK_SPACE: VirtualKey := 0x20
  const VK_PRIOR: VirtualKey := 0x21
  const VK_NEXT: VirtualKey := 0x22
  const VK_END: VirtualKey := 0x23
  const VK_HOME: VirtualKey := 0x24
  const VK_LEFT: VirtualKey := 0x25
  const VK_UP: VirtualKey := 0x26
  const VK_RIGHT: VirtualKey := 0x27
  const VK_DOWN: VirtualKey := 0x28
  const VK_SNAPSHOT: VirtualKey := 0x2C
  const VK_INSERT: VirtualKey := 0x2D
  const VK_DELETE: VirtualKey := 0x2E
  const VK_0: VirtualKey := 0x30
  const VK_1: VirtualKey := 0x31
  const VK_2: VirtualKey := 0x32
  const VK_3: VirtualKey := 0x33
  const VK_4: VirtualKey := 0x34
  const VK_5: VirtualKey := 0x35
  const VK_6: VirtualKey := 0x36
  const VK_7: VirtualKey := 0x37
  const VK_8: VirtualKey := 0x38
  const VK_9: VirtualKey := 0x39
  const VK_A: VirtualKey := 0x41
  const VK_B: VirtualKey := 0x42
  const VK_C: VirtualKey := 0x43
  const VK_D: VirtualKey := 0x44
  const VK_E: VirtualKey := 0x45
  const VK_F: VirtualKey := 0x46
  const VK_G: VirtualKey := 0x47
  const VK_H: VirtualKey := 0x48
  const VK_I: VirtualKey := 0x49
  const VK_J: VirtualKey := 0x4A
  const VK_K: VirtualKey := 0x4B
  const VK_L: VirtualKey := 0x4C
  const VK_M: VirtualKey := 0x4D
  const VK_N: VirtualKey := 0x4E
  const VK_O: VirtualKey := 0x4F
  const VK_P: VirtualKey := 0x50
  const VK_Q: VirtualKey := 0x51
  const VK_R: VirtualKey := 0x52
  const VK_S: VirtualKey := 0x53
  const VK_T: VirtualKey := 0x54
  const VK_U: VirtualKey := 0x55
  const VK_V: VirtualKey := 0x56
  const VK_W: VirtualKey := 0x57
  const VK_X: VirtualKey := 0x58
  const VK_Y: VirtualKey := 0x59
  const VK_Z: VirtualKey := 0x5A
  const VK_LWIN: VirtualKey := 0x5B
  const VK_RWIN: VirtualKey := 0x5C
  const VK_APPS: VirtualKey := 0x5D
  const VK_SLEEP: VirtualKey := 0x5F
  const VK_NUMPAD0: VirtualKey := 0x60
  const VK_NUMPAD1: VirtualKey := 0x61
  const VK_NUMPAD2: VirtualKey := 0x62
  const VK_NUMPAD3: VirtualKey := 0x63
  const VK_NUMPAD4: VirtualKey := 0x64
  const VK_NUMPAD5: VirtualKey := 0x65
  const VK_NUMPAD6: VirtualKey := 0x66
  const VK_NUMPAD7: VirtualKey := 0x67
  const VK_NUMPAD8: VirtualKey := 0x68
  const VK_NUMPAD9: VirtualKey := 0x69
  const VK_MULTIPLY: VirtualKey := 0x6A
  const VK_ADD: VirtualKey := 0x6B
  const VK_SUBTRACT: VirtualKey := 0x6D
  const VK_DECIMAL: VirtualKey := 0x6E
  const VK_DIVIDE: VirtualKey := 0x6F
  const VK_F1: VirtualKey := 0x70
  const VK_F2: VirtualKey := 0x71
  const VK_F3: VirtualKey := 0x72
  const VK_F4: VirtualKey := 0x73
  const VK_F5: VirtualKey := 0x74
  const VK_F6: VirtualKey := 0x75
  const VK_F7: VirtualKey := 0x76
  const VK_F8: VirtualKey := 0x77
  const VK_F9: VirtualKey := 0x78
  const VK_F10: VirtualKey := 0x79
  const VK_F11: VirtualKey := 0x7A
  const VK_F12: VirtualKey := 0x7B
  const VK_F13: VirtualKey := 0x7C
  const VK_F14: VirtualKey := 0x7D
  const VK_F15: VirtualKey := 0x7E
  const VK_F16: VirtualKey := 0x7F
  const VK_F17: VirtualKey := 0x80
  const VK_F18: VirtualKey := 0x81
  const VK_F19: VirtualKey := 0x82
  const VK_F20: VirtualKey := 0x83
  const VK_F21: VirtualKey := 0x84
  const VK_F22: VirtualKey := 0x85
  const VK_F23: VirtualKey := 0x86
  const VK_F24: VirtualKey := 0x87
  const VK_NUMLOCK: VirtualKey := 0x90
  const VK_SCROLL: VirtualKey := 0x91
  const VK_LSHIFT: VirtualKey := 0xA0
  const VK_RSHIFT: VirtualKey := 0xA1
  const VK_LCONTROL: VirtualKey := 0xA2
  const VK_RCONTROL: VirtualKey := 0xA3
  const VK_LMENU: VirtualKey := 0xA4
  const VK_RMENU: VirtualKey := 0xA5
  const VK_BROWSER_BACK: VirtualKey := 0xA6
  const VK_BROWSER_FORWARD: VirtualKey := 0xA7
  const VK_BROWSER_REFRESH: VirtualKey := 0xA8
  const VK_BROWSER_STOP: VirtualKey := 0xA9
  const VK_BROWSER_SEARCH: VirtualKey := 0xAA
  const VK_BROWSER_FAVORITES: VirtualKey := 0xAB
  const VK_BROWSER_HOME: VirtualKey := 0xAC
  const VK_VOLUME_MUTE: VirtualKey := 0xAD
  const VK_VOLUME_DOWN: VirtualKey := 0xAE
  const VK_VOLUME_UP: VirtualKey := 0xAF
  const VK_MEDIA_NEXT_TRACK: VirtualKey := 0xB0
  const VK_MEDIA_PREV_TRACK: VirtualKey := 0xB1
  const VK_MEDIA_STOP: VirtualKey := 0xB2
  const VK_MEDIA_PLAY_PAUSE: VirtualKey := 0xB3
  const VK_LAUNCH_MAIL: VirtualKey := 0xB4
  const VK_LAUNCH_MEDIA_SELECT: VirtualKey := 0xB5
  const VK_OEM_1: VirtualKey := 0xBA
  const VK_OEM_PLUS: VirtualKey := 0xBB
  const VK_OEM_COMMA: VirtualKey := 0xBC
  const VK_OEM_MINUS: VirtualKey := 0xBD
  const VK_OEM_PERIOD: VirtualKey := 0xBE
  const VK_OEM_2: VirtualKey := 0xBF
  const VK_OEM_3: VirtualKey := 0xC0
  const VK_ABNT_C1: VirtualKey := 0xC1
  const VK_ABNT_C2: VirtualKey := 0xC2
  const VK_OEM_4: VirtualKey := 0xDB
  const VK_OEM_5: VirtualKey := 0xDC
  const VK_OEM_6: VirtualKey := 0xDD
  const VK_OEM_7: VirtualKey := 0xDE
  const VK_OEM_AX: VirtualKey := 0xE1
  const VK_OEM_102: VirtualKey := 0xE2
  const VK_OEM_COPY: VirtualKey := 0xF2
  const VK_NONAME: VirtualKey := 0xFC

  /**
   * `Key`, its variants in declaration order. The ASCII group carries the
   * explicit discriminants noted beside it; Rust's `_0`..`_9` are
   * `Digit0`..`Digit9` here.
   */
  datatype Key =
    Unknown         // = 0
    | Tab           // = 9
    | Enter         // = 10
    | Space         // = 32
    | Apostrophe    // = 39
    | Comma         // = 44
    | Minus         // = 45
    | Period        // = 46
    | ForwardSlash  // = 47
    | Digit0        // = 48
    | Digit1        // = 49
    | Digit2        // = 50
    | Digit3        // = 51
    | Digit4        // = 52
    | Digit5        // = 53
    | Digit6        // = 54
    | Digit7        // = 55
    | Digit8        // = 56
    | Digit9        // = 57
    | Semicolon     // = 59
    | Equals        // = 61
    | A             // = 65
    | B             // = 66
    | C             // = 67
    | D             // = 68
    | E             // = 69
    | F             // = 70
    | G             // = 71
    | H             // = 72
    | I             // = 73
    | J             // = 74
    | K             // = 75
    | L             // = 76
    | M             // = 77
    | N             // = 78
    | O             // = 79
    | P             // = 80
    | Q             // = 81
    | R             // = 82
    | S             // = 83
    | T             // = 84
    | U             // = 85
    | V             // = 86
    | W             // = 87
    | X             // = 88
    | Y             // = 89
    | Z             // = 90
    | LeftBracket   // = 91
    | BackSlash     // = 92
    | RightBracket  // = 93
    | Accent        // = 96
    | Escape        // = 256
    | NumEnter
    | Backspace
    | Insert
    | Delete
    | Up
    | Down
    | Left
    | Right
    | PageUp
    | PageDown
    | Home
    | End
    | CapsLock
    | ScrollLock
    | NumLock
    | PrintScreen
    | Pause
    | Num0
    | Num1
    | Num2
    | Num3
    | Num4
    | Num5
    | Num6
    | Num7
    | Num8
    | Num9
    | F1
    | F2
    | F3
    | F4
    | F5
    | F6
    | F7
    | F8
    | F9
    | F10
    | F11
    | F12
    | F13
    | F14
    | F15
    | F16
    | F17
    | F18
    | F19
    | F20
    | F21
    | F22
    | F23
    | F24
    | F25
    | NumPeriod
    | NumComma
    | NumPlus
    | NumMinus
    | NumDivide
    | NumMultiply
    | NumEquals
    | LeftShift
    | LeftControl
    | LeftAlt
    | LeftSuper
    | RightShift
    | RightControl
    | RightAlt
    | RightSuper
    | Menu
    | Caret
    | AbntC1
    | AbntC2
    | Asterisk
    | At
    | Ax
    | Calculator
    | Colon
    | Convert
    | Kana
    | Kanji
    | Mail
    | MyComputer
    | NavigateForward
    | NavigateBackward
    | MediaPlayPause
    | MediaStop
    | MediaSelect
    | MediaNextTrack
    | MediaPrevTrack
    | VolumeDown
    | VolumeUp
    | VolumeMute
    | NoConvert
    | OEM102
    | Plus
    | Power
    | Sleep
    | Stop
    | SysRq
    | Underline
    | NoName
    | Wake
    | WebBack
    | WebFavorites
    | WebForward
    | WebHome
    | WebRefresh
    | WebSearch
    | WebStop
    | Yen
    | Copy
    | Paste
    | Cut

  /** Number of variants in the ASCII group, `Unknown` through `Accent`. */
  const AsciiVariants: nat := 51

  /** Number of variants. */
  const VariantCount: nat := 164

  /** The position of each variant in the declaration, from 0. */
  function Position(k: Key): (i: nat)
    ensures i < VariantCount
  {
    match k
    case Unknown => 0
    case Tab => 1
    case Enter => 2
    case Space => 3
    case Apostrophe => 4
    case Comma => 5
    case Minus => 6
    case Period => 7
    case ForwardSlash => 8
    case Digit0 => 9
    case Digit1 => 10
    case Digit2 => 11
    case Digit3 => 12
    case Digit4 => 13
    case Digit5 => 14
    case Digit6 => 15
    case Digit7 => 16
    case Digit8 => 17
    case Digit9 => 18
    case Semicolon => 19
    case Equals => 20
    case A => 21
    case B => 22
    case C => 23
    case D => 24
    case E => 25
    case F => 26
    case G => 27
    case H => 28
    case I => 29
    case J => 30
    case K => 31
    case L => 32
    case M => 33
    case N => 34
    case O => 35
    case P => 36
    case Q => 37
    case R => 38
    case S => 39
    case T => 40
    case U => 41
    case V => 42
    case W => 43
    case X => 44
    case Y => 45
    case Z => 46
    case LeftBracket => 47
    case BackSlash => 48
    case RightBracket => 49
    case Accent => 50
    case Escape => 51
    case NumEnter => 52
    case Backspace => 53
    case Insert => 54
    case Delete => 55
    case Up => 56
    case Down => 57
    case Left => 58
    case Right => 59
    case PageUp => 60
    case PageDown => 61
    case Home => 62
    case End => 63
    case CapsLock => 64
    case ScrollLock => 65
    case NumLock => 66
    case PrintScreen => 67
    case Pause => 68
    case Num0 => 69
    case Num1 => 70
    case Num2 => 71
    case Num3 => 72
    case Num4 => 73
    case Num5 => 74
    case Num6 => 75
    case Num7 => 76
    case Num8 => 77
    case Num9 => 78
    case F1 => 79
    case F2 => 80
    case F3 => 81
    case F4 => 82
    case F5 => 83
    case F6 => 84
    case F7 => 85
    case F8 => 86
    case F9 => 87
    case F10 => 88
    case F11 => 89
    case F12 => 90
    case F13 => 91
    case F14 => 92
    case F15 => 93
    case F16 => 94
    case F17 => 95
    case F18 => 96
    case F19 => 97
    case F20 => 98
    case F21 => 99
    case F22 => 100
    case F23 => 101
    case F24 => 102
    case F25 => 103
    case NumPeriod => 104
    case NumComma => 105
    case NumPlus => 106
    case NumMinus => 107
    case NumDivide => 108
    case NumMultiply => 109
    case NumEquals => 110
    case LeftShift => 111
    case LeftControl => 112
    case LeftAlt => 113
    case LeftSuper => 114
    case RightShift => 115
    case RightControl => 116
    case RightAlt => 117
    case RightSuper => 118
    case Menu => 119
    case Caret => 120
    case AbntC1 => 121
    case AbntC2 => 122
    case Asterisk => 123
    case At => 124
    case Ax => 125
    case Calculator => 126
    case Colon => 127
    case Convert => 128
    case Kana => 129
    case Kanji => 130
    case Mail => 131
    case MyComputer => 132
    case NavigateForward => 133
    case NavigateBackward => 134
    case MediaPlayPause => 135
    case MediaStop => 136
    case MediaSelect => 137
    case MediaNextTrack => 138
    case MediaPrevTrack => 139
    case VolumeDown => 140
    case VolumeUp => 141
    case VolumeMute => 142
    case NoConvert => 143
    case OEM102 => 144
    case Plus => 145
    case Power => 146
    case Sleep => 147
    case Stop => 148
    case SysRq => 149
    case Underline => 150
    case NoName => 151
    case Wake => 152
    case WebBack => 153
    case WebFavorites => 154
    case WebForward => 155
    case WebHome => 156
    case WebRefresh => 157
    case WebSearch => 158
    case WebStop => 159
    case Yen => 160
    case Copy => 161
    case Paste => 162
    case Cut => 163
  }

  /** The variant at each position of the declaration: a binary search. */
  function KeyAt(i: int): Option<Key> {
    if i < 82 then
      if i < 41 then
        if i < 20 then
          if i < 10 then
            if i < 5 then
              if i < 2 then
                if i < 1 then
                  if i == 0 then Some(Unknown) else None
                else
                  if i == 1 then Some(Tab) else None
              else
                if i < 3 then
                  if i == 2 then Some(Enter) else None
                else
                  if i < 4 then
                    if i == 3 then Some(Space) else None
                  else
                    if i == 4 then Some(Apostrophe) else None
            else
              if i < 7 then
                if i < 6 then
                  if i == 5 then Some(Comma) else None
                else
                  if i == 6 then Some(Minus) else None
              else
                if i < 8 then
                  if i == 7 then Some(Period) else None
                else
                  if i < 9 then
                    if i == 8 then Some(ForwardSlash) else None
                  else
                    if i == 9 then Some(Digit0) else None
          else
            if i < 15 then
              if i < 12 then
                if i < 11 then
                  if i == 10 then Some(Digit1) else None
                else
                  if i == 11 then Some(Digit2) else None
              else
                if i < 13 then
                  if i == 12 then Some(Digit3) else None
                else
                  if i < 14 then
                    if i == 13 then Some(Digit4) else None
                  else
                    if i == 14 then Some(Digit5) else None
            else
              if i < 17 then
                if i < 16 then
                  if i == 15 then Some(Digit6) else None
                else
                  if i == 16 then Some(Digit7) else None
              else
                if i < 18 then
                  if i == 17 then Some(Digit8) else None
                else
                  if i < 19 then
                    if i == 18 then Some(Digit9) else None
                  else
                    if i == 19 then Some(Semicolon) else None
        else
          if i < 30 then
            if i < 25 then
              if i < 22 then
                if i < 21 then
                  if i == 20 then Some(Equals) else None
                else
                  if i == 21 then Some(A) else None
              else
                if i < 23 then
                  if i == 22 then Some(B) else None
                else
                  if i < 24 then
                    if i == 23 then Some(C) else None
                  else
                    if i == 24 then Some(D) else None
            else
              if i < 27 then
                if i < 26 then
                  if i == 25 then Some(E) else None
                else
                  if i == 26 then Some(F) else None
              else
                if i < 28 then
                  if i == 27 then Some(G) else None
                else
                  if i < 29 then
                    if i == 28 then Some(H) else None
                  else
                    if i == 29 then Some(I) else None
          else
            if i < 35 then
              if i < 32 then
                if i < 31 then
                  if i == 30 then Some(J) else None
                else
                  if i == 31 then Some(K) else None
              else
                if i < 33 then
                  if i == 32 then Some(L) else None
                else
                  if i < 34 then
                    if i == 33 then Some(M) else None
                  else
                    if i == 34 then Some(N) else None
            else
              if i < 38 then
                if i < 36 then
                  if i == 35 then Some(O) else None
                else
                  if i < 37 then
                    if i == 36 then Some(P) else None
                  else
                    if i == 37 then Some(Q) else None
              else
                if i < 39 then
                  if i == 38 then Some(R) else None
                else
                  if i < 40 then
                    if i == 39 then Some(S) else None
                  else
                    if i == 40 then Some(T) else None
      else
        if i < 61 then
          if i < 51 then
            if i < 46 then
              if i < 43 then
                if i < 42 then
                  if i == 41 then Some(U) else None
                else
                  if i == 42 then Some(V) else None
              else
                if i < 44 then
                  if i == 43 then Some(W) else None
                else
                  if i < 45 then
                    if i == 44 then Some(X) else None
                  else
                    if i == 45 then Some(Y) else None
            else
              if i < 48 then
                if i < 47 then
                  if i == 46 then Some(Z) else None
                else
                  if i == 47 then Some(LeftBracket) else None
              else
                if i < 49 then
                  if i == 48 then Some(BackSlash) else None
                else
                  if i < 50 then
                    if i == 49 then Some(RightBracket) else None
                  else
                    if i == 50 then Some(Accent) else None
          else
            if i < 56 then
              if i < 53 then
                if i < 52 then
                  if i == 51 then Some(Escape) else None
                else
                  if i == 52 then Some(NumEnter) else None
              else
                if i < 54 then
                  if i == 53 then Some(Backspace) else None
                else
                  if i < 55 then
                    if i == 54 then Some(Insert) else None
                  else
                    if i == 55 then Some(Delete) else None
            else
              if i < 58 then
                if i < 57 then
                  if i == 56 then Some(Up) else None
                else
                  if i == 57 then Some(Down) else None
              else
                if i < 59 then
                  if i == 58 then Some(Left) else None
                else
                  if i < 60 then
                    if i == 59 then Some(Right) else None
                  else
                    if i == 60 then Some(PageUp) else None
        else
          if i < 71 then
            if i < 66 then
              if i < 63 then
                if i < 62 then
                  if i == 61 then Some(PageDown) else None
                else
                  if i == 62 then Some(Home) else None
              else
                if i < 64 then
                  if i == 63 then Some(End) else None
                else
                  if i < 65 then
                    if i == 64 then Some(CapsLock) else None
                  else
                    if i == 65 then Some(ScrollLock) else None
            else
              if i < 68 then
                if i < 67 then
                  if i == 66 then Some(NumLock) else None
                else
                  if i == 67 then Some(PrintScreen) else None
              else
                if i < 69 then
                  if i == 68 then Some(Pause) else None
                else
                  if i < 70 then
                    if i == 69 then Some(Num0) else None
                  else
                    if i == 70 then Some(Num1) else None
          else
            if i < 76 then
              if i < 73 then
                if i < 72 then
                  if i == 71 then Some(Num2) else None
                else
                  if i == 72 then Some(Num3) else None
              else
                if i < 74 then
                  if i == 73 then Some(Num4) else None
                else
                  if i < 75 then
                    if i == 74 then Some(Num5) else None
                  else
                    if i == 75 then Some(Num6) else None
            else
              if i < 79 then
                if i < 77 then
                  if i == 76 then Some(Num7) else None
                else
                  if i < 78 then
                    if i == 77 then Some(Num8) else None
                  else
                    if i == 78 then Some(Num9) else None
              else
                if i < 80 then
                  if i == 79 then Some(F1) else None
                else
                  if i < 81 then
                    if i == 80 then Some(F2) else None
                  else
                    if i == 81 then Some(F3) else None
    else
      if i < 123 then
        if i < 102 then
          if i < 92 then
            if i < 87 then
              if i < 84 then
                if i < 83 then
                  if i == 82 then Some(F4) else None
                else
                  if i == 83 then Some(F5) else None
              else
                if i < 85 then
                  if i == 84 then Some(F6) else None
                else
                  if i < 86 then
                    if i == 85 then Some(F7) else None
                  else
                    if i == 86 then Some(F8) else None
            else
              if i < 89 then
                if i < 88 then
                  if i == 87 then Some(F9) else None
                else
                  if i == 88 then Some(F10) else None
              else
                if i < 90 then
                  if i == 89 then Some(F11) else None
                else
                  if i < 91 then
                    if i == 90 then Some(F12) else None
                  else
                    if i == 91 then Some(F13) else None
          else
            if i < 97 then
              if i < 94 then
                if i < 93 then
                  if i == 92 then Some(F14) else None
                else
                  if i == 93 then Some(F15) else None
              else
                if i < 95 then
                  if i == 94 then Some(F16) else None
                else
                  if i < 96 then
                    if i == 95 then Some(F17) else None
                  else
                    if i == 96 then Some(F18) else None
            else
              if i < 99 then
                if i < 98 then
                  if i == 97 then Some(F19) else None
                else
                  if i == 98 then Some(F20) else None
              else
                if i < 100 then
                  if i == 99 then Some(F21) else None
                else
                  if i < 101 then
                    if i == 100 then Some(F22) else None
                  else
                    if i == 101 then Some(F23) else None
        else
          if i < 112 then
            if i < 107 then
              if i < 104 then
                if i < 103 then
                  if i == 102 then Some(F24) else None
                else
                  if i == 103 then Some(F25) else None
              else
                if i < 105 then
                  if i == 104 then Some(NumPeriod) else None
                else
                  if i < 106 then
                    if i == 105 then Some(NumComma) else None
                  else
                    if i == 106 then Some(NumPlus) else None
            else
              if i < 109 then
                if i < 108 then
                  if i == 107 then Some(NumMinus) else None
                else
                  if i == 108 then Some(NumDivide) else None
              else
                if i < 110 then
                  if i == 109 then Some(NumMultiply) else None
                else
                  if i < 111 then
                    if i == 110 then Some(NumEquals) else None
                  else
                    if i == 111 then Some(LeftShift) else None
          else
            if i < 117 then
              if i < 114 then
                if i < 113 then
                  if i == 112 then Some(LeftControl) else None
                else
                  if i == 113 then Some(LeftAlt) else None
              else
                if i < 115 then
                  if i == 114 then Some(LeftSuper) else None
                else
                  if i < 116 then
                    if i == 115 then Some(RightShift) else None
                  else
                    if i == 116 then Some(RightControl) else None
            else
              if i < 120 then
                if i < 118 then
                  if i == 117 then Some(RightAlt) else None
                else
                  if i < 119 then
                    if i == 118 then Some(RightSuper) else None
                  else
                    if i == 119 then Some(Menu) else None
              else
                if i < 121 then
                  if i == 120 then Some(Caret) else None
                else
                  if i < 122 then
                    if i == 121 then Some(AbntC1) else None
                  else
                    if i == 122 then Some(AbntC2) else None
      else
        if i < 143 then
          if i < 133 then
            if i < 128 then
              if i < 125 then
                if i < 124 then
                  if i == 123 then Some(Asterisk) else None
                else
                  if i == 124 then Some(At) else None
              else
                if i < 126 then
                  if i == 125 then Some(Ax) else None
                else
                  if i < 127 then
                    if i == 126 then Some(Calculator) else None
                  else
                    if i == 127 then Some(Colon) else None
            else
              if i < 130 then
                if i < 129 then
                  if i == 128 then Some(Convert) else None
                else
                  if i == 129 then Some(Kana) else None
              else
                if i < 131 then
                  if i == 130 then Some(Kanji) else None
                else
                  if i < 132 then
                    if i == 131 then Some(Mail) else None
                  else
                    if i == 132 then Some(MyComputer) else None
          else
            if i < 138 then
              if i < 135 then
                if i < 134 then
                  if i == 133 then Some(NavigateForward) else None
                else
                  if i == 134 then Some(NavigateBackward) else None
              else
                if i < 136 then
                  if i == 135 then Some(MediaPlayPause) else None
                else
                  if i < 137 then
                    if i == 136 then Some(MediaStop) else None
                  else
                    if i == 137 then Some(MediaSelect) else None
            else
              if i < 140 then
                if i < 139 then
                  if i == 138 then Some(MediaNextTrack) else None
                else
                  if i == 139 then Some(MediaPrevTrack) else None
              else
                if i < 141 then
                  if i == 140 then Some(VolumeDown) else None
                else
                  if i < 142 then
                    if i == 141 then Some(VolumeUp) else None
                  else
                    if i == 142 then Some(VolumeMute) else None
        else
          if i < 153 then
            if i < 148 then
              if i < 145 then
                if i < 144 then
                  if i == 143 then Some(NoConvert) else None
                else
                  if i == 144 then Some(OEM102) else None
              else
                if i < 146 then
                  if i == 145 then Some(Plus) else None
                else
                  if i < 147 then
                    if i == 146 then Some(Power) else None
                  else
                    if i == 147 then Some(Sleep) else None
            else
              if i < 150 then
                if i < 149 then
                  if i == 148 then Some(Stop) else None
                else
                  if i == 149 then Some(SysRq) else None
              else
                if i < 151 then
                  if i == 150 then Some(Underline) else None
                else
                  if i < 152 then
                    if i == 151 then Some(NoName) else None
                  else
                    if i == 152 then Some(Wake) else None
          else
            if i < 158 then
              if i < 155 then
                if i < 154 then
                  if i == 153 then Some(WebBack) else None
                else
                  if i == 154 then Some(WebFavorites) else None
              else
                if i < 156 then
                  if i == 155 then Some(WebForward) else None
                else
                  if i < 157 then
                    if i == 156 then Some(WebHome) else None
                  else
                    if i == 157 then Some(WebRefresh) else None
            else
              if i < 161 then
                if i < 159 then
                  if i == 158 then Some(WebSearch) else None
                else
                  if i < 160 then
                    if i == 159 then Some(WebStop) else None
                  else
                    if i == 160 then Some(Yen) else None
              else
                if i < 162 then
                  if i == 161 then Some(Copy) else None
                else
                  if i < 163 then
                    if i == 162 then Some(Paste) else None
                  else
                    if i == 163 then Some(Cut) else None
  }


  lemma PositionRoundTripOn000(k: Key)
    requires Position(k) < 8
    ensures KeyAt(Position(k)) == Some(k)
  {
  }

  lemma PositionRoundTripOn008(k: Key)
    requires 8 <= Position(k) < 16
    ensures KeyAt(Position(k)) == Some(k)
  {
  }

  lemma PositionRoundTripOn016(k: Key)
    requires 16 <= Position(k) < 24
    ensures KeyAt(Position(k)) == Some(k)
  {
  }

  lemma PositionRoundTripOn024(k: Key)
    requires 24 <= Position(k) < 32
    ensures KeyAt(Position(k)) == Some(k)
  {
  }

  lemma PositionRoundTripOn032(k: Key)
    requires 32 <= Position(k) < 40
    ensures KeyAt(Position(k)) == Some(k)
  {
  }

  lemma PositionRoundTripOn040(k: Key)
    requires 40 <= Position(k) < 48
    ensures KeyAt(Position(k)) == Some(k)
  {
  }

  lemma PositionRoundTripOn048(k: Key)
    requires 48 <= Position(k) < 56
    ensures KeyAt(Position(k)) == Some(k)
  {
  }

  lemma PositionRoundTripOn056(k: Key)
    requires 56 <= Position(k) < 64
    ensures KeyAt(Position(k)) == Some(k)
  {
  }

  lemma PositionRoundTripOn064(k: Key)
    requires 64 <= Position(k) < 72
    ensures KeyAt(Position(k)) == Some(k)
  {
  }

  lemma PositionRoundTripOn072(k: Key)
    requires 72 <= Position(k) < 80
    ensures KeyAt(Position(k)) == Some(k)
  {
  }

  lemma PositionRoundTripOn080(k: Key)
    requires 80 <= Position(k) < 88
    ensures KeyAt(Position(k)) == Some(k)
  {
  }

  lemma PositionRoundTripOn088(k: Key)
    requires 88 <= Position(k) < 96
    ensures KeyAt(Position(k)) == Some(k)
  {
  }

  lemma PositionRoundTripOn096(k: Key)
    requires 96 <= Position(k) < 104
    ensures KeyAt(Position(k)) == Some(k)
  {
  }

  lemma PositionRoundTripOn104(k: Key)
    requires 104 <= Position(k) < 112
    ensures KeyAt(Position(k)) == Some(k)
  {
  }

  lemma PositionRoundTripOn112(k: Key)
    requires 112 <= Position(k) < 120
    ensures KeyAt(Position(k)) == Some(k)
  {
  }

  lemma PositionRoundTripOn120(k: Key)
    requires 120 <= Position(k) < 128
    ensures KeyAt(Position(k)) == Some(k)
  {
  }

  lemma PositionRoundTripOn128(k: Key)
    requires 128 <= Position(k) < 136
    ensures KeyAt(Position(k)) == Some(k)
  {
  }

  lemma PositionRoundTripOn136(k: Key)
    requires 136 <= Position(k) < 144
    ensures KeyAt(Position(k)) == Some(k)
  {
  }

  lemma PositionRoundTripOn144(k: Key)
    requires 144 <= Position(k) < 152
    ensures KeyAt(Position(k)) == Some(k)
  {
  }

  lemma PositionRoundTripOn152(k: Key)
    requires 152 <= Position(k) < 160
    ensures KeyAt(Position(k)) == Some(k)
  {
  }

  lemma PositionRoundTripOn160(k: Key)
    requires 160 <= Position(k)
    ensures KeyAt(Position(k)) == Some(k)
  {
  }

  /** `KeyAt` lists every variant, at its position. */
  lemma PositionRoundTrip(k: Key)
    ensures KeyAt(Position(k)) == Some(k)
  {
    if Position(k) < 8 {
      PositionRoundTripOn000(k);
    } else if Position(k) < 16 {
      PositionRoundTripOn008(k);
    } else if Position(k) < 24 {
      PositionRoundTripOn016(k);
    } else if Position(k) < 32 {
      PositionRoundTripOn024(k);
    } else if Position(k) < 40 {
      PositionRoundTripOn032(k);
    } else if Position(k) < 48 {
      PositionRoundTripOn040(k);
    } else if Position(k) < 56 {
      PositionRoundTripOn048(k);
    } else if Position(k) < 64 {
      PositionRoundTripOn056(k);
    } else if Position(k) < 72 {
      PositionRoundTripOn064(k);
    } else if Position(k) < 80 {
      PositionRoundTripOn072(k);
    } else if Position(k) < 88 {
      PositionRoundTripOn080(k);
    } else if Position(k) < 96 {
      PositionRoundTripOn088(k);
    } else if Position(k) < 104 {
      PositionRoundTripOn096(k);
    } else if Position(k) < 112 {
      PositionRoundTripOn104(k);
    } else if Position(k) < 120 {
      PositionRoundTripOn112(k);
    } else if Position(k) < 128 {
      PositionRoundTripOn120(k);
    } else if Position(k) < 136 {
      PositionRoundTripOn128(k);
    } else if Position(k) < 144 {
      PositionRoundTripOn136(k);
    } else if Position(k) < 152 {
      PositionRoundTripOn144(k);
    } else if Position(k) < 160 {
      PositionRoundTripOn152(k);
    } else {
      PositionRoundTripOn160(k);
    }
  }


  /**
   * The explicit `= n` of the variant at position `i` of the ASCII group
   * (the values noted beside the declaration), by binary search.
   */
  function ExplicitDiscriminant(i: nat): (d: nat)
    requires i < AsciiVariants
    ensures d < 256
  {
    if i < 25 then
      if i < 12 then
        if i < 6 then
          if i < 3 then
            if i < 1 then
              0
            else
              if i < 2 then
                9
              else
                10
          else
            if i < 4 then
              32
            else
              if i < 5 then
                39
              else
                44
        else
          if i < 9 then
            if i < 7 then
              45
            else
              if i < 8 then
                46
              else
                47
          else
            if i < 10 then
              48
            else
              if i < 11 then
                49
              else
                50
      else
        if i < 18 then
          if i < 15 then
            if i < 13 then
              51
            else
              if i < 14 then
                52
              else
                53
          else
            if i < 16 then
              54
            else
              if i < 17 then
                55
              else
                56
        else
          if i < 21 then
            if i < 19 then
              57
            else
              if i < 20 then
                59
              else
                61
          else
            if i < 23 then
              if i < 22 then
                65
              else
                66
            else
              if i < 24 then
                67
              else
                68
    else
      if i < 38 then
        if i < 31 then
          if i < 28 then
            if i < 26 then
              69
            else
              if i < 27 then
                70
              else
                71
          else
            if i < 29 then
              72
            else
              if i < 30 then
                73
              else
                74
        else
          if i < 34 then
            if i < 32 then
              75
            else
              if i < 33 then
                76
              else
                77
          else
            if i < 36 then
              if i < 35 then
                78
              else
                79
            else
              if i < 37 then
                80
              else
                81
      else
        if i < 44 then
          if i < 41 then
            if i < 39 then
              82
            else
              if i < 40 then
                83
              else
                84
          else
            if i < 42 then
              85
            else
              if i < 43 then
                86
              else
                87
        else
          if i < 47 then
            if i < 45 then
              88
            else
              if i < 46 then
                89
              else
                90
          else
            if i < 49 then
              if i < 48 then
                91
              else
                92
            else
              if i < 50 then
                93
              else
                96
  }

  /** The explicit discriminants increase along the declaration. */
  lemma ExplicitDiscriminantsIncrease(i: nat)
    requires i + 1 < AsciiVariants
    ensures ExplicitDiscriminant(i) < ExplicitDiscriminant(i + 1)
  {
  }

  /**
   * Rust's rule for the discriminant of the variant at position `i`: its
   * explicit value in the ASCII group; `Escape`, the first variant after it,
   * is `= 256`, and every variant without a value is its predecessor plus one.
   */
  function Discriminant(i: nat): nat
    requires i < VariantCount
  {
    if i < AsciiVariants then ExplicitDiscriminant(i) else 256 + (i - AsciiVariants)
  }

  /** `k as u32`: the discriminant of a variant. */
  function Code(k: Key): nat {
    Discriminant(Position(k))
  }

  /**
   * The variant whose discriminant is `n`, if any: the declaration sorted by
   * discriminant, by binary search.
   */
  function KeyOfCode(n: int): Option<Key> {
    if n < 287 then
      if n < 85 then
        if n < 61 then
          if n < 49 then
            if n < 44 then
              if n < 10 then
                if n < 9 then
                  if n == 0 then Some(Unknown) else None
                else
                  if n == 9 then Some(Tab) else None
              else
                if n < 32 then
                  if n == 10 then Some(Enter) else None
                else
                  if n < 39 then
                    if n == 32 then Some(Space) else None
                  else
                    if n == 39 then Some(Apostrophe) else None
            else
              if n < 46 then
                if n < 45 then
                  if n == 44 then Some(Comma) else None
                else
                  if n == 45 then Some(Minus) else None
              else
                if n < 47 then
                  if n == 46 then Some(Period) else None
                else
                  if n < 48 then
                    if n == 47 then Some(ForwardSlash) else None
                  else
                    if n == 48 then Some(Digit0) else None
          else
            if n < 54 then
              if n < 51 then
                if n < 50 then
                  if n == 49 then Some(Digit1) else None
                else
                  if n == 50 then Some(Digit2) else None
              else
                if n < 52 then
                  if n == 51 then Some(Digit3) else None
                else
                  if n < 53 then
                    if n == 52 then Some(Digit4) else None
                  else
                    if n == 53 then Some(Digit5) else None
            else
              if n < 56 then
                if n < 55 then
                  if n == 54 then Some(Digit6) else None
                else
                  if n == 55 then Some(Digit7) else None
              else
                if n < 57 then
                  if n == 56 then Some(Digit8) else None
                else
                  if n < 59 then
                    if n == 57 then Some(Digit9) else None
                  else
                    if n == 59 then Some(Semicolon) else None
        else
          if n < 74 then
            if n < 69 then
              if n < 66 then
                if n < 65 then
                  if n == 61 then Some(Equals) else None
                else
                  if n == 65 then Some(A) else None
              else
                if n < 67 then
                  if n == 66 then Some(B) else None
                else
                  if n < 68 then
                    if n == 67 then Some(C) else None
                  else
                    if n == 68 then Some(D) else None
            else
              if n < 71 then
                if n < 70 then
                  if n == 69 then Some(E) else None
                else
                  if n == 70 then Some(F) else None
              else
                if n < 72 then
                  if n == 71 then Some(G) else None
                else
                  if n < 73 then
                    if n == 72 then Some(H) else None
                  else
                    if n == 73 then Some(I) else None
          else
            if n < 79 then
              if n < 76 then
                if n < 75 then
                  if n == 74 then Some(J) else None
                else
                  if n == 75 then Some(K) else None
              else
                if n < 77 then
                  if n == 76 then Some(L) else None
                else
                  if n < 78 then
                    if n == 77 then Some(M) else None
                  else
                    if n == 78 then Some(N) else None
            else
              if n < 82 then
                if n < 80 then
                  if n == 79 then Some(O) else None
                else
                  if n < 81 then
                    if n == 80 then Some(P) else None
                  else
                    if n == 81 then Some(Q) else None
              else
                if n < 83 then
                  if n == 82 then Some(R) else None
                else
                  if n < 84 then
                    if n == 83 then Some(S) else None
                  else
                    if n == 84 then Some(T) else None
      else
        if n < 266 then
          if n < 256 then
            if n < 90 then
              if n < 87 then
                if n < 86 then
                  if n == 85 then Some(U) else None
                else
                  if n == 86 then Some(V) else None
              else
                if n < 88 then
                  if n == 87 then Some(W) else None
                else
                  if n < 89 then
                    if n == 88 then Some(X) else None
                  else
                    if n == 89 then Some(Y) else None
            else
              if n < 92 then
                if n < 91 then
                  if n == 90 then Some(Z) else None
                else
                  if n == 91 then Some(LeftBracket) else None
              else
                if n < 93 then
                  if n == 92 then Some(BackSlash) else None
                else
                  if n < 96 then
                    if n == 93 then Some(RightBracket) else None
                  else
                    if n == 96 then Some(Accent) else None
          else
            if n < 261 then
              if n < 258 then
                if n < 257 then
                  if n == 256 then Some(Escape) else None
                else
                  if n == 257 then Some(NumEnter) else None
              else
                if n < 259 then
                  if n == 258 then Some(Backspace) else None
                else
                  if n < 260 then
                    if n == 259 then Some(Insert) else None
                  else
                    if n == 260 then Some(Delete) else None
            else
              if n < 263 then
                if n < 262 then
                  if n == 261 then Some(Up) else None
                else
                  if n == 262 then Some(Down) else None
              else
                if n < 264 then
                  if n == 263 then Some(Left) else None
                else
                  if n < 265 then
                    if n == 264 then Some(Right) else None
                  else
                    if n == 265 then Some(PageUp) else None
        else
          if n < 276 then
            if n < 271 then
              if n < 268 then
                if n < 267 then
                  if n == 266 then Some(PageDown) else None
                else
                  if n == 267 then Some(Home) else None
              else
                if n < 269 then
                  if n == 268 then Some(End) else None
                else
                  if n < 270 then
                    if n == 269 then Some(CapsLock) else None
                  else
                    if n == 270 then Some(ScrollLock) else None
            else
              if n < 273 then
                if n < 272 then
                  if n == 271 then Some(NumLock) else None
                else
                  if n == 272 then Some(PrintScreen) else None
              else
                if n < 274 then
                  if n == 273 then Some(Pause) else None
                else
                  if n < 275 then
                    if n == 274 then Some(Num0) else None
                  else
                    if n == 275 then Some(Num1) else None
          else
            if n < 281 then
              if n < 278 then
                if n < 277 then
                  if n == 276 then Some(Num2) else None
                else
                  if n == 277 then Some(Num3) else None
              else
                if n < 279 then
                  if n == 278 then Some(Num4) else None
                else
                  if n < 280 then
                    if n == 279 then Some(Num5) else None
                  else
                    if n == 280 then Some(Num6) else None
            else
              if n < 284 then
                if n < 282 then
                  if n == 281 then Some(Num7) else None
                else
                  if n < 283 then
                    if n == 282 then Some(Num8) else None
                  else
                    if n == 283 then Some(Num9) else None
              else
                if n < 285 then
                  if n == 284 then Some(F1) else None
                else
                  if n < 286 then
                    if n == 285 then Some(F2) else None
                  else
                    if n == 286 then Some(F3) else None
    else
      if n < 328 then
        if n < 307 then
          if n < 297 then
            if n < 292 then
              if n < 289 then
                if n < 288 then
                  if n == 287 then Some(F4) else None
                else
                  if n == 288 then Some(F5) else None
              else
                if n < 290 then
                  if n == 289 then Some(F6) else None
                else
                  if n < 291 then
                    if n == 290 then Some(F7) else None
                  else
                    if n == 291 then Some(F8) else None
            else
              if n < 294 then
                if n < 293 then
                  if n == 292 then Some(F9) else None
                else
                  if n == 293 then Some(F10) else None
              else
                if n < 295 then
                  if n == 294 then Some(F11) else None
                else
                  if n < 296 then
                    if n == 295 then Some(F12) else None
                  else
                    if n == 296 then Some(F13) else None
          else
            if n < 302 then
              if n < 299 then
                if n < 298 then
                  if n == 297 then Some(F14) else None
                else
                  if n == 298 then Some(F15) else None
              else
                if n < 300 then
                  if n == 299 then Some(F16) else None
                else
                  if n < 301 then
                    if n == 300 then Some(F17) else None
                  else
                    if n == 301 then Some(F18) else None
            else
              if n < 304 then
                if n < 303 then
                  if n == 302 then Some(F19) else None
                else
                  if n == 303 then Some(F20) else None
              else
                if n < 305 then
                  if n == 304 then Some(F21) else None
                else
                  if n < 306 then
                    if n == 305 then Some(F22) else None
                  else
                    if n == 306 then Some(F23) else None
        else
          if n < 317 then
            if n < 312 then
              if n < 309 then
                if n < 308 then
                  if n == 307 then Some(F24) else None
                else
                  if n == 308 then Some(F25) else None
              else
                if n < 310 then
                  if n == 309 then Some(NumPeriod) else None
                else
                  if n < 311 then
                    if n == 310 then Some(NumComma) else None
                  else
                    if n == 311 then Some(NumPlus) else None
            else
              if n < 314 then
                if n < 313 then
                  if n == 312 then Some(NumMinus) else None
                else
                  if n == 313 then Some(NumDivide) else None
              else
                if n < 315 then
                  if n == 314 then Some(NumMultiply) else None
                else
                  if n < 316 then
                    if n == 315 then Some(NumEquals) else None
                  else
                    if n == 316 then Some(LeftShift) else None
          else
            if n < 322 then
              if n < 319 then
                if n < 318 then
                  if n == 317 then Some(LeftControl) else None
                else
                  if n == 318 then Some(LeftAlt) else None
              else
                if n < 320 then
                  if n == 319 then Some(LeftSuper) else None
                else
                  if n < 321 then
                    if n == 320 then Some(RightShift) else None
                  else
                    if n == 321 then Some(RightControl) else None
            else
              if n < 325 then
                if n < 323 then
                  if n == 322 then Some(RightAlt) else None
                else
                  if n < 324 then
                    if n == 323 then Some(RightSuper) else None
                  else
                    if n == 324 then Some(Menu) else None
              else
                if n < 326 then
                  if n == 325 then Some(Caret) else None
                else
                  if n < 327 then
                    if n == 326 then Some(AbntC1) else None
                  else
                    if n == 327 then Some(AbntC2) else None
      else
        if n < 348 then
          if n < 338 then
            if n < 333 then
              if n < 330 then
                if n < 329 then
                  if n == 328 then Some(Asterisk) else None
                else
                  if n == 329 then Some(At) else None
              else
                if n < 331 then
                  if n == 330 then Some(Ax) else None
                else
                  if n < 332 then
                    if n == 331 then Some(Calculator) else None
                  else
                    if n == 332 then Some(Colon) else None
            else
              if n < 335 then
                if n < 334 then
                  if n == 333 then Some(Convert) else None
                else
                  if n == 334 then Some(Kana) else None
              else
                if n < 336 then
                  if n == 335 then Some(Kanji) else None
                else
                  if n < 337 then
                    if n == 336 then Some(Mail) else None
                  else
                    if n == 337 then Some(MyComputer) else None
          else
            if n < 343 then
              if n < 340 then
                if n < 339 then
                  if n == 338 then Some(NavigateForward) else None
                else
                  if n == 339 then Some(NavigateBackward) else None
              else
                if n < 341 then
                  if n == 340 then Some(MediaPlayPause) else None
                else
                  if n < 342 then
                    if n == 341 then Some(MediaStop) else None
                  else
                    if n == 342 then Some(MediaSelect) else None
            else
              if n < 345 then
                if n < 344 then
                  if n == 343 then Some(MediaNextTrack) else None
                else
                  if n == 344 then Some(MediaPrevTrack) else None
              else
                if n < 346 then
                  if n == 345 then Some(VolumeDown) else None
                else
                  if n < 347 then
                    if n == 346 then Some(VolumeUp) else None
                  else
                    if n == 347 then Some(VolumeMute) else None
        else
          if n < 358 then
            if n < 353 then
              if n < 350 then
                if n < 349 then
                  if n == 348 then Some(NoConvert) else None
                else
                  if n == 349 then Some(OEM102) else None
              else
                if n < 351 then
                  if n == 350 then Some(Plus) else None
                else
                  if n < 352 then
                    if n == 351 then Some(Power) else None
                  else
                    if n == 352 then Some(Sleep) else None
            else
              if n < 355 then
                if n < 354 then
                  if n == 353 then Some(Stop) else None
                else
                  if n == 354 then Some(SysRq) else None
              else
                if n < 356 then
                  if n == 355 then Some(Underline) else None
                else
                  if n < 357 then
                    if n == 356 then Some(NoName) else None
                  else
                    if n == 357 then Some(Wake) else None
          else
            if n < 363 then
              if n < 360 then
                if n < 359 then
                  if n == 358 then Some(WebBack) else None
                else
                  if n == 359 then Some(WebFavorites) else None
              else
                if n < 361 then
                  if n == 360 then Some(WebForward) else None
                else
                  if n < 362 then
                    if n == 361 then Some(WebHome) else None
                  else
                    if n == 362 then Some(WebRefresh) else None
            else
              if n < 366 then
                if n < 364 then
                  if n == 363 then Some(WebSearch) else None
                else
                  if n < 365 then
                    if n == 364 then Some(WebStop) else None
                  else
                    if n == 365 then Some(Yen) else None
              else
                if n < 367 then
                  if n == 366 then Some(Copy) else None
                else
                  if n < 368 then
                    if n == 367 then Some(Paste) else None
                  else
                    if n == 368 then Some(Cut) else None
  }

  lemma AsciiDiscriminantsDecode(i: nat)
    requires i < AsciiVariants
    ensures KeyOfCode(Discriminant(i)) == KeyAt(i)
  {
  }

  lemma LaterDiscriminantsDecode(i: nat)
    requires AsciiVariants <= i < VariantCount
    ensures KeyOfCode(Discriminant(i)) == KeyAt(i)
  {
  }

  /** `KeyOfCode` decodes the discriminant of every variant. */
  lemma CodeRoundTrip(k: Key)
    ensures KeyOfCode(Code(k)) == Some(k)
  {
    PositionRoundTrip(k);
    if Position(k) < AsciiVariants {
      AsciiDiscriminantsDecode(Position(k));
    } else {
      LaterDiscriminantsDecode(Position(k));
    }
  }

  /** The discriminants are pairwise distinct. */
  lemma CodeInjective(a: Key, b: Key)
    requires Code(a) == Code(b)
    ensures a == b
  {
    CodeRoundTrip(a);
    CodeRoundTrip(b);
  }

  lemma KeyOfCodeInjectiveOn0000(n: int, m: int)
    requires n < 0x33
    requires KeyOfCode(n).Some? && KeyOfCode(n) == KeyOfCode(m)
    ensures n == m
  {
  }

  lemma KeyOfCodeInjectiveOn0033(n: int, m: int)
    requires 0x33 <= n < 0x44
    requires KeyOfCode(n).Some? && KeyOfCode(n) == KeyOfCode(m)
    ensures n == m
  {
  }

  lemma KeyOfCodeInjectiveOn0044(n: int, m: int)
    requires 0x44 <= n < 0x50
    requires KeyOfCode(n).Some? && KeyOfCode(n) == KeyOfCode(m)
    ensures n == m
  {
  }

  lemma KeyOfCodeInjectiveOn0050(n: int, m: int)
    requires 0x50 <= n < 0x5C
    requires KeyOfCode(n).Some? && KeyOfCode(n) == KeyOfCode(m)
    ensures n == m
  {
  }

  lemma KeyOfCodeInjectiveOn005C(n: int, m: int)
    requires 0x5C <= n < 0x109
    requires KeyOfCode(n).Some? && KeyOfCode(n) == KeyOfCode(m)
    ensures n == m
  {
  }

  lemma KeyOfCodeInjectiveOn0109(n: int, m: int)
    requires 0x109 <= n < 0x115
    requires KeyOfCode(n).Some? && KeyOfCode(n) == KeyOfCode(m)
    ensures n == m
  {
  }

  lemma KeyOfCodeInjectiveOn0115(n: int, m: int)
    requires 0x115 <= n < 0x121
    requires KeyOfCode(n).Some? && KeyOfCode(n) == KeyOfCode(m)
    ensures n == m
  {
  }

  lemma KeyOfCodeInjectiveOn0121(n: int, m: int)
    requires 0x121 <= n < 0x12D
    requires KeyOfCode(n).Some? && KeyOfCode(n) == KeyOfCode(m)
    ensures n == m
  {
  }

  lemma KeyOfCodeInjectiveOn012D(n: int, m: int)
    requires 0x12D <= n < 0x139
    requires KeyOfCode(n).Some? && KeyOfCode(n) == KeyOfCode(m)
    ensures n == m
  {
  }

  lemma KeyOfCodeInjectiveOn0139(n: int, m: int)
    requires 0x139 <= n < 0x145
    requires KeyOfCode(n).Some? && KeyOfCode(n) == KeyOfCode(m)
    ensures n == m
  {
  }

  lemma KeyOfCodeInjectiveOn0145(n: int, m: int)
    requires 0x145 <= n < 0x151
    requires KeyOfCode(n).Some? && KeyOfCode(n) == KeyOfCode(m)
    ensures n == m
  {
  }

  lemma KeyOfCodeInjectiveOn0151(n: int, m: int)
    requires 0x151 <= n < 0x15D
    requires KeyOfCode(n).Some? && KeyOfCode(n) == KeyOfCode(m)
    ensures n == m
  {
  }

  lemma KeyOfCodeInjectiveOn015D(n: int, m: int)
    requires 0x15D <= n < 0x169
    requires KeyOfCode(n).Some? && KeyOfCode(n) == KeyOfCode(m)
    ensures n == m
  {
  }

  lemma KeyOfCodeInjectiveOn0169(n: int, m: int)
    requires 0x169 <= n
    requires KeyOfCode(n).Some? && KeyOfCode(n) == KeyOfCode(m)
    ensures n == m
  {
  }

  /** No two numbers decode to the same variant. */
  lemma KeyOfCodeInjective(n: int, m: int)
    requires KeyOfCode(n).Some? && KeyOfCode(n) == KeyOfCode(m)
    ensures n == m
  {
    if n < 0x33 {
      KeyOfCodeInjectiveOn0000(n, m);
    } else if n < 0x44 {
      KeyOfCodeInjectiveOn0033(n, m);
    } else if n < 0x50 {
      KeyOfCodeInjectiveOn0044(n, m);
    } else if n < 0x5C {
      KeyOfCodeInjectiveOn0050(n, m);
    } else if n < 0x109 {
      KeyOfCodeInjectiveOn005C(n, m);
    } else if n < 0x115 {
      KeyOfCodeInjectiveOn0109(n, m);
    } else if n < 0x121 {
      KeyOfCodeInjectiveOn0115(n, m);
    } else if n < 0x12D {
      KeyOfCodeInjectiveOn0121(n, m);
    } else if n < 0x139 {
      KeyOfCodeInjectiveOn012D(n, m);
    } else if n < 0x145 {
      KeyOfCodeInjectiveOn0139(n, m);
    } else if n < 0x151 {
      KeyOfCodeInjectiveOn0145(n, m);
    } else if n < 0x15D {
      KeyOfCodeInjectiveOn0151(n, m);
    } else if n < 0x169 {
      KeyOfCodeInjectiveOn015D(n, m);
    } else {
      KeyOfCodeInjectiveOn0169(n, m);
    }
  }

  /** `KeyOfCode` finds only the variant that has that discriminant. */
  lemma KeyOfCodeSound(n: int, k: Key)
    requires KeyOfCode(n) == Some(k)
    ensures Code(k) == n
  {
    CodeRoundTrip(k);
    KeyOfCodeInjective(n, Code(k));
  }

  /** Exactly the ASCII group has discriminants below 256. */
  lemma AsciiGroupBelow256(k: Key)
    ensures Position(k) < AsciiVariants <==> Code(k) < 256
  {
  }

  /** `Escape` alone has the discriminant 256. */
  lemma EscapeIs256(k: Key)
    ensures Code(k) == 256 <==> k == Escape
  {
    assert Code(Escape) == 256;
    if Code(k) == 256 {
      CodeInjective(k, Escape);
    }
  }

  /** Along the declaration the discriminants increase. */
  lemma DiscriminantsIncrease(i: nat)
    requires i + 1 < VariantCount
    ensures Discriminant(i) < Discriminant(i + 1)
  {
    if i + 1 < AsciiVariants {
      ExplicitDiscriminantsIncrease(i);
    }
  }

  /** A variant's discriminant is above its predecessor's. */
  lemma SuccessorDiscriminantIncreases(k: Key, next: Key)
    requires Position(next) == Position(k) + 1
    ensures Code(k) < Code(next)
  {
    DiscriminantsIncrease(Position(k));
  }

  /** From `Escape` on, each variant's discriminant is its predecessor's plus one. */
  lemma SuccessorDiscriminantAfterEscape(k: Key, next: Key)
    requires Position(next) == Position(k) + 1 && AsciiVariants <= Position(k)
    ensures Code(next) == Code(k) + 1
  {
  }

  /**
   * `impl From<VIRTUAL_KEY> for Key`: the arms in source order, and `Unknown`
   * for every code no arm names.
   */
  function FromVirtualKey(vk: VirtualKey): Key {
    if vk == VK_1 then Digit1
    else if vk == VK_2 then Digit2
    else if vk == VK_3 then Digit3
    else if vk == VK_4 then Digit4
    else if vk == VK_5 then Digit5
    else if vk == VK_6 then Digit6
    else if vk == VK_7 then Digit7
    else if vk == VK_8 then Digit8
    else if vk == VK_9 then Digit9
    else if vk == VK_0 then Digit0
    else if vk == VK_A then A
    else if vk == VK_B then B
    else if vk == VK_C then C
    else if vk == VK_D then D
    else if vk == VK_E then E
    else if vk == VK_F then F
    else if vk == VK_G then G
    else if vk == VK_H then H
    else if vk == VK_I then I
    else if vk == VK_J then J
    else if vk == VK_K then K
    else if vk == VK_L then L
    else if vk == VK_M then M
    else if vk == VK_N then N
    else if vk == VK_O then O
    else if vk == VK_P then P
    else if vk == VK_Q then Q
    else if vk == VK_R then R
    else if vk == VK_S then S
    else if vk == VK_T then T
    else if vk == VK_U then U
    else if vk == VK_V then V
    else if vk == VK_W then W
    else if vk == VK_X then X
    else if vk == VK_Y then Y
    else if vk == VK_Z then Z
    else if vk == VK_ESCAPE then Escape
    else if vk == VK_F1 then F1
    else if vk == VK_F2 then F2
    else if vk == VK_F3 then F3
    else if vk == VK_F4 then F4
    else if vk == VK_F5 then F5
    else if vk == VK_F6 then F6
    else if vk == VK_F7 then F7
    else if vk == VK_F8 then F8
    else if vk == VK_F9 then F9
    else if vk == VK_F10 then F10
    else if vk == VK_F11 then F11
    else if vk == VK_F12 then F12
    else if vk == VK_F13 then F13
    else if vk == VK_F14 then F14
    else if vk == VK_F15 then F15
    else if vk == VK_F16 then F16
    else if vk == VK_F17 then F17
    else if vk == VK_F18 then F18
    else if vk == VK_F19 then F19
    else if vk == VK_F20 then F20
    else if vk == VK_F21 then F21
    else if vk == VK_F22 then F22
    else if vk == VK_F23 then F23
    else if vk == VK_F24 then F24
    else if vk == VK_SNAPSHOT then PrintScreen
    else if vk == VK_SCROLL then ScrollLock
    else if vk == VK_PAUSE then Pause
    else if vk == VK_INSERT then Insert
    else if vk == VK_HOME then Home
    else if vk == VK_DELETE then Delete
    else if vk == VK_END then End
    else if vk == VK_NEXT then PageDown
    else if vk == VK_PRIOR then PageUp
    else if vk == VK_LEFT then Left
    else if vk == VK_UP then Up
    else if vk == VK_RIGHT then Right
    else if vk == VK_DOWN then Down
    else if vk == VK_BACK then Backspace
    else if vk == VK_RETURN then Enter
    else if vk == VK_SPACE then Space
    else if vk == VK_NUMLOCK then NumLock
    else if vk == VK_NUMPAD0 then Num0
    else if vk == VK_NUMPAD1 then Num1
    else if vk == VK_NUMPAD2 then Num2
    else if vk == VK_NUMPAD3 then Num3
    else if vk == VK_NUMPAD4 then Num4
    else if vk == VK_NUMPAD5 then Num5
    else if vk == VK_NUMPAD6 then Num6
    else if vk == VK_NUMPAD7 then Num7
    else if vk == VK_NUMPAD8 then Num8
    else if vk == VK_NUMPAD9 then Num9
    else if vk == VK_ADD then NumPlus
    else if vk == VK_SUBTRACT then NumMinus
    else if vk == VK_MULTIPLY then NumMultiply
    else if vk == VK_DIVIDE then NumDivide
    else if vk == VK_DECIMAL then NumPeriod
    else if vk == VK_ABNT_C1 then AbntC1
    else if vk == VK_ABNT_C2 then AbntC2
    else if vk == VK_OEM_7 then Apostrophe
    else if vk == VK_APPS then Menu
    else if vk == VK_OEM_AX then Ax
    else if vk == VK_OEM_5 then BackSlash
    else if vk == VK_CAPITAL then CapsLock
    else if vk == VK_OEM_COMMA then Comma
    else if vk == VK_CONVERT then Convert
    else if vk == VK_OEM_PLUS then Equals
    else if vk == VK_OEM_3 then Accent
    else if vk == VK_KANA then Kana
    else if vk == VK_KANJI then Kanji
    else if vk == VK_LMENU then LeftAlt
    else if vk == VK_OEM_4 then LeftBracket
    else if vk == VK_LCONTROL then LeftControl
    else if vk == VK_LSHIFT then LeftShift
    else if vk == VK_LWIN then LeftSuper
    else if vk == VK_LAUNCH_MAIL then Mail
    else if vk == VK_LAUNCH_MEDIA_SELECT then MediaSelect
    else if vk == VK_MEDIA_STOP then MediaStop
    else if vk == VK_OEM_MINUS then Minus
    else if vk == VK_VOLUME_MUTE then VolumeMute
    else if vk == VK_MEDIA_NEXT_TRACK then MediaNextTrack
    else if vk == VK_NONCONVERT then NoConvert
    else if vk == VK_OEM_102 then OEM102
    else if vk == VK_OEM_PERIOD then Period
    else if vk == VK_MEDIA_PLAY_PAUSE then MediaPlayPause
    else if vk == VK_MEDIA_PREV_TRACK then MediaPrevTrack
    else if vk == VK_RMENU then RightAlt
    else if vk == VK_OEM_6 then RightBracket
    else if vk == VK_RCONTROL then RightControl
    else if vk == VK_RSHIFT then RightShift
    else if vk == VK_RWIN then RightSuper
    else if vk == VK_OEM_1 then Semicolon
    else if vk == VK_OEM_2 then ForwardSlash
    else if vk == VK_SLEEP then Sleep
    else if vk == VK_TAB then Tab
    else if vk == VK_NONAME then NoName
    else if vk == VK_VOLUME_DOWN then VolumeDown
    else if vk == VK_VOLUME_UP then VolumeUp
    else if vk == VK_BROWSER_BACK then WebBack
    else if vk == VK_BROWSER_FAVORITES then WebFavorites
    else if vk == VK_BROWSER_FORWARD then WebForward
    else if vk == VK_BROWSER_HOME then WebHome
    else if vk == VK_BROWSER_REFRESH then WebRefresh
    else if vk == VK_BROWSER_SEARCH then WebSearch
    else if vk == VK_BROWSER_STOP then WebStop
    else if vk == VK_OEM_COPY then Copy
    else Unknown
  }

  /** The arms of `FromVirtualKey` sorted by code, by binary search. */
  function ArmsByCode(vk: VirtualKey): Key {
    if vk < 105 then
      if vk < 68 then
        if vk < 39 then
          if vk < 28 then
            if vk < 20 then
              if vk < 13 then
                if vk < 9 then
                  if vk == 8 then Backspace else Unknown
                else
                  if vk == 9 then Tab else Unknown
              else
                if vk < 19 then
                  if vk == 13 then Enter else Unknown
                else
                  if vk == 19 then Pause else Unknown
            else
              if vk < 25 then
                if vk < 21 then
                  if vk == 20 then CapsLock else Unknown
                else
                  if vk == 21 then Kana else Unknown
              else
                if vk < 27 then
                  if vk == 25 then Kanji else Unknown
                else
                  if vk == 27 then Escape else Unknown
          else
            if vk < 34 then
              if vk < 32 then
                if vk < 29 then
                  if vk == 28 then Convert else Unknown
                else
                  if vk == 29 then NoConvert else Unknown
              else
                if vk < 33 then
                  if vk == 32 then Space else Unknown
                else
                  if vk == 33 then PageUp else Unknown
            else
              if vk < 36 then
                if vk < 35 then
                  if vk == 34 then PageDown else Unknown
                else
                  if vk == 35 then End else Unknown
              else
                if vk < 37 then
                  if vk == 36 then Home else Unknown
                else
                  if vk < 38 then
                    if vk == 37 then Left else Unknown
                  else
                    if vk == 38 then Up else Unknown
        else
          if vk < 52 then
            if vk < 46 then
              if vk < 44 then
                if vk < 40 then
                  if vk == 39 then Right else Unknown
                else
                  if vk == 40 then Down else Unknown
              else
                if vk < 45 then
                  if vk == 44 then PrintScreen else Unknown
                else
                  if vk == 45 then Insert else Unknown
            else
              if vk < 49 then
                if vk < 48 then
                  if vk == 46 then Delete else Unknown
                else
                  if vk == 48 then Digit0 else Unknown
              else
                if vk < 50 then
                  if vk == 49 then Digit1 else Unknown
                else
                  if vk < 51 then
                    if vk == 50 then Digit2 else Unknown
                  else
                    if vk == 51 then Digit3 else Unknown
          else
            if vk < 56 then
              if vk < 54 then
                if vk < 53 then
                  if vk == 52 then Digit4 else Unknown
                else
                  if vk == 53 then Digit5 else Unknown
              else
                if vk < 55 then
                  if vk == 54 then Digit6 else Unknown
                else
                  if vk == 55 then Digit7 else Unknown
            else
              if vk < 65 then
                if vk < 57 then
                  if vk == 56 then Digit8 else Unknown
                else
                  if vk == 57 then Digit9 else Unknown
              else
                if vk < 66 then
                  if vk == 65 then A else Unknown
                else
                  if vk < 67 then
                    if vk == 66 then B else Unknown
                  else
                    if vk == 67 then C else Unknown
      else
        if vk < 86 then
          if vk < 77 then
            if vk < 72 then
              if vk < 70 then
                if vk < 69 then
                  if vk == 68 then D else Unknown
                else
                  if vk == 69 then E else Unknown
              else
                if vk < 71 then
                  if vk == 70 then F else Unknown
                else
                  if vk == 71 then G else Unknown
            else
              if vk < 74 then
                if vk < 73 then
                  if vk == 72 then H else Unknown
                else
                  if vk == 73 then I else Unknown
              else
                if vk < 75 then
                  if vk == 74 then J else Unknown
                else
                  if vk < 76 then
                    if vk == 75 then K else Unknown
                  else
                    if vk == 76 then L else Unknown
          else
            if vk < 81 then
              if vk < 79 then
                if vk < 78 then
                  if vk == 77 then M else Unknown
                else
                  if vk == 78 then N else Unknown
              else
                if vk < 80 then
                  if vk == 79 then O else Unknown
                else
                  if vk == 80 then P else Unknown
            else
              if vk < 83 then
                if vk < 82 then
                  if vk == 81 then Q else Unknown
                else
                  if vk == 82 then R else Unknown
              else
                if vk < 84 then
                  if vk == 83 then S else Unknown
                else
                  if vk < 85 then
                    if vk == 84 then T else Unknown
                  else
                    if vk == 85 then U else Unknown
        else
          if vk < 96 then
            if vk < 90 then
              if vk < 88 then
                if vk < 87 then
                  if vk == 86 then V else Unknown
                else
                  if vk == 87 then W else Unknown
              else
                if vk < 89 then
                  if vk == 88 then X else Unknown
                else
                  if vk == 89 then Y else Unknown
            else
              if vk < 92 then
                if vk < 91 then
                  if vk == 90 then Z else Unknown
                else
                  if vk == 91 then LeftSuper else Unknown
              else
                if vk < 93 then
                  if vk == 92 then RightSuper else Unknown
                else
                  if vk < 95 then
                    if vk == 93 then Menu else Unknown
                  else
                    if vk == 95 then Sleep else Unknown
          else
            if vk < 100 then
              if vk < 98 then
                if vk < 97 then
                  if vk == 96 then Num0 else Unknown
                else
                  if vk == 97 then Num1 else Unknown
              else
                if vk < 99 then
                  if vk == 98 then Num2 else Unknown
                else
                  if vk == 99 then Num3 else Unknown
            else
              if vk < 102 then
                if vk < 101 then
                  if vk == 100 then Num4 else Unknown
                else
                  if vk == 101 then Num5 else Unknown
              else
                if vk < 103 then
                  if vk == 102 then Num6 else Unknown
                else
                  if vk < 104 then
                    if vk == 103 then Num7 else Unknown
                  else
                    if vk == 104 then Num8 else Unknown
    else
      if vk < 163 then
        if vk < 123 then
          if vk < 114 then
            if vk < 110 then
              if vk < 107 then
                if vk < 106 then
                  if vk == 105 then Num9 else Unknown
                else
                  if vk == 106 then NumMultiply else Unknown
              else
                if vk < 109 then
                  if vk == 107 then NumPlus else Unknown
                else
                  if vk == 109 then NumMinus else Unknown
            else
              if vk < 112 then
                if vk < 111 then
                  if vk == 110 then NumPeriod else Unknown
                else
                  if vk == 111 then NumDivide else Unknown
              else
                if vk < 113 then
                  if vk == 112 then F1 else Unknown
                else
                  if vk == 113 then F2 else Unknown
          else
            if vk < 118 then
              if vk < 116 then
                if vk < 115 then
                  if vk == 114 then F3 else Unknown
                else
                  if vk == 115 then F4 else Unknown
              else
                if vk < 117 then
                  if vk == 116 then F5 else Unknown
                else
                  if vk == 117 then F6 else Unknown
            else
              if vk < 120 then
                if vk < 119 then
                  if vk == 118 then F7 else Unknown
                else
                  if vk == 119 then F8 else Unknown
              else
                if vk < 121 then
                  if vk == 120 then F9 else Unknown
                else
                  if vk < 122 then
                    if vk == 121 then F10 else Unknown
                  else
                    if vk == 122 then F11 else Unknown
        else
          if vk < 132 then
            if vk < 127 then
              if vk < 125 then
                if vk < 124 then
                  if vk == 123 then F12 else Unknown
                else
                  if vk == 124 then F13 else Unknown
              else
                if vk < 126 then
                  if vk == 125 then F14 else Unknown
                else
                  if vk == 126 then F15 else Unknown
            else
              if vk < 129 then
                if vk < 128 then
                  if vk == 127 then F16 else Unknown
                else
                  if vk == 128 then F17 else Unknown
              else
                if vk < 130 then
                  if vk == 129 then F18 else Unknown
                else
                  if vk < 131 then
                    if vk == 130 then F19 else Unknown
                  else
                    if vk == 131 then F20 else Unknown
          else
            if vk < 144 then
              if vk < 134 then
                if vk < 133 then
                  if vk == 132 then F21 else Unknown
                else
                  if vk == 133 then F22 else Unknown
              else
                if vk < 135 then
                  if vk == 134 then F23 else Unknown
                else
                  if vk == 135 then F24 else Unknown
            else
              if vk < 160 then
                if vk < 145 then
                  if vk == 144 then NumLock else Unknown
                else
                  if vk == 145 then ScrollLock else Unknown
              else
                if vk < 161 then
                  if vk == 160 then LeftShift else Unknown
                else
                  if vk < 162 then
                    if vk == 161 then RightShift else Unknown
                  else
                    if vk == 162 then LeftControl else Unknown
      else
        if vk < 181 then
          if vk < 172 then
            if vk < 167 then
              if vk < 165 then
                if vk < 164 then
                  if vk == 163 then RightControl else Unknown
                else
                  if vk == 164 then LeftAlt else Unknown
              else
                if vk < 166 then
                  if vk == 165 then RightAlt else Unknown
                else
                  if vk == 166 then WebBack else Unknown
            else
              if vk < 169 then
                if vk < 168 then
                  if vk == 167 then WebForward else Unknown
                else
                  if vk == 168 then WebRefresh else Unknown
              else
                if vk < 170 then
                  if vk == 169 then WebStop else Unknown
                else
                  if vk < 171 then
                    if vk == 170 then WebSearch else Unknown
                  else
                    if vk == 171 then WebFavorites else Unknown
          else
            if vk < 176 then
              if vk < 174 then
                if vk < 173 then
                  if vk == 172 then WebHome else Unknown
                else
                  if vk == 173 then VolumeMute else Unknown
              else
                if vk < 175 then
                  if vk == 174 then VolumeDown else Unknown
                else
                  if vk == 175 then VolumeUp else Unknown
            else
              if vk < 178 then
                if vk < 177 then
                  if vk == 176 then MediaNextTrack else Unknown
                else
                  if vk == 177 then MediaPrevTrack else Unknown
              else
                if vk < 179 then
                  if vk == 178 then MediaStop else Unknown
                else
                  if vk < 180 then
                    if vk == 179 then MediaPlayPause else Unknown
                  else
                    if vk == 180 then Mail else Unknown
        else
          if vk < 194 then
            if vk < 189 then
              if vk < 187 then
                if vk < 186 then
                  if vk == 181 then MediaSelect else Unknown
                else
                  if vk == 186 then Semicolon else Unknown
              else
                if vk < 188 then
                  if vk == 187 then Equals else Unknown
                else
                  if vk == 188 then Comma else Unknown
            else
              if vk < 191 then
                if vk < 190 then
                  if vk == 189 then Minus else Unknown
                else
                  if vk == 190 then Period else Unknown
              else
                if vk < 192 then
                  if vk == 191 then ForwardSlash else Unknown
                else
                  if vk < 193 then
                    if vk == 192 then Accent else Unknown
                  else
                    if vk == 193 then AbntC1 else Unknown
          else
            if vk < 222 then
              if vk < 220 then
                if vk < 219 then
                  if vk == 194 then AbntC2 else Unknown
                else
                  if vk == 219 then LeftBracket else Unknown
              else
                if vk < 221 then
                  if vk == 220 then BackSlash else Unknown
                else
                  if vk == 221 then RightBracket else Unknown
            else
              if vk < 226 then
                if vk < 225 then
                  if vk == 222 then Apostrophe else Unknown
                else
                  if vk == 225 then Ax else Unknown
              else
                if vk < 242 then
                  if vk == 226 then OEM102 else Unknown
                else
                  if vk < 252 then
                    if vk == 242 then Copy else Unknown
                  else
                    if vk == 252 then NoName else Unknown
  }

  lemma ArmsByCodeAgreeOn0000(vk: VirtualKey)
    requires vk < 0x13
    ensures FromVirtualKey(vk) == ArmsByCode(vk)
  {
  }

  lemma ArmsByCodeAgreeOn0013(vk: VirtualKey)
    requires 0x13 <= vk < 0x19
    ensures FromVirtualKey(vk) == ArmsByCode(vk)
  {
  }

  lemma ArmsByCodeAgreeOn0019(vk: VirtualKey)
    requires 0x19 <= vk < 0x1D
    ensures FromVirtualKey(vk) == ArmsByCode(vk)
  {
  }

  lemma ArmsByCodeAgreeOn001D(vk: VirtualKey)
    requires 0x1D <= vk < 0x22
    ensures FromVirtualKey(vk) == ArmsByCode(vk)
  {
  }

  lemma ArmsByCodeAgreeOn0022(vk: VirtualKey)
    requires 0x22 <= vk < 0x25
    ensures FromVirtualKey(vk) == ArmsByCode(vk)
  {
  }

  lemma ArmsByCodeAgreeOn0025(vk: VirtualKey)
    requires 0x25 <= vk < 0x28
    ensures FromVirtualKey(vk) == ArmsByCode(vk)
  {
  }

  lemma ArmsByCodeAgreeOn0028(vk: VirtualKey)
    requires 0x28 <= vk < 0x2E
    ensures FromVirtualKey(vk) == ArmsByCode(vk)
  {
  }

  lemma ArmsByCodeAgreeOn002E(vk: VirtualKey)
    requires 0x2E <= vk < 0x32
    ensures FromVirtualKey(vk) == ArmsByCode(vk)
  {
  }

  lemma ArmsByCodeAgreeOn0032(vk: VirtualKey)
    requires 0x32 <= vk < 0x35
    ensures FromVirtualKey(vk) == ArmsByCode(vk)
  {
  }

  lemma ArmsByCodeAgreeOn0035(vk: VirtualKey)
    requires 0x35 <= vk < 0x38
    ensures FromVirtualKey(vk) == ArmsByCode(vk)
  {
  }

  lemma ArmsByCodeAgreeOn0038(vk: VirtualKey)
    requires 0x38 <= vk < 0x42
    ensures FromVirtualKey(vk) == ArmsByCode(vk)
  {
  }

  lemma ArmsByCodeAgreeOn0042(vk: VirtualKey)
    requires 0x42 <= vk < 0x45
    ensures FromVirtualKey(vk) == ArmsByCode(vk)
  {
  }

  lemma ArmsByCodeAgreeOn0045(vk: VirtualKey)
    requires 0x45 <= vk < 0x48
    ensures FromVirtualKey(vk) == ArmsByCode(vk)
  {
  }

  lemma ArmsByCodeAgreeOn0048(vk: VirtualKey)
    requires 0x48 <= vk < 0x4B
    ensures FromVirtualKey(vk) == ArmsByCode(vk)
  {
  }

  lemma ArmsByCodeAgreeOn004B(vk: VirtualKey)
    requires 0x4B <= vk < 0x4E
    ensures FromVirtualKey(vk) == ArmsByCode(vk)
  {
  }

  lemma ArmsByCodeAgreeOn004E(vk: VirtualKey)
    requires 0x4E <= vk < 0x51
    ensures FromVirtualKey(vk) == ArmsByCode(vk)
  {
  }

  lemma ArmsByCodeAgreeOn0051(vk: VirtualKey)
    requires 0x51 <= vk < 0x54
    ensures FromVirtualKey(vk) == ArmsByCode(vk)
  {
  }

  lemma ArmsByCodeAgreeOn0054(vk: VirtualKey)
    requires 0x54 <= vk < 0x57
    ensures FromVirtualKey(vk) == ArmsByCode(vk)
  {
  }

  lemma ArmsByCodeAgreeOn0057(vk: VirtualKey)
    requires 0x57 <= vk < 0x5A
    ensures FromVirtualKey(vk) == ArmsByCode(vk)
  {
  }

  lemma ArmsByCodeAgreeOn005A(vk: VirtualKey)
    requires 0x5A <= vk < 0x5D
    ensures FromVirtualKey(vk) == ArmsByCode(vk)
  {
  }

  lemma ArmsByCodeAgreeOn005D(vk: VirtualKey)
    requires 0x5D <= vk < 0x61
    ensures FromVirtualKey(vk) == ArmsByCode(vk)
  {
  }

  lemma ArmsByCodeAgreeOn0061(vk: VirtualKey)
    requires 0x61 <= vk < 0x64
    ensures FromVirtualKey(vk) == ArmsByCode(vk)
  {
  }

  lemma ArmsByCodeAgreeOn0064(vk: VirtualKey)
    requires 0x64 <= vk < 0x67
    ensures FromVirtualKey(vk) == ArmsByCode(vk)
  {
  }

  lemma ArmsByCodeAgreeOn0067(vk: VirtualKey)
    requires 0x67 <= vk < 0x6A
    ensures FromVirtualKey(vk) == ArmsByCode(vk)
  {
  }

  lemma ArmsByCodeAgreeOn006A(vk: VirtualKey)
    requires 0x6A <= vk < 0x6E
    ensures FromVirtualKey(vk) == ArmsByCode(vk)
  {
  }

  lemma ArmsByCodeAgreeOn006E(vk: VirtualKey)
    requires 0x6E <= vk < 0x71
    ensures FromVirtualKey(vk) == ArmsByCode(vk)
  {
  }

  lemma ArmsByCodeAgreeOn0071(vk: VirtualKey)
    requires 0x71 <= vk < 0x74
    ensures FromVirtualKey(vk) == ArmsByCode(vk)
  {
  }

  lemma ArmsByCodeAgreeOn0074(vk: VirtualKey)
    requires 0x74 <= vk < 0x77
    ensures FromVirtualKey(vk) == ArmsByCode(vk)
  {
  }

  lemma ArmsByCodeAgreeOn0077(vk: VirtualKey)
    requires 0x77 <= vk < 0x7A
    ensures FromVirtualKey(vk) == ArmsByCode(vk)
  {
  }

  lemma ArmsByCodeAgreeOn007A(vk: VirtualKey)
    requires 0x7A <= vk < 0x7D
    ensures FromVirtualKey(vk) == ArmsByCode(vk)
  {
  }

  lemma ArmsByCodeAgreeOn007D(vk: VirtualKey)
    requires 0x7D <= vk < 0x80
    ensures FromVirtualKey(vk) == ArmsByCode(vk)
  {
  }

  lemma ArmsByCodeAgreeOn0080(vk: VirtualKey)
    requires 0x80 <= vk < 0x83
    ensures FromVirtualKey(vk) == ArmsByCode(vk)
  {
  }

  lemma ArmsByCodeAgreeOn0083(vk: VirtualKey)
    requires 0x83 <= vk < 0x86
    ensures FromVirtualKey(vk) == ArmsByCode(vk)
  {
  }

  lemma ArmsByCodeAgreeOn0086(vk: VirtualKey)
    requires 0x86 <= vk < 0x91
    ensures FromVirtualKey(vk) == ArmsByCode(vk)
  {
  }

  lemma ArmsByCodeAgreeOn0091(vk: VirtualKey)
    requires 0x91 <= vk < 0xA2
    ensures FromVirtualKey(vk) == ArmsByCode(vk)
  {
  }

  lemma ArmsByCodeAgreeOn00A2(vk: VirtualKey)
    requires 0xA2 <= vk < 0xA5
    ensures FromVirtualKey(vk) == ArmsByCode(vk)
  {
  }

  lemma ArmsByCodeAgreeOn00A5(vk: VirtualKey)
    requires 0xA5 <= vk < 0xA8
    ensures FromVirtualKey(vk) == ArmsByCode(vk)
  {
  }

  lemma ArmsByCodeAgreeOn00A8(vk: VirtualKey)
    requires 0xA8 <= vk < 0xAB
    ensures FromVirtualKey(vk) == ArmsByCode(vk)
  {
  }

  lemma ArmsByCodeAgreeOn00AB(vk: VirtualKey)
    requires 0xAB <= vk < 0xAE
    ensures FromVirtualKey(vk) == ArmsByCode(vk)
  {
  }

  lemma ArmsByCodeAgreeOn00AE(vk: VirtualKey)
    requires 0xAE <= vk < 0xB1
    ensures FromVirtualKey(vk) == ArmsByCode(vk)
  {
  }

  lemma ArmsByCodeAgreeOn00B1(vk: VirtualKey)
    requires 0xB1 <= vk < 0xB4
    ensures FromVirtualKey(vk) == ArmsByCode(vk)
  {
  }

  lemma ArmsByCodeAgreeOn00B4(vk: VirtualKey)
    requires 0xB4 <= vk < 0xBB
    ensures FromVirtualKey(vk) == ArmsByCode(vk)
  {
  }

  lemma ArmsByCodeAgreeOn00BB(vk: VirtualKey)
    requires 0xBB <= vk < 0xBE
    ensures FromVirtualKey(vk) == ArmsByCode(vk)
  {
  }

  lemma ArmsByCodeAgreeOn00BE(vk: VirtualKey)
    requires 0xBE <= vk < 0xC1
    ensures FromVirtualKey(vk) == ArmsByCode(vk)
  {
  }

  lemma ArmsByCodeAgreeOn00C1(vk: VirtualKey)
    requires 0xC1 <= vk < 0xDC
    ensures FromVirtualKey(vk) == ArmsByCode(vk)
  {
  }

  lemma ArmsByCodeAgreeOn00DC(vk: VirtualKey)
    requires 0xDC <= vk < 0xE1
    ensures FromVirtualKey(vk) == ArmsByCode(vk)
  {
  }

  lemma ArmsByCodeAgreeOn00E1(vk: VirtualKey)
    requires 0xE1 <= vk < 0xFC
    ensures FromVirtualKey(vk) == ArmsByCode(vk)
  {
  }

  lemma ArmsByCodeAgreeOn00FC(vk: VirtualKey)
    requires 0xFC <= vk
    ensures FromVirtualKey(vk) == ArmsByCode(vk)
  {
  }

  lemma ArmsByCodeAgree(vk: VirtualKey)
    ensures FromVirtualKey(vk) == ArmsByCode(vk)
  {
    if vk < 0x13 {
      ArmsByCodeAgreeOn0000(vk);
    } else if vk < 0x19 {
      ArmsByCodeAgreeOn0013(vk);
    } else if vk < 0x1D {
      ArmsByCodeAgreeOn0019(vk);
    } else if vk < 0x22 {
      ArmsByCodeAgreeOn001D(vk);
    } else if vk < 0x25 {
      ArmsByCodeAgreeOn0022(vk);
    } else if vk < 0x28 {
      ArmsByCodeAgreeOn0025(vk);
    } else if vk < 0x2E {
      ArmsByCodeAgreeOn0028(vk);
    } else if vk < 0x32 {
      ArmsByCodeAgreeOn002E(vk);
    } else if vk < 0x35 {
      ArmsByCodeAgreeOn0032(vk);
    } else if vk < 0x38 {
      ArmsByCodeAgreeOn0035(vk);
    } else if vk < 0x42 {
      ArmsByCodeAgreeOn0038(vk);
    } else if vk < 0x45 {
      ArmsByCodeAgreeOn0042(vk);
    } else if vk < 0x48 {
      ArmsByCodeAgreeOn0045(vk);
    } else if vk < 0x4B {
      ArmsByCodeAgreeOn0048(vk);
    } else if vk < 0x4E {
      ArmsByCodeAgreeOn004B(vk);
    } else if vk < 0x51 {
      ArmsByCodeAgreeOn004E(vk);
    } else if vk < 0x54 {
      ArmsByCodeAgreeOn0051(vk);
    } else if vk < 0x57 {
      ArmsByCodeAgreeOn0054(vk);
    } else if vk < 0x5A {
      ArmsByCodeAgreeOn0057(vk);
    } else if vk < 0x5D {
      ArmsByCodeAgreeOn005A(vk);
    } else if vk < 0x61 {
      ArmsByCodeAgreeOn005D(vk);
    } else if vk < 0x64 {
      ArmsByCodeAgreeOn0061(vk);
    } else if vk < 0x67 {
      ArmsByCodeAgreeOn0064(vk);
    } else if vk < 0x6A {
      ArmsByCodeAgreeOn0067(vk);
    } else if vk < 0x6E {
      ArmsByCodeAgreeOn006A(vk);
    } else if vk < 0x71 {
      ArmsByCodeAgreeOn006E(vk);
    } else if vk < 0x74 {
      ArmsByCodeAgreeOn0071(vk);
    } else if vk < 0x77 {
      ArmsByCodeAgreeOn0074(vk);
    } else if vk < 0x7A {
      ArmsByCodeAgreeOn0077(vk);
    } else if vk < 0x7D {
      ArmsByCodeAgreeOn007A(vk);
    } else if vk < 0x80 {
      ArmsByCodeAgreeOn007D(vk);
    } else if vk < 0x83 {
      ArmsByCodeAgreeOn0080(vk);
    } else if vk < 0x86 {
      ArmsByCodeAgreeOn0083(vk);
    } else if vk < 0x91 {
      ArmsByCodeAgreeOn0086(vk);
    } else if vk < 0xA2 {
      ArmsByCodeAgreeOn0091(vk);
    } else if vk < 0xA5 {
      ArmsByCodeAgreeOn00A2(vk);
    } else if vk < 0xA8 {
      ArmsByCodeAgreeOn00A5(vk);
    } else if vk < 0xAB {
      ArmsByCodeAgreeOn00A8(vk);
    } else if vk < 0xAE {
      ArmsByCodeAgreeOn00AB(vk);
    } else if vk < 0xB1 {
      ArmsByCodeAgreeOn00AE(vk);
    } else if vk < 0xB4 {
      ArmsByCodeAgreeOn00B1(vk);
    } else if vk < 0xBB {
      ArmsByCodeAgreeOn00B4(vk);
    } else if vk < 0xBE {
      ArmsByCodeAgreeOn00BB(vk);
    } else if vk < 0xC1 {
      ArmsByCodeAgreeOn00BE(vk);
    } else if vk < 0xDC {
      ArmsByCodeAgreeOn00C1(vk);
    } else if vk < 0xE1 {
      ArmsByCodeAgreeOn00DC(vk);
    } else if vk < 0xFC {
      ArmsByCodeAgreeOn00E1(vk);
    } else {
      ArmsByCodeAgreeOn00FC(vk);
    }
  }

  /**
   * The code of the arm of `FromVirtualKey` that produces `k`, or None when no
   * arm does (the fallback `Unknown`, and the variants whose arms are
   * commented out or absent). Written key by key, independently of the arms.
   */
  function ArmFor(k: Key): Option<VirtualKey> {
    match k
    case Tab => Some(VK_TAB)
    case Enter => Some(VK_RETURN)
    case Space => Some(VK_SPACE)
    case Apostrophe => Some(VK_OEM_7)
    case Comma => Some(VK_OEM_COMMA)
    case Minus => Some(VK_OEM_MINUS)
    case Period => Some(VK_OEM_PERIOD)
    case ForwardSlash => Some(VK_OEM_2)
    case Digit0 => Some(VK_0)
    case Digit1 => Some(VK_1)
    case Digit2 => Some(VK_2)
    case Digit3 => Some(VK_3)
    case Digit4 => Some(VK_4)
    case Digit5 => Some(VK_5)
    case Digit6 => Some(VK_6)
    case Digit7 => Some(VK_7)
    case Digit8 => Some(VK_8)
    case Digit9 => Some(VK_9)
    case Semicolon => Some(VK_OEM_1)
    case Equals => Some(VK_OEM_PLUS)
    case A => Some(VK_A)
    case B => Some(VK_B)
    case C => Some(VK_C)
    case D => Some(VK_D)
    case E => Some(VK_E)
    case F => Some(VK_F)
    case G => Some(VK_G)
    case H => Some(VK_H)
    case I => Some(VK_I)
    case J => Some(VK_J)
    case K => Some(VK_K)
    case L => Some(VK_L)
    case M => Some(VK_M)
    case N => Some(VK_N)
    case O => Some(VK_O)
    case P => Some(VK_P)
    case Q => Some(VK_Q)
    case R => Some(VK_R)
    case S => Some(VK_S)
    case T => Some(VK_T)
    case U => Some(VK_U)
    case V => Some(VK_V)
    case W => Some(VK_W)
    case X => Some(VK_X)
    case Y => Some(VK_Y)
    case Z => Some(VK_Z)
    case LeftBracket => Some(VK_OEM_4)
    case BackSlash => Some(VK_OEM_5)
    case RightBracket => Some(VK_OEM_6)
    case Accent => Some(VK_OEM_3)
    case Escape => Some(VK_ESCAPE)
    case Backspace => Some(VK_BACK)
    case Insert => Some(VK_INSERT)
    case Delete => Some(VK_DELETE)
    case Up => Some(VK_UP)
    case Down => Some(VK_DOWN)
    case Left => Some(VK_LEFT)
    case Right => Some(VK_RIGHT)
    case PageUp => Some(VK_PRIOR)
    case PageDown => Some(VK_NEXT)
    case Home => Some(VK_HOME)
    case End => Some(VK_END)
    case CapsLock => Some(VK_CAPITAL)
    case ScrollLock => Some(VK_SCROLL)
    case NumLock => Some(VK_NUMLOCK)
    case PrintScreen => Some(VK_SNAPSHOT)
    case Pause => Some(VK_PAUSE)
    case Num0 => Some(VK_NUMPAD0)
    case Num1 => Some(VK_NUMPAD1)
    case Num2 => Some(VK_NUMPAD2)
    case Num3 => Some(VK_NUMPAD3)
    case Num4 => Some(VK_NUMPAD4)
    case Num5 => Some(VK_NUMPAD5)
    case Num6 => Some(VK_NUMPAD6)
    case Num7 => Some(VK_NUMPAD7)
    case Num8 => Some(VK_NUMPAD8)
    case Num9 => Some(VK_NUMPAD9)
    case F1 => Some(VK_F1)
    case F2 => Some(VK_F2)
    case F3 => Some(VK_F3)
    case F4 => Some(VK_F4)
    case F5 => Some(VK_F5)
    case F6 => Some(VK_F6)
    case F7 => Some(VK_F7)
    case F8 => Some(VK_F8)
    case F9 => Some(VK_F9)
    case F10 => Some(VK_F10)
    case F11 => Some(VK_F11)
    case F12 => Some(VK_F12)
    case F13 => Some(VK_F13)
    case F14 => Some(VK_F14)
    case F15 => Some(VK_F15)
    case F16 => Some(VK_F16)
    case F17 => Some(VK_F17)
    case F18 => Some(VK_F18)
    case F19 => Some(VK_F19)
    case F20 => Some(VK_F20)
    case F21 => Some(VK_F21)
    case F22 => Some(VK_F22)
    case F23 => Some(VK_F23)
    case F24 => Some(VK_F24)
    case NumPeriod => Some(VK_DECIMAL)
    case NumPlus => Some(VK_ADD)
    case NumMinus => Some(VK_SUBTRACT)
    case NumDivide => Some(VK_DIVIDE)
    case NumMultiply => Some(VK_MULTIPLY)
    case LeftShift => Some(VK_LSHIFT)
    case LeftControl => Some(VK_LCONTROL)
    case LeftAlt => Some(VK_LMENU)
    case LeftSuper => Some(VK_LWIN)
    case RightShift => Some(VK_RSHIFT)
    case RightControl => Some(VK_RCONTROL)
    case RightAlt => Some(VK_RMENU)
    case RightSuper => Some(VK_RWIN)
    case Menu => Some(VK_APPS)
    case AbntC1 => Some(VK_ABNT_C1)
    case AbntC2 => Some(VK_ABNT_C2)
    case Ax => Some(VK_OEM_AX)
    case Convert => Some(VK_CONVERT)
    case Kana => Some(VK_KANA)
    case Kanji => Some(VK_KANJI)
    case Mail => Some(VK_LAUNCH_MAIL)
    case MediaPlayPause => Some(VK_MEDIA_PLAY_PAUSE)
    case MediaStop => Some(VK_MEDIA_STOP)
    case MediaSelect => Some(VK_LAUNCH_MEDIA_SELECT)
    case MediaNextTrack => Some(VK_MEDIA_NEXT_TRACK)
    case MediaPrevTrack => Some(VK_MEDIA_PREV_TRACK)
    case VolumeDown => Some(VK_VOLUME_DOWN)
    case VolumeUp => Some(VK_VOLUME_UP)
    case VolumeMute => Some(VK_VOLUME_MUTE)
    case NoConvert => Some(VK_NONCONVERT)
    case OEM102 => Some(VK_OEM_102)
    case Sleep => Some(VK_SLEEP)
    case NoName => Some(VK_NONAME)
    case WebBack => Some(VK_BROWSER_BACK)
    case WebFavorites => Some(VK_BROWSER_FAVORITES)
    case WebForward => Some(VK_BROWSER_FORWARD)
    case WebHome => Some(VK_BROWSER_HOME)
    case WebRefresh => Some(VK_BROWSER_REFRESH)
    case WebSearch => Some(VK_BROWSER_SEARCH)
    case WebStop => Some(VK_BROWSER_STOP)
    case Copy => Some(VK_OEM_COPY)
    case _ => None
  }

  /** The variants whose arms are commented out (or, for `F25`, absent). */
  predicate IsNeverProduced(k: Key) {
    k.NumEnter? || k.F25? || k.NumComma? || k.NumEquals? || k.Caret? || k.Asterisk?
    || k.At? || k.Calculator? || k.Colon? || k.MyComputer? || k.NavigateForward?
    || k.NavigateBackward? || k.Plus? || k.Power? || k.Stop? || k.SysRq?
    || k.Underline? || k.Wake? || k.Yen? || k.Paste? || k.Cut?
  }

  lemma ProducedKeysHaveArms(k: Key)
    requires k != Unknown && !IsNeverProduced(k)
    ensures ArmFor(k).Some?
  {
  }



  lemma ArmsByCodeOfArmOn000(k: Key)
    requires Position(k) < 8
    requires ArmFor(k).Some?
    ensures ArmsByCode(ArmFor(k).value) == k
  {
  }

  lemma ArmsByCodeOfArmOn008(k: Key)
    requires 8 <= Position(k) < 16
    requires ArmFor(k).Some?
    ensures ArmsByCode(ArmFor(k).value) == k
  {
  }

  lemma ArmsByCodeOfArmOn016(k: Key)
    requires 16 <= Position(k) < 24
    requires ArmFor(k).Some?
    ensures ArmsByCode(ArmFor(k).value) == k
  {
  }

  lemma ArmsByCodeOfArmOn024(k: Key)
    requires 24 <= Position(k) < 32
    requires ArmFor(k).Some?
    ensures ArmsByCode(ArmFor(k).value) == k
  {
  }

  lemma ArmsByCodeOfArmOn032(k: Key)
    requires 32 <= Position(k) < 40
    requires ArmFor(k).Some?
    ensures ArmsByCode(ArmFor(k).value) == k
  {
  }

  lemma ArmsByCodeOfArmOn040(k: Key)
    requires 40 <= Position(k) < 48
    requires ArmFor(k).Some?
    ensures ArmsByCode(ArmFor(k).value) == k
  {
  }

  lemma ArmsByCodeOfArmOn048(k: Key)
    requires 48 <= Position(k) < 56
    requires ArmFor(k).Some?
    ensures ArmsByCode(ArmFor(k).value) == k
  {
  }

  lemma ArmsByCodeOfArmOn056(k: Key)
    requires 56 <= Position(k) < 64
    requires ArmFor(k).Some?
    ensures ArmsByCode(ArmFor(k).value) == k
  {
  }

  lemma ArmsByCodeOfArmOn064(k: Key)
    requires 64 <= Position(k) < 72
    requires ArmFor(k).Some?
    ensures ArmsByCode(ArmFor(k).value) == k
  {
  }

  lemma ArmsByCodeOfArmOn072(k: Key)
    requires 72 <= Position(k) < 80
    requires ArmFor(k).Some?
    ensures ArmsByCode(ArmFor(k).value) == k
  {
  }

  lemma ArmsByCodeOfArmOn080(k: Key)
    requires 80 <= Position(k) < 88
    requires ArmFor(k).Some?
    ensures ArmsByCode(ArmFor(k).value) == k
  {
  }

  lemma ArmsByCodeOfArmOn088(k: Key)
    requires 88 <= Position(k) < 96
    requires ArmFor(k).Some?
    ensures ArmsByCode(ArmFor(k).value) == k
  {
  }

  lemma ArmsByCodeOfArmOn096(k: Key)
    requires 96 <= Position(k) < 104
    requires ArmFor(k).Some?
    ensures ArmsByCode(ArmFor(k).value) == k
  {
  }

  lemma ArmsByCodeOfArmOn104(k: Key)
    requires 104 <= Position(k) < 112
    requires ArmFor(k).Some?
    ensures ArmsByCode(ArmFor(k).value) == k
  {
  }

  lemma ArmsByCodeOfArmOn112(k: Key)
    requires 112 <= Position(k) < 120
    requires ArmFor(k).Some?
    ensures ArmsByCode(ArmFor(k).value) == k
  {
  }

  lemma ArmsByCodeOfArmOn120(k: Key)
    requires 120 <= Position(k) < 128
    requires ArmFor(k).Some?
    ensures ArmsByCode(ArmFor(k).value) == k
  {
  }

  lemma ArmsByCodeOfArmOn128(k: Key)
    requires 128 <= Position(k) < 136
    requires ArmFor(k).Some?
    ensures ArmsByCode(ArmFor(k).value) == k
  {
  }

  lemma ArmsByCodeOfArmOn136(k: Key)
    requires 136 <= Position(k) < 144
    requires ArmFor(k).Some?
    ensures ArmsByCode(ArmFor(k).value) == k
  {
  }

  lemma ArmsByCodeOfArmOn144(k: Key)
    requires 144 <= Position(k) < 152
    requires ArmFor(k).Some?
    ensures ArmsByCode(ArmFor(k).value) == k
  {
  }

  lemma ArmsByCodeOfArmOn152(k: Key)
    requires 152 <= Position(k) < 160
    requires ArmFor(k).Some?
    ensures ArmsByCode(ArmFor(k).value) == k
  {
  }

  lemma ArmsByCodeOfArmOn160(k: Key)
    requires 160 <= Position(k)
    requires ArmFor(k).Some?
    ensures ArmsByCode(ArmFor(k).value) == k
  {
  }

  lemma ArmsByCodeOfArm(k: Key)
    requires ArmFor(k).Some?
    ensures ArmsByCode(ArmFor(k).value) == k
  {
    if Position(k) < 8 {
      ArmsByCodeOfArmOn000(k);
    } else if Position(k) < 16 {
      ArmsByCodeOfArmOn008(k);
    } else if Position(k) < 24 {
      ArmsByCodeOfArmOn016(k);
    } else if Position(k) < 32 {
      ArmsByCodeOfArmOn024(k);
    } else if Position(k) < 40 {
      ArmsByCodeOfArmOn032(k);
    } else if Position(k) < 48 {
      ArmsByCodeOfArmOn040(k);
    } else if Position(k) < 56 {
      ArmsByCodeOfArmOn048(k);
    } else if Position(k) < 64 {
      ArmsByCodeOfArmOn056(k);
    } else if Position(k) < 72 {
      ArmsByCodeOfArmOn064(k);
    } else if Position(k) < 80 {
      ArmsByCodeOfArmOn072(k);
    } else if Position(k) < 88 {
      ArmsByCodeOfArmOn080(k);
    } else if Position(k) < 96 {
      ArmsByCodeOfArmOn088(k);
    } else if Position(k) < 104 {
      ArmsByCodeOfArmOn096(k);
    } else if Position(k) < 112 {
      ArmsByCodeOfArmOn104(k);
    } else if Position(k) < 120 {
      ArmsByCodeOfArmOn112(k);
    } else if Position(k) < 128 {
      ArmsByCodeOfArmOn120(k);
    } else if Position(k) < 136 {
      ArmsByCodeOfArmOn128(k);
    } else if Position(k) < 144 {
      ArmsByCodeOfArmOn136(k);
    } else if Position(k) < 152 {
      ArmsByCodeOfArmOn144(k);
    } else if Position(k) < 160 {
      ArmsByCodeOfArmOn152(k);
    } else {
      ArmsByCodeOfArmOn160(k);
    }
  }


  /** A key that has an arm is what that arm's code translates to. */
  lemma TranslationOfArm(k: Key)
    requires ArmFor(k).Some?
    ensures FromVirtualKey(ArmFor(k).value) == k
  {
    ArmsByCodeOfArm(k);
    ArmsByCodeAgree(ArmFor(k).value);
  }

  lemma ArmsByCodeInjectiveOn0000(a: VirtualKey, b: VirtualKey)
    requires a < 0x20
    requires ArmsByCode(a) == ArmsByCode(b) != Unknown
    ensures a == b
  {
  }

  lemma ArmsByCodeInjectiveOn0020(a: VirtualKey, b: VirtualKey)
    requires 0x20 <= a < 0x2D
    requires ArmsByCode(a) == ArmsByCode(b) != Unknown
    ensures a == b
  {
  }

  lemma ArmsByCodeInjectiveOn002D(a: VirtualKey, b: VirtualKey)
    requires 0x2D <= a < 0x38
    requires ArmsByCode(a) == ArmsByCode(b) != Unknown
    ensures a == b
  {
  }

  lemma ArmsByCodeInjectiveOn0038(a: VirtualKey, b: VirtualKey)
    requires 0x38 <= a < 0x49
    requires ArmsByCode(a) == ArmsByCode(b) != Unknown
    ensures a == b
  {
  }

  lemma ArmsByCodeInjectiveOn0049(a: VirtualKey, b: VirtualKey)
    requires 0x49 <= a < 0x53
    requires ArmsByCode(a) == ArmsByCode(b) != Unknown
    ensures a == b
  {
  }

  lemma ArmsByCodeInjectiveOn0053(a: VirtualKey, b: VirtualKey)
    requires 0x53 <= a < 0x5D
    requires ArmsByCode(a) == ArmsByCode(b) != Unknown
    ensures a == b
  {
  }

  lemma ArmsByCodeInjectiveOn005D(a: VirtualKey, b: VirtualKey)
    requires 0x5D <= a < 0x68
    requires ArmsByCode(a) == ArmsByCode(b) != Unknown
    ensures a == b
  {
  }

  lemma ArmsByCodeInjectiveOn0068(a: VirtualKey, b: VirtualKey)
    requires 0x68 <= a < 0x73
    requires ArmsByCode(a) == ArmsByCode(b) != Unknown
    ensures a == b
  {
  }

  lemma ArmsByCodeInjectiveOn0073(a: VirtualKey, b: VirtualKey)
    requires 0x73 <= a < 0x7D
    requires ArmsByCode(a) == ArmsByCode(b) != Unknown
    ensures a == b
  {
  }

  lemma ArmsByCodeInjectiveOn007D(a: VirtualKey, b: VirtualKey)
    requires 0x7D <= a < 0x87
    requires ArmsByCode(a) == ArmsByCode(b) != Unknown
    ensures a == b
  {
  }

  lemma ArmsByCodeInjectiveOn0087(a: VirtualKey, b: VirtualKey)
    requires 0x87 <= a < 0xA7
    requires ArmsByCode(a) == ArmsByCode(b) != Unknown
    ensures a == b
  {
  }

  lemma ArmsByCodeInjectiveOn00A7(a: VirtualKey, b: VirtualKey)
    requires 0xA7 <= a < 0xB1
    requires ArmsByCode(a) == ArmsByCode(b) != Unknown
    ensures a == b
  {
  }

  lemma ArmsByCodeInjectiveOn00B1(a: VirtualKey, b: VirtualKey)
    requires 0xB1 <= a < 0xBF
    requires ArmsByCode(a) == ArmsByCode(b) != Unknown
    ensures a == b
  {
  }

  lemma ArmsByCodeInjectiveOn00BF(a: VirtualKey, b: VirtualKey)
    requires 0xBF <= a < 0xF2
    requires ArmsByCode(a) == ArmsByCode(b) != Unknown
    ensures a == b
  {
  }

  lemma ArmsByCodeInjectiveOn00F2(a: VirtualKey, b: VirtualKey)
    requires 0xF2 <= a
    requires ArmsByCode(a) == ArmsByCode(b) != Unknown
    ensures a == b
  {
  }

  lemma ArmsByCodeInjective(a: VirtualKey, b: VirtualKey)
    requires ArmsByCode(a) == ArmsByCode(b) != Unknown
    ensures a == b
  {
    if a < 0x20 {
      ArmsByCodeInjectiveOn0000(a, b);
    } else if a < 0x2D {
      ArmsByCodeInjectiveOn0020(a, b);
    } else if a < 0x38 {
      ArmsByCodeInjectiveOn002D(a, b);
    } else if a < 0x49 {
      ArmsByCodeInjectiveOn0038(a, b);
    } else if a < 0x53 {
      ArmsByCodeInjectiveOn0049(a, b);
    } else if a < 0x5D {
      ArmsByCodeInjectiveOn0053(a, b);
    } else if a < 0x68 {
      ArmsByCodeInjectiveOn005D(a, b);
    } else if a < 0x73 {
      ArmsByCodeInjectiveOn0068(a, b);
    } else if a < 0x7D {
      ArmsByCodeInjectiveOn0073(a, b);
    } else if a < 0x87 {
      ArmsByCodeInjectiveOn007D(a, b);
    } else if a < 0xA7 {
      ArmsByCodeInjectiveOn0087(a, b);
    } else if a < 0xB1 {
      ArmsByCodeInjectiveOn00A7(a, b);
    } else if a < 0xBF {
      ArmsByCodeInjectiveOn00B1(a, b);
    } else if a < 0xF2 {
      ArmsByCodeInjectiveOn00BF(a, b);
    } else {
      ArmsByCodeInjectiveOn00F2(a, b);
    }
  }

  /** No two codes translate to the same key, except into the fallback. */
  lemma FromVirtualKeyInjective(a: VirtualKey, b: VirtualKey)
    requires FromVirtualKey(a) == FromVirtualKey(b) != Unknown
    ensures a == b
  {
    ArmsByCodeAgree(a);
    ArmsByCodeAgree(b);
    ArmsByCodeInjective(a, b);
  }

  lemma ArmsByCodeNeverProduce(vk: VirtualKey)
    ensures !IsNeverProduced(ArmsByCode(vk))
  {
  }

  /** The variants whose arms are commented out or absent are never produced. */
  lemma NeverProducedKeys(vk: VirtualKey)
    ensures !IsNeverProduced(FromVirtualKey(vk))
  {
    ArmsByCodeAgree(vk);
    ArmsByCodeNeverProduce(vk);
  }

  /** The key a code translates to leads back to that code's arm. */
  lemma ArmOfTranslation(vk: VirtualKey)
    ensures FromVirtualKey(vk) != Unknown ==> ArmFor(FromVirtualKey(vk)) == Some(vk)
  {
    var k := FromVirtualKey(vk);
    if k != Unknown {
      NeverProducedKeys(vk);
      ProducedKeysHaveArms(k);
      TranslationOfArm(k);
      FromVirtualKeyInjective(ArmFor(k).value, vk);
    }
  }

  /** A code yields `Unknown` exactly when no arm names it. */
  lemma UnlistedCodesAreUnknown(vk: VirtualKey)
    ensures FromVirtualKey(vk) == Unknown <==> forall k :: ArmFor(k) != Some(vk)
  {
    ArmOfTranslation(vk);
    forall k | ArmFor(k) == Some(vk)
      ensures FromVirtualKey(vk) != Unknown
    {
      TranslationOfArm(k);
    }
  }

  lemma DigitAndLetterArms(vk: VirtualKey)
    requires VK_0 <= vk <= VK_9 || VK_A <= vk <= VK_Z
    ensures KeyOfCode(vk) == Some(FromVirtualKey(vk))
  {
  }

  /** Digit and letter codes land on the variant whose discriminant is the code. */
  lemma DigitAndLetterCodes(vk: VirtualKey)
    requires VK_0 <= vk <= VK_9 || VK_A <= vk <= VK_Z
    ensures Code(FromVirtualKey(vk)) == vk
  {
    DigitAndLetterArms(vk);
    KeyOfCodeSound(vk, FromVirtualKey(vk));
  }

  /** The Return key is `Enter`. */
  lemma ReturnIsEnter()
    ensures FromVirtualKey(VK_RETURN) == Enter
  {
  }

  /** Prior and Next are the page keys. */
  lemma PageKeys(vk: VirtualKey)
    requires vk == VK_PRIOR || vk == VK_NEXT
    ensures FromVirtualKey(vk) == if vk == VK_PRIOR then PageUp else PageDown
  {
  }

  /** The `+` key, which carries `=` unshifted, is `Equals`. */
  lemma OemPlusIsEquals()
    ensures FromVirtualKey(VK_OEM_PLUS) == Equals
  {
  }

  /** The modifier codes that do not say which side are not mapped. */
  lemma GenericModifiersAreUnknown(vk: VirtualKey)
    requires vk == VK_SHIFT || vk == VK_CONTROL || vk == VK_MENU
    ensures FromVirtualKey(vk) == Unknown
  {
  }

  /** The sided modifier codes are. */
  lemma SidedModifiersAreMapped(vk: VirtualKey)
    requires vk == VK_LSHIFT || vk == VK_RSHIFT || vk == VK_LCONTROL
          || vk == VK_RCONTROL || vk == VK_LMENU || vk == VK_RMENU
    ensures FromVirtualKey(vk) != Unknown
  {
  }
}
