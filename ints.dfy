/**
 * Rust's 32-bit and 8-bit integers as bounded `int`s, with the wrap-around
 * of release builds written out where the source's arithmetic can leave
 * the range.
 */
module Ints {
  /** `i32`. */
  type Int32 = x: int | -0x8000_0000 <= x < 0x8000_0000
  /** `u32`, a Win32 DWORD. */
  type Dword = x: int | 0 <= x < 0x1_0000_0000
  /** `u8`. */
  type Byte = x: int | 0 <= x < 0x100

  const Modulus: int := 0x1_0000_0000
  const DwordMax: Dword := 0xFFFF_FFFF

  /**
   * The `i32` an out-of-range result wraps to: the one value in range that is
   * congruent to `x` modulo 2^32.
   */
  function WrapInt32(x: int): (r: Int32)
    ensures (r - x) % Modulus == 0
    ensures -0x8000_0000 <= x < 0x8000_0000 ==> r == x
  {
    (x + 0x8000_0000) % Modulus - 0x8000_0000
  }

  /** `x as u32` for an `i32`: the same 32 bits, read as unsigned. */
  function AsDword(x: Int32): (r: Dword)
    ensures (r - x) % Modulus == 0
    ensures x >= 0 ==> r == x
    ensures x < 0 ==> r >= 0x8000_0000
  {
    if x >= 0 then x else x + Modulus
  }

  /** Reading the bits back as signed undoes `as u32`. */
  lemma AsDwordRoundTrip(x: Int32)
    ensures WrapInt32(AsDword(x)) == x
  {
  }
}
