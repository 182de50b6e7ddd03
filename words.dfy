/**
 * The word and byte splitting helpers and `is_flag_set` of src/utilities.rs.
 *
 * Rust's fixed-width integers are carried as bit-vectors of their width. A
 * signed integer is carried as its two's-complement bit pattern, which is
 * exactly what Rust's `as` casts between integer types reinterpret; the only
 * operation here whose result depends on signedness is the shift `>>`, which
 * is arithmetic (it copies the sign bit) on `i32` and `i16`.
 */
module Words {

  /** `i32` as its bit pattern. */
  type I32 = bv32
  /** `i16` as its bit pattern. */
  type I16 = bv16
  /** `i8` as its bit pattern. */
  type I8 = bv8

  /** Whether the sign bit of a 32-bit pattern is set. */
  predicate IsNegative32(x: I32) {
    x & 0x8000_0000 != 0
  }

  /** Whether the sign bit of a 16-bit pattern is set. */
  predicate IsNegative16(x: I16) {
    x & 0x8000 != 0
  }

  /** `x >> 16` on `i32`: the vacated high bits are copies of the sign bit. */
  function ArithmeticShiftRight16(x: I32): I32 {
    (x >> 16) | (if IsNegative32(x) then 0xFFFF_0000 else 0)
  }

  /** `x >> 8` on `i16`: the vacated high bits are copies of the sign bit. */
  function ArithmeticShiftRight8(x: I16): I16 {
    (x >> 8) | (if IsNegative16(x) then 0xFF00 else 0)
  }

  /** `lo_word`: `dword as u16`, which keeps the low 16 bits. */
  function LoWord(dword: bv32): bv16 {
    (dword & 0xFFFF) as bv16
  }

  /** `hi_word`: `(dword >> 16) as u16`. */
  function HiWord(dword: bv32): bv16 {
    (dword >> 16) as bv16
  }

  /** `signed_lo_word`: `dword as i16`, which keeps the low 16 bits. */
  function SignedLoWord(dword: I32): I16 {
    (dword & 0xFFFF) as I16
  }

  /** `signed_hi_word`: `(dword >> 16) as i16`, with the arithmetic shift of `i32`. */
  function SignedHiWord(dword: I32): (r: I16)
    // the high word keeps the sign of the whole dword
    ensures IsNegative16(r) <==> IsNegative32(dword)
  {
    (ArithmeticShiftRight16(dword) & 0xFFFF) as I16
  }

  /** `lo_byte`: `word as u8`. */
  function LoByte(word: bv16): bv8 {
    (word & 0xFF) as bv8
  }

  /** `hi_byte`: `(word >> 8) as u8`. */
  function HiByte(word: bv16): bv8 {
    (word >> 8) as bv8
  }

  /** `signed_lo_byte`: `word as i8`. */
  function SignedLoByte(word: I16): I8 {
    (word & 0xFF) as I8
  }

  /** `signed_hi_byte`: `(word >> 8) as i8`, with the arithmetic shift of `i16`. */
  function SignedHiByte(word: I16): (r: I8)
    ensures (r & 0x80 != 0) <==> IsNegative16(word)
  {
    (ArithmeticShiftRight8(word) & 0xFF) as I8
  }

  /** Putting the two words of a dword back together gives the dword. */
  lemma WordRoundTrip(dword: bv32)
    ensures (HiWord(dword) as bv32 << 16) | LoWord(dword) as bv32 == dword
  {
  }

  /** Splitting a dword built from two words gives those words back. */
  lemma WordSplitRoundTrip(hi: bv16, lo: bv16)
    ensures HiWord((hi as bv32 << 16) | lo as bv32) == hi
    ensures LoWord((hi as bv32 << 16) | lo as bv32) == lo
  {
  }

  /** Putting the two bytes of a word back together gives the word. */
  lemma ByteRoundTrip(word: bv16)
    ensures (HiByte(word) as bv16 << 8) | LoByte(word) as bv16 == word
  {
  }

  /** Splitting a word built from two bytes gives those bytes back. */
  lemma ByteSplitRoundTrip(hi: bv8, lo: bv8)
    ensures HiByte((hi as bv16 << 8) | lo as bv16) == hi
    ensures LoByte((hi as bv16 << 8) | lo as bv16) == lo
  {
  }

  /**
   * The signed helpers agree bit for bit with the unsigned ones: the sign
   * bits the arithmetic shift copies in are cut off again by the cast.
   */
  lemma SignedWordsAgree(dword: bv32)
    ensures SignedLoWord(dword) == LoWord(dword)
    ensures SignedHiWord(dword) == HiWord(dword)
  {
    ShiftKeepsHighHalf(dword);
  }

  /** The sign bits that `>> 16` copies in lie above the half the cast keeps. */
  lemma ShiftKeepsHighHalf(x: I32)
    ensures ArithmeticShiftRight16(x) & 0xFFFF == x >> 16
  {
    var fill: bv32 := if IsNegative32(x) then 0xFFFF_0000 else 0;
    assert fill & 0xFFFF == 0;
  }

  lemma SignedBytesAgree(word: bv16)
    ensures SignedLoByte(word) == LoByte(word)
    ensures SignedHiByte(word) == HiByte(word)
  {
  }

  /** `is_flag_set`: every bit of `flag` is set in `value`. */
  function IsFlagSet(value: bv32, flag: bv32): (r: bool)
    ensures r <==> flag & !value == 0
    ensures r <==> value | flag == value
  {
    value & flag == flag
  }

  /** Whether no bit of `mask` is set in `value`. */
  predicate HasNone(value: bv32, mask: bv32) {
    value & mask == 0
  }

  /** Setting a flag makes it set; clearing it makes it unset unless it is empty. */
  lemma FlagSetAndClear(value: bv32, flag: bv32)
    ensures IsFlagSet(value | flag, flag)
    ensures IsFlagSet(value & !flag, flag) <==> flag == 0
    ensures IsFlagSet(value, 0)
  {
  }
}
