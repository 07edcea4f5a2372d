// Shared helpers of the emulator core: screen constants, byte splitting and
// merging, single-bit access, the 2-bit palette unpacking, the half-carry
// checks used by the ALU, and Rust's overflowing integer primitives.
//
// Bytes are `bv8` and words `bv16`, so that Rust's wrapping arithmetic and
// bit operators are Dafny's own.  Where a mathematical sum matters, it is
// stated in a bit-vector one bit wider (`bv9`, `bv17`), which cannot overflow.

module Utils {

  const SCREEN_WIDTH: int := 160
  const SCREEN_HEIGHT: int := 144
  const TILESIZE: int := 8
  const COLOR_CHANNELS: int := 4

  /// Which hardware the emulator is running as.
  datatype GB = DMG | CGB

  /// Byte-level result of a panicking-or-not operation of the source.
  datatype Result<T> = Ok(value: T) | Err(msg: string)

  /// High byte of a word (`get_high_byte`).
  function HighByte(v: bv16): bv8
  {
    (v >> 8) as bv8
  }

  /// Low byte of a word (`get_low_byte`).
  function LowByte(v: bv16): bv8
  {
    (v & 0xFF) as bv8
  }

  /// `merge_bytes(high, low)`: the word whose high byte is `high` and whose
  /// low byte is `low`.
  function MergeBytes(high: bv8, low: bv8): (r: bv16)
    ensures HighByte(r) == high && LowByte(r) == low
  {
    (high as bv16 << 8) | low as bv16
  }

  /// Splitting a word and merging the halves gives the word back.
  lemma MergeSplit(v: bv16)
    ensures MergeBytes(HighByte(v), LowByte(v)) == v
  {
  }

  /// `get_bit(digit)`: bit `digit` of a byte.
  function GetBit(b: bv8, digit: bv8): bool
    requires digit < 8
  {
    (b >> digit) & 1 == 1
  }

  /// `write_bit(digit, value)`: bit `digit` becomes `value`; no other bit moves.
  function WriteBit(b: bv8, digit: bv8, value: bool): (r: bv8)
    requires digit < 8
    ensures GetBit(r, digit) == value
    ensures r & !(1 << digit) == b & !(1 << digit)
  {
    if value then b | (1 << digit) else b & !(1 << digit)
  }

  /// `unpack_u8`: the four 2-bit fields of a palette register, lowest first.
  function Unpack(v: bv8): (r: seq<bv8>)
    ensures |r| == 4
    ensures forall i :: 0 <= i < 4 ==> r[i] <= 3
  {
    [v & 3, (v >> 2) & 3, (v >> 4) & 3, (v >> 6) & 3]
  }

  /// Re-packing the four fields gives the register back, so `Unpack` loses
  /// nothing.
  lemma UnpackPack(v: bv8)
    ensures var u := Unpack(v); u[0] | (u[1] << 2) | (u[2] << 4) | (u[3] << 6) == v
  {
  }

  /// `check_h_carry_u8`: the low nibbles of `a` and `b` carry into bit 4.
  function HCarry8(a: bv8, b: bv8): (r: bool)
    ensures r == ((a & 0x0F) as int + (b & 0x0F) as int >= 0x10)
  {
    ((a & 0x0F) + (b & 0x0F)) & 0x10 == 0x10
  }

  /// `check_h_borrow_u8`: subtracting `b` from `a` borrows from bit 4.
  function HBorrow8(a: bv8, b: bv8): (r: bool)
    ensures r == ((a & 0x0F) as int < (b & 0x0F) as int)
  {
    (a & 0x0F) < (b & 0x0F)
  }

  /// `check_h_carry_u16`: the low 12 bits of `a` and `b` carry out of bit 11.
  function HCarry16(a: bv16, b: bv16): (r: bool)
    ensures r == ((a & 0x0FFF) + (b & 0x0FFF) >= 0x1000)
  {
    ((a & 0x0FFF) + (b & 0x0FFF)) & 0x1000 == 0x1000
  }

  /// Rust's `u8::overflowing_add`: the wrapped sum, which is the true sum
  /// modulo 256, and whether the true sum exceeds 0xFF.
  function OverflowingAdd8(a: bv8, b: bv8): (r: (bv8, bool))
    ensures r.0 as bv9 == (a as bv9 + b as bv9) & 0xFF
    ensures r.1 <==> a as int + b as int > 0xFF
  {
    (a + b, a as bv9 + b as bv9 >= 0x100)
  }

  /// Rust's `u8::overflowing_sub`: the wrapped difference, which added back
  /// to `b` gives `a`, and whether `b` exceeds `a`.
  function OverflowingSub8(a: bv8, b: bv8): (r: (bv8, bool))
    ensures r.0 + b == a
    ensures r.1 <==> a as int < b as int
  {
    (a - b, a < b)
  }

  /// Rust's `u16::overflowing_add`: the wrapped sum, which is the true sum
  /// modulo 2^16, and whether the true sum exceeds 0xFFFF, which is when
  /// the wrapped sum falls below `a`.
  function OverflowingAdd16(a: bv16, b: bv16): (r: (bv16, bool))
    ensures r.0 as bv17 == (a as bv17 + b as bv17) & 0xFFFF
    ensures r.1 <==> r.0 < a
  {
    (a + b, a as bv17 + b as bv17 >= 0x10000)
  }
}
