// The flag register and the byte-level arithmetic and logic of the CPU
// (core/src/cpu/mod.rs).  Each operation takes the operand(s) and the flag
// register F and returns the result byte and the new F, computed the way the
// source computes them; the contracts say what the result means.

module Alu {
  import opened Utils

  /// The four flags of F (`Flags`): Z is bit 7, N bit 6, H bit 5, C bit 4.
  datatype Flag = Z | N | H | C

  function Mask(fl: Flag): bv8
  {
    match fl
    case Z => 0x80
    case N => 0x40
    case H => 0x20
    case C => 0x10
  }

  /// `get_flag`.
  function GetFlag(f: bv8, fl: Flag): bool
  {
    f & Mask(fl) != 0
  }

  /// `set_flag`: turns on the flag's bit and no other.
  function SetFlag(f: bv8, fl: Flag): (r: bv8)
    ensures GetFlag(r, fl)
    ensures r & !Mask(fl) == f & !Mask(fl)
  {
    f | Mask(fl)
  }

  /// `clear_flag`: turns off the flag's bit and no other.
  function ClearFlag(f: bv8, fl: Flag): (r: bv8)
    ensures !GetFlag(r, fl)
    ensures r & !Mask(fl) == f & !Mask(fl)
  {
    f & !Mask(fl)
  }

  /// `write_flag`.
  function WriteFlag(f: bv8, fl: Flag, v: bool): (r: bv8)
    ensures GetFlag(r, fl) == v
    ensures r & !Mask(fl) == f & !Mask(fl)
    ensures r & 0x0F == f & 0x0F
  {
    if v then SetFlag(f, fl) else ClearFlag(f, fl)
  }

  /// Result of an 8-bit operation: the value and the new flag register.
  datatype AluOut = AluOut(r: bv8, f: bv8)

  /// Result of a 16-bit operation.
  datatype AluOut16 = AluOut16(r: bv16, f: bv8)

  /// The carry operand of ADC/SBC: 1 only if the carry variant is asked for
  /// and C is set.
  function CarryIn(f: bv8, withCarry: bool): (c: bv8)
    ensures c <= 1
    ensures c == 1 <==> withCarry && GetFlag(f, C)
  {
    if withCarry && GetFlag(f, C) then 1 else 0
  }

  // ---------------------------------------------------------------------
  // Addition and subtraction

  /// `add_a_d8`: two overflowing additions (operand, then carry) and two
  /// half-carry checks; then N is cleared and C, H and Z are written.
  function AddA(a: bv8, val: bv8, f: bv8, adc: bool): AluOut
  {
    var carry := CarryIn(f, adc);
    var result1 := OverflowingAdd8(a, val);
    var hCheck1 := HCarry8(a, val);
    var result2 := OverflowingAdd8(result1.0, carry);
    var hCheck2 := HCarry8(result1.0, carry);
    var f1 := ClearFlag(f, N);
    var f2 := WriteFlag(f1, C, result1.1 || result2.1);
    var f3 := WriteFlag(f2, H, hCheck1 || hCheck2);
    var f4 := WriteFlag(f3, Z, result2.0 == 0);
    AluOut(result2.0, f4)
  }

  /// One of the two additions of `add_a_d8` overflows exactly when the
  /// three-operand sum exceeds 255.
  lemma AddCarryOut(a: bv8, val: bv8, carry: bv8)
    requires carry <= 1
    ensures var r1 := OverflowingAdd8(a, val); var r2 := OverflowingAdd8(r1.0, carry);
      (r1.1 || r2.1) == (a as bv9 + val as bv9 + carry as bv9 >= 0x100)
  {
  }

  /// The two half-carry checks of `add_a_d8` together detect the carry out
  /// of bit 3 of the three-operand sum.
  lemma AddHalf(a: bv8, val: bv8, carry: bv8)
    requires carry <= 1
    ensures (HCarry8(a, val) || HCarry8(a + val, carry))
         == ((a & 0x0F) + (val & 0x0F) + carry >= 0x10)
  {
  }

  /// ADD/ADC: the new A is A + val + carry modulo 256, where the carry is 1
  /// only for ADC with C set, and C says the true sum exceeds 255.
  lemma AddAValue(a: bv8, val: bv8, f: bv8, adc: bool)
    ensures var o := AddA(a, val, f, adc);
      && o.r == a + val + CarryIn(f, adc)
      && GetFlag(o.f, C) == (a as bv9 + val as bv9 + CarryIn(f, adc) as bv9 >= 0x100)
  {
    AddAResult(a, val, f, adc);
    AddACarry(a, val, f, adc);
  }

  lemma AddAResult(a: bv8, val: bv8, f: bv8, adc: bool)
    ensures AddA(a, val, f, adc).r == a + val + CarryIn(f, adc)
  {
  }

  lemma AddACarry(a: bv8, val: bv8, f: bv8, adc: bool)
    ensures GetFlag(AddA(a, val, f, adc).f, C)
         == (a as bv9 + val as bv9 + CarryIn(f, adc) as bv9 >= 0x100)
  {
    var carry := CarryIn(f, adc);
    var r1 := OverflowingAdd8(a, val);
    var r2 := OverflowingAdd8(r1.0, carry);
    assert GetFlag(AddA(a, val, f, adc).f, C) == (r1.1 || r2.1);
    AddCarryOut(a, val, carry);
  }

  /// ADD/ADC: H is the carry out of bit 3 of A + val + carry, Z says the
  /// new A is 0, N is cleared, and the unused low nibble of F is kept.
  lemma AddAFlags(a: bv8, val: bv8, f: bv8, adc: bool)
    ensures var o := AddA(a, val, f, adc);
      && GetFlag(o.f, H) == ((a & 0x0F) + (val & 0x0F) + CarryIn(f, adc) >= 0x10)
      && GetFlag(o.f, Z) == (o.r == 0)
      && !GetFlag(o.f, N)
      && o.f & 0x0F == f & 0x0F
  {
    AddHalf(a, val, CarryIn(f, adc));
  }

  /// `sub_a_d8`: two overflowing subtractions (operand, then carry) and two
  /// half-borrow checks; then N is set and Z, H and C are written.
  function SubA(a: bv8, val: bv8, f: bv8, sbc: bool): AluOut
  {
    var carry := CarryIn(f, sbc);
    var result1 := OverflowingSub8(a, val);
    var checkH1 := HBorrow8(a, val);
    var result2 := OverflowingSub8(result1.0, carry);
    var checkH2 := HBorrow8(result1.0, carry);
    var f1 := SetFlag(f, N);
    var f2 := WriteFlag(f1, Z, result2.0 == 0);
    var f3 := WriteFlag(f2, H, checkH1 || checkH2);
    var f4 := WriteFlag(f3, C, result1.1 || result2.1);
    AluOut(result2.0, f4)
  }

  /// One of the two subtractions of `sub_a_d8` borrows exactly when
  /// val + carry exceeds A.
  lemma SubBorrow(a: bv8, val: bv8, carry: bv8)
    requires carry <= 1
    ensures var r1 := OverflowingSub8(a, val); var r2 := OverflowingSub8(r1.0, carry);
      (r1.1 || r2.1) == (a as bv9 < val as bv9 + carry as bv9)
  {
  }

  /// The two half-borrow checks of `sub_a_d8` together detect a borrow from
  /// bit 4 of A - val - carry.
  lemma SubHalf(a: bv8, val: bv8, carry: bv8)
    requires carry <= 1
    ensures (HBorrow8(a, val) || HBorrow8(a - val, carry))
         == ((a & 0x0F) < (val & 0x0F) + carry)
  {
  }

  /// SUB/SBC: the new A is A - val - carry modulo 256, and C says
  /// val + carry exceeds A.
  lemma SubAValue(a: bv8, val: bv8, f: bv8, sbc: bool)
    ensures var o := SubA(a, val, f, sbc);
      && o.r == a - val - CarryIn(f, sbc)
      && GetFlag(o.f, C) == (a as bv9 < val as bv9 + CarryIn(f, sbc) as bv9)
  {
    SubAResult(a, val, f, sbc);
    SubACarry(a, val, f, sbc);
  }

  lemma SubAResult(a: bv8, val: bv8, f: bv8, sbc: bool)
    ensures SubA(a, val, f, sbc).r == a - val - CarryIn(f, sbc)
  {
  }

  lemma SubACarry(a: bv8, val: bv8, f: bv8, sbc: bool)
    ensures GetFlag(SubA(a, val, f, sbc).f, C)
         == (a as bv9 < val as bv9 + CarryIn(f, sbc) as bv9)
  {
    var carry := CarryIn(f, sbc);
    var r1 := OverflowingSub8(a, val);
    var r2 := OverflowingSub8(r1.0, carry);
    assert GetFlag(SubA(a, val, f, sbc).f, C) == (r1.1 || r2.1);
    SubBorrow(a, val, carry);
  }

  /// SUB/SBC: H is the borrow from bit 4, Z says the new A is 0, N is set,
  /// and the unused low nibble of F is kept.
  lemma SubAFlags(a: bv8, val: bv8, f: bv8, sbc: bool)
    ensures var o := SubA(a, val, f, sbc);
      && GetFlag(o.f, H) == ((a & 0x0F) < (val & 0x0F) + CarryIn(f, sbc))
      && GetFlag(o.f, Z) == (o.r == 0)
      && GetFlag(o.f, N)
      && o.f & 0x0F == f & 0x0F
  {
    SubHalf(a, val, CarryIn(f, sbc));
  }

  /// `cp_a_d8`: only the flags change: Z, then H, then C are written; N is
  /// not touched.
  function Cp(a: bv8, val: bv8, f: bv8): bv8
  {
    var setH := HBorrow8(a, val);
    var f1 := WriteFlag(f, Z, a == val);
    var f2 := WriteFlag(f1, H, setH);
    WriteFlag(f2, C, a < val)
  }

  /// CP: Z says A equals val, C says A is below val, H is the half borrow,
  /// and N (with the low nibble) is left as it was.
  lemma CpFlags(a: bv8, val: bv8, f: bv8)
    ensures var r := Cp(a, val, f);
      && GetFlag(r, Z) == (a == val)
      && GetFlag(r, C) == (a < val)
      && GetFlag(r, H) == ((a & 0x0F) < (val & 0x0F))
      && GetFlag(r, N) == GetFlag(f, N)
      && r & 0x0F == f & 0x0F
  {
  }

  /// CP sets Z, H and C exactly as SUB (without carry) of the same operands
  /// would; it differs from SUB only in keeping A and N.
  lemma CpIsSubFlags(a: bv8, val: bv8, f: bv8)
    ensures var s := SubA(a, val, f, false);
      && GetFlag(Cp(a, val, f), Z) == GetFlag(s.f, Z)
      && GetFlag(Cp(a, val, f), H) == GetFlag(s.f, H)
      && GetFlag(Cp(a, val, f), C) == GetFlag(s.f, C)
  {
    SubAValue(a, val, f, false);
    SubAFlags(a, val, f, false);
    CpFlags(a, val, f);
  }

  /// `inc_8` on the value `v`: the register gets v + 1 (wrapping); `f` is F
  /// as it stands after that write.  N is cleared, then Z and H written.
  function Inc8(v: bv8, f: bv8): AluOut
  {
    var result := v + 1;
    var setH := HCarry8(v, 1);
    var f1 := ClearFlag(f, N);
    var f2 := WriteFlag(f1, Z, result == 0);
    AluOut(result, WriteFlag(f2, H, setH))
  }

  /// INC: the result is v + 1 modulo 256; Z says v was 0xFF, H says the low
  /// nibble was 0xF, N is cleared, and C and the low nibble are kept.
  lemma Inc8Spec(v: bv8, f: bv8)
    ensures var o := Inc8(v, f);
      && o.r as bv9 == (v as bv9 + 1) & 0xFF
      && GetFlag(o.f, Z) == (v == 0xFF)
      && GetFlag(o.f, H) == (v & 0x0F == 0x0F)
      && !GetFlag(o.f, N)
      && GetFlag(o.f, C) == GetFlag(f, C)
      && o.f & 0x0F == f & 0x0F
  {
  }

  /// `dec_8` on the value `v`: the register gets v - 1 (wrapping); N is set,
  /// then Z and H written.
  function Dec8(v: bv8, f: bv8): AluOut
  {
    var result := v - 1;
    var setH := HBorrow8(v, 1);
    var f1 := SetFlag(f, N);
    var f2 := WriteFlag(f1, Z, result == 0);
    AluOut(result, WriteFlag(f2, H, setH))
  }

  /// DEC: the result plus 1 is v (0 wraps to 0xFF); Z says v was 1, H says
  /// the low nibble was 0, N is set, and C and the low nibble are kept.
  lemma Dec8Spec(v: bv8, f: bv8)
    ensures var o := Dec8(v, f);
      && o.r as bv9 + 1 == (if v == 0 then 0x100 else v as bv9)
      && GetFlag(o.f, Z) == (v == 1)
      && GetFlag(o.f, H) == (v & 0x0F == 0)
      && GetFlag(o.f, N)
      && GetFlag(o.f, C) == GetFlag(f, C)
      && o.f & 0x0F == f & 0x0F
  {
    Dec8Value(v, f);
    Dec8Rest(v, f);
  }

  lemma Dec8Value(v: bv8, f: bv8)
    ensures var o := Dec8(v, f);
      && o.r as bv9 + 1 == (if v == 0 then 0x100 else v as bv9)
      && GetFlag(o.f, Z) == (v == 1)
  {
  }

  lemma Dec8Rest(v: bv8, f: bv8)
    ensures var o := Dec8(v, f);
      && GetFlag(o.f, H) == (v & 0x0F == 0)
      && GetFlag(o.f, N)
      && GetFlag(o.f, C) == GetFlag(f, C)
      && o.f & 0x0F == f & 0x0F
  {
  }

  /// Decrementing undoes incrementing, and the other way round.
  lemma IncDecInverse(v: bv8, f: bv8, g: bv8)
    ensures Dec8(Inc8(v, f).r, g).r == v
    ensures Inc8(Dec8(v, f).r, g).r == v
  {
  }

  /// `add_nn_d16` on the pair's value `target`: the pair gets the wrapped
  /// sum; `f` is F as it stands after that write.  N is cleared, then C and
  /// H are written; Z is not touched.
  function AddNN16(target: bv16, source: bv16, f: bv8): AluOut16
  {
    var result := OverflowingAdd16(target, source);
    var setH := HCarry16(target, source);
    var f1 := ClearFlag(f, N);
    var f2 := WriteFlag(f1, C, result.1);
    AluOut16(result.0, WriteFlag(f2, H, setH))
  }

  /// ADD HL,nn: the result is the sum modulo 2^16, C says the true sum
  /// exceeds 0xFFFF, H is the carry out of bit 11, N is cleared, and Z and
  /// the low nibble are kept.
  lemma AddNN16Spec(target: bv16, source: bv16, f: bv8)
    ensures var o := AddNN16(target, source, f);
      && o.r as bv17 == (target as bv17 + source as bv17) & 0xFFFF
      && GetFlag(o.f, C) == (target as bv17 + source as bv17 >= 0x10000)
      && GetFlag(o.f, H) == ((target & 0x0FFF) + (source & 0x0FFF) >= 0x1000)
      && !GetFlag(o.f, N)
      && GetFlag(o.f, Z) == GetFlag(f, Z)
      && o.f & 0x0F == f & 0x0F
  {
  }

  // ---------------------------------------------------------------------
  // Logic

  /// `and_a_d8`: N cleared, H set, C cleared, Z written.
  function And(a: bv8, val: bv8, f: bv8): AluOut
  {
    var r := a & val;
    var f1 := ClearFlag(f, N);
    var f2 := SetFlag(f1, H);
    var f3 := ClearFlag(f2, C);
    AluOut(r, WriteFlag(f3, Z, r == 0))
  }

  /// AND: Z says A and val share no set bit; H is set, N and C cleared.
  lemma AndSpec(a: bv8, val: bv8, f: bv8)
    ensures var o := And(a, val, f);
      && o.r == a & val
      && GetFlag(o.f, Z) == (a & val == 0)
      && !GetFlag(o.f, N) && GetFlag(o.f, H) && !GetFlag(o.f, C)
      && o.f & 0x0F == f & 0x0F
  {
  }

  /// `or_a_d8`: N, H and C cleared, Z written.
  function Or(a: bv8, val: bv8, f: bv8): AluOut
  {
    var r := a | val;
    var f1 := ClearFlag(f, N);
    var f2 := ClearFlag(f1, H);
    var f3 := ClearFlag(f2, C);
    AluOut(r, WriteFlag(f3, Z, r == 0))
  }

  /// OR: Z says both operands are 0; N, H and C are cleared.
  lemma OrSpec(a: bv8, val: bv8, f: bv8)
    ensures var o := Or(a, val, f);
      && o.r == a | val
      && GetFlag(o.f, Z) == (a == 0 && val == 0)
      && !GetFlag(o.f, N) && !GetFlag(o.f, H) && !GetFlag(o.f, C)
      && o.f & 0x0F == f & 0x0F
  {
  }

  /// `xor_a_d8`: N, H and C cleared, Z written.
  function Xor(a: bv8, val: bv8, f: bv8): AluOut
  {
    var r := a ^ val;
    var f1 := ClearFlag(f, N);
    var f2 := ClearFlag(f1, H);
    var f3 := ClearFlag(f2, C);
    AluOut(r, WriteFlag(f3, Z, r == 0))
  }

  /// XOR: Z says the operands are equal (so XOR A,A always gives Z); N, H
  /// and C are cleared.
  lemma XorSpec(a: bv8, val: bv8, f: bv8)
    ensures var o := Xor(a, val, f);
      && o.r == a ^ val
      && GetFlag(o.f, Z) == (a == val)
      && !GetFlag(o.f, N) && !GetFlag(o.f, H) && !GetFlag(o.f, C)
      && o.f & 0x0F == f & 0x0F
  {
    XorZero(a, val, f);
    XorRest(a, val, f);
  }

  lemma XorZero(a: bv8, val: bv8, f: bv8)
    ensures GetFlag(Xor(a, val, f).f, Z) == (a == val)
  {
  }

  lemma XorRest(a: bv8, val: bv8, f: bv8)
    ensures var o := Xor(a, val, f);
      && o.r == a ^ val
      && !GetFlag(o.f, N) && !GetFlag(o.f, H) && !GetFlag(o.f, C)
      && o.f & 0x0F == f & 0x0F
  {
  }

  // ---------------------------------------------------------------------
  // Rotates, shifts, swap and single bits

  /// `rot_left`: rotate left by one; when rotating through the carry, bit 0
  /// is replaced by the old C.  Then C gets the old bit 7, N and H are
  /// cleared and Z is written.
  function RotLeft(b: bv8, f: bv8, carry: bool): AluOut
  {
    var msb := GetBit(b, 7);
    var rot0 := (b << 1) | (b >> 7);
    var rot := if carry then WriteBit(rot0, 0, GetFlag(f, C)) else rot0;
    var f1 := WriteFlag(f, C, msb);
    var f2 := ClearFlag(f1, N);
    var f3 := ClearFlag(f2, H);
    AluOut(rot, WriteFlag(f3, Z, rot == 0))
  }

  /// RLC/RL: bits 0-6 move up to bits 1-7, bit 0 receives the old C for RL
  /// and the old bit 7 for RLC, and C receives the old bit 7.  Z says the
  /// result is 0, N and H are cleared.
  lemma RotLeftSpec(b: bv8, f: bv8, carry: bool)
    ensures var o := RotLeft(b, f, carry);
      && o.r >> 1 == b & 0x7F
      && GetBit(o.r, 0) == (if carry then GetFlag(f, C) else GetBit(b, 7))
      && GetFlag(o.f, C) == GetBit(b, 7)
      && GetFlag(o.f, Z) == (o.r == 0)
      && !GetFlag(o.f, N) && !GetFlag(o.f, H)
      && o.f & 0x0F == f & 0x0F
  {
  }

  /// `rot_right`: rotate right by one; when rotating through the carry,
  /// bit 7 is replaced by the old C.  Then C gets the old bit 0, N and H are
  /// cleared and Z is written.
  function RotRight(b: bv8, f: bv8, carry: bool): AluOut
  {
    var lsb := GetBit(b, 0);
    var rot0 := (b >> 1) | (b << 7);
    var rot := if carry then WriteBit(rot0, 7, GetFlag(f, C)) else rot0;
    var f1 := WriteFlag(f, C, lsb);
    var f2 := ClearFlag(f1, N);
    var f3 := ClearFlag(f2, H);
    AluOut(rot, WriteFlag(f3, Z, rot == 0))
  }

  /// RRC/RR: bits 1-7 move down to bits 0-6, bit 7 receives the old C for
  /// RR and the old bit 0 for RRC, and C receives the old bit 0.  Z says the
  /// result is 0, N and H are cleared.
  lemma RotRightSpec(b: bv8, f: bv8, carry: bool)
    ensures var o := RotRight(b, f, carry);
      && o.r & 0x7F == b >> 1
      && GetBit(o.r, 7) == (if carry then GetFlag(f, C) else GetBit(b, 0))
      && GetFlag(o.f, C) == GetBit(b, 0)
      && GetFlag(o.f, Z) == (o.r == 0)
      && !GetFlag(o.f, N) && !GetFlag(o.f, H)
      && o.f & 0x0F == f & 0x0F
  {
  }

  /// Rotating left and then right (without the carry) restores the byte.
  lemma RotateInverse(b: bv8, f: bv8, g: bv8)
    ensures RotRight(RotLeft(b, f, false).r, g, false).r == b
    ensures RotLeft(RotRight(b, f, false).r, g, false).r == b
  {
  }

  /// `shift_left`: shift left by one (bit 0 becomes 0); Z written, N and H
  /// cleared, C gets the old bit 7.
  function ShiftLeft(b: bv8, f: bv8): AluOut
  {
    var msb := GetBit(b, 7);
    var shifted := b << 1;
    var f1 := WriteFlag(f, Z, shifted == 0);
    var f2 := ClearFlag(f1, N);
    var f3 := ClearFlag(f2, H);
    AluOut(shifted, WriteFlag(f3, C, msb))
  }

  /// SLA: bits 0-6 move up to bits 1-7, bit 0 becomes 0, and C receives
  /// the old bit 7.  Z says bits 0-6 were 0, N and H are cleared.
  lemma ShiftLeftSpec(b: bv8, f: bv8)
    ensures var o := ShiftLeft(b, f);
      && o.r >> 1 == b & 0x7F
      && !GetBit(o.r, 0)
      && GetFlag(o.f, C) == GetBit(b, 7)
      && GetFlag(o.f, Z) == (b & 0x7F == 0)
      && !GetFlag(o.f, N) && !GetFlag(o.f, H)
      && o.f & 0x0F == f & 0x0F
  {
  }

  /// `shift_right`: shift right by one; for the arithmetic shift bit 7 is
  /// rewritten with the old bit 7.  Z written, N and H cleared, C gets the
  /// old bit 0.
  function ShiftRight(b: bv8, f: bv8, arith: bool): AluOut
  {
    var lsb := GetBit(b, 0);
    var msb := GetBit(b, 7);
    var shifted0 := b >> 1;
    var shifted := if arith then WriteBit(shifted0, 7, msb) else shifted0;
    var f1 := WriteFlag(f, Z, shifted == 0);
    var f2 := ClearFlag(f1, N);
    var f3 := ClearFlag(f2, H);
    AluOut(shifted, WriteFlag(f3, C, lsb))
  }

  /// SRA/SRL: bits 1-7 move down to bits 0-6 and C receives the old bit 0;
  /// bit 7 keeps the sign for SRA and becomes 0 for SRL.  Z says the result
  /// is 0, N and H are cleared.
  lemma ShiftRightSpec(b: bv8, f: bv8, arith: bool)
    ensures var o := ShiftRight(b, f, arith);
      && o.r & 0x7F == b >> 1
      && GetBit(o.r, 7) == (arith && GetBit(b, 7))
      && GetFlag(o.f, C) == GetBit(b, 0)
      && GetFlag(o.f, Z) == (o.r == 0)
      && !GetFlag(o.f, N) && !GetFlag(o.f, H)
      && o.f & 0x0F == f & 0x0F
  {
  }

  /// `swap_bits`: the two nibbles trade places; Z written, N, H and C
  /// cleared.
  function Swap(v: bv8, f: bv8): AluOut
  {
    var newHigh := v & 0x0F;
    var newLow := (v & 0xF0) >> 4;
    var newVal := (newHigh << 4) | newLow;
    var f1 := WriteFlag(f, Z, newVal == 0);
    var f2 := ClearFlag(f1, N);
    var f3 := ClearFlag(f2, H);
    AluOut(newVal, ClearFlag(f3, C))
  }

  /// SWAP: the new high nibble is the old low one and the other way round;
  /// Z says the byte is 0; N, H and C are cleared.
  lemma SwapSpec(v: bv8, f: bv8)
    ensures var o := Swap(v, f);
      && o.r >> 4 == v & 0x0F && o.r & 0x0F == v >> 4
      && GetFlag(o.f, Z) == (v == 0)
      && !GetFlag(o.f, N) && !GetFlag(o.f, H) && !GetFlag(o.f, C)
      && o.f & 0x0F == f & 0x0F
  {
  }

  /// Swapping twice gives the byte back.
  lemma SwapInvolution(v: bv8, f: bv8, g: bv8)
    ensures Swap(Swap(v, f).r, g).r == v
  {
  }

  /// `test_bit`: Z written with the complement of the bit, N cleared, H set.
  function TestBit(v: bv8, digit: bv8, f: bv8): bv8
    requires digit < 8
  {
    var bit := GetBit(v, digit);
    var f1 := WriteFlag(f, Z, !bit);
    var f2 := ClearFlag(f1, N);
    SetFlag(f2, H)
  }

  /// BIT: Z is the complement of the chosen bit, N is cleared, H is set, and
  /// C (with the low nibble) is left alone.
  lemma TestBitSpec(v: bv8, digit: bv8, f: bv8)
    requires digit < 8
    ensures var r := TestBit(v, digit, f);
      && GetFlag(r, Z) == !GetBit(v, digit)
      && !GetFlag(r, N) && GetFlag(r, H)
      && GetFlag(r, C) == GetFlag(f, C)
      && r & 0x0F == f & 0x0F
  {
  }
  // ---------------------------------------------------------------------
  // Decimal adjust

  /// `daa`, with the low-nibble test as written (`asWritten`: adjust when the
  /// low nibble is below 9) or as the instruction defines it (adjust when it
  /// is above 9).  After an addition (N clear) 0x60 is added and C set when C
  /// is set or A exceeds 0x99, then 6 is added when H is set or the low-nibble
  /// test holds; after a subtraction 0x60 and 6 are subtracted when C and H
  /// are set.  Z is written, H cleared, N left alone.
  function DaaBy(a: bv8, f: bv8, asWritten: bool): AluOut
  {
    if !GetFlag(f, N) then
      var highFix := GetFlag(f, C) || a > 0x99;
      var a1 := if highFix then a + 0x60 else a;
      var f1 := if highFix then SetFlag(f, C) else f;
      var lowTest := if asWritten then (a1 & 0x0F) < 0x09 else (a1 & 0x0F) > 0x09;
      DaaFinish(if GetFlag(f, H) || lowTest then a1 + 0x06 else a1, f1)
    else
      var a1 := if GetFlag(f, C) then a - 0x60 else a;
      DaaFinish(if GetFlag(f, H) then a1 - 0x06 else a1, f)
  }

  /// The end of `daa`: Z written for the adjusted A, then H cleared.
  function DaaFinish(a: bv8, f: bv8): AluOut
  {
    AluOut(a, ClearFlag(WriteFlag(f, Z, a == 0), H))
  }

  /// `daa` as the source writes it.
  function Daa(a: bv8, f: bv8): AluOut
  {
    DaaBy(a, f, true)
  }

  /// `daa` with the low-nibble test the instruction intends.
  function DaaCorrected(a: bv8, f: bv8): AluOut
  {
    DaaBy(a, f, false)
  }

  /// Both versions: Z says the adjusted A is 0, H is cleared, N is kept, and
  /// C is set after an addition whose result needed the high correction
  /// and is otherwise kept.
  lemma DaaFlags(a: bv8, f: bv8, asWritten: bool)
    ensures var o := DaaBy(a, f, asWritten);
      && GetFlag(o.f, Z) == (o.r == 0)
      && !GetFlag(o.f, H)
      && GetFlag(o.f, N) == GetFlag(f, N)
      && GetFlag(o.f, C) == (GetFlag(f, C) || (!GetFlag(f, N) && a > 0x99))
      && o.f & 0x0F == f & 0x0F
  {
  }

  /// The two versions differ only after an addition.
  lemma DaaSameAfterSub(a: bv8, f: bv8)
    requires GetFlag(f, N)
    ensures Daa(a, f) == DaaCorrected(a, f)
  {
  }

  /// Binary-coded decimal: both nibbles are decimal digits.
  predicate IsBcd(v: bv8)
  {
    v >> 4 <= 9 && v & 0x0F <= 9
  }

  /// Reference definition of decimal addition, digit by digit: the BCD sum
  /// of two BCD bytes modulo 100 and whether it reached 100.
  function BcdAdd(x: bv8, y: bv8): (bv8, bool)
  {
    var lo := (x & 0x0F) + (y & 0x0F);
    var carry := lo >= 10;
    var low := if carry then lo - 10 else lo;
    var hi := (x >> 4) + (y >> 4) + (if carry then 1 else 0);
    var carryOut := hi >= 10;
    var high := if carryOut then hi - 10 else hi;
    ((high << 4) | low, carryOut)
  }

  /// Reference definition of decimal subtraction, digit by digit: the BCD
  /// difference of two BCD bytes modulo 100 and whether it borrowed.
  function BcdSub(x: bv8, y: bv8): (bv8, bool)
  {
    var borrow := (x & 0x0F) < (y & 0x0F);
    var low := if borrow then (x & 0x0F) + 10 - (y & 0x0F) else (x & 0x0F) - (y & 0x0F);
    var yHigh := (y >> 4) + (if borrow then 1 else 0);
    var borrowOut := x >> 4 < yHigh;
    var high := if borrowOut then (x >> 4) + 10 - yHigh else (x >> 4) - yHigh;
    ((high << 4) | low, borrowOut)
  }

  /// The BCD sum and difference are BCD.
  lemma BcdClosed(x: bv8, y: bv8)
    requires IsBcd(x) && IsBcd(y)
    ensures IsBcd(BcdAdd(x, y).0) && IsBcd(BcdSub(x, y).0)
  {
  }

  /// Adding the BCD difference back to the subtrahend gives the minuend.
  lemma {:induction false} BcdSubAdd(x: bv8, y: bv8)
    requires IsBcd(x) && IsBcd(y)
    ensures BcdAdd(BcdSub(x, y).0, y).0 == x
  {
    BcdClosed(x, y);
  }

  /// Corrected DAA on the raw binary sum of two BCD bytes and the flags an
  /// addition leaves gives the BCD sum and its carry.
  lemma DaaAdjustsSum(x: bv8, y: bv8, f: bv8)
    requires IsBcd(x) && IsBcd(y)
    requires !GetFlag(f, N)
    requires GetFlag(f, C) == (x as bv9 + y as bv9 >= 0x100)
    requires GetFlag(f, H) == ((x & 0x0F) + (y & 0x0F) >= 0x10)
    ensures DaaCorrected(x + y, f).r == BcdAdd(x, y).0
    ensures GetFlag(DaaCorrected(x + y, f).f, C) == BcdAdd(x, y).1
  {
    DaaSumValue(x, y, f);
    DaaSumCarry(x, y, f);
  }

  lemma DaaSumValue(x: bv8, y: bv8, f: bv8)
    requires IsBcd(x) && IsBcd(y)
    requires !GetFlag(f, N)
    requires GetFlag(f, C) == (x as bv9 + y as bv9 >= 0x100)
    requires GetFlag(f, H) == ((x & 0x0F) + (y & 0x0F) >= 0x10)
    ensures DaaCorrected(x + y, f).r == BcdAdd(x, y).0
  {
  }

  lemma DaaSumCarry(x: bv8, y: bv8, f: bv8)
    requires IsBcd(x) && IsBcd(y)
    requires !GetFlag(f, N)
    requires GetFlag(f, C) == (x as bv9 + y as bv9 >= 0x100)
    requires GetFlag(f, H) == ((x & 0x0F) + (y & 0x0F) >= 0x10)
    ensures GetFlag(DaaCorrected(x + y, f).f, C) == BcdAdd(x, y).1
  {
  }

  /// Both versions of DAA on the raw binary difference of two BCD bytes and
  /// the flags a subtraction leaves give the BCD difference and its borrow.
  lemma DaaAdjustsDifference(x: bv8, y: bv8, f: bv8)
    requires IsBcd(x) && IsBcd(y)
    requires GetFlag(f, N)
    requires GetFlag(f, C) == (x < y)
    requires GetFlag(f, H) == ((x & 0x0F) < (y & 0x0F))
    ensures DaaCorrected(x - y, f).r == BcdSub(x, y).0
    ensures GetFlag(DaaCorrected(x - y, f).f, C) == BcdSub(x, y).1
  {
    DaaDiffValue(x, y, f);
    DaaDiffCarry(x, y, f);
  }

  lemma DaaDiffValue(x: bv8, y: bv8, f: bv8)
    requires IsBcd(x) && IsBcd(y)
    requires GetFlag(f, N)
    requires GetFlag(f, C) == (x < y)
    requires GetFlag(f, H) == ((x & 0x0F) < (y & 0x0F))
    ensures DaaCorrected(x - y, f).r == BcdSub(x, y).0
  {
  }

  lemma DaaDiffCarry(x: bv8, y: bv8, f: bv8)
    requires IsBcd(x) && IsBcd(y)
    requires GetFlag(f, N)
    requires GetFlag(f, C) == (x < y)
    requires GetFlag(f, H) == ((x & 0x0F) < (y & 0x0F))
    ensures GetFlag(DaaCorrected(x - y, f).f, C) == BcdSub(x, y).1
  {
  }

  /// ADD of two BCD bytes followed by the corrected DAA is BCD addition.
  lemma {:induction false} AddDaaIsBcdAdd(x: bv8, y: bv8, f: bv8)
    requires IsBcd(x) && IsBcd(y)
    ensures var o := AddA(x, y, f, false); var d := DaaCorrected(o.r, o.f);
      d.r == BcdAdd(x, y).0 && GetFlag(d.f, C) == BcdAdd(x, y).1
  {
    var o := AddA(x, y, f, false);
    AddAValue(x, y, f, false);
    AddAFlags(x, y, f, false);
    DaaAdjustsSum(x, y, o.f);
  }

  /// SUB of two BCD bytes followed by DAA is BCD subtraction.
  lemma {:induction false} SubDaaIsBcdSub(x: bv8, y: bv8, f: bv8)
    requires IsBcd(x) && IsBcd(y)
    ensures var o := SubA(x, y, f, false); var d := DaaCorrected(o.r, o.f);
      d.r == BcdSub(x, y).0 && GetFlag(d.f, C) == BcdSub(x, y).1
  {
    var o := SubA(x, y, f, false);
    SubAValue(x, y, f, false);
    SubAFlags(x, y, f, false);
    DaaAdjustsDifference(x, y, o.f);
  }

  /// The as-written test adds 6 to a low nibble that is already a decimal
  /// digit: 0x01 + 0x01 gives 0x02 with every flag clear, and `daa` turns
  /// it into 0x08, while the corrected version leaves 0x02, the BCD sum.
  lemma DaaAsWrittenMisadjusts()
    ensures var o := AddA(0x01, 0x01, 0x00, false);
      && o.r == 0x02 && o.f == 0x00
      && Daa(o.r, o.f).r == 0x08
      && DaaCorrected(o.r, o.f).r == 0x02 == BcdAdd(0x01, 0x01).0
  {
  }
}
