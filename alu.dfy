/** The arithmetic and logic the instruction handlers perform on bytes
    (src/activities/emulator/CPU.ts:303-691), lifted out of the handlers as pure functions.
    Each function follows the handler's own computation (the intermediate `t`, the masks); its
    contract and the lemmas below state what the result means as arithmetic. */
module Alu {
  import opened Bytes

  /** The outcome of an addition or subtraction: the new accumulator and the carry and overflow
      flags. Zero and Negative are read off `value`. */
  datatype Sum = Sum(value: Byte, carry: bool, overflow: bool)

  /** ADC: `t = a + m + C`; Carry is `t > 255`; Overflow is set when the operands agree in sign
      and the result's sign differs; the accumulator keeps `t & 0xFF`. */
  function Adc(a: Byte, m: Byte, c: Bit): (r: Sum)
    ensures r.value + (if r.carry then 0x100 else 0) == a + m + c
    ensures r.overflow <==> !(-0x80 <= Signed(a) + Signed(m) + c < 0x80)
    ensures r.overflow <==> Signed(a) + Signed(m) + c != Signed(r.value)
  {
    var t := a + m + c;
    Sum(Low8(t), t > 255, (a >= 0x80) == (m >= 0x80) && Bit7(t) != (a >= 0x80))
  }

  /** SBC: the operand's one's complement `m ^ 0xFF` is added with the carry; Carry is any bit
      above the low byte of `t`; Overflow is set when `t` differs in sign from both addends. */
  function Sbc(a: Byte, m: Byte, c: Bit): (r: Sum)
    ensures r.value - (if r.carry then 0 else 0x100) == a - m - (1 - c)
    ensures r.overflow <==> !(-0x80 <= Signed(a) - Signed(m) - (1 - c) < 0x80)
  {
    var v := 0xFF - m;  // `m ^ 0xFF`, by XorAllOnes
    var t := a + v + c;
    Sum(Low8(t), t >= 0x100, Bit7(t) != (a >= 0x80) && Bit7(t) != (v >= 0x80))
  }

  /** Subtraction is addition of the one's complement: SBC computes exactly what ADC computes
      on `0xFF - m`, flags included. */
  lemma SbcIsAdcOfComplement(a: Byte, m: Byte, c: Bit)
    ensures Sbc(a, m, c) == Adc(a, BitXor(m, 0xFF), c)
  {
    XorAllOnes(m);
  }

  /** The flags CMP, CPX and CPY set from `t = r - m`. */
  datatype Comparison = Comparison(carry: bool, zero: bool, negative: bool)

  /** CMP/CPX/CPY: Carry on `r > m` (strictly greater), Zero when the low byte of `r - m` is
      0, Negative from bit 7 of `r - m`. */
  function Compare(r: Byte, m: Byte): (f: Comparison)
    ensures f.zero <==> r == m
    ensures f.negative <==> Low8(r - m) >= 0x80
  {
    var t := r - m;
    Comparison(r > m, Low8(t) == 0, Bit7(t))
  }

  /** A comparison sets Zero and Negative as the subtraction `r - m` (SBC with the carry set)
      would, but its Carry is clear when the operands are equal, where the subtraction's carry
      (no borrow) is set. */
  lemma CompareAgainstSubtraction(r: Byte, m: Byte)
    ensures Compare(r, m).zero <==> Sbc(r, m, 1).value == 0
    ensures Compare(r, m).negative <==> Sbc(r, m, 1).value >= 0x80
    ensures Compare(r, m).carry <==> Sbc(r, m, 1).carry && r != m
  {
    var s := Sbc(r, m, 1);
    assert s.value - (if s.carry then 0 else 0x100) == r - m;
    assert s.value == Low8(r - m);
  }

  /** The outcome of a shift or rotate: the new byte and the bit shifted out into Carry. */
  datatype Shift = Shift(value: Byte, carry: bool)

  /** ASL: `t = m << 1`; Carry is any bit above the low byte; the byte kept is `t & 0xFF`. */
  function Asl(m: Byte): (r: Shift)
    ensures r.value + (if r.carry then 0x100 else 0) == 2 * m
  {
    var t := m * 2;
    Shift(Low8(t), t >= 0x100)
  }

  /** LSR: Carry takes bit 0; the byte kept is `m >> 1`. */
  function Lsr(m: Byte): (r: Shift)
    ensures 2 * r.value + (if r.carry then 1 else 0) == m
    ensures r.value < 0x80
  {
    Shift(m / 2, m % 2 == 1)
  }

  /** ROL: `t = (m << 1) | C`; Carry is any bit above the low byte. */
  function Rol(m: Byte, c: Bit): (r: Shift)
    ensures r.value + (if r.carry then 0x100 else 0) == 2 * m + c
  {
    var t := m * 2 + c;
    Shift(Low8(t), t >= 0x100)
  }

  /** ROR: `t = (C << 7) | (m >> 1)`; Carry takes bit 0 of `m`. */
  function Ror(m: Byte, c: Bit): (r: Shift)
    ensures 2 * r.value + (if r.carry then 1 else 0) == m + 0x100 * c
  {
    Shift(c * 0x80 + m / 2, m % 2 == 1)
  }

  /** Rotating left and then right through the carry restores both the byte and the carry. */
  lemma {:induction false} RorUndoesRol(m: Byte, c: Bit)
    ensures Ror(Rol(m, c).value, BitOf(Rol(m, c).carry)) == Shift(m, c == 1)
  {
    var r := Rol(m, c);
    var b := BitOf(r.carry);
    var back := Ror(r.value, b);
    assert 2 * back.value + (if back.carry then 1 else 0) == 2 * m + c;
  }

  /** Rotating right and then left through the carry restores both the byte and the carry. */
  lemma {:induction false} RolUndoesRor(m: Byte, c: Bit)
    ensures Rol(Ror(m, c).value, BitOf(Ror(m, c).carry)) == Shift(m, c == 1)
  {
    var r := Ror(m, c);
    var b := BitOf(r.carry);
    var back := Rol(r.value, b);
    assert back.value + (if back.carry then 0x100 else 0) == m + 0x100 * c;
  }

  /** The flags BIT sets: Zero when `a & m` is 0, Negative and Overflow from bits 7 and 6 of
      the operand itself. */
  datatype BitTest = BitTest(zero: bool, negative: bool, overflow: bool)

  function TestBits(a: Byte, m: Byte): (r: BitTest)
    ensures r.negative <==> m >= 0x80
    ensures a == 0 ==> r.zero
    ensures r.overflow <==> Unpack(m).b6
  {
    var p, q := Unpack(a), Unpack(m);
    PackUnpack(a);
    PackUnpack(m);
    BitTest(BitAnd(a, m) == 0, q.b7, q.b6)
  }
}
