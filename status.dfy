/** The processor status register (src/activities/emulator/CPU.ts:20-29 gives each flag's mask).
    The register is kept as its eight flags; the byte that is pushed to, pulled from or
    compared against memory is `Pack` of them, and the lemmas at the end show that flag updates
    on this representation are the mask operations `getFlag` and `setFlag` perform on the byte. */
module StatusFlags {
  import opened Bytes

  datatype Flag = Carry | Zero | Interrupt | Decimal | Break | Unused | Overflow | Negative

  /** The status register, one boolean per flag (Carry in bit 0 ... Negative in bit 7). */
  type Status = Octet

  /** The mask `1 << k` of the flag kept in bit k. */
  function Mask(f: Flag): Byte {
    match f
    case Carry => 0x01
    case Zero => 0x02
    case Interrupt => 0x04
    case Decimal => 0x08
    case Break => 0x10
    case Unused => 0x20
    case Overflow => 0x40
    case Negative => 0x80
  }

  /** `getFlag`: 1 when the flag is set, else 0. */
  function GetFlag(s: Status, f: Flag): Bit {
    match f
    case Carry => BitOf(s.b0)
    case Zero => BitOf(s.b1)
    case Interrupt => BitOf(s.b2)
    case Decimal => BitOf(s.b3)
    case Break => BitOf(s.b4)
    case Unused => BitOf(s.b5)
    case Overflow => BitOf(s.b6)
    case Negative => BitOf(s.b7)
  }

  /** `setFlag`: exactly the named flag takes the new value; the other seven keep theirs. */
  function SetFlag(s: Status, f: Flag, v: bool): (r: Status)
    ensures GetFlag(r, f) == BitOf(v)
  {
    match f
    case Carry => Octet(v, s.b1, s.b2, s.b3, s.b4, s.b5, s.b6, s.b7)
    case Zero => Octet(s.b0, v, s.b2, s.b3, s.b4, s.b5, s.b6, s.b7)
    case Interrupt => Octet(s.b0, s.b1, v, s.b3, s.b4, s.b5, s.b6, s.b7)
    case Decimal => Octet(s.b0, s.b1, s.b2, v, s.b4, s.b5, s.b6, s.b7)
    case Break => Octet(s.b0, s.b1, s.b2, s.b3, v, s.b5, s.b6, s.b7)
    case Unused => Octet(s.b0, s.b1, s.b2, s.b3, s.b4, v, s.b6, s.b7)
    case Overflow => Octet(s.b0, s.b1, s.b2, s.b3, s.b4, s.b5, v, s.b7)
    case Negative => Octet(s.b0, s.b1, s.b2, s.b3, s.b4, s.b5, s.b6, v)
  }

  /** Setting one flag leaves every other flag as it was. */
  lemma SetFlagKeepsOthers(s: Status, f: Flag, g: Flag, v: bool)
    requires f != g
    ensures GetFlag(SetFlag(s, f, v), g) == GetFlag(s, g)
  {
    match f
    case Carry => {}
    case Zero => {}
    case Interrupt => {}
    case Decimal => {}
    case Break => {}
    case Unused => {}
    case Overflow => {}
    case Negative => {}
  }

  /** The status byte as the program sees it. */
  function ToByte(s: Status): Byte { Pack(s) }

  /** The status register loaded from a byte (`status = read(...)`, `status = 0x20`). */
  function FromByte(b: Byte): Status { Unpack(b) }

  /** Storing the register as flags loses nothing: the byte round-trips exactly. */
  lemma ByteRoundTrip(b: Byte, s: Status)
    ensures ToByte(FromByte(b)) == b
    ensures FromByte(ToByte(s)) == s
  {
    PackUnpack(b);
    UnpackPack(s);
  }

  /** The one-bit octet of a flag's mask. */
  lemma MaskBits(f: Flag)
    ensures Unpack(Mask(f)) == SetFlag(Octet(false, false, false, false, false, false, false, false), f, true)
  {
  }

  /** `getFlag` tests the mask: the flag is 1 exactly when `status & mask` is non-zero. */
  lemma GetFlagIsMaskTest(s: Status, f: Flag)
    ensures GetFlag(s, f) == 1 <==> BitAnd(ToByte(s), Mask(f)) > 0
  {
    UnpackPack(s);
    MaskBits(f);
  }

  /** Setting a flag is `status |= mask`. */
  lemma SetFlagIsOrMask(s: Status, f: Flag)
    ensures ToByte(SetFlag(s, f, true)) == BitOr(ToByte(s), Mask(f))
  {
    UnpackPack(s);
    MaskBits(f);
  }

  /** Clearing a flag is `status &= ~mask` (the complement taken within the byte). */
  lemma ClearFlagIsAndNotMask(s: Status, f: Flag)
    ensures ToByte(SetFlag(s, f, false)) == BitAnd(ToByte(s), 0xFF - Mask(f))
  {
    UnpackPack(s);
    assert Unpack(0xFF - Mask(f)) == SetFlag(Octet(true, true, true, true, true, true, true, true), f, false);
  }
}
