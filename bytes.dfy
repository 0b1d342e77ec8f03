/** Fixed-width integers of the emulator.
    Bytes and 16-bit words are bounded `int`s. Every wrap-around that the emulator relies on is
    written out here, and single bits are reached through `Octet`, an explicit eight-bit
    decomposition, so that no bit test needs division by a variable. */
module Bytes {

  type Byte = x: int | 0 <= x < 0x100
  type Word = x: int | 0 <= x < 0x1_0000
  type Bit = x: int | 0 <= x < 2

  function BitOf(b: bool): Bit { if b then 1 else 0 }

  /** The eight bits of a byte, least significant (b0) first. */
  datatype Octet = Octet(b0: bool, b1: bool, b2: bool, b3: bool, b4: bool, b5: bool, b6: bool, b7: bool)

  function Weight(b: bool, w: int): int { if b then w else 0 }

  /** The byte whose binary digits are the octet. */
  function Pack(o: Octet): Byte {
    Weight(o.b0, 1) + Weight(o.b1, 2) + Weight(o.b2, 4) + Weight(o.b3, 8)
    + Weight(o.b4, 16) + Weight(o.b5, 32) + Weight(o.b6, 64) + Weight(o.b7, 128)
  }

  /** The binary digits of a byte, peeled from the top one by comparisons. */
  function Unpack(x: Byte): Octet {
    var b7 := x >= 128;  var x6 := x - Weight(b7, 128);
    var b6 := x6 >= 64;  var x5 := x6 - Weight(b6, 64);
    var b5 := x5 >= 32;  var x4 := x5 - Weight(b5, 32);
    var b4 := x4 >= 16;  var x3 := x4 - Weight(b4, 16);
    var b3 := x3 >= 8;   var x2 := x3 - Weight(b3, 8);
    var b2 := x2 >= 4;   var x1 := x2 - Weight(b2, 4);
    var b1 := x1 >= 2;   var x0 := x1 - Weight(b1, 2);
    Octet(x0 >= 1, b1, b2, b3, b4, b5, b6, b7)
  }

  /** Pack inverts Unpack: the digits of a byte add up to the byte. */
  lemma PackUnpack(x: Byte)
    ensures Pack(Unpack(x)) == x
  {
  }

  /** One peeling step of `Unpack`: below a digit of weight `w` whose lower part is under `w`,
      the comparison recovers the digit and the subtraction the lower part. */
  lemma PeelDigit(rest: int, b: bool, w: int)
    requires 0 <= rest < w
    ensures (rest + Weight(b, w) >= w) == b
    ensures rest + Weight(b, w) - Weight(b, w) == rest
  {
  }

  /** Unpack inverts Pack: a byte has exactly one binary representation. */
  lemma {:induction false} UnpackPack(o: Octet)
    ensures Unpack(Pack(o)) == o
  {
    var w0, w1, w2, w3 := Weight(o.b0, 1), Weight(o.b1, 2), Weight(o.b2, 4), Weight(o.b3, 8);
    var w4, w5, w6, w7 := Weight(o.b4, 16), Weight(o.b5, 32), Weight(o.b6, 64), Weight(o.b7, 128);
    PeelDigit(w0 + w1 + w2 + w3 + w4 + w5 + w6, o.b7, 128);
    PeelDigit(w0 + w1 + w2 + w3 + w4 + w5, o.b6, 64);
    PeelDigit(w0 + w1 + w2 + w3 + w4, o.b5, 32);
    PeelDigit(w0 + w1 + w2 + w3, o.b4, 16);
    PeelDigit(w0 + w1 + w2, o.b3, 8);
    PeelDigit(w0 + w1, o.b2, 4);
    PeelDigit(w0, o.b1, 2);
  }

  /** Two bytes are equal exactly when all their bits are. */
  lemma BitsDetermineByte(x: Byte, y: Byte)
    ensures Unpack(x) == Unpack(y) ==> x == y
  {
    PackUnpack(x);
    PackUnpack(y);
  }

  /** `x & y` on bytes. */
  function BitAnd(x: Byte, y: Byte): (r: Byte)
    ensures r >= 0x80 <==> x >= 0x80 && y >= 0x80
  {
    var p, q := Unpack(x), Unpack(y);
    PackUnpack(x);
    PackUnpack(y);
    Pack(Octet(p.b0 && q.b0, p.b1 && q.b1, p.b2 && q.b2, p.b3 && q.b3,
               p.b4 && q.b4, p.b5 && q.b5, p.b6 && q.b6, p.b7 && q.b7))
  }

  /** `x | y` on bytes. */
  function BitOr(x: Byte, y: Byte): (r: Byte)
    ensures r >= 0x80 <==> x >= 0x80 || y >= 0x80
  {
    var p, q := Unpack(x), Unpack(y);
    PackUnpack(x);
    PackUnpack(y);
    Pack(Octet(p.b0 || q.b0, p.b1 || q.b1, p.b2 || q.b2, p.b3 || q.b3,
               p.b4 || q.b4, p.b5 || q.b5, p.b6 || q.b6, p.b7 || q.b7))
  }

  /** `x ^ y` on bytes. */
  function BitXor(x: Byte, y: Byte): (r: Byte)
    ensures r == 0 <==> x == y
    ensures r >= 0x80 <==> (x >= 0x80) != (y >= 0x80)
  {
    var p, q := Unpack(x), Unpack(y);
    var o := Octet(p.b0 != q.b0, p.b1 != q.b1, p.b2 != q.b2, p.b3 != q.b3,
                   p.b4 != q.b4, p.b5 != q.b5, p.b6 != q.b6, p.b7 != q.b7);
    BitsDetermineByte(x, y);
    PackUnpack(x);
    PackUnpack(y);
    Pack(o)
  }

  /** Exclusive-or with 0xFF flips every bit: it is the one's complement. */
  lemma XorAllOnes(x: Byte)
    ensures BitXor(x, 0xFF) == 0xFF - x
  {
    var p := Unpack(x);
    var o := Octet(!p.b0, !p.b1, !p.b2, !p.b3, !p.b4, !p.b5, !p.b6, !p.b7);
    assert Unpack(0xFF) == Octet(true, true, true, true, true, true, true, true);
    assert BitXor(x, 0xFF) == Pack(o);
    PackUnpack(x);
  }

  /** `t & 0xFF` for the intermediate values the processor forms (a borrow below zero or a carry
      up to 0x1FF): the low eight bits, in two's complement. */
  function Low8(t: int): (r: Byte)
    requires -0x100 <= t < 0x200
    ensures (r - t) % 0x100 == 0
  {
    if t < 0 then t + 0x100 else if t >= 0x100 then t - 0x100 else t
  }

  /** `(t & 0x80) > 0`: bit 7 of such an intermediate value. */
  predicate Bit7(t: int)
    requires -0x100 <= t < 0x200
  {
    Low8(t) >= 0x80
  }

  /** Two's-complement reading of a byte. */
  function Signed(b: Byte): (r: int)
    ensures -0x80 <= r < 0x80
    ensures Low8(r) == b
  {
    if b < 0x80 then b else b - 0x100
  }

  /** `++` on an 8-bit register, wrapping 0xFF to 0x00. */
  function Inc8(x: Byte): (r: Byte)
    ensures (r - x - 1) % 0x100 == 0
  {
    if x == 0xFF then 0 else x + 1
  }

  /** `--` on an 8-bit register, wrapping 0x00 to 0xFF. */
  function Dec8(x: Byte): (r: Byte)
    ensures (r - x + 1) % 0x100 == 0
  {
    if x == 0 then 0xFF else x - 1
  }

  /** `w + d` on a 16-bit register, wrapping modulo 0x10000. */
  function Add16(w: Word, d: int): (r: Word)
    requires -0x1_0000 < d < 0x1_0000
    ensures (r - w - d) % 0x1_0000 == 0
  {
    var s := w + d;
    if s < 0 then s + 0x1_0000 else if s >= 0x1_0000 then s - 0x1_0000 else s
  }

  /** `w & 0xFF`. */
  function Lo(w: Word): Byte { w % 0x100 }

  /** `(w >> 8) & 0xFF`; also the page of `w` (`w & 0xFF00` is `Hi(w) * 0x100`). */
  function Hi(w: Word): Byte { w / 0x100 }

  /** The little-endian word with bytes `lo` and `hi`. */
  function ToWord(lo: Byte, hi: Byte): (w: Word)
    ensures Lo(w) == lo && Hi(w) == hi
  {
    hi * 0x100 + lo
  }

  /** Splitting a word into bytes and joining them again gives the word back. */
  lemma SplitJoin(w: Word)
    ensures ToWord(Lo(w), Hi(w)) == w
  {
  }

  /** EOR with the same operand twice restores the byte. */
  lemma {:induction false} XorTwice(x: Byte, y: Byte)
    ensures BitXor(BitXor(x, y), y) == x
  {
    var p, q := Unpack(x), Unpack(y);
    var o := Octet(p.b0 != q.b0, p.b1 != q.b1, p.b2 != q.b2, p.b3 != q.b3,
                   p.b4 != q.b4, p.b5 != q.b5, p.b6 != q.b6, p.b7 != q.b7);
    assert BitXor(x, y) == Pack(o);
    UnpackPack(o);
    PackUnpack(x);
  }

  /** AND keeps exactly the bits set in both operands and OR those set in either; so AND with
      0xFF and OR with 0 change nothing, AND with 0 clears and OR with 0xFF sets every bit. */
  lemma {:induction false} AndOrIdentities(x: Byte)
    ensures BitAnd(x, 0xFF) == x && BitOr(x, 0) == x
    ensures BitAnd(x, 0) == 0 && BitOr(x, 0xFF) == 0xFF
  {
    assert Unpack(0xFF) == Octet(true, true, true, true, true, true, true, true);
    assert Unpack(0) == Octet(false, false, false, false, false, false, false, false);
    PackUnpack(x);
  }
}
