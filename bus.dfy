/** The memory bus (src/activities/emulator/Bus.ts): a flat store of 65536 bytes with
    range-checked byte reads and writes. `Peek` and `Poke` are its meaning as values; `RamBus`
    is the object the processor holds, whose array the write updates in place. */
module Bus {
  import opened Bytes

  const Size: nat := 0x1_0000

  /** The store's contents: exactly one byte per address 0x0000..0xFFFF. */
  type Memory = m: seq<Byte> | |m| == Size witness seq(Size, _ => 0)

  /** The range check `addr >= 0x0000 && addr <= 0xFFFF`. */
  predicate InRange(addr: int) {
    0x0000 <= addr <= 0xFFFF
  }

  /** `read`: the stored byte, or 0 for an address outside the store. */
  function Peek(mem: Memory, addr: int): (v: Byte)
    ensures !InRange(addr) ==> v == 0
  {
    if InRange(addr) then mem[addr] else 0
  }

  /** `write`: the store with one cell replaced; a write outside the store changes nothing. */
  function Poke(mem: Memory, addr: int, val: Byte): (r: Memory)
    ensures InRange(addr) ==> Peek(r, addr) == val
    ensures forall b :: b != addr ==> Peek(r, b) == Peek(mem, b)
    ensures !InRange(addr) ==> r == mem
  {
    if InRange(addr) then mem[addr := val] else mem
  }

  /** A store is determined by what it reads back. */
  lemma PeekDetermines(m1: Memory, m2: Memory)
    requires forall addr :: InRange(addr) ==> Peek(m1, addr) == Peek(m2, addr)
    ensures m1 == m2
  {
    forall i | 0 <= i < Size
      ensures m1[i] == m2[i]
    {
      assert Peek(m1, i) == Peek(m2, i);
    }
  }

  /** Writes to distinct cells commute. */
  lemma PokesCommute(mem: Memory, a1: int, v1: Byte, a2: int, v2: Byte)
    requires a1 != a2
    ensures Poke(Poke(mem, a1, v1), a2, v2) == Poke(Poke(mem, a2, v2), a1, v1)
  {
    var l, r := Poke(Poke(mem, a1, v1), a2, v2), Poke(Poke(mem, a2, v2), a1, v1);
    forall addr | InRange(addr)
      ensures Peek(l, addr) == Peek(r, addr)
    {
    }
    PeekDetermines(l, r);
  }

  /** `RamBus`: the 65536-entry array behind the bus. Unwritten cells of the source's array
      read as 0 here. */
  class RamBus {
    const ram: array<Byte>

    ghost predicate Valid() {
      ram.Length == Size
    }

    ghost function Contents(): Memory
      reads ram
      requires Valid()
    {
      ram[..]
    }

    constructor ()
      ensures Valid() && fresh(ram)
      ensures Contents() == seq(Size, _ => 0)
    {
      ram := new Byte[Size](_ => 0);
    }

    /** `read`: a guarded array lookup that changes nothing. */
    method Read(addr: int) returns (v: Byte)
      requires Valid()
      ensures InRange(addr) ==> v == ram[addr]
      ensures !InRange(addr) ==> v == 0
    {
      if 0x0000 <= addr <= 0xFFFF {
        v := ram[addr];
      } else {
        v := 0x00;
      }
    }

    /** `write`: updates one array cell when the address is in range. */
    method Write(addr: int, val: Byte)
      requires Valid()
      modifies ram
      ensures Contents() == Poke(old(Contents()), addr, val)
    {
      if 0x0000 <= addr <= 0xFFFF {
        ram[addr] := val;
      }
    }
  }
}
