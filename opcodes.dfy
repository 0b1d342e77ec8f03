/** The opcode table (src/activities/emulator/CPU.ts:51-68): for each of the 256 opcode bytes,
    the instruction handler, the addressing mode and the base cycle count. The source writes the
    table as sixteen lines of sixteen entries; here each line is one `Row` function, indexed by
    the low nibble of the opcode. Opcodes the source maps to its "???" placeholder decode to
    `XXX`. */
module Opcodes {
  import opened Bytes

  /** The instruction handlers `ADC` ... `TYA`, and `XXX` for illegal opcodes. */
  datatype Mnemonic =
    | ADC | AND | ASL | BCC | BCS | BEQ | BIT | BMI | BNE | BPL | BRK | BVC | BVS | CLC
    | CLD | CLI | CLV | CMP | CPX | CPY | DEC | DEX | DEY | EOR | INC | INX | INY | JMP
    | JSR | LDA | LDX | LDY | LSR | NOP | ORA | PHA | PHP | PLA | PLP | ROL | ROR | RTI
    | RTS | SBC | SEC | SED | SEI | STA | STX | STY | TAX | TAY | TSX | TXA | TXS | TYA
    | XXX  // the placeholder the table names "???"

  /** The twelve addressing modes. */
  datatype Mode =
    | Implied | Immediate | ZeroPage | ZeroPageX | ZeroPageY | Relative
    | Absolute | AbsoluteX | AbsoluteY | Indirect | IndirectX | IndirectY

  /** One table entry: handler, addressing mode and base cycle count. */
  datatype Instruction = Instruction(mnemonic: Mnemonic, mode: Mode, cycles: nat)

  /** The instruction the table assigns to an opcode byte. */
  function Decode(opcode: Byte): Instruction {
    match opcode / 0x10
    case 0x0 => Row0(opcode % 0x10)
    case 0x1 => Row1(opcode % 0x10)
    case 0x2 => Row2(opcode % 0x10)
    case 0x3 => Row3(opcode % 0x10)
    case 0x4 => Row4(opcode % 0x10)
    case 0x5 => Row5(opcode % 0x10)
    case 0x6 => Row6(opcode % 0x10)
    case 0x7 => Row7(opcode % 0x10)
    case 0x8 => Row8(opcode % 0x10)
    case 0x9 => Row9(opcode % 0x10)
    case 0xA => RowA(opcode % 0x10)
    case 0xB => RowB(opcode % 0x10)
    case 0xC => RowC(opcode % 0x10)
    case 0xD => RowD(opcode % 0x10)
    case 0xE => RowE(opcode % 0x10)
    case 0xF => RowF(opcode % 0x10)
  }

  /** Opcodes 0x00..0x0F (CPU.ts:52). */
  function Row0(lo: int): Instruction
    requires 0 <= lo < 0x10
  {
    match lo
    case 0x0 => Instruction(BRK, Implied, 7)
    case 0x1 => Instruction(ORA, IndirectX, 6)
    case 0x2 => Instruction(XXX, Implied, 0)
    case 0x3 => Instruction(XXX, IndirectX, 8)
    case 0x4 => Instruction(XXX, ZeroPage, 3)
    case 0x5 => Instruction(ORA, ZeroPage, 3)
    case 0x6 => Instruction(ASL, ZeroPage, 5)
    case 0x7 => Instruction(XXX, ZeroPage, 5)
    case 0x8 => Instruction(PHP, Implied, 3)
    case 0x9 => Instruction(ORA, Immediate, 2)
    case 0xA => Instruction(ASL, Implied, 2)
    case 0xB => Instruction(XXX, Immediate, 2)
    case 0xC => Instruction(XXX, Absolute, 4)
    case 0xD => Instruction(ORA, Absolute, 4)
    case 0xE => Instruction(ASL, Absolute, 6)
    case 0xF => Instruction(XXX, Absolute, 6)
  }

  /** Opcodes 0x10..0x1F (CPU.ts:53). */
  function Row1(lo: int): Instruction
    requires 0 <= lo < 0x10
  {
    match lo
    case 0x0 => Instruction(BPL, Relative, 2)
    case 0x1 => Instruction(ORA, IndirectY, 5)
    case 0x2 => Instruction(XXX, Implied, 0)
    case 0x3 => Instruction(XXX, IndirectY, 8)
    case 0x4 => Instruction(XXX, ZeroPageX, 4)
    case 0x5 => Instruction(ORA, ZeroPageX, 4)
    case 0x6 => Instruction(ASL, ZeroPageX, 6)
    case 0x7 => Instruction(XXX, ZeroPageX, 6)
    case 0x8 => Instruction(CLC, Implied, 2)
    case 0x9 => Instruction(ORA, AbsoluteY, 4)
    case 0xA => Instruction(XXX, Implied, 2)
    case 0xB => Instruction(XXX, AbsoluteY, 7)
    case 0xC => Instruction(XXX, AbsoluteX, 4)
    case 0xD => Instruction(ORA, AbsoluteX, 4)
    case 0xE => Instruction(ASL, AbsoluteX, 7)
    case 0xF => Instruction(XXX, AbsoluteX, 7)
  }

  /** Opcodes 0x20..0x2F (CPU.ts:54). */
  function Row2(lo: int): Instruction
    requires 0 <= lo < 0x10
  {
    match lo
    case 0x0 => Instruction(JSR, Absolute, 6)
    case 0x1 => Instruction(AND, IndirectX, 6)
    case 0x2 => Instruction(XXX, Implied, 0)
    case 0x3 => Instruction(XXX, IndirectX, 8)
    case 0x4 => Instruction(BIT, ZeroPage, 3)
    case 0x5 => Instruction(AND, ZeroPage, 3)
    case 0x6 => Instruction(ROL, ZeroPage, 5)
    case 0x7 => Instruction(XXX, ZeroPage, 5)
    case 0x8 => Instruction(PLP, Implied, 4)
    case 0x9 => Instruction(AND, Immediate, 2)
    case 0xA => Instruction(ROL, Implied, 2)
    case 0xB => Instruction(XXX, Immediate, 2)
    case 0xC => Instruction(BIT, Absolute, 4)
    case 0xD => Instruction(AND, Absolute, 4)
    case 0xE => Instruction(ROL, Absolute, 6)
    case 0xF => Instruction(XXX, Absolute, 6)
  }

  /** Opcodes 0x30..0x3F (CPU.ts:55). */
  function Row3(lo: int): Instruction
    requires 0 <= lo < 0x10
  {
    match lo
    case 0x0 => Instruction(BMI, Relative, 2)
    case 0x1 => Instruction(AND, IndirectY, 5)
    case 0x2 => Instruction(XXX, Implied, 0)
    case 0x3 => Instruction(XXX, IndirectY, 8)
    case 0x4 => Instruction(XXX, ZeroPageX, 4)
    case 0x5 => Instruction(AND, ZeroPageX, 4)
    case 0x6 => Instruction(ROL, ZeroPageX, 6)
    case 0x7 => Instruction(XXX, ZeroPageX, 6)
    case 0x8 => Instruction(SEC, Implied, 2)
    case 0x9 => Instruction(AND, AbsoluteY, 4)
    case 0xA => Instruction(XXX, Implied, 2)
    case 0xB => Instruction(XXX, AbsoluteY, 7)
    case 0xC => Instruction(XXX, AbsoluteX, 4)
    case 0xD => Instruction(AND, AbsoluteX, 4)
    case 0xE => Instruction(ROL, AbsoluteX, 7)
    case 0xF => Instruction(XXX, AbsoluteX, 7)
  }

  /** Opcodes 0x40..0x4F (CPU.ts:56). */
  function Row4(lo: int): Instruction
    requires 0 <= lo < 0x10
  {
    match lo
    case 0x0 => Instruction(RTI, Implied, 6)
    case 0x1 => Instruction(EOR, IndirectX, 6)
    case 0x2 => Instruction(XXX, Implied, 0)
    case 0x3 => Instruction(XXX, IndirectX, 8)
    case 0x4 => Instruction(XXX, ZeroPage, 3)
    case 0x5 => Instruction(EOR, ZeroPage, 3)
    case 0x6 => Instruction(LSR, ZeroPage, 5)
    case 0x7 => Instruction(XXX, ZeroPage, 5)
    case 0x8 => Instruction(PHA, Implied, 3)
    case 0x9 => Instruction(EOR, Immediate, 2)
    case 0xA => Instruction(LSR, Implied, 2)
    case 0xB => Instruction(XXX, Immediate, 2)
    case 0xC => Instruction(JMP, Absolute, 3)
    case 0xD => Instruction(EOR, Absolute, 4)
    case 0xE => Instruction(LSR, Absolute, 6)
    case 0xF => Instruction(XXX, Absolute, 6)
  }

  /** Opcodes 0x50..0x5F (CPU.ts:57). */
  function Row5(lo: int): Instruction
    requires 0 <= lo < 0x10
  {
    match lo
    case 0x0 => Instruction(BVC, Relative, 2)
    case 0x1 => Instruction(EOR, IndirectY, 5)
    case 0x2 => Instruction(XXX, Implied, 0)
    case 0x3 => Instruction(XXX, IndirectY, 8)
    case 0x4 => Instruction(XXX, ZeroPageX, 4)
    case 0x5 => Instruction(EOR, ZeroPageX, 4)
    case 0x6 => Instruction(LSR, ZeroPageX, 6)
    case 0x7 => Instruction(XXX, ZeroPageX, 6)
    case 0x8 => Instruction(CLI, Implied, 2)
    case 0x9 => Instruction(EOR, AbsoluteY, 4)
    case 0xA => Instruction(XXX, Implied, 2)
    case 0xB => Instruction(XXX, AbsoluteY, 7)
    case 0xC => Instruction(XXX, AbsoluteX, 4)
    case 0xD => Instruction(EOR, AbsoluteX, 4)
    case 0xE => Instruction(LSR, AbsoluteX, 7)
    case 0xF => Instruction(XXX, AbsoluteX, 7)
  }

  /** Opcodes 0x60..0x6F (CPU.ts:58). */
  function Row6(lo: int): Instruction
    requires 0 <= lo < 0x10
  {
    match lo
    case 0x0 => Instruction(RTS, Implied, 6)
    case 0x1 => Instruction(ADC, IndirectX, 6)
    case 0x2 => Instruction(XXX, Implied, 0)
    case 0x3 => Instruction(XXX, IndirectX, 8)
    case 0x4 => Instruction(XXX, ZeroPage, 3)
    case 0x5 => Instruction(ADC, ZeroPage, 3)
    case 0x6 => Instruction(ROR, ZeroPage, 5)
    case 0x7 => Instruction(XXX, ZeroPage, 5)
    case 0x8 => Instruction(PLA, Implied, 4)
    case 0x9 => Instruction(ADC, Immediate, 2)
    case 0xA => Instruction(ROR, Implied, 2)
    case 0xB => Instruction(XXX, Immediate, 2)
    case 0xC => Instruction(JMP, Indirect, 5)
    case 0xD => Instruction(ADC, Absolute, 4)
    case 0xE => Instruction(ROR, Absolute, 6)
    case 0xF => Instruction(XXX, Absolute, 6)
  }

  /** Opcodes 0x70..0x7F (CPU.ts:59). */
  function Row7(lo: int): Instruction
    requires 0 <= lo < 0x10
  {
    match lo
    case 0x0 => Instruction(BVS, Relative, 2)
    case 0x1 => Instruction(ADC, IndirectY, 5)
    case 0x2 => Instruction(XXX, Implied, 0)
    case 0x3 => Instruction(XXX, IndirectY, 8)
    case 0x4 => Instruction(XXX, ZeroPageX, 4)
    case 0x5 => Instruction(ADC, ZeroPageX, 4)
    case 0x6 => Instruction(ROR, ZeroPageX, 6)
    case 0x7 => Instruction(XXX, ZeroPageX, 6)
    case 0x8 => Instruction(SEI, Implied, 2)
    case 0x9 => Instruction(ADC, AbsoluteY, 4)
    case 0xA => Instruction(XXX, Implied, 2)
    case 0xB => Instruction(XXX, AbsoluteY, 7)
    case 0xC => Instruction(XXX, AbsoluteX, 4)
    case 0xD => Instruction(ADC, AbsoluteX, 4)
    case 0xE => Instruction(ROR, AbsoluteX, 7)
    case 0xF => Instruction(XXX, AbsoluteX, 7)
  }

  /** Opcodes 0x80..0x8F (CPU.ts:60). */
  function Row8(lo: int): Instruction
    requires 0 <= lo < 0x10
  {
    match lo
    case 0x0 => Instruction(XXX, Immediate, 2)
    case 0x1 => Instruction(STA, IndirectX, 6)
    case 0x2 => Instruction(XXX, Immediate, 2)
    case 0x3 => Instruction(XXX, IndirectX, 6)
    case 0x4 => Instruction(STY, ZeroPage, 3)
    case 0x5 => Instruction(STA, ZeroPage, 3)
    case 0x6 => Instruction(STX, ZeroPage, 3)
    case 0x7 => Instruction(XXX, ZeroPage, 3)
    case 0x8 => Instruction(DEY, Implied, 2)
    case 0x9 => Instruction(XXX, Immediate, 2)
    case 0xA => Instruction(TXA, Implied, 2)
    case 0xB => Instruction(XXX, Immediate, 2)
    case 0xC => Instruction(STY, Absolute, 4)
    case 0xD => Instruction(STA, Absolute, 4)
    case 0xE => Instruction(STX, Absolute, 4)
    case 0xF => Instruction(XXX, Absolute, 4)
  }

  /** Opcodes 0x90..0x9F (CPU.ts:61). */
  function Row9(lo: int): Instruction
    requires 0 <= lo < 0x10
  {
    match lo
    case 0x0 => Instruction(BCC, Relative, 2)
    case 0x1 => Instruction(STA, IndirectY, 6)
    case 0x2 => Instruction(XXX, Implied, 0)
    case 0x3 => Instruction(XXX, IndirectY, 6)
    case 0x4 => Instruction(STY, ZeroPageX, 4)
    case 0x5 => Instruction(STA, ZeroPageX, 4)
    case 0x6 => Instruction(STX, ZeroPageY, 4)
    case 0x7 => Instruction(XXX, ZeroPageY, 4)
    case 0x8 => Instruction(TYA, Implied, 2)
    case 0x9 => Instruction(STA, AbsoluteY, 5)
    case 0xA => Instruction(TXS, Implied, 2)
    case 0xB => Instruction(XXX, AbsoluteY, 5)
    case 0xC => Instruction(XXX, AbsoluteX, 5)
    case 0xD => Instruction(STA, AbsoluteX, 5)
    case 0xE => Instruction(XXX, AbsoluteY, 5)
    case 0xF => Instruction(XXX, AbsoluteY, 5)
  }

  /** Opcodes 0xA0..0xAF (CPU.ts:62). */
  function RowA(lo: int): Instruction
    requires 0 <= lo < 0x10
  {
    match lo
    case 0x0 => Instruction(LDY, Immediate, 2)
    case 0x1 => Instruction(LDA, IndirectX, 6)
    case 0x2 => Instruction(LDX, Immediate, 2)
    case 0x3 => Instruction(XXX, IndirectX, 6)
    case 0x4 => Instruction(LDY, ZeroPage, 3)
    case 0x5 => Instruction(LDA, ZeroPage, 3)
    case 0x6 => Instruction(LDX, ZeroPage, 3)
    case 0x7 => Instruction(XXX, ZeroPage, 3)
    case 0x8 => Instruction(TAY, Implied, 2)
    case 0x9 => Instruction(LDA, Immediate, 2)
    case 0xA => Instruction(TAX, Implied, 2)
    case 0xB => Instruction(XXX, Immediate, 2)
    case 0xC => Instruction(LDY, Absolute, 4)
    case 0xD => Instruction(LDA, Absolute, 4)
    case 0xE => Instruction(LDX, Absolute, 4)
    case 0xF => Instruction(XXX, Absolute, 4)
  }

  /** Opcodes 0xB0..0xBF (CPU.ts:63). */
  function RowB(lo: int): Instruction
    requires 0 <= lo < 0x10
  {
    match lo
    case 0x0 => Instruction(BCS, Relative, 2)
    case 0x1 => Instruction(LDA, IndirectY, 5)
    case 0x2 => Instruction(XXX, Implied, 0)
    case 0x3 => Instruction(XXX, IndirectY, 5)
    case 0x4 => Instruction(LDY, ZeroPageX, 4)
    case 0x5 => Instruction(LDA, ZeroPageX, 4)
    case 0x6 => Instruction(LDX, ZeroPageY, 4)
    case 0x7 => Instruction(XXX, ZeroPageY, 4)
    case 0x8 => Instruction(CLV, Implied, 2)
    case 0x9 => Instruction(LDA, AbsoluteY, 4)
    case 0xA => Instruction(TSX, Implied, 2)
    case 0xB => Instruction(XXX, AbsoluteY, 4)
    case 0xC => Instruction(LDY, AbsoluteX, 4)
    case 0xD => Instruction(LDA, AbsoluteX, 4)
    case 0xE => Instruction(LDX, AbsoluteY, 4)
    case 0xF => Instruction(XXX, AbsoluteY, 4)
  }

  /** Opcodes 0xC0..0xCF (CPU.ts:64). */
  function RowC(lo: int): Instruction
    requires 0 <= lo < 0x10
  {
    match lo
    case 0x0 => Instruction(CPY, Immediate, 2)
    case 0x1 => Instruction(CMP, IndirectX, 6)
    case 0x2 => Instruction(XXX, Immediate, 2)
    case 0x3 => Instruction(XXX, IndirectX, 8)
    case 0x4 => Instruction(CPY, ZeroPage, 3)
    case 0x5 => Instruction(CMP, ZeroPage, 3)
    case 0x6 => Instruction(DEC, ZeroPage, 5)
    case 0x7 => Instruction(XXX, ZeroPage, 5)
    case 0x8 => Instruction(INY, Implied, 2)
    case 0x9 => Instruction(CMP, Immediate, 2)
    case 0xA => Instruction(DEX, Implied, 2)
    case 0xB => Instruction(XXX, Immediate, 2)
    case 0xC => Instruction(CPY, Absolute, 4)
    case 0xD => Instruction(CMP, Absolute, 4)
    case 0xE => Instruction(DEC, Absolute, 6)
    case 0xF => Instruction(XXX, Absolute, 6)
  }

  /** Opcodes 0xD0..0xDF (CPU.ts:65). */
  function RowD(lo: int): Instruction
    requires 0 <= lo < 0x10
  {
    match lo
    case 0x0 => Instruction(BNE, Relative, 2)
    case 0x1 => Instruction(CMP, IndirectY, 5)
    case 0x2 => Instruction(XXX, Implied, 0)
    case 0x3 => Instruction(XXX, IndirectY, 8)
    case 0x4 => Instruction(XXX, ZeroPageX, 4)
    case 0x5 => Instruction(CMP, ZeroPageX, 4)
    case 0x6 => Instruction(DEC, ZeroPageX, 6)
    case 0x7 => Instruction(XXX, ZeroPageX, 6)
    case 0x8 => Instruction(CLD, Implied, 2)
    case 0x9 => Instruction(CMP, AbsoluteY, 4)
    case 0xA => Instruction(XXX, Implied, 2)
    case 0xB => Instruction(XXX, AbsoluteY, 7)
    case 0xC => Instruction(XXX, AbsoluteX, 4)
    case 0xD => Instruction(CMP, AbsoluteX, 4)
    case 0xE => Instruction(DEC, AbsoluteX, 7)
    case 0xF => Instruction(XXX, AbsoluteX, 7)
  }

  /** Opcodes 0xE0..0xEF (CPU.ts:66). */
  function RowE(lo: int): Instruction
    requires 0 <= lo < 0x10
  {
    match lo
    case 0x0 => Instruction(CPX, Immediate, 2)
    case 0x1 => Instruction(SBC, IndirectX, 6)
    case 0x2 => Instruction(XXX, Immediate, 2)
    case 0x3 => Instruction(XXX, IndirectX, 8)
    case 0x4 => Instruction(CPX, ZeroPage, 3)
    case 0x5 => Instruction(SBC, ZeroPage, 3)
    case 0x6 => Instruction(INC, ZeroPage, 5)
    case 0x7 => Instruction(XXX, ZeroPage, 5)
    case 0x8 => Instruction(INX, Implied, 2)
    case 0x9 => Instruction(SBC, Immediate, 2)
    case 0xA => Instruction(NOP, Implied, 2)
    case 0xB => Instruction(XXX, Immediate, 2)
    case 0xC => Instruction(CPX, Absolute, 4)
    case 0xD => Instruction(SBC, Absolute, 4)
    case 0xE => Instruction(INC, Absolute, 6)
    case 0xF => Instruction(XXX, Absolute, 6)
  }

  /** Opcodes 0xF0..0xFF (CPU.ts:67). */
  function RowF(lo: int): Instruction
    requires 0 <= lo < 0x10
  {
    match lo
    case 0x0 => Instruction(BEQ, Relative, 2)
    case 0x1 => Instruction(SBC, IndirectY, 5)
    case 0x2 => Instruction(XXX, Implied, 0)
    case 0x3 => Instruction(XXX, IndirectY, 8)
    case 0x4 => Instruction(XXX, ZeroPageX, 4)
    case 0x5 => Instruction(SBC, ZeroPageX, 4)
    case 0x6 => Instruction(INC, ZeroPageX, 6)
    case 0x7 => Instruction(XXX, ZeroPageX, 6)
    case 0x8 => Instruction(SED, Implied, 2)
    case 0x9 => Instruction(SBC, AbsoluteY, 4)
    case 0xA => Instruction(XXX, Implied, 2)
    case 0xB => Instruction(XXX, AbsoluteY, 7)
    case 0xC => Instruction(XXX, AbsoluteX, 4)
    case 0xD => Instruction(SBC, AbsoluteX, 4)
    case 0xE => Instruction(INC, AbsoluteX, 7)
    case 0xF => Instruction(XXX, AbsoluteX, 7)
  }

  /** The eight conditional branches. */
  predicate IsBranch(m: Mnemonic) {
    m.BCC? || m.BCS? || m.BEQ? || m.BMI? || m.BNE? || m.BPL? || m.BVC? || m.BVS?
  }

  /** The handlers that always address a memory cell: INC, DEC and the stores. */
  predicate TargetsMemory(m: Mnemonic) {
    m.INC? || m.DEC? || m.STA? || m.STX? || m.STY?
  }

  /** The shape of a table entry. */
  predicate WellFormed(ins: Instruction) {
    // exactly the eight conditional branches use relative addressing
    (ins.mode.Relative? <==> IsBranch(ins.mnemonic))
    // only JMP dereferences a pointer
    && (ins.mode.Indirect? ==> ins.mnemonic.JMP?)
    // INC, DEC and the stores always address a memory cell
    && (TargetsMemory(ins.mnemonic) ==> !ins.mode.Implied? && !ins.mode.Immediate?)
    // no instruction costs more than eight cycles, and only placeholders cost none
    && ins.cycles <= 8
    && (ins.cycles == 0 ==> ins.mnemonic.XXX? && ins.mode.Implied?)
  }

  lemma {:induction false} Row0WellFormed(lo: int)
    requires 0 <= lo < 0x10
    ensures WellFormed(Row0(lo))
  {
    match lo
    case 0x0 => {} case 0x1 => {} case 0x2 => {} case 0x3 => {} case 0x4 => {} case 0x5 => {} case 0x6 => {} case 0x7 => {} case 0x8 => {} case 0x9 => {} case 0xA => {} case 0xB => {} case 0xC => {} case 0xD => {} case 0xE => {} case 0xF => {}
  }

  lemma {:induction false} Row1WellFormed(lo: int)
    requires 0 <= lo < 0x10
    ensures WellFormed(Row1(lo))
  {
    match lo
    case 0x0 => {} case 0x1 => {} case 0x2 => {} case 0x3 => {} case 0x4 => {} case 0x5 => {} case 0x6 => {} case 0x7 => {} case 0x8 => {} case 0x9 => {} case 0xA => {} case 0xB => {} case 0xC => {} case 0xD => {} case 0xE => {} case 0xF => {}
  }

  lemma {:induction false} Row2WellFormed(lo: int)
    requires 0 <= lo < 0x10
    ensures WellFormed(Row2(lo))
  {
    match lo
    case 0x0 => {} case 0x1 => {} case 0x2 => {} case 0x3 => {} case 0x4 => {} case 0x5 => {} case 0x6 => {} case 0x7 => {} case 0x8 => {} case 0x9 => {} case 0xA => {} case 0xB => {} case 0xC => {} case 0xD => {} case 0xE => {} case 0xF => {}
  }

  lemma {:induction false} Row3WellFormed(lo: int)
    requires 0 <= lo < 0x10
    ensures WellFormed(Row3(lo))
  {
    match lo
    case 0x0 => {} case 0x1 => {} case 0x2 => {} case 0x3 => {} case 0x4 => {} case 0x5 => {} case 0x6 => {} case 0x7 => {} case 0x8 => {} case 0x9 => {} case 0xA => {} case 0xB => {} case 0xC => {} case 0xD => {} case 0xE => {} case 0xF => {}
  }

  lemma {:induction false} Row4WellFormed(lo: int)
    requires 0 <= lo < 0x10
    ensures WellFormed(Row4(lo))
  {
    match lo
    case 0x0 => {} case 0x1 => {} case 0x2 => {} case 0x3 => {} case 0x4 => {} case 0x5 => {} case 0x6 => {} case 0x7 => {} case 0x8 => {} case 0x9 => {} case 0xA => {} case 0xB => {} case 0xC => {} case 0xD => {} case 0xE => {} case 0xF => {}
  }

  lemma {:induction false} Row5WellFormed(lo: int)
    requires 0 <= lo < 0x10
    ensures WellFormed(Row5(lo))
  {
    match lo
    case 0x0 => {} case 0x1 => {} case 0x2 => {} case 0x3 => {} case 0x4 => {} case 0x5 => {} case 0x6 => {} case 0x7 => {} case 0x8 => {} case 0x9 => {} case 0xA => {} case 0xB => {} case 0xC => {} case 0xD => {} case 0xE => {} case 0xF => {}
  }

  lemma {:induction false} Row6WellFormed(lo: int)
    requires 0 <= lo < 0x10
    ensures WellFormed(Row6(lo))
  {
    match lo
    case 0x0 => {} case 0x1 => {} case 0x2 => {} case 0x3 => {} case 0x4 => {} case 0x5 => {} case 0x6 => {} case 0x7 => {} case 0x8 => {} case 0x9 => {} case 0xA => {} case 0xB => {} case 0xC => {} case 0xD => {} case 0xE => {} case 0xF => {}
  }

  lemma {:induction false} Row7WellFormed(lo: int)
    requires 0 <= lo < 0x10
    ensures WellFormed(Row7(lo))
  {
    match lo
    case 0x0 => {} case 0x1 => {} case 0x2 => {} case 0x3 => {} case 0x4 => {} case 0x5 => {} case 0x6 => {} case 0x7 => {} case 0x8 => {} case 0x9 => {} case 0xA => {} case 0xB => {} case 0xC => {} case 0xD => {} case 0xE => {} case 0xF => {}
  }

  lemma {:induction false} Row8WellFormed(lo: int)
    requires 0 <= lo < 0x10
    ensures WellFormed(Row8(lo))
  {
    match lo
    case 0x0 => {} case 0x1 => {} case 0x2 => {} case 0x3 => {} case 0x4 => {} case 0x5 => {} case 0x6 => {} case 0x7 => {} case 0x8 => {} case 0x9 => {} case 0xA => {} case 0xB => {} case 0xC => {} case 0xD => {} case 0xE => {} case 0xF => {}
  }

  lemma {:induction false} Row9WellFormed(lo: int)
    requires 0 <= lo < 0x10
    ensures WellFormed(Row9(lo))
  {
    match lo
    case 0x0 => {} case 0x1 => {} case 0x2 => {} case 0x3 => {} case 0x4 => {} case 0x5 => {} case 0x6 => {} case 0x7 => {} case 0x8 => {} case 0x9 => {} case 0xA => {} case 0xB => {} case 0xC => {} case 0xD => {} case 0xE => {} case 0xF => {}
  }

  lemma {:induction false} RowAWellFormed(lo: int)
    requires 0 <= lo < 0x10
    ensures WellFormed(RowA(lo))
  {
    match lo
    case 0x0 => {} case 0x1 => {} case 0x2 => {} case 0x3 => {} case 0x4 => {} case 0x5 => {} case 0x6 => {} case 0x7 => {} case 0x8 => {} case 0x9 => {} case 0xA => {} case 0xB => {} case 0xC => {} case 0xD => {} case 0xE => {} case 0xF => {}
  }

  lemma {:induction false} RowBWellFormed(lo: int)
    requires 0 <= lo < 0x10
    ensures WellFormed(RowB(lo))
  {
    match lo
    case 0x0 => {} case 0x1 => {} case 0x2 => {} case 0x3 => {} case 0x4 => {} case 0x5 => {} case 0x6 => {} case 0x7 => {} case 0x8 => {} case 0x9 => {} case 0xA => {} case 0xB => {} case 0xC => {} case 0xD => {} case 0xE => {} case 0xF => {}
  }

  lemma {:induction false} RowCWellFormed(lo: int)
    requires 0 <= lo < 0x10
    ensures WellFormed(RowC(lo))
  {
    match lo
    case 0x0 => {} case 0x1 => {} case 0x2 => {} case 0x3 => {} case 0x4 => {} case 0x5 => {} case 0x6 => {} case 0x7 => {} case 0x8 => {} case 0x9 => {} case 0xA => {} case 0xB => {} case 0xC => {} case 0xD => {} case 0xE => {} case 0xF => {}
  }

  lemma {:induction false} RowDWellFormed(lo: int)
    requires 0 <= lo < 0x10
    ensures WellFormed(RowD(lo))
  {
    match lo
    case 0x0 => {} case 0x1 => {} case 0x2 => {} case 0x3 => {} case 0x4 => {} case 0x5 => {} case 0x6 => {} case 0x7 => {} case 0x8 => {} case 0x9 => {} case 0xA => {} case 0xB => {} case 0xC => {} case 0xD => {} case 0xE => {} case 0xF => {}
  }

  lemma {:induction false} RowEWellFormed(lo: int)
    requires 0 <= lo < 0x10
    ensures WellFormed(RowE(lo))
  {
    match lo
    case 0x0 => {} case 0x1 => {} case 0x2 => {} case 0x3 => {} case 0x4 => {} case 0x5 => {} case 0x6 => {} case 0x7 => {} case 0x8 => {} case 0x9 => {} case 0xA => {} case 0xB => {} case 0xC => {} case 0xD => {} case 0xE => {} case 0xF => {}
  }

  lemma {:induction false} RowFWellFormed(lo: int)
    requires 0 <= lo < 0x10
    ensures WellFormed(RowF(lo))
  {
    match lo
    case 0x0 => {} case 0x1 => {} case 0x2 => {} case 0x3 => {} case 0x4 => {} case 0x5 => {} case 0x6 => {} case 0x7 => {} case 0x8 => {} case 0x9 => {} case 0xA => {} case 0xB => {} case 0xC => {} case 0xD => {} case 0xE => {} case 0xF => {}
  }

  /** Every one of the 256 entries of the table is well formed. */
  lemma {:induction false} DecodeWellFormed(opcode: Byte)
    ensures WellFormed(Decode(opcode))
  {
    match opcode / 0x10
    case 0x0 => Row0WellFormed(opcode % 0x10);
    case 0x1 => Row1WellFormed(opcode % 0x10);
    case 0x2 => Row2WellFormed(opcode % 0x10);
    case 0x3 => Row3WellFormed(opcode % 0x10);
    case 0x4 => Row4WellFormed(opcode % 0x10);
    case 0x5 => Row5WellFormed(opcode % 0x10);
    case 0x6 => Row6WellFormed(opcode % 0x10);
    case 0x7 => Row7WellFormed(opcode % 0x10);
    case 0x8 => Row8WellFormed(opcode % 0x10);
    case 0x9 => Row9WellFormed(opcode % 0x10);
    case 0xA => RowAWellFormed(opcode % 0x10);
    case 0xB => RowBWellFormed(opcode % 0x10);
    case 0xC => RowCWellFormed(opcode % 0x10);
    case 0xD => RowDWellFormed(opcode % 0x10);
    case 0xE => RowEWellFormed(opcode % 0x10);
    case 0xF => RowFWellFormed(opcode % 0x10);
  }
}
