/** The processor of src/activities/emulator/CPU.ts as a state transformer: every member of the
    class becomes a function from the whole machine state (registers, cycle counter, scratch
    fields and the bus's store) to the next one, step for step as the source performs it.
    These functions specify the imperative `Emulator.Cpu` and are what the lemmas in
    `Properties` and `Demo` reason about.

    Fixed widths: the source's registers are JavaScript numbers and its `as byte` / `as word`
    casts do not truncate. Here `x`, `y` and `sp` wrap modulo 0x100 on `++` and `--`, and `pc`,
    the indexed absolute addresses and branch targets wrap modulo 0x10000. */
module Semantics {
  import opened Bytes
  import opened StatusFlags
  import opened Bus
  import opened Opcodes
  import Alu

  /** The fields of a `CPU` object together with the contents of its bus. */
  datatype State = State(
    a: Byte, x: Byte, y: Byte, sp: Byte, pc: Word, status: Status,
    remainingCycles: int,
    op: Instruction,
    fetched: Byte, absoluteAddress: Word, relativeAddress: Byte,
    mem: Memory)

  /** A state together with the 0/1 a resolver or handler returns. */
  datatype Step = Step(state: State, extra: Bit)

  // ---------------------------------------------------------------- bus access

  /** `read`. */
  function Read(s: State, addr: int): Byte {
    Peek(s.mem, addr)
  }

  /** `readWord`: the little-endian word at `addr` and `addr + 1` (the second address is not
      wrapped, so the word at 0xFFFF takes 0 as its high byte). */
  function ReadWord(s: State, addr: int): Word {
    ToWord(Read(s, addr), Read(s, addr + 1))
  }

  /** `write`. */
  function Write(s: State, addr: int, v: Byte): State {
    s.(mem := Poke(s.mem, addr, v))
  }

  // ---------------------------------------------------------------- flags

  /** `getFlag`. */
  function FlagOf(s: State, f: Flag): Bit {
    GetFlag(s.status, f)
  }

  /** `setFlag`: the flag is set when `v` is 1 and cleared otherwise. */
  function WithFlag(s: State, f: Flag, v: Bit): State {
    s.(status := SetFlag(s.status, f, v == 1))
  }

  /** The Zero and Negative flags of a result byte, set in the handlers' order. */
  function WithZN(s: State, v: Byte): State {
    WithFlag(WithFlag(s, Zero, BitOf(v == 0)), Negative, BitOf(v >= 0x80))
  }

  // ---------------------------------------------------------------- wrap-around

  function Inc16(w: Word): Word { Add16(w, 1) }
  function Dec16(w: Word): Word { Add16(w, -1) }

  /** `w & 0xFF00`. */
  function Page(w: Word): int { Hi(w) * 0x100 }

  // ---------------------------------------------------------------- addressing modes

  function AddrImplied(s: State): Step {
    Step(s.(fetched := s.a), 0)
  }

  function AddrImmediate(s: State): Step {
    Step(s.(absoluteAddress := s.pc, pc := Inc16(s.pc)), 0)
  }

  function AddrZeroPage(s: State): Step {
    Step(s.(absoluteAddress := Read(s, s.pc), pc := Inc16(s.pc)), 0)
  }

  function AddrZeroPageX(s: State): Step {
    Step(s.(absoluteAddress := Low8(Read(s, s.pc) + s.x), pc := Inc16(s.pc)), 0)
  }

  function AddrZeroPageY(s: State): Step {
    Step(s.(absoluteAddress := Low8(Read(s, s.pc) + s.y), pc := Inc16(s.pc)), 0)
  }

  function AddrRelative(s: State): Step {
    Step(s.(relativeAddress := Read(s, s.pc), pc := Inc16(s.pc)), 0)
  }

  function AddrAbsolute(s: State): Step {
    Step(s.(absoluteAddress := ReadWord(s, s.pc), pc := Add16(s.pc, 2)), 0)
  }

  /** Absolute indexed by `index`: 1 when the indexed address leaves the base's page. */
  function AddrAbsoluteIndexed(s: State, index: Byte): Step {
    var base := ReadWord(s, s.pc);
    var hi := Read(s, s.pc + 1);
    var target := Add16(base, index);
    Step(s.(absoluteAddress := target, pc := Add16(s.pc, 2)),
         if Page(target) != hi * 0x100 then 1 else 0)
  }

  function AddrAbsoluteX(s: State): Step { AddrAbsoluteIndexed(s, s.x) }

  function AddrAbsoluteY(s: State): Step { AddrAbsoluteIndexed(s, s.y) }

  /** Indirect: a pointer whose low byte is 0xFF takes its high byte from the start of the same
      page rather than from the next page. */
  function AddrIndirect(s: State): Step {
    var ptr := ReadWord(s, s.pc);
    var ptrLo := Read(s, s.pc);
    var s1 := s.(pc := Add16(s.pc, 2));
    if ptrLo == 0xFF then
      var hi := Read(s1, Page(ptr));
      var lo := Read(s1, ptr);
      Step(s1.(absoluteAddress := ToWord(lo, hi)), 0)
    else
      Step(s1.(absoluteAddress := ReadWord(s1, ptr)), 0)
  }

  /** Indexed indirect: the pointer `base + x` is not wrapped into page zero. */
  function AddrIndirectX(s: State): Step {
    var base := Read(s, s.pc);
    var s1 := s.(pc := Inc16(s.pc));
    Step(s1.(absoluteAddress := ReadWord(s1, base + s.x)), 0)
  }

  /** Indirect indexed: 1 when adding `y` leaves the page of the word read from page zero. */
  function AddrIndirectY(s: State): Step {
    var base := Read(s, s.pc);
    var s1 := s.(pc := Inc16(s.pc));
    var w := ReadWord(s1, base);
    var hi := Read(s1, base + 1);
    var target := Add16(w, s.y);
    Step(s1.(absoluteAddress := target), if Page(target) != hi * 0x100 then 1 else 0)
  }

  /** `addressing`: the resolver of a mode. */
  function Addressing(s: State, mode: Mode): Step {
    match mode
    case Absolute => AddrAbsolute(s)
    case AbsoluteX => AddrAbsoluteX(s)
    case AbsoluteY => AddrAbsoluteY(s)
    case Immediate => AddrImmediate(s)
    case Implied => AddrImplied(s)
    case Indirect => AddrIndirect(s)
    case IndirectX => AddrIndirectX(s)
    case IndirectY => AddrIndirectY(s)
    case Relative => AddrRelative(s)
    case ZeroPage => AddrZeroPage(s)
    case ZeroPageX => AddrZeroPageX(s)
    case ZeroPageY => AddrZeroPageY(s)
  }

  /** `fetch`: the operand byte, read from the resolved address unless the mode is implied. */
  function Fetch(s: State): State {
    s.(fetched := if !s.op.mode.Implied? then Read(s, s.absoluteAddress) else s.fetched)
  }

  // ---------------------------------------------------------------- branches

  /** The signed offset of a relative operand: a byte with bit 7 set counts `value - 256`. */
  function Offset(rel: Byte): (d: int)
    ensures -0x80 <= d < 0x80
  {
    if rel >= 0x80 then (rel - 1) - 255 else rel
  }

  /** `moveRelative`: the branch target. */
  function MoveRelative(pc: Word, rel: Byte): Word {
    Add16(pc, Offset(rel))
  }

  /** `this.pc && 0xFF00`, the page BCC, BCS and BEQ compare against: JavaScript's logical
      AND, which is 0 when `pc` is 0 and 0xFF00 otherwise. */
  function LogicalAndPage(pc: Word): int {
    if pc == 0 then 0 else 0xFF00
  }

  /** A conditional branch. When taken it costs one more cycle, and one more again when the
      target's page differs from the reference page; `logicalAnd` selects the reference that
      BCC, BCS and BEQ use. */
  function Branch(s: State, taken: bool, logicalAnd: bool): State {
    if taken then
      var target := MoveRelative(s.pc, s.relativeAddress);
      var reference := if logicalAnd then LogicalAndPage(s.pc) else Page(s.pc);
      var cycles := s.remainingCycles + 1 + (if Page(target) != reference then 1 else 0);
      s.(remainingCycles := cycles, absoluteAddress := target, pc := target)
    else
      s
  }

  // ---------------------------------------------------------------- stack

  /** The stack cell `sp` points at. */
  function StackAddress(sp: Byte): int { 0x100 + sp }

  /** A byte written at the stack pointer, which then moves down. */
  function Push(s: State, v: Byte): State {
    Write(s, StackAddress(s.sp), v).(sp := Dec8(s.sp))
  }

  /** `saveStateToStack`: the return address (high byte first) goes on the stack; the status,
      with Break clear and Unused and Interrupt set, is written at `0x0011 + sp`. */
  function SaveStateToStack(s: State): State {
    var s1 := Push(Push(s, Hi(s.pc)), Lo(s.pc));
    var s2 := WithFlag(WithFlag(WithFlag(s1, Break, 0), Unused, 1), Interrupt, 1);
    Write(s2, 0x011 + s2.sp, ToByte(s2.status)).(sp := Dec8(s2.sp))
  }

  // ---------------------------------------------------------------- instruction handlers

  function Adc(s: State): State {
    var f := Fetch(s);
    var r := Alu.Adc(f.a, f.fetched, FlagOf(f, Carry));
    var t := WithFlag(WithFlag(WithFlag(WithFlag(f, Carry, BitOf(r.carry)), Zero, BitOf(r.value == 0)),
                               Overflow, BitOf(r.overflow)), Negative, BitOf(r.value >= 0x80));
    t.(a := r.value)
  }

  function Sbc(s: State): State {
    var f := Fetch(s);
    var r := Alu.Sbc(f.a, f.fetched, FlagOf(f, Carry));
    var t := WithFlag(WithFlag(WithFlag(WithFlag(f, Carry, BitOf(r.carry)), Zero, BitOf(r.value == 0)),
                               Overflow, BitOf(r.overflow)), Negative, BitOf(r.value >= 0x80));
    t.(a := r.value)
  }

  function And(s: State): State {
    var f := Fetch(s);
    var v := BitAnd(f.a, f.fetched);
    WithZN(f.(a := v), v)
  }

  function Ora(s: State): State {
    var f := Fetch(s);
    var v := BitOr(f.a, f.fetched);
    WithZN(f.(a := v), v)
  }

  function Eor(s: State): State {
    var f := Fetch(s);
    var v := BitXor(f.a, f.fetched);
    WithZN(f.(a := v), v)
  }

  /** The common tail of ASL, LSR, ROL and ROR: the flags, then the result goes to the
      accumulator in implied mode and back to memory otherwise. */
  function ShiftResult(f: State, r: Alu.Shift): State {
    var t := WithFlag(WithFlag(WithFlag(f, Carry, BitOf(r.carry)), Zero, BitOf(r.value == 0)),
                      Negative, BitOf(r.value >= 0x80));
    if f.op.mode.Implied? then t.(a := r.value) else Write(t, f.absoluteAddress, r.value)
  }

  function Asl(s: State): State {
    var f := Fetch(s);
    ShiftResult(f, Alu.Asl(f.fetched))
  }

  function Lsr(s: State): State {
    var f := Fetch(s);
    ShiftResult(f, Alu.Lsr(f.fetched))
  }

  function Rol(s: State): State {
    var f := Fetch(s);
    ShiftResult(f, Alu.Rol(f.fetched, FlagOf(f, Carry)))
  }

  function Ror(s: State): State {
    var f := Fetch(s);
    ShiftResult(f, Alu.Ror(f.fetched, FlagOf(f, Carry)))
  }

  function Bcc(s: State): State { Branch(s, FlagOf(s, Carry) == 0, true) }
  function Bcs(s: State): State { Branch(s, FlagOf(s, Carry) == 1, true) }
  function Beq(s: State): State { Branch(s, FlagOf(s, Zero) == 1, true) }
  function Bmi(s: State): State { Branch(s, FlagOf(s, Negative) == 1, false) }
  function Bne(s: State): State { Branch(s, FlagOf(s, Zero) == 0, false) }
  function Bpl(s: State): State { Branch(s, FlagOf(s, Negative) == 0, false) }
  function Bvc(s: State): State { Branch(s, FlagOf(s, Overflow) == 0, false) }
  function Bvs(s: State): State { Branch(s, FlagOf(s, Overflow) == 1, false) }

  function Bit(s: State): State {
    var f := Fetch(s);
    var r := Alu.TestBits(f.a, f.fetched);
    WithFlag(WithFlag(WithFlag(f, Zero, BitOf(r.zero)), Negative, BitOf(r.negative)), Overflow, BitOf(r.overflow))
  }

  /** BRK: pushes `pc + 1` and the status with Break set, then jumps through 0xFFFE. */
  function Brk(s: State): State {
    var s1 := WithFlag(s.(pc := Inc16(s.pc)), Interrupt, 1);
    var s2 := Push(Push(s1, Hi(s1.pc)), Lo(s1.pc));
    var s3 := WithFlag(s2, Break, 1);
    var s4 := WithFlag(Push(s3, ToByte(s3.status)), Break, 0);
    s4.(pc := ReadWord(s4, 0xFFFE))
  }

  function Clc(s: State): State { WithFlag(s, Carry, 0) }
  function Cld(s: State): State { WithFlag(s, Decimal, 0) }
  function Cli(s: State): State { WithFlag(s, Interrupt, 0) }
  function Clv(s: State): State { WithFlag(s, Overflow, 0) }
  function Sec(s: State): State { WithFlag(s, Carry, 1) }
  function Sed(s: State): State { WithFlag(s, Decimal, 1) }
  function Sei(s: State): State { WithFlag(s, Interrupt, 1) }

  /** The common body of CMP, CPX and CPY. */
  function CompareWith(f: State, r: Byte): State {
    var c := Alu.Compare(r, f.fetched);
    WithFlag(WithFlag(WithFlag(f, Carry, BitOf(c.carry)), Zero, BitOf(c.zero)), Negative, BitOf(c.negative))
  }

  function Cmp(s: State): State { var f := Fetch(s); CompareWith(f, f.a) }
  function Cpx(s: State): State { var f := Fetch(s); CompareWith(f, f.x) }
  function Cpy(s: State): State { var f := Fetch(s); CompareWith(f, f.y) }

  function Dec(s: State): State {
    var f := Fetch(s);
    var v := Dec8(f.fetched);
    WithZN(Write(f, f.absoluteAddress, v), v)
  }

  function Inc(s: State): State {
    var f := Fetch(s);
    var v := Inc8(f.fetched);
    WithZN(Write(f, f.absoluteAddress, v), v)
  }

  function Dex(s: State): State { var v := Dec8(s.x); WithZN(s.(x := v), v) }
  function Dey(s: State): State { var v := Dec8(s.y); WithZN(s.(y := v), v) }
  function Inx(s: State): State { var v := Inc8(s.x); WithZN(s.(x := v), v) }
  function Iny(s: State): State { var v := Inc8(s.y); WithZN(s.(y := v), v) }

  function Jmp(s: State): State { s.(pc := s.absoluteAddress) }

  /** JSR: pushes `pc - 1`, the address of the operand's last byte, then jumps. */
  function Jsr(s: State): State {
    var ret := Dec16(s.pc);
    var s1 := Push(Push(s.(pc := ret), Hi(ret)), Lo(ret));
    s1.(pc := s.absoluteAddress)
  }

  function Lda(s: State): State { var f := Fetch(s); WithZN(f.(a := f.fetched), f.fetched) }
  function Ldx(s: State): State { var f := Fetch(s); WithZN(f.(x := f.fetched), f.fetched) }
  function Ldy(s: State): State { var f := Fetch(s); WithZN(f.(y := f.fetched), f.fetched) }

  function Nop(s: State): State { s }
  function Xxx(s: State): State { s }

  function Pha(s: State): State { Push(s, s.a) }

  /** PHP: pushes `status | U | B`, then clears Break and Unused in the register. */
  function Php(s: State): State {
    var s1 := Write(s, StackAddress(s.sp), BitOr(BitOr(ToByte(s.status), Mask(Unused)), Mask(Break)));
    WithFlag(WithFlag(s1, Break, 0), Unused, 0).(sp := Dec8(s.sp))
  }

  function Pla(s: State): State {
    var s1 := s.(sp := Inc8(s.sp));
    var v := Read(s1, StackAddress(s1.sp));
    WithZN(s1.(a := v), v)
  }

  function Plp(s: State): State {
    var s1 := s.(sp := Inc8(s.sp));
    WithFlag(s1.(status := FromByte(Read(s1, StackAddress(s1.sp)))), Unused, 1)
  }

  /** RTI: pulls the status (clearing Break and Unused) and the return address, and adds one
      to the address pulled. */
  function Rti(s: State): State {
    var s1 := s.(sp := Inc8(s.sp));
    var s2 := WithFlag(WithFlag(s1.(status := FromByte(Read(s1, StackAddress(s1.sp)))),
                                Break, 0), Unused, 0);
    var s3 := s2.(sp := Inc8(s2.sp));
    var s4 := s3.(pc := ReadWord(s3, StackAddress(s3.sp)));
    s4.(sp := Inc8(s4.sp), pc := Inc16(s4.pc))
  }

  /** RTS: moves the stack pointer up once, reads the return address there and adds one. */
  function Rts(s: State): State {
    var s1 := s.(sp := Inc8(s.sp));
    var s2 := s1.(pc := ReadWord(s1, StackAddress(s1.sp)));
    s2.(pc := Inc16(s2.pc))
  }

  function Sta(s: State): State { Write(s, s.absoluteAddress, s.a) }
  function Stx(s: State): State { Write(s, s.absoluteAddress, s.x) }
  function Sty(s: State): State { Write(s, s.absoluteAddress, s.y) }

  function Tax(s: State): State { WithZN(s.(x := s.a), s.a) }
  function Tay(s: State): State { WithZN(s.(y := s.a), s.a) }
  function Tsx(s: State): State { WithZN(s.(x := s.sp), s.sp) }
  function Txa(s: State): State { WithZN(s.(a := s.x), s.x) }
  function Tya(s: State): State { WithZN(s.(a := s.y), s.y) }

  /** TXS copies the accumulator into the stack pointer and sets no flag. */
  function Txs(s: State): State { s.(sp := s.a) }

  /** The handler of each mnemonic (`op.operate()`). */
  function Operate(s: State, m: Mnemonic): State {
    match m
    case ADC => Adc(s)  case AND => And(s)  case ASL => Asl(s)  case BCC => Bcc(s)
    case BCS => Bcs(s)  case BEQ => Beq(s)  case BIT => Bit(s)  case BMI => Bmi(s)
    case BNE => Bne(s)  case BPL => Bpl(s)  case BRK => Brk(s)  case BVC => Bvc(s)
    case BVS => Bvs(s)  case CLC => Clc(s)  case CLD => Cld(s)  case CLI => Cli(s)
    case CLV => Clv(s)  case CMP => Cmp(s)  case CPX => Cpx(s)  case CPY => Cpy(s)
    case DEC => Dec(s)  case DEX => Dex(s)  case DEY => Dey(s)  case EOR => Eor(s)
    case INC => Inc(s)  case INX => Inx(s)  case INY => Iny(s)  case JMP => Jmp(s)
    case JSR => Jsr(s)  case LDA => Lda(s)  case LDX => Ldx(s)  case LDY => Ldy(s)
    case LSR => Lsr(s)  case NOP => Nop(s)  case ORA => Ora(s)  case PHA => Pha(s)
    case PHP => Php(s)  case PLA => Pla(s)  case PLP => Plp(s)  case ROL => Rol(s)
    case ROR => Ror(s)  case RTI => Rti(s)  case RTS => Rts(s)  case SBC => Sbc(s)
    case SEC => Sec(s)  case SED => Sed(s)  case SEI => Sei(s)  case STA => Sta(s)
    case STX => Stx(s)  case STY => Sty(s)  case TAX => Tax(s)  case TAY => Tay(s)
    case TSX => Tsx(s)  case TXA => Txa(s)  case TXS => Txs(s)  case TYA => Tya(s)
    case XXX => Xxx(s)
  }

  /** What each handler returns: 1 for the handlers that may take the page-crossing cycle
      (ADC, SBC, AND, CMP, CPX, CPY, LDA, LDX, LDY), 0 for all others. */
  function PenaltyEligible(m: Mnemonic): Bit {
    if m.ADC? || m.SBC? || m.AND? || m.CMP? || m.CPX? || m.CPY? || m.LDA? || m.LDX? || m.LDY? then 1
    else 0
  }

  // ---------------------------------------------------------------- control paths

  /** `addressingCycles & operatingCycles` on two 0/1 values. */
  function BothBits(p: Bit, q: Bit): Bit { if p == 1 && q == 1 then 1 else 0 }

  /** The first half of `clock` when the previous instruction has finished: read the opcode
      at `pc`, advance `pc`, and make the table entry the current instruction with its base
      cycle count. */
  function Begin(s: State): State {
    var ins := Decode(Read(s, s.pc));
    WithFlag(s, Unused, 1).(pc := Inc16(s.pc), op := ins, remainingCycles := ins.cycles)
  }

  /** The second half: resolve the operand of the current instruction, run its handler and
      charge the extra cycle when both report one. */
  function Dispatch(s: State): State {
    var resolved := Addressing(s, s.op.mode);
    var s1 := Operate(resolved.state, s.op.mnemonic);
    var penalty := BothBits(resolved.extra, PenaltyEligible(s.op.mnemonic));
    WithFlag(s1.(remainingCycles := s1.remainingCycles + penalty), Unused, 1)
  }

  /** The body of `clock` when the previous instruction has finished. */
  function Execute(s: State): State {
    Dispatch(Begin(s))
  }

  /** `clock`: one cycle. */
  function Clock(s: State): State {
    var s1 := if s.remainingCycles <= 0 then Execute(s) else s;
    s1.(remainingCycles := s1.remainingCycles - 1)
  }

  /** `completeInstruction`. */
  function CompleteInstruction(s: State): State {
    s.(remainingCycles := 0)
  }

  /** `reset`. */
  function Reset(s: State): State {
    s.(pc := ReadWord(s, 0xFFFC), a := 0, x := 0, y := 0, sp := 0xFD,
       status := FromByte(0x20), remainingCycles := 8)
  }

  /** `irq`: serviced only while the Interrupt flag is set. */
  function Irq(s: State): State {
    if FlagOf(s, Interrupt) == 1 then
      var s1 := SaveStateToStack(s);
      s1.(pc := ReadWord(s1, 0xFFFE), remainingCycles := 7)
    else
      s
  }

  /** `nmi`. */
  function Nmi(s: State): State {
    var s1 := SaveStateToStack(s);
    s1.(pc := ReadWord(s1, 0xFFFA), remainingCycles := 8)
  }

  /** The state `new CPU(bus)` leaves: registers zeroed, then `reset`, then no cycles pending.
      The scratch fields, which the source leaves undefined, start at 0, and the current
      instruction at the placeholder entry. */
  function Boot(mem: Memory): State {
    var s := State(0, 0, 0, 0, 0, FromByte(0), 0, Instruction(XXX, Implied, 0), 0, 0, 0, mem);
    Reset(s).(remainingCycles := 0)
  }

  /** One press of the demo's Tick button: `clock()` then `completeInstruction()`. */
  function Tick(s: State): State {
    CompleteInstruction(Clock(s))
  }

  /** `n` applications of a step function. */
  function Iterate(step: State -> State, s: State, n: nat): State
    decreases n
  {
    if n == 0 then s else Iterate(step, step(s), n - 1)
  }

  /** `n` ticks. */
  function Run(s: State, n: nat): State {
    Iterate(Tick, s, n)
  }
}
