/** The `CPU` class of src/activities/emulator/CPU.ts, imperative as the source is: the
    registers, the cycle counter and the scratch fields are mutable fields, the bus is a
    `RamBus` whose array the instructions write, and each method performs the source's
    statements in the source's order. Every method is proved to leave exactly the state that
    its function in `Semantics` describes (`View()` is the whole state, bus contents
    included). */
module Emulator {
  import opened Bytes
  import opened StatusFlags
  import opened Bus
  import opened Opcodes
  import S = Semantics
  import Alu

  class Cpu {
    var a: Byte
    var x: Byte
    var y: Byte
    var sp: Byte
    var pc: Word
    /** The status register, kept as its eight flags (see `StatusFlags`). */
    var status: Status

    var remainingCycles: int

    const bus: RamBus
    /** The table entry of the instruction being executed. */
    var op: Instruction

    var fetched: Byte
    var absoluteAddress: Word
    var relativeAddress: Byte

    ghost predicate Valid() {
      bus.Valid()
    }

    /** The whole state: every field and the bus's store. */
    ghost function View(): S.State
      reads this, bus.ram
      requires Valid()
    {
      S.State(a, x, y, sp, pc, status, remainingCycles, op, fetched, absoluteAddress,
              relativeAddress, bus.Contents())
    }

    /** `new CPU(bus)`: zeroed registers, then `reset`, then no cycles pending. */
    constructor (bus: RamBus)
      requires bus.Valid()
      ensures Valid() && this.bus == bus
      ensures View() == S.Boot(bus.Contents())
    {
      a, x, y, sp, pc := 0, 0, 0, 0, 0;
      status := FromByte(0x00);
      remainingCycles := 0;
      this.bus := bus;
      op := Instruction(XXX, Implied, 0);
      fetched, absoluteAddress, relativeAddress := 0, 0, 0;
      new;
      Reset();
      remainingCycles := 0;
    }

    // ------------------------------------------------------------ bus access and flags

    method Read(addr: int) returns (v: Byte)
      requires Valid()
      ensures v == Peek(bus.Contents(), addr)
    {
      v := bus.Read(addr);
    }

    /** `readWord`: the word and the two bytes it is made of. */
    method ReadWord(addr: int) returns (w: Word, lo: Byte, hi: Byte)
      requires Valid()
      ensures lo == Peek(bus.Contents(), addr) && hi == Peek(bus.Contents(), addr + 1)
      ensures w == ToWord(lo, hi)
    {
      lo := Read(addr + 0);
      hi := Read(addr + 1);
      w := ToWord(lo, hi);
    }

    method Write(addr: int, val: Byte)
      requires Valid()
      modifies bus.ram
      ensures bus.Contents() == Poke(old(bus.Contents()), addr, val)
    {
      bus.Write(addr, val);
    }

    method SetFlag(f: Flag, v: Bit)
      requires Valid()
      modifies this`status
      ensures status == StatusFlags.SetFlag(old(status), f, v == 1)
      ensures View() == S.WithFlag(old(View()), f, v)
    {
      if v == 1 {
        status := StatusFlags.SetFlag(status, f, true);
      } else {
        status := StatusFlags.SetFlag(status, f, false);
      }
    }

    function GetFlag(f: Flag): Bit
      reads this
    {
      StatusFlags.GetFlag(status, f)
    }

    // ------------------------------------------------------------ control paths

    method Reset()
      requires Valid()
      modifies this
      ensures View() == S.Reset(old(View()))
    {
      var w, lo, hi := ReadWord(0xFFFC);
      pc := w;
      a := 0x00;
      x := 0x00;
      y := 0x00;
      sp := 0xFD;
      status := FromByte(0x20);
      remainingCycles := 8;
    }

    method Irq()
      requires Valid()
      modifies this, bus.ram
      ensures View() == S.Irq(old(View()))
    {
      if GetFlag(Interrupt) == 1 {
        SaveStateToStack();
        var w, lo, hi := ReadWord(0xFFFE);
        pc := w;
        remainingCycles := 7;
      }
    }

    method Nmi()
      requires Valid()
      modifies this, bus.ram
      ensures View() == S.Nmi(old(View()))
    {
      SaveStateToStack();
      var w, lo, hi := ReadWord(0xFFFA);
      pc := w;
      remainingCycles := 8;
    }

    method Clock()
      requires Valid()
      modifies this, bus.ram
      ensures View() == S.Clock(old(View()))
    {
      if remainingCycles <= 0 {
        Begin();
        Dispatch();
      }
      remainingCycles := remainingCycles - 1;
    }

    /** Reads the opcode at `pc` and makes its table entry the current instruction. */
    method Begin()
      requires Valid()
      modifies this
      ensures View() == S.Begin(old(View()))
    {
      var opcode := Read(pc);
      SetFlag(Unused, 1);
      pc := S.Inc16(pc);
      op := Decode(opcode);
      remainingCycles := op.cycles;
    }

    /** Resolves the operand and runs the handler of the current instruction. */
    method Dispatch()
      requires Valid()
      modifies this, bus.ram
      ensures View() == S.Dispatch(old(View()))
    {
      var ins := op;
      var addressingCycles := Addressing(ins.mode);
      var operatingCycles := Operate(ins.mnemonic);
      remainingCycles := remainingCycles + S.BothBits(addressingCycles, operatingCycles);
      SetFlag(Unused, 1);
    }

    method CompleteInstruction()
      requires Valid()
      modifies this`remainingCycles
      ensures View() == S.CompleteInstruction(old(View()))
    {
      remainingCycles := 0;
    }

    method SaveStateToStack()
      requires Valid()
      modifies this, bus.ram
      ensures View() == S.SaveStateToStack(old(View()))
    {
      Write(0x0100 + sp, Hi(pc));
      sp := Dec8(sp);
      Write(0x0100 + sp, Lo(pc));
      sp := Dec8(sp);
      SetFlag(Break, 0);
      SetFlag(Unused, 1);
      SetFlag(Interrupt, 1);

      Write(0x011 + sp, ToByte(status));
      sp := Dec8(sp);
    }

    // ------------------------------------------------------------ addressing modes

    method Addressing(mode: Mode) returns (additionalCycles: Bit)
      requires Valid()
      modifies this
      ensures S.Step(View(), additionalCycles) == S.Addressing(old(View()), mode)
    {
      match mode
      case Absolute => additionalCycles := AddressingAbsolute();
      case AbsoluteX => additionalCycles := AddressingAbsoluteXOffset();
      case AbsoluteY => additionalCycles := AddressingAbsoluteYOffset();
      case Immediate => additionalCycles := AddressingImmediate();
      case Implied => additionalCycles := AddressingImplied();
      case Indirect => additionalCycles := AddressingIndirect();
      case IndirectX => additionalCycles := AddressingIndirectX();
      case IndirectY => additionalCycles := AddressingIndirectY();
      case Relative => additionalCycles := AddressingRelative();
      case ZeroPage => additionalCycles := AddressingZeroPage();
      case ZeroPageX => additionalCycles := AddressingZeroPageX();
      case ZeroPageY => additionalCycles := AddressingZeroPageY();
    }

    method AddressingImplied() returns (extra: Bit)
      requires Valid()
      modifies this
      ensures S.Step(View(), extra) == S.AddrImplied(old(View()))
    {
      fetched := a;
      extra := 0;
    }

    method AddressingImmediate() returns (extra: Bit)
      requires Valid()
      modifies this
      ensures S.Step(View(), extra) == S.AddrImmediate(old(View()))
    {
      absoluteAddress := pc;
      pc := S.Inc16(pc);
      extra := 0;
    }

    method AddressingZeroPage() returns (extra: Bit)
      requires Valid()
      modifies this
      ensures S.Step(View(), extra) == S.AddrZeroPage(old(View()))
    {
      absoluteAddress := Read(pc);
      pc := S.Inc16(pc);
      extra := 0;
    }

    method AddressingZeroPageX() returns (extra: Bit)
      requires Valid()
      modifies this
      ensures S.Step(View(), extra) == S.AddrZeroPageX(old(View()))
    {
      var base := Read(pc);
      pc := S.Inc16(pc);
      absoluteAddress := Low8(base + x);
      extra := 0;
    }

    method AddressingZeroPageY() returns (extra: Bit)
      requires Valid()
      modifies this
      ensures S.Step(View(), extra) == S.AddrZeroPageY(old(View()))
    {
      var base := Read(pc);
      pc := S.Inc16(pc);
      absoluteAddress := Low8(base + y);
      extra := 0;
    }

    method AddressingRelative() returns (extra: Bit)
      requires Valid()
      modifies this
      ensures S.Step(View(), extra) == S.AddrRelative(old(View()))
    {
      relativeAddress := Read(pc);
      pc := S.Inc16(pc);
      extra := 0;
    }

    method AddressingAbsolute() returns (extra: Bit)
      requires Valid()
      modifies this
      ensures S.Step(View(), extra) == S.AddrAbsolute(old(View()))
    {
      var w, lo, hi := ReadWord(pc);
      absoluteAddress := w;
      pc := Add16(pc, 2);
      extra := 0;
    }

    method AddressingAbsoluteXOffset() returns (extra: Bit)
      requires Valid()
      modifies this
      ensures S.Step(View(), extra) == S.AddrAbsoluteX(old(View()))
    {
      var w, lo, hi := ReadWord(pc);
      absoluteAddress := w;
      pc := Add16(pc, 2);
      absoluteAddress := Add16(absoluteAddress, x);
      var basePage: int := (hi as int) * 0x100;
      extra := if S.Page(absoluteAddress) != basePage then 1 else 0;
    }

    method AddressingAbsoluteYOffset() returns (extra: Bit)
      requires Valid()
      modifies this
      ensures S.Step(View(), extra) == S.AddrAbsoluteY(old(View()))
    {
      var w, lo, hi := ReadWord(pc);
      absoluteAddress := w;
      pc := Add16(pc, 2);
      absoluteAddress := Add16(absoluteAddress, y);
      var basePage: int := (hi as int) * 0x100;
      extra := if S.Page(absoluteAddress) != basePage then 1 else 0;
    }

    method AddressingIndirect() returns (extra: Bit)
      requires Valid()
      modifies this
      ensures S.Step(View(), extra) == S.AddrIndirect(old(View()))
    {
      ghost var s0 := View();
      var ptr, ptrLo, ptrHi := ReadWord(pc);
      pc := Add16(pc, 2);
      ghost var s1 := View();
      assert s1 == s0.(pc := Add16(s0.pc, 2)) && ptr == S.ReadWord(s0, s0.pc);
      if ptrLo == 0xFF {
        var hi := Read(S.Page(ptr));
        var lo := Read(ptr);
        absoluteAddress := ToWord(lo, hi);
      } else {
        var w, lo, hi := ReadWord(ptr);
        absoluteAddress := w;
        assert w == S.ReadWord(s1, ptr);
      }
      extra := 0;
    }

    method AddressingIndirectX() returns (extra: Bit)
      requires Valid()
      modifies this
      ensures S.Step(View(), extra) == S.AddrIndirectX(old(View()))
    {
      var base := Read(pc);
      pc := S.Inc16(pc);
      var w, lo, hi := ReadWord(base + x);
      absoluteAddress := w;
      extra := 0;
    }

    method AddressingIndirectY() returns (extra: Bit)
      requires Valid()
      modifies this
      ensures S.Step(View(), extra) == S.AddrIndirectY(old(View()))
    {
      var base := Read(pc);
      pc := S.Inc16(pc);
      var w, lo, hi := ReadWord(base);
      absoluteAddress := Add16(w, y);
      var basePage: int := (hi as int) * 0x100;
      extra := if S.Page(absoluteAddress) != basePage then 1 else 0;
    }

    method Fetch() returns (v: Byte)
      requires Valid()
      modifies this`fetched
      ensures View() == S.Fetch(old(View()))
      ensures v == fetched
    {
      if !op.mode.Implied? {
        fetched := Read(absoluteAddress);
      }
      v := fetched;
    }

    method MoveRelative() returns (target: Word)
      requires Valid()
      ensures target == S.MoveRelative(pc, relativeAddress)
    {
      var offset: int := relativeAddress;
      if offset >= 0x80 {
        offset := (offset - 1) - 255;
      }
      target := Add16(pc, offset);
    }

    // ------------------------------------------------------------ dispatch

    /** `this.op.operate()`: the handler of the current mnemonic, reached through the group
        of instructions it belongs to. */
    method Operate(m: Mnemonic) returns (extra: Bit)
      requires Valid()
      modifies this, bus.ram
      ensures View() == S.Operate(old(View()), m)
      ensures extra == S.PenaltyEligible(m)
    {
      if m in {ADC, SBC, AND, ORA, EOR, BIT, CMP, CPX, CPY, ASL, LSR, ROL, ROR} {
        extra := OperateAlu(m);
      } else if m in {BCC, BCS, BEQ, BMI, BNE, BPL, BVC, BVS} {
        extra := OperateBranch(m);
      } else if m in {CLC, CLD, CLI, CLV, SEC, SED, SEI, DEC, DEX, DEY, INC, INX, INY} {
        extra := OperateFlagCount(m);
      } else if m in {JMP, JSR, RTS, BRK, RTI, PHA, PHP, PLA, PLP, NOP, XXX} {
        extra := OperateControl(m);
      } else {
        extra := OperateTransfer(m);
      }
    }

    /** The handlers of the arithmetic, logic, comparisons, shifts and rotates. */
    method OperateAlu(m: Mnemonic) returns (extra: Bit)
      requires Valid() && m in {ADC, SBC, AND, ORA, EOR, BIT, CMP, CPX, CPY, ASL, LSR, ROL, ROR}
      modifies this, bus.ram
      ensures View() == S.Operate(old(View()), m)
      ensures extra == S.PenaltyEligible(m)
    {
      match m
      case ADC => extra := Adc();  case SBC => extra := Sbc();  case AND => extra := And();
      case ORA => extra := Ora();  case EOR => extra := Eor();  case BIT => extra := Bit();
      case CMP => extra := Cmp();  case CPX => extra := Cpx();  case CPY => extra := Cpy();
      case ASL => extra := Asl();  case LSR => extra := Lsr();  case ROL => extra := Rol();
      case ROR => extra := Ror();
      case _ => assert false;
    }

    /** The handlers of the conditional branches. */
    method OperateBranch(m: Mnemonic) returns (extra: Bit)
      requires Valid() && m in {BCC, BCS, BEQ, BMI, BNE, BPL, BVC, BVS}
      modifies this, bus.ram
      ensures View() == S.Operate(old(View()), m)
      ensures extra == S.PenaltyEligible(m)
    {
      match m
      case BCC => extra := Bcc();  case BCS => extra := Bcs();  case BEQ => extra := Beq();
      case BMI => extra := Bmi();  case BNE => extra := Bne();  case BPL => extra := Bpl();
      case BVC => extra := Bvc();  case BVS => extra := Bvs();
      case _ => assert false;
    }

    /** The handlers of the flag instructions, increments and decrements. */
    method OperateFlagCount(m: Mnemonic) returns (extra: Bit)
      requires Valid() && m in {CLC, CLD, CLI, CLV, SEC, SED, SEI, DEC, DEX, DEY, INC, INX, INY}
      modifies this, bus.ram
      ensures View() == S.Operate(old(View()), m)
      ensures extra == S.PenaltyEligible(m)
    {
      match m
      case CLC => extra := Clc();  case CLD => extra := Cld();  case CLI => extra := Cli();
      case CLV => extra := Clv();  case SEC => extra := Sec();  case SED => extra := Sed();
      case SEI => extra := Sei();  case DEC => extra := Dec();  case DEX => extra := Dex();
      case DEY => extra := Dey();  case INC => extra := Inc();  case INX => extra := Inx();
      case INY => extra := Iny();
      case _ => assert false;
    }

    /** The handlers of the jumps, calls, interrupts, the stack and the no-operations. */
    method OperateControl(m: Mnemonic) returns (extra: Bit)
      requires Valid() && m in {JMP, JSR, RTS, BRK, RTI, PHA, PHP, PLA, PLP, NOP, XXX}
      modifies this, bus.ram
      ensures View() == S.Operate(old(View()), m)
      ensures extra == S.PenaltyEligible(m)
    {
      match m
      case JMP => extra := Jmp();  case JSR => extra := Jsr();  case RTS => extra := Rts();
      case BRK => extra := Brk();  case RTI => extra := Rti();  case PHA => extra := Pha();
      case PHP => extra := Php();  case PLA => extra := Pla();  case PLP => extra := Plp();
      case NOP => extra := Nop();  case XXX => extra := Xxx();
      case _ => assert false;
    }

    /** The handlers of the loads, stores and transfers. */
    method OperateTransfer(m: Mnemonic) returns (extra: Bit)
      requires Valid() && m in {LDA, LDX, LDY, STA, STX, STY, TAX, TAY, TSX, TXA, TXS, TYA}
      modifies this, bus.ram
      ensures View() == S.Operate(old(View()), m)
      ensures extra == S.PenaltyEligible(m)
    {
      match m
      case LDA => extra := Lda();  case LDX => extra := Ldx();  case LDY => extra := Ldy();
      case STA => extra := Sta();  case STX => extra := Stx();  case STY => extra := Sty();
      case TAX => extra := Tax();  case TAY => extra := Tay();  case TSX => extra := Tsx();
      case TXA => extra := Txa();  case TXS => extra := Txs();  case TYA => extra := Tya();
      case _ => assert false;
    }

    // ------------------------------------------------------------ arithmetic and logic

    method Adc() returns (extra: Bit)
      requires Valid()
      modifies this
      ensures View() == S.Adc(old(View())) && extra == S.PenaltyEligible(ADC)
    {
      var m := Fetch();
      var r := Alu.Adc(a, m, GetFlag(Carry));
      SetFlag(Carry, BitOf(r.carry));
      SetFlag(Zero, BitOf(r.value == 0));
      SetFlag(Overflow, BitOf(r.overflow));
      SetFlag(Negative, BitOf(r.value >= 0x80));
      a := r.value;
      extra := 1;
    }

    method Sbc() returns (extra: Bit)
      requires Valid()
      modifies this
      ensures View() == S.Sbc(old(View())) && extra == S.PenaltyEligible(SBC)
    {
      var m := Fetch();
      var r := Alu.Sbc(a, m, GetFlag(Carry));
      SetFlag(Carry, BitOf(r.carry));
      SetFlag(Zero, BitOf(r.value == 0));
      SetFlag(Overflow, BitOf(r.overflow));
      SetFlag(Negative, BitOf(r.value >= 0x80));
      a := r.value;
      extra := 1;
    }

    method And() returns (extra: Bit)
      requires Valid()
      modifies this
      ensures View() == S.And(old(View())) && extra == S.PenaltyEligible(AND)
    {
      var m := Fetch();
      a := BitAnd(a, m);
      SetFlag(Zero, BitOf(a == 0));
      SetFlag(Negative, BitOf(a >= 0x80));
      extra := 1;
    }

    method Ora() returns (extra: Bit)
      requires Valid()
      modifies this
      ensures View() == S.Ora(old(View())) && extra == S.PenaltyEligible(ORA)
    {
      var m := Fetch();
      a := BitOr(a, m);
      SetFlag(Zero, BitOf(a == 0));
      SetFlag(Negative, BitOf(a >= 0x80));
      extra := 0;
    }

    method Eor() returns (extra: Bit)
      requires Valid()
      modifies this
      ensures View() == S.Eor(old(View())) && extra == S.PenaltyEligible(EOR)
    {
      var m := Fetch();
      a := BitXor(a, m);
      SetFlag(Zero, BitOf(a == 0));
      SetFlag(Negative, BitOf(a >= 0x80));
      extra := 0;
    }

    method Bit() returns (extra: Bit)
      requires Valid()
      modifies this
      ensures View() == S.Bit(old(View())) && extra == S.PenaltyEligible(BIT)
    {
      var m := Fetch();
      var r := Alu.TestBits(a, m);
      SetFlag(Zero, BitOf(r.zero));
      SetFlag(Negative, BitOf(r.negative));
      SetFlag(Overflow, BitOf(r.overflow));
      extra := 0;
    }

    method Cmp() returns (extra: Bit)
      requires Valid()
      modifies this
      ensures View() == S.Cmp(old(View())) && extra == S.PenaltyEligible(CMP)
    {
      var m := Fetch();
      var c := Alu.Compare(a, m);
      SetFlag(Carry, BitOf(c.carry));
      SetFlag(Zero, BitOf(c.zero));
      SetFlag(Negative, BitOf(c.negative));
      extra := 1;
    }

    method Cpx() returns (extra: Bit)
      requires Valid()
      modifies this
      ensures View() == S.Cpx(old(View())) && extra == S.PenaltyEligible(CPX)
    {
      var m := Fetch();
      var c := Alu.Compare(x, m);
      SetFlag(Carry, BitOf(c.carry));
      SetFlag(Zero, BitOf(c.zero));
      SetFlag(Negative, BitOf(c.negative));
      extra := 1;
    }

    method Cpy() returns (extra: Bit)
      requires Valid()
      modifies this
      ensures View() == S.Cpy(old(View())) && extra == S.PenaltyEligible(CPY)
    {
      var m := Fetch();
      var c := Alu.Compare(y, m);
      SetFlag(Carry, BitOf(c.carry));
      SetFlag(Zero, BitOf(c.zero));
      SetFlag(Negative, BitOf(c.negative));
      extra := 1;
    }

    // ------------------------------------------------------------ shifts and rotates

    method Asl() returns (extra: Bit)
      requires Valid()
      modifies this, bus.ram
      ensures View() == S.Asl(old(View())) && extra == S.PenaltyEligible(ASL)
    {
      var m := Fetch();
      var r := Alu.Asl(m);
      SetFlag(Carry, BitOf(r.carry));
      SetFlag(Zero, BitOf(r.value == 0));
      SetFlag(Negative, BitOf(r.value >= 0x80));
      if op.mode.Implied? {
        a := r.value;
      } else {
        Write(absoluteAddress, r.value);
      }
      extra := 0;
    }

    method Lsr() returns (extra: Bit)
      requires Valid()
      modifies this, bus.ram
      ensures View() == S.Lsr(old(View())) && extra == S.PenaltyEligible(LSR)
    {
      var m := Fetch();
      var r := Alu.Lsr(m);
      SetFlag(Carry, BitOf(r.carry));
      SetFlag(Zero, BitOf(r.value == 0));
      SetFlag(Negative, BitOf(r.value >= 0x80));
      if op.mode.Implied? {
        a := r.value;
      } else {
        Write(absoluteAddress, r.value);
      }
      extra := 0;
    }

    method Rol() returns (extra: Bit)
      requires Valid()
      modifies this, bus.ram
      ensures View() == S.Rol(old(View())) && extra == S.PenaltyEligible(ROL)
    {
      var m := Fetch();
      var r := Alu.Rol(m, GetFlag(Carry));
      SetFlag(Carry, BitOf(r.carry));
      SetFlag(Zero, BitOf(r.value == 0));
      SetFlag(Negative, BitOf(r.value >= 0x80));
      if op.mode.Implied? {
        a := r.value;
      } else {
        Write(absoluteAddress, r.value);
      }
      extra := 0;
    }

    method Ror() returns (extra: Bit)
      requires Valid()
      modifies this, bus.ram
      ensures View() == S.Ror(old(View())) && extra == S.PenaltyEligible(ROR)
    {
      var m := Fetch();
      var r := Alu.Ror(m, GetFlag(Carry));
      SetFlag(Carry, BitOf(r.carry));
      SetFlag(Zero, BitOf(r.value == 0));
      SetFlag(Negative, BitOf(r.value >= 0x80));
      if op.mode.Implied? {
        a := r.value;
      } else {
        Write(absoluteAddress, r.value);
      }
      extra := 0;
    }

    // ------------------------------------------------------------ branches

    /** The body all eight branches share; `logicalAnd` marks the three that compare the
        target's page against `this.pc && 0xFF00`. */
    method BranchIf(taken: bool, logicalAnd: bool)
      requires Valid()
      modifies this
      ensures View() == S.Branch(old(View()), taken, logicalAnd)
    {
      if taken {
        remainingCycles := remainingCycles + 1;
        absoluteAddress := MoveRelative();
        var reference := if logicalAnd then S.LogicalAndPage(pc) else S.Page(pc);
        if S.Page(absoluteAddress) != reference {
          remainingCycles := remainingCycles + 1;
        }
        pc := absoluteAddress;
      }
    }

    method Bcc() returns (extra: Bit)
      requires Valid()
      modifies this
      ensures View() == S.Bcc(old(View())) && extra == S.PenaltyEligible(BCC)
    {
      BranchIf(GetFlag(Carry) == 0, true);
      extra := 0;
    }

    method Bcs() returns (extra: Bit)
      requires Valid()
      modifies this
      ensures View() == S.Bcs(old(View())) && extra == S.PenaltyEligible(BCS)
    {
      BranchIf(GetFlag(Carry) == 1, true);
      extra := 0;
    }

    method Beq() returns (extra: Bit)
      requires Valid()
      modifies this
      ensures View() == S.Beq(old(View())) && extra == S.PenaltyEligible(BEQ)
    {
      BranchIf(GetFlag(Zero) == 1, true);
      extra := 0;
    }

    method Bmi() returns (extra: Bit)
      requires Valid()
      modifies this
      ensures View() == S.Bmi(old(View())) && extra == S.PenaltyEligible(BMI)
    {
      BranchIf(GetFlag(Negative) == 1, false);
      extra := 0;
    }

    method Bne() returns (extra: Bit)
      requires Valid()
      modifies this
      ensures View() == S.Bne(old(View())) && extra == S.PenaltyEligible(BNE)
    {
      BranchIf(GetFlag(Zero) == 0, false);
      extra := 0;
    }

    method Bpl() returns (extra: Bit)
      requires Valid()
      modifies this
      ensures View() == S.Bpl(old(View())) && extra == S.PenaltyEligible(BPL)
    {
      BranchIf(GetFlag(Negative) == 0, false);
      extra := 0;
    }

    method Bvc() returns (extra: Bit)
      requires Valid()
      modifies this
      ensures View() == S.Bvc(old(View())) && extra == S.PenaltyEligible(BVC)
    {
      BranchIf(GetFlag(Overflow) == 0, false);
      extra := 0;
    }

    method Bvs() returns (extra: Bit)
      requires Valid()
      modifies this
      ensures View() == S.Bvs(old(View())) && extra == S.PenaltyEligible(BVS)
    {
      BranchIf(GetFlag(Overflow) == 1, false);
      extra := 0;
    }

    // ------------------------------------------------------------ flag instructions

    method Clc() returns (extra: Bit)
      requires Valid()
      modifies this
      ensures View() == S.Clc(old(View())) && extra == S.PenaltyEligible(CLC)
    {
      SetFlag(Carry, 0);
      extra := 0;
    }

    method Cld() returns (extra: Bit)
      requires Valid()
      modifies this
      ensures View() == S.Cld(old(View())) && extra == S.PenaltyEligible(CLD)
    {
      SetFlag(Decimal, 0);
      extra := 0;
    }

    method Cli() returns (extra: Bit)
      requires Valid()
      modifies this
      ensures View() == S.Cli(old(View())) && extra == S.PenaltyEligible(CLI)
    {
      SetFlag(Interrupt, 0);
      extra := 0;
    }

    method Clv() returns (extra: Bit)
      requires Valid()
      modifies this
      ensures View() == S.Clv(old(View())) && extra == S.PenaltyEligible(CLV)
    {
      SetFlag(Overflow, 0);
      extra := 0;
    }

    method Sec() returns (extra: Bit)
      requires Valid()
      modifies this
      ensures View() == S.Sec(old(View())) && extra == S.PenaltyEligible(SEC)
    {
      SetFlag(Carry, 1);
      extra := 0;
    }

    method Sed() returns (extra: Bit)
      requires Valid()
      modifies this
      ensures View() == S.Sed(old(View())) && extra == S.PenaltyEligible(SED)
    {
      SetFlag(Decimal, 1);
      extra := 0;
    }

    method Sei() returns (extra: Bit)
      requires Valid()
      modifies this
      ensures View() == S.Sei(old(View())) && extra == S.PenaltyEligible(SEI)
    {
      SetFlag(Interrupt, 1);
      extra := 0;
    }

    // ------------------------------------------------------------ increments and decrements

    method Dec() returns (extra: Bit)
      requires Valid()
      modifies this, bus.ram
      ensures View() == S.Dec(old(View())) && extra == S.PenaltyEligible(DEC)
    {
      var m := Fetch();
      var t: int := (m as int) - 1;
      Write(absoluteAddress, Low8(t));
      SetFlag(Zero, BitOf(Low8(t) == 0));
      SetFlag(Negative, BitOf(Bit7(t)));
      extra := 0;
    }

    method Inc() returns (extra: Bit)
      requires Valid()
      modifies this, bus.ram
      ensures View() == S.Inc(old(View())) && extra == S.PenaltyEligible(INC)
    {
      var m := Fetch();
      var t: int := (m as int) + 1;
      Write(absoluteAddress, Low8(t));
      SetFlag(Zero, BitOf(Low8(t) == 0));
      SetFlag(Negative, BitOf(Bit7(t)));
      extra := 0;
    }

    method Dex() returns (extra: Bit)
      requires Valid()
      modifies this
      ensures View() == S.Dex(old(View())) && extra == S.PenaltyEligible(DEX)
    {
      x := Dec8(x);
      SetFlag(Zero, BitOf(x == 0));
      SetFlag(Negative, BitOf(x >= 0x80));
      extra := 0;
    }

    method Dey() returns (extra: Bit)
      requires Valid()
      modifies this
      ensures View() == S.Dey(old(View())) && extra == S.PenaltyEligible(DEY)
    {
      y := Dec8(y);
      SetFlag(Zero, BitOf(y == 0));
      SetFlag(Negative, BitOf(y >= 0x80));
      extra := 0;
    }

    method Inx() returns (extra: Bit)
      requires Valid()
      modifies this
      ensures View() == S.Inx(old(View())) && extra == S.PenaltyEligible(INX)
    {
      x := Inc8(x);
      SetFlag(Zero, BitOf(x == 0));
      SetFlag(Negative, BitOf(x >= 0x80));
      extra := 0;
    }

    method Iny() returns (extra: Bit)
      requires Valid()
      modifies this
      ensures View() == S.Iny(old(View())) && extra == S.PenaltyEligible(INY)
    {
      y := Inc8(y);
      SetFlag(Zero, BitOf(y == 0));
      SetFlag(Negative, BitOf(y >= 0x80));
      extra := 0;
    }

    // ------------------------------------------------------------ jumps, calls, interrupts

    method Jmp() returns (extra: Bit)
      requires Valid()
      modifies this
      ensures View() == S.Jmp(old(View())) && extra == S.PenaltyEligible(JMP)
    {
      pc := absoluteAddress;
      extra := 0;
    }

    method Jsr() returns (extra: Bit)
      requires Valid()
      modifies this, bus.ram
      ensures View() == S.Jsr(old(View())) && extra == S.PenaltyEligible(JSR)
    {
      pc := S.Dec16(pc);
      Write(0x100 + sp, Hi(pc));
      sp := Dec8(sp);
      Write(0x100 + sp, Lo(pc));
      sp := Dec8(sp);

      pc := absoluteAddress;
      extra := 0;
    }

    method Rts() returns (extra: Bit)
      requires Valid()
      modifies this
      ensures View() == S.Rts(old(View())) && extra == S.PenaltyEligible(RTS)
    {
      sp := Inc8(sp);
      var w, lo, hi := ReadWord(0x100 + sp);
      pc := w;
      pc := S.Inc16(pc);
      extra := 0;
    }

    method Brk() returns (extra: Bit)
      requires Valid()
      modifies this, bus.ram
      ensures View() == S.Brk(old(View())) && extra == S.PenaltyEligible(BRK)
    {
      ghost var s0 := View();
      pc := S.Inc16(pc);
      SetFlag(Interrupt, 1);
      ghost var s1 := View();
      assert s1 == S.WithFlag(s0.(pc := S.Inc16(s0.pc)), Interrupt, 1);
      Write(0x100 + sp, Hi(pc));
      sp := Dec8(sp);
      Write(0x100 + sp, Lo(pc));
      sp := Dec8(sp);
      assert View() == S.Push(S.Push(s1, Hi(s1.pc)), Lo(s1.pc));

      SetFlag(Break, 1);
      ghost var s3 := View();
      Write(0x100 + sp, ToByte(status));
      sp := Dec8(sp);
      assert View() == S.Push(s3, ToByte(s3.status));
      SetFlag(Break, 0);
      var w, lo, hi := ReadWord(0xFFFE);
      pc := w;
      extra := 0;
    }

    method Rti() returns (extra: Bit)
      requires Valid()
      modifies this
      ensures View() == S.Rti(old(View())) && extra == S.PenaltyEligible(RTI)
    {
      ghost var s0 := View();
      sp := Inc8(sp);
      var pulled := Read(0x100 + sp);
      assert pulled == S.Read(s0, S.StackAddress(Inc8(s0.sp)));
      status := FromByte(pulled);
      SetFlag(Break, 0);
      SetFlag(Unused, 0);
      ghost var s2 := View();

      sp := Inc8(sp);
      var w, lo, hi := ReadWord(0x100 + sp);
      assert w == S.ReadWord(s2, S.StackAddress(Inc8(s2.sp)));
      pc := w;
      sp := Inc8(sp);
      pc := S.Inc16(pc);
      extra := 0;
    }

    // ------------------------------------------------------------ loads, stores, transfers

    method Lda() returns (extra: Bit)
      requires Valid()
      modifies this
      ensures View() == S.Lda(old(View())) && extra == S.PenaltyEligible(LDA)
    {
      var m := Fetch();
      a := m;
      SetFlag(Zero, BitOf(a == 0));
      SetFlag(Negative, BitOf(a >= 0x80));
      extra := 1;
    }

    method Ldx() returns (extra: Bit)
      requires Valid()
      modifies this
      ensures View() == S.Ldx(old(View())) && extra == S.PenaltyEligible(LDX)
    {
      var m := Fetch();
      x := m;
      SetFlag(Zero, BitOf(x == 0));
      SetFlag(Negative, BitOf(x >= 0x80));
      extra := 1;
    }

    method Ldy() returns (extra: Bit)
      requires Valid()
      modifies this
      ensures View() == S.Ldy(old(View())) && extra == S.PenaltyEligible(LDY)
    {
      var m := Fetch();
      y := m;
      SetFlag(Zero, BitOf(y == 0));
      SetFlag(Negative, BitOf(y >= 0x80));
      extra := 1;
    }

    method Sta() returns (extra: Bit)
      requires Valid()
      modifies bus.ram
      ensures View() == S.Sta(old(View())) && extra == S.PenaltyEligible(STA)
    {
      Write(absoluteAddress, a);
      extra := 0;
    }

    method Stx() returns (extra: Bit)
      requires Valid()
      modifies bus.ram
      ensures View() == S.Stx(old(View())) && extra == S.PenaltyEligible(STX)
    {
      Write(absoluteAddress, x);
      extra := 0;
    }

    method Sty() returns (extra: Bit)
      requires Valid()
      modifies bus.ram
      ensures View() == S.Sty(old(View())) && extra == S.PenaltyEligible(STY)
    {
      Write(absoluteAddress, y);
      extra := 0;
    }

    method Tax() returns (extra: Bit)
      requires Valid()
      modifies this
      ensures View() == S.Tax(old(View())) && extra == S.PenaltyEligible(TAX)
    {
      x := a;
      SetFlag(Zero, BitOf(x == 0));
      SetFlag(Negative, BitOf(x >= 0x80));
      extra := 0;
    }

    method Tay() returns (extra: Bit)
      requires Valid()
      modifies this
      ensures View() == S.Tay(old(View())) && extra == S.PenaltyEligible(TAY)
    {
      y := a;
      SetFlag(Zero, BitOf(y == 0));
      SetFlag(Negative, BitOf(y >= 0x80));
      extra := 0;
    }

    method Tsx() returns (extra: Bit)
      requires Valid()
      modifies this
      ensures View() == S.Tsx(old(View())) && extra == S.PenaltyEligible(TSX)
    {
      x := sp;
      SetFlag(Zero, BitOf(x == 0));
      SetFlag(Negative, BitOf(x >= 0x80));
      extra := 0;
    }

    method Txa() returns (extra: Bit)
      requires Valid()
      modifies this
      ensures View() == S.Txa(old(View())) && extra == S.PenaltyEligible(TXA)
    {
      a := x;
      SetFlag(Zero, BitOf(a == 0));
      SetFlag(Negative, BitOf(a >= 0x80));
      extra := 0;
    }

    method Txs() returns (extra: Bit)
      requires Valid()
      modifies this
      ensures View() == S.Txs(old(View())) && extra == S.PenaltyEligible(TXS)
    {
      sp := a;
      extra := 0;
    }

    method Tya() returns (extra: Bit)
      requires Valid()
      modifies this
      ensures View() == S.Tya(old(View())) && extra == S.PenaltyEligible(TYA)
    {
      a := y;
      SetFlag(Zero, BitOf(a == 0));
      SetFlag(Negative, BitOf(a >= 0x80));
      extra := 0;
    }

    // ------------------------------------------------------------ stack

    method Pha() returns (extra: Bit)
      requires Valid()
      modifies this, bus.ram
      ensures View() == S.Pha(old(View())) && extra == S.PenaltyEligible(PHA)
    {
      Write(0x100 + sp, a);
      sp := Dec8(sp);
      extra := 0;
    }

    method Php() returns (extra: Bit)
      requires Valid()
      modifies this, bus.ram
      ensures View() == S.Php(old(View())) && extra == S.PenaltyEligible(PHP)
    {
      Write(0x100 + sp, BitOr(BitOr(ToByte(status), Mask(Unused)), Mask(Break)));
      SetFlag(Break, 0);
      SetFlag(Unused, 0);
      sp := Dec8(sp);
      extra := 0;
    }

    method Pla() returns (extra: Bit)
      requires Valid()
      modifies this
      ensures View() == S.Pla(old(View())) && extra == S.PenaltyEligible(PLA)
    {
      sp := Inc8(sp);
      a := Read(0x100 + sp);
      SetFlag(Zero, BitOf(a == 0));
      SetFlag(Negative, BitOf(a >= 0x80));
      extra := 0;
    }

    method Plp() returns (extra: Bit)
      requires Valid()
      modifies this
      ensures View() == S.Plp(old(View())) && extra == S.PenaltyEligible(PLP)
    {
      sp := Inc8(sp);
      var pulled := Read(0x100 + sp);
      status := FromByte(pulled);
      SetFlag(Unused, 1);
      extra := 0;
    }

    // ------------------------------------------------------------ no operation

    method Nop() returns (extra: Bit)
      requires Valid()
      ensures View() == S.Nop(old(View())) && extra == S.PenaltyEligible(NOP)
    {
      extra := 0;
    }

    method Xxx() returns (extra: Bit)
      requires Valid()
      ensures View() == S.Xxx(old(View())) && extra == S.PenaltyEligible(XXX)
    {
      extra := 0;
    }
  }
}
