/** What the processor of src/activities/emulator/CPU.ts promises, proved about the state
    transformer in `Semantics` (and so, through the `Emulator.Cpu` contracts, about the class).
    The quirks of the source are stated as they are, next to what they cost. */
module Properties {
  import opened Bytes
  import opened StatusFlags
  import opened Bus
  import opened Opcodes
  import opened Semantics
  import Alu

  // ---------------------------------------------------------------- reset

  /** `reset` loads `pc` from the vector at 0xFFFC/0xFFFD, clears the registers, puts the stack
      pointer at 0xFD and the status at 0x20, charges 8 cycles and touches nothing else. */
  lemma ResetState(s: State)
    ensures Reset(s).pc == ToWord(Peek(s.mem, 0xFFFC), Peek(s.mem, 0xFFFD))
    ensures Reset(s).a == 0 && Reset(s).x == 0 && Reset(s).y == 0 && Reset(s).sp == 0xFD
    ensures ToByte(Reset(s).status) == 0x20 && Reset(s).remainingCycles == 8
    ensures Reset(s).mem == s.mem && Reset(s).op == s.op && Reset(s).fetched == s.fetched
    ensures Reset(s).absoluteAddress == s.absoluteAddress
    ensures Reset(s).relativeAddress == s.relativeAddress
  {
    ByteRoundTrip(0x20, s.status);
  }

  /** The registers `reset` leaves depend on nothing but the two vector bytes. */
  lemma ResetDeterministic(s: State, t: State)
    requires Peek(s.mem, 0xFFFC) == Peek(t.mem, 0xFFFC) && Peek(s.mem, 0xFFFD) == Peek(t.mem, 0xFFFD)
    ensures Reset(s).(mem := t.mem, op := t.op, fetched := t.fetched,
                      absoluteAddress := t.absoluteAddress, relativeAddress := t.relativeAddress)
            == Reset(t)
  {
  }

  // ---------------------------------------------------------------- clock

  /** While cycles remain, `clock` only counts one down. */
  lemma ClockWhileBusy(s: State)
    requires s.remainingCycles > 0
    ensures Clock(s) == s.(remainingCycles := s.remainingCycles - 1)
  {
  }

  /** The mnemonics whose handlers change `pc` themselves. */
  predicate ChangesFlow(m: Mnemonic) {
    IsBranch(m) || m.JMP? || m.JSR? || m.RTS? || m.RTI? || m.BRK?
  }

  /** The number of operand bytes that follow the opcode in each addressing mode. */
  function OperandLength(mode: Mode): nat {
    match mode
    case Implied => 0
    case Immediate | ZeroPage | ZeroPageX | ZeroPageY | Relative | IndirectX | IndirectY => 1
    case Absolute | AbsoluteX | AbsoluteY | Indirect => 2
  }

  /** Every resolver moves `pc` past exactly the operand bytes of its mode, and leaves the cycle
      counter, the current instruction and the store alone. */
  lemma {:induction false} AddressingSkipsOperand(s: State, mode: Mode)
    ensures Addressing(s, mode).state.pc == Add16(s.pc, OperandLength(mode))
    ensures Addressing(s, mode).state.remainingCycles == s.remainingCycles
    ensures Addressing(s, mode).state.op == s.op
    ensures Addressing(s, mode).state.mem == s.mem
  {
    match mode
    case Implied => {}
    case Immediate => {}
    case ZeroPage => {}
    case ZeroPageX => {}
    case ZeroPageY => {}
    case Relative => {}
    case Absolute => {}
    case AbsoluteX => {}
    case AbsoluteY => {}
    case Indirect => {}
    case IndirectX => {}
    case IndirectY => {}
  }

  /** Apart from the branches (which add their own cycles), no handler touches the cycle
      counter or the current instruction; apart from the jumps, calls, returns and branches, no
      handler touches `pc`. */
  lemma {:induction false} OperateKeepsCounters(s: State, m: Mnemonic)
    ensures Operate(s, m).op == s.op
    ensures !IsBranch(m) ==> Operate(s, m).remainingCycles == s.remainingCycles
    ensures !ChangesFlow(m) ==> Operate(s, m).pc == s.pc
  {
    match m
    case ADC => {}  case AND => {}  case ASL => {}  case BCC => {}
    case BCS => {}  case BEQ => {}  case BIT => {}  case BMI => {}
    case BNE => {}  case BPL => {}  case BRK => {}  case BVC => {}
    case BVS => {}  case CLC => {}  case CLD => {}  case CLI => {}
    case CLV => {}  case CMP => {}  case CPX => {}  case CPY => {}
    case DEC => {}  case DEX => {}  case DEY => {}  case EOR => {}
    case INC => {}  case INX => {}  case INY => {}  case JMP => {}
    case JSR => {}  case LDA => {}  case LDX => {}  case LDY => {}
    case LSR => {}  case NOP => {}  case ORA => {}  case PHA => {}
    case PHP => {}  case PLA => {}  case PLP => {}  case ROL => {}
    case ROR => {}  case RTI => {}  case RTS => {}  case SBC => {}
    case SEC => {}  case SED => {}  case SEI => {}  case STA => {}
    case STX => {}  case STY => {}  case TAX => {}  case TAY => {}
    case TSX => {}  case TXA => {}  case TXS => {}  case TYA => {}
    case XXX => {}
  }

  /** A `clock` that starts an instruction makes the table entry of the opcode at `pc` the
      current instruction and leaves Unused set. For an instruction that is not a branch the
      cycle counter then holds the table's base count, plus one only when both the resolver and
      the handler report one, minus the cycle just spent; for one that does not change the
      flow of control, `pc` ends just past the opcode and its operand bytes. */
  lemma {:induction false} ClockStartsInstruction(s: State)
    requires s.remainingCycles <= 0
    ensures Clock(s).op == Decode(Read(s, s.pc))
    ensures FlagOf(Clock(s), Unused) == 1
    ensures !IsBranch(Decode(Read(s, s.pc)).mnemonic) ==>
      var ins := Decode(Read(s, s.pc));
      var resolved := Addressing(Begin(s), ins.mode);
      Clock(s).remainingCycles == ins.cycles + BothBits(resolved.extra, PenaltyEligible(ins.mnemonic)) - 1
    ensures !ChangesFlow(Decode(Read(s, s.pc)).mnemonic) ==>
      Clock(s).pc == Add16(s.pc, 1 + OperandLength(Decode(Read(s, s.pc)).mode))
  {
    var ins := Decode(Read(s, s.pc));
    var s1 := Begin(s);
    assert s1.op == ins && s1.pc == Inc16(s.pc) && s1.remainingCycles == ins.cycles;
    var resolved := Addressing(s1, ins.mode);
    AddressingSkipsOperand(s1, ins.mode);
    OperateKeepsCounters(resolved.state, ins.mnemonic);
  }

  // ---------------------------------------------------------------- addressing modes

  /** Zero-page operands stay in page zero: the indexed forms add the index modulo 0x100. */
  lemma ZeroPageStaysInPageZero(s: State)
    ensures AddrZeroPage(s).state.absoluteAddress == Read(s, s.pc)
    ensures AddrZeroPageX(s).state.absoluteAddress == (Read(s, s.pc) + s.x) % 0x100
    ensures AddrZeroPageY(s).state.absoluteAddress == (Read(s, s.pc) + s.y) % 0x100
  {
  }

  /** Base 0xFF indexed by X = 1 resolves to 0x0000, not 0x0100. */
  lemma ZeroPageXWrapsToZero(s: State)
    requires Read(s, s.pc) == 0xFF && s.x == 1
    ensures AddrZeroPageX(s).state.absoluteAddress == 0x0000
  {
  }

  /** Indirect through a pointer that does not end a page reads the target's two bytes at
      `ptr` and `ptr + 1`; through one that does (low byte 0xFF) the high byte comes from the
      start of the same page. */
  lemma IndirectPointer(s: State)
    ensures var ptr := ReadWord(s, s.pc);
            AddrIndirect(s).state.absoluteAddress ==
              if Lo(ptr) == 0xFF then ToWord(Read(s, ptr), Read(s, Page(ptr)))
              else ToWord(Read(s, ptr), Read(s, ptr + 1))
  {
    var ptr := ReadWord(s, s.pc);
    assert Lo(ptr) == Read(s, s.pc);
  }

  /** The page bug on a concrete pointer: 0x30FF takes its target from 0x30FF and 0x3000,
      not from 0x30FF and 0x3100. */
  lemma IndirectPageBug(s: State)
    requires Read(s, s.pc) == 0xFF && Read(s, s.pc + 1) == 0x30
    ensures AddrIndirect(s).state.absoluteAddress == ToWord(Read(s, 0x30FF), Read(s, 0x3000))
  {
    var ptr := ReadWord(s, s.pc);
    assert ptr == 0x30FF;
    assert Lo(ptr) == 0xFF && Page(ptr) == 0x3000;
    IndirectPointer(s);
  }

  /** Absolute indexed: the target is the operand word plus the index (modulo 0x10000), and the
      resolver reports 1 exactly when the target's high byte differs from the operand's. */
  lemma AbsoluteIndexedPageCross(s: State)
    ensures var base := ToWord(Read(s, s.pc), Read(s, s.pc + 1));
            && AddrAbsoluteX(s).state.absoluteAddress == Add16(base, s.x)
            && AddrAbsoluteY(s).state.absoluteAddress == Add16(base, s.y)
            && (AddrAbsoluteX(s).extra == 1 <==> Hi(Add16(base, s.x)) != Hi(base))
            && (AddrAbsoluteY(s).extra == 1 <==> Hi(Add16(base, s.y)) != Hi(base))
  {
  }

  /** Indirect indexed: the word at the zero-page operand plus Y, and 1 exactly when adding Y
      leaves that word's page. The pointer's second byte is read at `base + 1`, unwrapped. */
  lemma IndirectYPageCross(s: State)
    ensures var base := Read(s, s.pc);
            var w := ToWord(Read(s, base), Read(s, base + 1));
            && AddrIndirectY(s).state.absoluteAddress == Add16(w, s.y)
            && (AddrIndirectY(s).extra == 1 <==> Hi(Add16(w, s.y)) != Hi(w))
  {
  }

  /** Indexed indirect: the pointer `base + x` is not wrapped into page zero, so base 0xFF with
      X = 1 reads the target from 0x0100 and 0x0101. */
  lemma IndirectXDoesNotWrap(s: State)
    requires Read(s, s.pc) == 0xFF && s.x == 1
    ensures AddrIndirectX(s).state.absoluteAddress == ToWord(Read(s, 0x100), Read(s, 0x101))
  {
  }

  // ---------------------------------------------------------------- arithmetic

  /** ADC changes the accumulator and the four arithmetic flags; everything else is as after
      fetching the operand. */
  lemma AdcFrame(s: State)
    ensures var r := Adc(s);
            && FlagOf(r, Interrupt) == FlagOf(s, Interrupt) && FlagOf(r, Decimal) == FlagOf(s, Decimal)
            && FlagOf(r, Break) == FlagOf(s, Break) && FlagOf(r, Unused) == FlagOf(s, Unused)
            && r == Fetch(s).(a := r.a, status := r.status)
  {
  }

  /** ADC as arithmetic: with `t = a + m + C`, the accumulator becomes `t mod 256`, Carry is
      `t > 255`, Zero and Negative describe the new accumulator, and Overflow is set exactly
      when both operands have the same sign and the result's differs; nothing but the
      accumulator, those four flags and the fetched operand changes. */
  lemma AdcFlags(s: State)
    ensures var m, c := Fetch(s).fetched, FlagOf(s, Carry);
            var t := s.a + m + c;
            var r := Adc(s);
            && r.a == t % 0x100
            && (FlagOf(r, Carry) == 1 <==> t > 0xFF)
            && (FlagOf(r, Zero) == 1 <==> t % 0x100 == 0)
            && (FlagOf(r, Negative) == 1 <==> t % 0x100 >= 0x80)
            && (FlagOf(r, Overflow) == 1 <==> (s.a >= 0x80) == (m >= 0x80) && (t % 0x100 >= 0x80) != (s.a >= 0x80))
            && FlagOf(r, Interrupt) == FlagOf(s, Interrupt) && FlagOf(r, Decimal) == FlagOf(s, Decimal)
            && FlagOf(r, Break) == FlagOf(s, Break) && FlagOf(r, Unused) == FlagOf(s, Unused)
            && r == Fetch(s).(a := r.a, status := r.status)
  {
    AdcFrame(s);
    var f := Fetch(s);
    var sum := Alu.Adc(f.a, f.fetched, FlagOf(f, Carry));
    assert sum.value == (s.a + f.fetched + FlagOf(s, Carry)) % 0x100;
  }

  /** The worked example: 0x50 + 0x50 with Carry clear gives 0xA0 with Overflow and Negative
      set and Carry and Zero clear. */
  lemma AdcExample(s: State)
    requires s.a == 0x50 && Fetch(s).fetched == 0x50 && FlagOf(s, Carry) == 0
    ensures Adc(s).a == 0xA0
    ensures FlagOf(Adc(s), Carry) == 0 && FlagOf(Adc(s), Zero) == 0
    ensures FlagOf(Adc(s), Overflow) == 1 && FlagOf(Adc(s), Negative) == 1
  {
    AdcFlags(s);
  }

  /** SBC as arithmetic: with `t = a - m - (1 - C)`, the accumulator becomes `t mod 256`,
      Carry is set exactly when no borrow occurs (`t >= 0`), and Overflow exactly when the
      signed difference leaves -128..127. */
  lemma SbcFlags(s: State)
    ensures var m, c := Fetch(s).fetched, FlagOf(s, Carry);
            var t := s.a - m - (1 - c);
            var r := Sbc(s);
            && r.a == t % 0x100
            && (FlagOf(r, Carry) == 1 <==> t >= 0)
            && (FlagOf(r, Zero) == 1 <==> t % 0x100 == 0)
            && (FlagOf(r, Negative) == 1 <==> t % 0x100 >= 0x80)
            && (FlagOf(r, Overflow) == 1 <==> !(-0x80 <= Signed(s.a) - Signed(m) - (1 - c) < 0x80))
            && r.mem == s.mem && r.x == s.x && r.y == s.y && r.sp == s.sp && r.pc == s.pc
  {
    var f := Fetch(s);
    var d := Alu.Sbc(f.a, f.fetched, FlagOf(f, Carry));
    assert d.value == (s.a - f.fetched - (1 - FlagOf(s, Carry))) % 0x100;
  }

  /** The flags a comparison of register value `r` against the fetched operand sets: Carry
      only when `r` is strictly greater (the 6502 sets it on equality too), Zero when they are
      equal, Negative from bit 7 of the difference; nothing else changes. */
  lemma ComparisonFlags(f: State, r: Byte)
    ensures var c := CompareWith(f, r);
            && (FlagOf(c, Carry) == 1 <==> r > f.fetched)
            && (FlagOf(c, Zero) == 1 <==> r == f.fetched)
            && (FlagOf(c, Negative) == 1 <==> (r - f.fetched) % 0x100 >= 0x80)
            && c == f.(status := c.status)
  {
  }

  /** CMP, CPX and CPY compare A, X and Y respectively with the fetched operand; apart from
      fetching the operand they change only the status register. */
  lemma CompareFlags(s: State)
    ensures var m := Fetch(s).fetched;
            && (FlagOf(Cmp(s), Carry) == 1 <==> s.a > m) && (FlagOf(Cmp(s), Zero) == 1 <==> s.a == m)
            && (FlagOf(Cpx(s), Carry) == 1 <==> s.x > m) && (FlagOf(Cpx(s), Zero) == 1 <==> s.x == m)
            && (FlagOf(Cpy(s), Carry) == 1 <==> s.y > m) && (FlagOf(Cpy(s), Zero) == 1 <==> s.y == m)
            && (FlagOf(Cmp(s), Negative) == 1 <==> (s.a - m) % 0x100 >= 0x80)
            && (FlagOf(Cpx(s), Negative) == 1 <==> (s.x - m) % 0x100 >= 0x80)
            && (FlagOf(Cpy(s), Negative) == 1 <==> (s.y - m) % 0x100 >= 0x80)
            && Cmp(s) == Fetch(s).(status := Cmp(s).status)
            && Cpx(s) == Fetch(s).(status := Cpx(s).status)
            && Cpy(s) == Fetch(s).(status := Cpy(s).status)
  {
    var f := Fetch(s);
    ComparisonFlags(f, f.a);
    ComparisonFlags(f, f.x);
    ComparisonFlags(f, f.y);
  }

  // ---------------------------------------------------------------- branches

  /** The relative operand is a two's-complement offset: a byte of 0x80 or more stands for
      `value - 256`, and the target is `pc` plus that offset, modulo 0x10000. */
  lemma RelativeOffset(pc: Word, rel: Byte)
    ensures Offset(rel) == Signed(rel)
    ensures rel >= 0x80 ==> Offset(rel) == rel - 0x100
    ensures MoveRelative(pc, rel) == (pc + Signed(rel)) % 0x1_0000
  {
  }

  /** The condition each branch tests, as the 6502 defines it. */
  predicate Condition(s: State, m: Mnemonic)
    requires IsBranch(m)
  {
    match m
    case BCC => FlagOf(s, Carry) == 0
    case BCS => FlagOf(s, Carry) == 1
    case BEQ => FlagOf(s, Zero) == 1
    case BMI => FlagOf(s, Negative) == 1
    case BNE => FlagOf(s, Zero) == 0
    case BPL => FlagOf(s, Negative) == 0
    case BVC => FlagOf(s, Overflow) == 0
    case BVS => FlagOf(s, Overflow) == 1
  }

  /** Every branch handler tests its condition. An untaken branch changes nothing. A taken one
      jumps to the relative target, adds one cycle, and adds a second one when the target's
      page differs from a reference page: `pc`'s own page for BMI, BNE, BPL, BVC and BVS, and
      for BCC, BCS and BEQ the value of `pc && 0xFF00` (0 when `pc` is 0, 0xFF00 otherwise). */
  lemma {:induction false} BranchTiming(s: State, m: Mnemonic)
    requires IsBranch(m)
    ensures !Condition(s, m) ==> Operate(s, m) == s
    ensures Condition(s, m) ==>
      var target := MoveRelative(s.pc, s.relativeAddress);
      var r := Operate(s, m);
      && r.pc == target && r.absoluteAddress == target
      && r == s.(pc := r.pc, absoluteAddress := r.absoluteAddress, remainingCycles := r.remainingCycles)
      && (!(m.BCC? || m.BCS? || m.BEQ?) ==>
            r.remainingCycles == s.remainingCycles + 1 + (if Hi(target) != Hi(s.pc) then 1 else 0))
      && ((m.BCC? || m.BCS? || m.BEQ?) ==>
            r.remainingCycles == s.remainingCycles + 1
                                 + (if (if s.pc == 0 then Hi(target) != 0 else Hi(target) != 0xFF) then 1 else 0))
  {
    match m
    case BCC => {}  case BCS => {}  case BEQ => {}  case BMI => {}
    case BNE => {}  case BPL => {}  case BVC => {}  case BVS => {}
  }

  /** What the logical AND costs: a taken BEQ that stays in its page (any page but 0xFF00)
      takes two extra cycles where a taken BNE that stays in its page takes one. */
  lemma LogicalAndQuirk(s: State)
    requires s.pc != 0 && Hi(s.pc) != 0xFF
    requires Hi(MoveRelative(s.pc, s.relativeAddress)) == Hi(s.pc)
    ensures FlagOf(s, Zero) == 1 ==> Beq(s).remainingCycles == s.remainingCycles + 2
    ensures FlagOf(s, Zero) == 0 ==> Bne(s).remainingCycles == s.remainingCycles + 1
  {
  }

  // ---------------------------------------------------------------- interrupts

  /** The frame `saveStateToStack` leaves: the return address's high byte at `0x100 + sp`, its
      low byte one cell down, and the status (Break clear, Unused and Interrupt set) at
      `0x11 + sp` after two decrements, which is in page 0 or 1 and never a stack cell just
      written; the stack pointer moves down three times, and no other cell or register changes. */
  lemma SaveStateFrame(s: State)
    ensures var r := SaveStateToStack(s);
            var sp1 := Dec8(s.sp);
            var sp2 := Dec8(sp1);
            && r.status == SetFlag(SetFlag(SetFlag(s.status, Break, false), Unused, true), Interrupt, true)
            && Peek(r.mem, 0x100 + s.sp) == Hi(s.pc)
            && Peek(r.mem, 0x100 + sp1) == Lo(s.pc)
            && Peek(r.mem, 0x11 + sp2) == ToByte(r.status)
            && (forall addr {:trigger Peek(r.mem, addr)} ::
                  addr != 0x100 + s.sp && addr != 0x100 + sp1 && addr != 0x11 + sp2 ==>
                    Peek(r.mem, addr) == Peek(s.mem, addr))
            && r == s.(mem := r.mem, status := r.status, sp := Dec8(sp2))
  {
  }

  /** NMI saves the frame above and jumps through the vector at 0xFFFA/0xFFFB, which the frame
      cannot overwrite, leaving 8 cycles to wait. */
  lemma {:induction false} NmiVector(s: State)
    ensures Nmi(s) == SaveStateToStack(s).(pc := ToWord(Peek(s.mem, 0xFFFA), Peek(s.mem, 0xFFFB)),
                                           remainingCycles := 8)
  {
    SaveStateFrame(s);
  }

  /** IRQ is serviced only when the Interrupt flag is SET (the 6502 services it when the flag is
      clear): it then saves the frame and jumps through 0xFFFE/0xFFFF, leaving 7 cycles; with
      the flag clear it changes nothing. */
  lemma {:induction false} IrqVector(s: State)
    ensures FlagOf(s, Interrupt) == 0 ==> Irq(s) == s
    ensures FlagOf(s, Interrupt) == 1 ==>
      Irq(s) == SaveStateToStack(s).(pc := ToWord(Peek(s.mem, 0xFFFE), Peek(s.mem, 0xFFFF)),
                                     remainingCycles := 7)
  {
    SaveStateFrame(s);
  }

  // ---------------------------------------------------------------- stack round trips

  /** PLA after PHA restores the stack pointer and the accumulator, and sets Zero and
      Negative from it. */
  lemma PhaThenPla(s: State)
    ensures var r := Pla(Pha(s));
            r.sp == s.sp && r.a == s.a && r.mem == Pha(s).mem
            && r.status == SetFlag(SetFlag(s.status, Zero, s.a == 0), Negative, s.a >= 0x80)
  {
  }

  /** PLP after PHP restores the stack pointer and every flag, except that Break and Unused
      come back set, as PHP pushed them. */
  lemma {:induction false} PhpThenPlp(s: State)
    ensures var r := Plp(Php(s));
            r.sp == s.sp
            && r.status == SetFlag(SetFlag(s.status, Unused, true), Break, true)
  {
    var pushed := BitOr(BitOr(ToByte(s.status), Mask(Unused)), Mask(Break));
    SetFlagIsOrMask(s.status, Unused);
    SetFlagIsOrMask(SetFlag(s.status, Unused, true), Break);
    assert pushed == ToByte(SetFlag(SetFlag(s.status, Unused, true), Break, true));
    ByteRoundTrip(pushed, SetFlag(SetFlag(s.status, Unused, true), Break, true));
    assert Read(Php(s), StackAddress(Inc8(Dec8(s.sp)))) == pushed;
  }

  /** RTS after JSR returns to the instruction after the JSR's operand (JSR pushed that
      address minus one) but pulls only one of the two bytes it pushed off the stack: the
      stack pointer ends one below where it started. The pushed word is read back whole only
      when the stack pointer does not wrap, hence `sp != 0`. */
  lemma {:induction false} JsrThenRts(s: State)
    requires s.sp != 0
    ensures Rts(Jsr(s)).pc == s.pc
    ensures Rts(Jsr(s)).sp == Dec8(s.sp)
  {
    var ret := Dec16(s.pc);
    var j := Jsr(s);
    assert Read(j, 0x100 + Dec8(s.sp)) == Lo(ret);
    assert Read(j, 0x100 + s.sp) == Hi(ret);
    SplitJoin(ret);
  }

  /** What RTI pulls: the status from one cell above `sp` (Break and Unused cleared), the
      return address from the next two cells (the second read unwrapped), plus one; the stack
      pointer moves up three times. */
  lemma RtiPulls(t: State)
    ensures var sp1 := Inc8(t.sp);
            var sp2 := Inc8(sp1);
            && Rti(t).sp == Inc8(sp2)
            && Rti(t).status == SetFlag(SetFlag(FromByte(Peek(t.mem, 0x100 + sp1)), Break, false), Unused, false)
            && Rti(t).pc == Inc16(ToWord(Peek(t.mem, 0x100 + sp2), Peek(t.mem, 0x100 + sp2 + 1)))
  {
  }

  /** What BRK pushes: `pc + 1` high byte first, then the status with Interrupt and Break set,
      each at the stack pointer as it moves down. */
  lemma BrkPushes(s: State)
    ensures var sp1 := Dec8(s.sp);
            var sp2 := Dec8(sp1);
            var b := Brk(s);
            && b.sp == Dec8(sp2)
            && Peek(b.mem, 0x100 + s.sp) == Hi(Inc16(s.pc))
            && Peek(b.mem, 0x100 + sp1) == Lo(Inc16(s.pc))
            && Peek(b.mem, 0x100 + sp2) == ToByte(SetFlag(SetFlag(s.status, Interrupt, true), Break, true))
  {
  }

  /** RTI after BRK, unless the stack pointer starts at 0 (RTI would then read its return
      address across 0x01FF/0x0200): the program resumes two bytes after the BRK's
      operand position, the stack pointer is restored, and the status is the one before BRK
      with Interrupt set and Break and Unused clear. */
  lemma {:induction false} BrkThenRti(s: State)
    requires s.sp != 0
    ensures Rti(Brk(s)).pc == Add16(s.pc, 2)
    ensures Rti(Brk(s)).sp == s.sp
    ensures Rti(Brk(s)).status
            == SetFlag(SetFlag(SetFlag(s.status, Interrupt, true), Break, false), Unused, false)
  {
    var sp1 := Dec8(s.sp);
    var sp2 := Dec8(sp1);
    var b := Brk(s);
    BrkPushes(s);
    RtiPulls(b);
    assert Inc8(b.sp) == sp2 && Inc8(sp2) == sp1 && Inc8(sp1) == s.sp && sp1 + 1 == s.sp;
    var pushed := SetFlag(SetFlag(s.status, Interrupt, true), Break, true);
    ByteRoundTrip(ToByte(pushed), pushed);
    SplitJoin(Inc16(s.pc));
  }

  /** What NMI leaves on the stack page: the return address at `sp` and one below, the cell
      two below untouched (the status went to page 0 or 1 at `0x11 + sp - 2`), and the stack
      pointer three down. */
  lemma NmiPushes(s: State)
    ensures var sp1 := Dec8(s.sp);
            var sp2 := Dec8(sp1);
            var n := Nmi(s);
            && n.sp == Dec8(sp2)
            && Peek(n.mem, 0x100 + s.sp) == Hi(s.pc)
            && Peek(n.mem, 0x100 + sp1) == Lo(s.pc)
            && Peek(n.mem, 0x100 + sp2) == Peek(s.mem, 0x100 + sp2)
  {
    SaveStateFrame(s);
  }

  /** RTI after NMI does not find the saved status: NMI wrote it at `0x11 + sp - 2`, and RTI
      pulls the status from `0x100 + sp - 2` (modulo 256 within the stack page), a cell NMI
      did not touch. The return address is found, and one is added to it; as for BRK, the
      stack pointer must not start at 0. */
  lemma {:induction false} NmiThenRti(s: State)
    requires s.sp != 0
    ensures Rti(Nmi(s)).pc == Inc16(s.pc)
    ensures Rti(Nmi(s)).sp == s.sp
    ensures Rti(Nmi(s)).status
            == SetFlag(SetFlag(FromByte(Peek(s.mem, 0x100 + Dec8(Dec8(s.sp)))), Break, false), Unused, false)
  {
    var sp1 := Dec8(s.sp);
    var sp2 := Dec8(sp1);
    var n := Nmi(s);
    NmiPushes(s);
    RtiPulls(n);
    assert Inc8(n.sp) == sp2 && Inc8(sp2) == sp1 && Inc8(sp1) == s.sp && sp1 + 1 == s.sp;
    SplitJoin(s.pc);
  }

  // ---------------------------------------------------------------- loads, stores, counters

  /** LDA from the cell STA just wrote, at the same resolved address, reads the accumulator
      back. */
  lemma {:induction false} StaThenLda(s: State)
    requires !s.op.mode.Implied?
    ensures Lda(Sta(s)).a == s.a
    ensures Lda(Sta(s)).mem == Sta(s).mem
    ensures Read(Sta(s), s.absoluteAddress) == s.a
  {
    assert Read(Sta(s), s.absoluteAddress) == s.a;
  }

  /** EOR with the same operand twice restores the accumulator. */
  lemma {:induction false} EorTwice(s: State)
    ensures Eor(Eor(s)).a == s.a
  {
    var f := Fetch(s);
    assert Fetch(Eor(s)).fetched == f.fetched;
    XorTwice(s.a, f.fetched);
  }

  /** DEC after INC on the same memory operand leaves memory as it was. */
  lemma {:induction false} IncThenDec(s: State)
    requires !s.op.mode.Implied?
    ensures Dec(Inc(s)).mem == s.mem
  {
    var v := Read(s, s.absoluteAddress);
    var i := Inc(s);
    assert Read(i, s.absoluteAddress) == Inc8(v);
    assert Dec8(Inc8(v)) == v;
    PeekDetermines(Dec(i).mem, s.mem);
  }

  /** DEX after INX, and DEY after INY, restore the index register. */
  lemma IndexCountersUndo(s: State)
    ensures Dex(Inx(s)).x == s.x && Dey(Iny(s)).y == s.y
    ensures Inx(Dex(s)).x == s.x && Iny(Dey(s)).y == s.y
  {
  }

  /** TXS copies the accumulator (the 6502 copies X) into the stack pointer, so TSX then
      reads A, not X, back. */
  lemma TxsThenTsx(s: State)
    ensures Tsx(Txs(s)).x == s.a && Tsx(Txs(s)).sp == s.a
  {
  }

  /** TAX then TXA leaves A as it was and copies it into X. */
  lemma TaxThenTxa(s: State)
    ensures Txa(Tax(s)).a == s.a && Txa(Tax(s)).x == s.a
  {
  }
}
