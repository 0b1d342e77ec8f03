/** The program the emulator's front end loads (src/reducers/emulator.ts:5-16) and the Tick
    button that drives it (src/components/CPU.tsx:38-41): ten times three, computed by repeated
    addition. The program is written at 0x8000, the reset vector points there, and each tick
    runs `clock()` then `completeInstruction()`, which is one whole instruction. After 38 ticks
    the product 30 is in memory cell 2. */
module Demo {
  import opened Bytes
  import opened StatusFlags
  import opened Bus
  import opened Opcodes
  import opened Semantics
  import Emulator
  import Properties

  /** Where the program is loaded. */
  const Origin: Word := 0x8000

  /** LDX #10; STX $0000; LDX #3; STX $0001; LDY $0000; LDA #0; CLC;
      loop: ADC $0001; DEY; BNE loop; STA $0002; NOP; NOP; NOP; BRK. */
  const Program: seq<Byte> := [
    0xA2, 0x0A, 0x8E, 0x00, 0x00, 0xA2, 0x03, 0x8E, 0x01, 0x00, 0xAC, 0x00, 0x00, 0xA9, 0x00,
    0x18, 0x6D, 0x01, 0x00, 0x88, 0xD0, 0xFA, 0x8D, 0x02, 0x00, 0xEA, 0xEA, 0xEA, 0x00]

  /** The program sits at `Origin`. */
  predicate Loaded(mem: Memory) {
    forall i | 0 <= i < |Program| :: Peek(mem, Origin + i) == Program[i]
  }

  /** The store the front end prepares: the program at 0x8000, the reset vector 0x8000 at
      0xFFFC/0xFFFD, zero elsewhere. */
  function Image(): (mem: Memory)
    ensures Loaded(mem)
    ensures Peek(mem, 0xFFFC) == 0x00 && Peek(mem, 0xFFFD) == 0x80
  {
    seq(Size, i requires 0 <= i < Size =>
      if Origin <= i < Origin + |Program| then Program[i - Origin]
      else if i == 0xFFFD then 0x80
      else 0)
  }

  /** The bytes of the program that the 38 ticks execute, 0x8000 to 0x8018, one by one: the
      prologue and the rest. */
  predicate Code(mem: Memory) {
    Prologue(mem) && Body(mem)
  }

  predicate Prologue(mem: Memory) {
    && Peek(mem, 0x8000) == 0xA2 && Peek(mem, 0x8001) == 0x0A
    && Peek(mem, 0x8002) == 0x8E && Peek(mem, 0x8003) == 0x00 && Peek(mem, 0x8004) == 0x00
    && Peek(mem, 0x8005) == 0xA2 && Peek(mem, 0x8006) == 0x03
    && Peek(mem, 0x8007) == 0x8E && Peek(mem, 0x8008) == 0x01 && Peek(mem, 0x8009) == 0x00
    && Peek(mem, 0x800A) == 0xAC && Peek(mem, 0x800B) == 0x00 && Peek(mem, 0x800C) == 0x00
  }

  predicate Body(mem: Memory) {
    && Peek(mem, 0x800D) == 0xA9 && Peek(mem, 0x800E) == 0x00
    && Peek(mem, 0x800F) == 0x18
    && Peek(mem, 0x8010) == 0x6D && Peek(mem, 0x8011) == 0x01 && Peek(mem, 0x8012) == 0x00
    && Peek(mem, 0x8013) == 0x88
    && Peek(mem, 0x8014) == 0xD0 && Peek(mem, 0x8015) == 0xFA
    && Peek(mem, 0x8016) == 0x8D && Peek(mem, 0x8017) == 0x02 && Peek(mem, 0x8018) == 0x00
  }

  lemma {:induction false} LoadedPrologue(mem: Memory)
    requires Loaded(mem)
    ensures Prologue(mem)
  {
    assert Program[0x00] == 0xA2 && Program[0x01] == 0x0A && Program[0x02] == 0x8E;
    assert Program[0x03] == 0x00 && Program[0x04] == 0x00 && Program[0x05] == 0xA2;
    assert Program[0x06] == 0x03 && Program[0x07] == 0x8E && Program[0x08] == 0x01;
    assert Program[0x09] == 0x00 && Program[0x0A] == 0xAC && Program[0x0B] == 0x00;
    assert Program[0x0C] == 0x00;
  }

  lemma {:induction false} LoadedBody(mem: Memory)
    requires Loaded(mem)
    ensures Body(mem)
  {
    assert Program[0x0D] == 0xA9 && Program[0x0E] == 0x00;
    assert Program[0x0F] == 0x18 && Program[0x10] == 0x6D && Program[0x11] == 0x01;
    assert Program[0x12] == 0x00 && Program[0x13] == 0x88 && Program[0x14] == 0xD0;
    assert Program[0x15] == 0xFA && Program[0x16] == 0x8D && Program[0x17] == 0x02;
    assert Program[0x18] == 0x00;
  }

  /** A write to page zero leaves the program in place. */
  lemma WriteKeepsCode(mem: Memory, addr: int, v: Byte)
    requires Code(mem) && 0 <= addr < 0x100
    ensures Code(Poke(mem, addr, v))
  {
  }

  /** The counter is at `pc` and the previous instruction is done. */
  predicate Ready(s: State, pc: Word) {
    s.pc == pc && s.remainingCycles == 0
  }

  /** A tick on a finished instruction runs the next one whole. */
  lemma TickRunsInstruction(s: State)
    requires s.remainingCycles <= 0
    ensures Tick(s) == Dispatch(Begin(s)).(remainingCycles := 0)
  {
  }

  // ---------------------------------------------------------------- the instructions

  /** What `clock` does with each instruction of the program, once its table entry is the
      current instruction. */
  lemma DispatchLdxImmediate(b: State)
    requires b.op == Instruction(LDX, Immediate, 2)
    ensures var d := Dispatch(b);
            d.pc == Inc16(b.pc) && d.x == Read(b, b.pc) && d.mem == b.mem
  {
  }

  lemma DispatchLdaImmediate(b: State)
    requires b.op == Instruction(LDA, Immediate, 2)
    ensures var d := Dispatch(b);
            d.pc == Inc16(b.pc) && d.a == Read(b, b.pc) && d.y == b.y && d.mem == b.mem
  {
  }

  lemma DispatchLdyAbsolute(b: State)
    requires b.op == Instruction(LDY, Absolute, 4)
    ensures var d := Dispatch(b);
            d.pc == Add16(b.pc, 2) && d.y == Read(b, ReadWord(b, b.pc)) && d.mem == b.mem
  {
  }

  lemma DispatchStx(b: State)
    requires b.op == Instruction(STX, Absolute, 4)
    ensures var d := Dispatch(b);
            d.pc == Add16(b.pc, 2) && d.mem == Poke(b.mem, ReadWord(b, b.pc), b.x)
  {
  }

  lemma DispatchSta(b: State)
    requires b.op == Instruction(STA, Absolute, 4)
    ensures var d := Dispatch(b);
            d.pc == Add16(b.pc, 2) && d.a == b.a && d.mem == Poke(b.mem, ReadWord(b, b.pc), b.a)
  {
  }

  lemma DispatchClc(b: State)
    requires b.op == Instruction(CLC, Implied, 2)
    ensures var d := Dispatch(b);
            d.pc == b.pc && FlagOf(d, Carry) == 0 && d.a == b.a && d.y == b.y && d.mem == b.mem
  {
  }

  lemma DispatchAdcAbsolute(b: State)
    requires b.op == Instruction(ADC, Absolute, 4)
    requires FlagOf(b, Carry) == 0 && b.a + Read(b, ReadWord(b, b.pc)) < 0x100
    ensures var d := Dispatch(b);
            && d.pc == Add16(b.pc, 2) && d.a == b.a + Read(b, ReadWord(b, b.pc))
            && FlagOf(d, Carry) == 0 && d.y == b.y && d.mem == b.mem
  {
    var r := AddrAbsolute(b);
    assert Addressing(b, b.op.mode) == r;
    assert Fetch(r.state).fetched == Read(b, ReadWord(b, b.pc));
    assert Operate(r.state, ADC) == Adc(r.state);
    Properties.AdcFlags(r.state);
  }

  lemma DispatchDey(b: State)
    requires b.op == Instruction(DEY, Implied, 2)
    ensures var d := Dispatch(b);
            && d.pc == b.pc && d.y == Dec8(b.y) && (FlagOf(d, Zero) == 1 <==> d.y == 0)
            && d.a == b.a && FlagOf(d, Carry) == FlagOf(b, Carry) && d.mem == b.mem
  {
  }

  lemma DispatchBne(b: State)
    requires b.op == Instruction(BNE, Relative, 2)
    ensures var d := Dispatch(b);
            && d.pc == (if FlagOf(b, Zero) == 0 then MoveRelative(Inc16(b.pc), Read(b, b.pc))
                        else Inc16(b.pc))
            && d.a == b.a && d.y == b.y && FlagOf(d, Carry) == FlagOf(b, Carry) && d.mem == b.mem
  {
  }

  // ---------------------------------------------------------------- one tick per instruction

  /** LDX #10 at 0x8000, as a relation between a state and the next. */
  predicate LdxTen(s: State, t: State) {
    Ready(s, 0x8000) && Read(s, 0x8000) == 0xA2 && Read(s, 0x8001) == 0x0A ==>
      Ready(t, 0x8002) && t.x == 10 && t.mem == s.mem
  }

  lemma TickLdxTen(s: State)
    ensures LdxTen(s, Tick(s))
  {
    if Ready(s, 0x8000) && Read(s, 0x8000) == 0xA2 && Read(s, 0x8001) == 0x0A {
      TickRunsInstruction(s);
      var b := Begin(s);
      assert b.pc == 0x8001 && b.mem == s.mem;
      assert b.op == Instruction(LDX, Immediate, 2);
      DispatchLdxImmediate(b);
    }
  }

  /** STX $0000 at 0x8002. */
  predicate StxFirst(s: State, t: State) {
    Ready(s, 0x8002) && Read(s, 0x8002) == 0x8E && Read(s, 0x8003) == 0 && Read(s, 0x8004) == 0 ==>
      Ready(t, 0x8005) && t.mem == Poke(s.mem, 0, s.x)
  }

  lemma TickStxFirst(s: State)
    ensures StxFirst(s, Tick(s))
  {
    if Ready(s, 0x8002) && Read(s, 0x8002) == 0x8E && Read(s, 0x8003) == 0 && Read(s, 0x8004) == 0 {
      TickRunsInstruction(s);
      var b := Begin(s);
      assert b.pc == 0x8003 && b.mem == s.mem;
      assert b.op == Instruction(STX, Absolute, 4);
      assert ReadWord(b, 0x8003) == ToWord(0, 0);
      DispatchStx(b);
    }
  }

  /** LDX #3 at 0x8005. */
  predicate LdxThree(s: State, t: State) {
    Ready(s, 0x8005) && Read(s, 0x8005) == 0xA2 && Read(s, 0x8006) == 0x03 ==>
      Ready(t, 0x8007) && t.x == 3 && t.mem == s.mem
  }

  lemma TickLdxThree(s: State)
    ensures LdxThree(s, Tick(s))
  {
    if Ready(s, 0x8005) && Read(s, 0x8005) == 0xA2 && Read(s, 0x8006) == 0x03 {
      TickRunsInstruction(s);
      var b := Begin(s);
      assert b.pc == 0x8006 && b.mem == s.mem;
      assert b.op == Instruction(LDX, Immediate, 2);
      DispatchLdxImmediate(b);
    }
  }

  /** STX $0001 at 0x8007. */
  predicate StxSecond(s: State, t: State) {
    Ready(s, 0x8007) && Read(s, 0x8007) == 0x8E && Read(s, 0x8008) == 1 && Read(s, 0x8009) == 0 ==>
      Ready(t, 0x800A) && t.mem == Poke(s.mem, 1, s.x)
  }

  lemma TickStxSecond(s: State)
    ensures StxSecond(s, Tick(s))
  {
    if Ready(s, 0x8007) && Read(s, 0x8007) == 0x8E && Read(s, 0x8008) == 1 && Read(s, 0x8009) == 0 {
      TickRunsInstruction(s);
      var b := Begin(s);
      assert b.pc == 0x8008 && b.mem == s.mem;
      assert b.op == Instruction(STX, Absolute, 4);
      assert ReadWord(b, 0x8008) == ToWord(1, 0);
      DispatchStx(b);
    }
  }

  /** LDY $0000 at 0x800A. */
  predicate LdyCounter(s: State, t: State) {
    Ready(s, 0x800A) && Read(s, 0x800A) == 0xAC && Read(s, 0x800B) == 0 && Read(s, 0x800C) == 0 ==>
      Ready(t, 0x800D) && t.y == Read(s, 0) && t.mem == s.mem
  }

  lemma TickLdyCounter(s: State)
    ensures LdyCounter(s, Tick(s))
  {
    if Ready(s, 0x800A) && Read(s, 0x800A) == 0xAC && Read(s, 0x800B) == 0 && Read(s, 0x800C) == 0 {
      TickRunsInstruction(s);
      var b := Begin(s);
      assert b.pc == 0x800B && b.mem == s.mem;
      assert b.op == Instruction(LDY, Absolute, 4);
      assert ReadWord(b, 0x800B) == ToWord(0, 0);
      DispatchLdyAbsolute(b);
    }
  }

  /** LDA #0 at 0x800D. */
  predicate LdaZero(s: State, t: State) {
    Ready(s, 0x800D) && Read(s, 0x800D) == 0xA9 && Read(s, 0x800E) == 0 ==>
      Ready(t, 0x800F) && t.a == 0 && t.y == s.y && t.mem == s.mem
  }

  lemma TickLdaZero(s: State)
    ensures LdaZero(s, Tick(s))
  {
    if Ready(s, 0x800D) && Read(s, 0x800D) == 0xA9 && Read(s, 0x800E) == 0 {
      TickRunsInstruction(s);
      var b := Begin(s);
      assert b.pc == 0x800E && b.mem == s.mem;
      assert b.op == Instruction(LDA, Immediate, 2);
      DispatchLdaImmediate(b);
    }
  }

  /** CLC at 0x800F. */
  predicate ClearCarry(s: State, t: State) {
    Ready(s, 0x800F) && Read(s, 0x800F) == 0x18 ==>
      Ready(t, 0x8010) && FlagOf(t, Carry) == 0 && t.a == s.a && t.y == s.y && t.mem == s.mem
  }

  lemma TickClearCarry(s: State)
    ensures ClearCarry(s, Tick(s))
  {
    if Ready(s, 0x800F) && Read(s, 0x800F) == 0x18 {
      TickRunsInstruction(s);
      var b := Begin(s);
      assert b.pc == 0x8010 && b.mem == s.mem;
      assert b.op == Instruction(CLC, Implied, 2);
      DispatchClc(b);
    }
  }

  /** ADC $0001 at 0x8010, when the sum fits in a byte and Carry is clear. */
  predicate AddOperand(s: State, t: State) {
    Ready(s, 0x8010) && Read(s, 0x8010) == 0x6D && Read(s, 0x8011) == 1 && Read(s, 0x8012) == 0
    && FlagOf(s, Carry) == 0 && s.a + Read(s, 1) < 0x100 ==>
      Ready(t, 0x8013) && t.a == s.a + Read(s, 1) && FlagOf(t, Carry) == 0 && t.y == s.y
      && t.mem == s.mem
  }

  lemma TickAddOperand(s: State)
    ensures AddOperand(s, Tick(s))
  {
    if Ready(s, 0x8010) && Read(s, 0x8010) == 0x6D && Read(s, 0x8011) == 1 && Read(s, 0x8012) == 0
       && FlagOf(s, Carry) == 0 && s.a + Read(s, 1) < 0x100 {
      TickRunsInstruction(s);
      var b := Begin(s);
      assert b.pc == 0x8011 && b.mem == s.mem;
      assert b.op == Instruction(ADC, Absolute, 4);
      assert ReadWord(b, 0x8011) == ToWord(1, 0);
      DispatchAdcAbsolute(b);
    }
  }

  /** DEY at 0x8013. */
  predicate CountDown(s: State, t: State) {
    Ready(s, 0x8013) && Read(s, 0x8013) == 0x88 ==>
      Ready(t, 0x8014) && t.y == Dec8(s.y) && (FlagOf(t, Zero) == 1 <==> t.y == 0)
      && t.a == s.a && FlagOf(t, Carry) == FlagOf(s, Carry) && t.mem == s.mem
  }

  lemma TickCountDown(s: State)
    ensures CountDown(s, Tick(s))
  {
    if Ready(s, 0x8013) && Read(s, 0x8013) == 0x88 {
      TickRunsInstruction(s);
      var b := Begin(s);
      assert b.pc == 0x8014 && b.mem == s.mem;
      assert b.op == Instruction(DEY, Implied, 2);
      DispatchDey(b);
    }
  }

  /** BNE back to 0x8010 at 0x8014: taken while Zero is clear. */
  predicate LoopBack(s: State, t: State) {
    Ready(s, 0x8014) && Read(s, 0x8014) == 0xD0 && Read(s, 0x8015) == 0xFA ==>
      Ready(t, if FlagOf(s, Zero) == 0 then 0x8010 else 0x8016)
      && t.a == s.a && t.y == s.y && FlagOf(t, Carry) == FlagOf(s, Carry) && t.mem == s.mem
  }

  lemma TickLoopBack(s: State)
    ensures LoopBack(s, Tick(s))
  {
    if Ready(s, 0x8014) && Read(s, 0x8014) == 0xD0 && Read(s, 0x8015) == 0xFA {
      TickRunsInstruction(s);
      var b := Begin(s);
      assert b.pc == 0x8015 && b.mem == s.mem;
      assert b.op == Instruction(BNE, Relative, 2);
      DispatchBne(b);
      assert MoveRelative(0x8016, 0xFA) == 0x8010;
    }
  }

  /** STA $0002 at 0x8016. */
  predicate StoreProduct(s: State, t: State) {
    Ready(s, 0x8016) && Read(s, 0x8016) == 0x8D && Read(s, 0x8017) == 2 && Read(s, 0x8018) == 0 ==>
      Ready(t, 0x8019) && t.a == s.a && t.mem == Poke(s.mem, 2, s.a)
  }

  lemma TickStoreProduct(s: State)
    ensures StoreProduct(s, Tick(s))
  {
    if Ready(s, 0x8016) && Read(s, 0x8016) == 0x8D && Read(s, 0x8017) == 2 && Read(s, 0x8018) == 0 {
      TickRunsInstruction(s);
      var b := Begin(s);
      assert b.pc == 0x8017 && b.mem == s.mem;
      assert b.op == Instruction(STA, Absolute, 4);
      assert ReadWord(b, 0x8017) == ToWord(2, 0);
      DispatchSta(b);
    }
  }

  /** A step function that does what a tick does with every instruction of the program. */
  ghost predicate FollowsProgram(step: State -> State) {
    forall s :: var t := step(s);
      && LdxTen(s, t) && StxFirst(s, t) && LdxThree(s, t) && StxSecond(s, t) && LdyCounter(s, t)
      && LdaZero(s, t) && ClearCarry(s, t) && AddOperand(s, t) && CountDown(s, t)
      && LoopBack(s, t) && StoreProduct(s, t)
  }

  lemma TickFollowsProgram()
    ensures FollowsProgram(Tick)
  {
    forall s
      ensures var t := Tick(s);
        && LdxTen(s, t) && StxFirst(s, t) && LdxThree(s, t) && StxSecond(s, t) && LdyCounter(s, t)
        && LdaZero(s, t) && ClearCarry(s, t) && AddOperand(s, t) && CountDown(s, t)
        && LoopBack(s, t) && StoreProduct(s, t)
    {
      TickLdxTen(s);
      TickStxFirst(s);
      TickLdxThree(s);
      TickStxSecond(s);
      TickLdyCounter(s);
      TickLdaZero(s);
      TickClearCarry(s);
      TickAddOperand(s);
      TickCountDown(s);
      TickLoopBack(s);
      TickStoreProduct(s);
    }
  }

  // ---------------------------------------------------------------- the whole run

  /** Running `m + n` steps is running `m` steps, then `n`. */
  lemma {:induction false} IterateSplits(step: State -> State, s: State, m: nat, n: nat)
    ensures Iterate(step, s, m + n) == Iterate(step, Iterate(step, s, m), n)
    decreases m
  {
    if m > 0 {
      IterateSplits(step, step(s), m - 1, n);
    }
  }

  /** At the top of the loop with `k` additions still to do. */
  predicate LoopHead(s: State, k: int) {
    && Ready(s, 0x8010) && 1 <= k <= 10 && s.y == k && s.a == 3 * (10 - k)
    && Read(s, 1) == 3 && FlagOf(s, Carry) == 0 && Code(s.mem)
  }

  /** The seven instructions before the loop store 10 and 3 in cells 0 and 1 and set up the
      counter, the accumulator and the carry. */
  lemma PrologueRuns(step: State -> State, s: State)
    requires FollowsProgram(step) && Ready(s, 0x8000) && Code(s.mem)
    ensures var t := Iterate(step, s, 7);
            LoopHead(t, 10) && t.mem == Poke(Poke(s.mem, 0, 10), 1, 3)
  {
    var s1 := step(s);
    assert LdxTen(s, s1);
    var s2 := step(s1);
    assert StxFirst(s1, s2);
    WriteKeepsCode(s1.mem, 0, 10);
    var s3 := step(s2);
    assert LdxThree(s2, s3);
    var s4 := step(s3);
    assert StxSecond(s3, s4);
    WriteKeepsCode(s3.mem, 1, 3);
    var s5 := step(s4);
    assert LdyCounter(s4, s5);
    var s6 := step(s5);
    assert LdaZero(s5, s6);
    var s7 := step(s6);
    assert ClearCarry(s6, s7);
    assert Iterate(step, s6, 1) == s7;
    assert Iterate(step, s5, 2) == s7;
    assert Iterate(step, s4, 3) == s7;
    assert Iterate(step, s3, 4) == s7;
    assert Iterate(step, s2, 5) == s7;
    assert Iterate(step, s1, 6) == s7;
  }

  /** One pass of the loop body (ADC, DEY, BNE) adds 3 and counts down; the branch goes back
      while the counter is not zero. */
  lemma LoopPass(step: State -> State, s: State, k: int)
    requires FollowsProgram(step) && LoopHead(s, k)
    ensures var t := Iterate(step, s, 3);
            && Ready(t, if k > 1 then 0x8010 else 0x8016) && t.y == k - 1
            && t.a == s.a + 3 && FlagOf(t, Carry) == 0 && t.mem == s.mem
  {
    var s1 := step(s);
    assert AddOperand(s, s1);
    var s2 := step(s1);
    assert CountDown(s1, s2);
    var s3 := step(s2);
    assert LoopBack(s2, s3);
    assert Iterate(step, s2, 1) == s3;
    assert Iterate(step, s1, 2) == s3;
  }

  /** The loop runs `k` passes and leaves 30 in the accumulator. */
  lemma {:induction false} LoopRuns(step: State -> State, s: State, k: int)
    requires FollowsProgram(step) && LoopHead(s, k)
    ensures var t := Iterate(step, s, 3 * k);
            Ready(t, 0x8016) && t.a == 30 && t.mem == s.mem
    decreases k
  {
    LoopPass(step, s, k);
    if k > 1 {
      var t := Iterate(step, s, 3);
      assert LoopHead(t, k - 1);
      LoopRuns(step, t, k - 1);
      IterateSplits(step, s, 3, 3 * (k - 1));
    }
  }

  /** From 0x8000, 38 instructions (7 before the loop, 10 passes of 3, the store) leave the
      product in cell 2, the operands in cells 0 and 1, and nothing else written. */
  lemma {:induction false} ProgramRuns(step: State -> State, s: State)
    requires FollowsProgram(step) && Ready(s, 0x8000) && Code(s.mem)
    ensures var t := Iterate(step, s, 38);
            && Ready(t, 0x8019) && t.a == 30
            && t.mem == Poke(Poke(Poke(s.mem, 0, 10), 1, 3), 2, 30)
  {
    PrologueRuns(step, s);
    var h := Iterate(step, s, 7);
    LoopRuns(step, h, 10);
    var e := Iterate(step, h, 30);
    assert StoreProduct(e, step(e));
    assert Iterate(step, e, 1) == step(e);
    IterateSplits(step, s, 7, 30);
    IterateSplits(step, s, 37, 1);
  }

  /** The emulator, booted on the front end's store and ticked 38 times, has computed ten
      times three: 30 in the accumulator and in cell 2, 10 and 3 in cells 0 and 1. */
  lemma {:induction false} DemoComputesProduct()
    ensures var t := Run(Boot(Image()), 38);
            && Ready(t, 0x8019) && t.a == 30 && Peek(t.mem, 2) == 30
            && t.mem == Poke(Poke(Poke(Image(), 0, 10), 1, 3), 2, 30)
  {
    var mem := Image();
    LoadedPrologue(mem);
    LoadedBody(mem);
    var boot := Boot(mem);
    assert boot.mem == mem;
    assert ReadWord(boot, 0xFFFC) == ToWord(0x00, 0x80);
    TickFollowsProgram();
    ProgramRuns(Tick, boot);
  }

  /** The front end end to end: a fresh bus, the load loop and the reset vector, a CPU on that
      bus, 38 presses of Tick (`clock` then `completeInstruction`), then cell 2 is read back. */
  method RunDemo() returns (product: Byte)
    ensures product == 30
  {
    var bus := new RamBus();
    var i := 0;
    while i < |Program|
      invariant 0 <= i <= |Program| && bus.Valid()
      invariant forall j | 0 <= j < i :: Peek(bus.Contents(), Origin + j) == Program[j]
      invariant forall addr | InRange(addr) && !(Origin <= addr < Origin + i) ::
                  Peek(bus.Contents(), addr) == 0
    {
      bus.Write(Origin + i, Program[i]);
      i := i + 1;
    }
    bus.Write(0xFFFC, 0x00);
    bus.Write(0xFFFD, 0x80);
    PeekDetermines(bus.Contents(), Image());
    var cpu := new Emulator.Cpu(bus);
    var n := 0;
    while n < 38
      invariant 0 <= n <= 38 && cpu.Valid() && cpu.bus == bus
      invariant cpu.View() == Run(Boot(Image()), n)
    {
      cpu.Clock();
      cpu.CompleteInstruction();
      IterateSplits(Tick, Boot(Image()), n, 1);
      n := n + 1;
    }
    DemoComputesProduct();
    product := bus.Read(2);
  }
}
