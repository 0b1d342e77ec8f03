# A verified model of the 6502 emulator core

This project models the instruction-level MOS 6502 emulator of the IDE:

- the processor class `CPU`: its registers, its cycle counter, its scratch fields, the
  256-entry opcode table, the twelve addressing-mode resolvers, the 56 instruction handlers,
  `reset`, `irq`, `nmi`, `clock` and `completeInstruction`;
- the memory bus `RamBus`: a range-checked store of 65536 bytes.

It then proves what the code promises about them.

## Layout

- `bytes.dfy` (`Bytes`): bytes and words as bounded integers.
  - A byte's bits are an `Octet` of eight booleans.
  - Pack and Unpack convert between the two forms and invert each other.
  - It also holds `&`, `|` and `^` on bytes, the 8- and 16-bit wrapping `++`, `--` and `+`,
    the two's-complement reading of a byte, and `toWord`.
- `status.dfy` (`StatusFlags`): the status register as eight flags.
  - `getFlag` and `setFlag` are defined on the flags.
  - Lemmas show they are the source's mask operations on the status byte.
- `bus.dfy` (`Bus`):
  - the store as a sequence of 65536 bytes, with `Peek` (read) and `Poke` (write);
  - the class `RamBus` over an `array` of 65536 bytes.
- `opcodes.dfy` (`Opcodes`): mnemonics, addressing modes and the opcode table.
  - The table is given one row of sixteen entries at a time, as in the source.
  - A lemma shows every one of the 256 entries is well formed.
- `alu.dfy` (`Alu`): the arithmetic inside ADC, SBC, CMP, the shifts and BIT, as pure
  functions with contracts.
- `semantics.dfy` (`Semantics`): the processor as a `State` value and one function per source
  method. These functions are the specification the class is proved against.
- `cpu.dfy` (`Emulator`): the class `Cpu`.
  - Its fields are the source's fields.
  - Its methods update them step by step and write the bus.
  - Each method's `ensures` ties the new state (`View()`) to the specification function
    applied to the old state.
- `properties.dfy` (`Properties`): lemmas about the specification, covering reset, clock,
  the addressing modes, ADC/SBC/compare flags, branch timing, interrupts and stack round trips.
- `demo.dfy` (`Demo`): the program the front end loads, which multiplies 10 by 3 through
  repeated addition.
  - It proves that 38 ticks of the emulator leave 30 in memory cell 2.
  - A method drives the real `RamBus` and `Cpu` objects through the same run.

The source's `this.pc && 0xFF00` in BCC, BCS and BEQ is a JavaScript logical AND. It is
modelled as such: 0 when `pc` is 0, otherwise 0xFF00. The other deviations from the usual
6502 behaviour are also reproduced as written:

- IRQ is serviced only while the Interrupt flag is set.
- The status byte is pushed at `0x0011 + sp`.
- RTS pops one byte.
- TXS copies A.
- Compares set Carry on a strict `>`.
- The zero-page pointers of the indexed indirect modes are not wrapped.

## Model

| member | source | states |
|---|---|---|
| Bus.Peek | src/activities/emulator/Bus.ts:14-19 | an address outside 0x0000..0xFFFF reads as 0 |
| Bus.Poke | src/activities/emulator/Bus.ts:21-25 | a write in range makes the cell read back the value written; every other cell reads as before; a write out of range leaves the store unchanged |
| Bus.PeekDetermines | src/activities/emulator/Bus.ts:11 | the 65536 cells, read one by one, determine the whole store |
| Bus.PokesCommute | src/activities/emulator/Bus.ts:21-25 | writes to two different cells can be done in either order |
| Bus.RamBus.constructor | src/activities/emulator/Bus.ts:10-12 | a fresh array of exactly 65536 cells, all reading 0 |
| Bus.RamBus.Read | src/activities/emulator/Bus.ts:14-19 | returns the array cell for an address in range and 0 otherwise; it has no modifies clause, so it changes nothing |
| Bus.RamBus.Write | src/activities/emulator/Bus.ts:21-25 | the new contents are the old with only cell `addr` replaced, or unchanged when `addr` is out of range |
| Bytes.PackUnpack | src/activities/emulator/CPU.ts:137-147 | the eight flag bits of a byte add back up to the byte |
| Bytes.UnpackPack | src/activities/emulator/CPU.ts:137-147 | a byte has exactly one bit pattern, so the flag form loses nothing |
| Bytes.BitsDetermineByte | src/activities/emulator/CPU.ts:137-147 | two bytes with the same bits are equal |
| Bytes.BitAnd | src/activities/emulator/CPU.ts:326-332 | bit 7 of `x & y` is set exactly when it is set in both |
| Bytes.BitOr | src/activities/emulator/CPU.ts:628-634 | bit 7 of `x \| y` is set exactly when it is set in either |
| Bytes.BitXor | src/activities/emulator/CPU.ts:539-545 | `x ^ y` is 0 exactly when x equals y; its bit 7 is set when exactly one operand's is |
| Bytes.XorAllOnes | src/activities/emulator/CPU.ts:314-324 | `m ^ 0xFF` is the one's complement `0xFF - m` |
| Bytes.XorTwice | src/activities/emulator/CPU.ts:539-545 | exclusive-or with the same byte twice gives the byte back |
| Bytes.AndOrIdentities | src/activities/emulator/CPU.ts:326-332 | AND with 0xFF and OR with 0 keep a byte; AND with 0 gives 0; OR with 0xFF gives 0xFF |
| Bytes.Low8 | src/activities/emulator/CPU.ts:303-312 | `t & 0xFF` of an intermediate value agrees with it modulo 256 |
| Bytes.Signed | src/activities/emulator/CPU.ts:787-793 | the two's-complement value of a byte lies in -128..127, and its low byte is the byte |
| Bytes.Inc8 | src/activities/emulator/CPU.ts:556-561 | 8-bit `++` is one more modulo 256 |
| Bytes.Dec8 | src/activities/emulator/CPU.ts:525-530 | 8-bit `--` is one less modulo 256 |
| Bytes.Add16 | src/activities/emulator/CPU.ts:249-256 | 16-bit addition modulo 0x10000 |
| Bytes.ToWord | src/activities/emulator/CPU.ts:127-131 | the little-endian word has low byte `lo` and high byte `hi` |
| Bytes.SplitJoin | src/activities/emulator/CPU.ts:127-131 | splitting a word into bytes and joining them gives the word back |
| StatusFlags.SetFlag | src/activities/emulator/CPU.ts:137-143 | the named flag reads back the value set |
| StatusFlags.SetFlagKeepsOthers | src/activities/emulator/CPU.ts:137-143 | setting one flag leaves every other flag unchanged |
| StatusFlags.ByteRoundTrip | src/activities/emulator/CPU.ts:20-29 | the status byte survives the flag form both ways |
| StatusFlags.MaskBits | src/activities/emulator/CPU.ts:20-29 | each flag's mask `1 << k` has exactly that flag's bit set |
| StatusFlags.GetFlag | src/activities/emulator/CPU.ts:145-147 | `getFlag` as a read of the flag's own bit; its relation to `status & mask` is stated by `StatusFlags.GetFlagIsMaskTest` |
| StatusFlags.GetFlagIsMaskTest | src/activities/emulator/CPU.ts:145-147 | `getFlag` is 1 exactly when `status & mask` is non-zero |
| StatusFlags.SetFlagIsOrMask | src/activities/emulator/CPU.ts:137-143 | setting a flag is `status \| mask` |
| StatusFlags.ClearFlagIsAndNotMask | src/activities/emulator/CPU.ts:137-143 | clearing a flag is `status & ~mask` within the byte |
| Opcodes.Decode | src/activities/emulator/CPU.ts:51-68 | the 256-entry opcode table, entry by entry (mnemonic, addressing mode, base cycles); its properties are stated by `Opcodes.DecodeWellFormed` |
| Opcodes.DecodeWellFormed | src/activities/emulator/CPU.ts:49-71 | in all 256 table entries: exactly the eight branches are relative; only JMP is indirect; INC, DEC and the stores address memory; at most 8 cycles; only placeholders take 0 |
| Alu.Adc | src/activities/emulator/CPU.ts:303-312 | the result and the carry together are `a + m + C`; overflow holds exactly when the signed sum leaves -128..127 |
| Alu.Sbc | src/activities/emulator/CPU.ts:314-324 | the result minus the borrow is `a - m - (1 - C)`; overflow holds exactly when the signed difference leaves -128..127 |
| Alu.SbcIsAdcOfComplement | src/activities/emulator/CPU.ts:314-324 | SBC is ADC of `m ^ 0xFF` |
| Alu.Compare | src/activities/emulator/CPU.ts:489-496 | Zero exactly when the register equals the operand; Negative is bit 7 of the low byte of `r - m` |
| Alu.CompareAgainstSubtraction | src/activities/emulator/CPU.ts:489-514 | compare sets Zero and Negative as SBC with the carry set does; its Carry is SBC's carry minus the equal case, from the strict `>` |
| Alu.Asl | src/activities/emulator/CPU.ts:334-346 | the result and the carry together are `2 * m` |
| Alu.Lsr | src/activities/emulator/CPU.ts:610-622 | twice the result plus the carry is `m`; bit 7 of the result is clear |
| Alu.Rol | src/activities/emulator/CPU.ts:665-677 | the result and the carry together are `2 * m + C` |
| Alu.Ror | src/activities/emulator/CPU.ts:679-691 | twice the result plus the carry is `m + 256 * C` |
| Alu.RorUndoesRol | src/activities/emulator/CPU.ts:665-691 | ROL then ROR through the carry restores the byte and the carry |
| Alu.RolUndoesRor | src/activities/emulator/CPU.ts:665-691 | ROR then ROL through the carry restores the byte and the carry |
| Alu.TestBits | src/activities/emulator/CPU.ts:384-391 | Negative is bit 7 and Overflow bit 6 of the operand; Zero when A is 0 |
| Semantics.Fetch | src/activities/emulator/CPU.ts:297-301 | in every mode but implied, `fetched` becomes the byte at `absoluteAddress`; nothing else changes |
| Semantics.Offset | src/activities/emulator/CPU.ts:787-793 | the signed branch offset lies in -128..127 |
| Emulator.Cpu.constructor | src/activities/emulator/CPU.ts:49-71 | a processor on the given bus, in the state a reset leaves with the cycle counter at 0 (`Semantics.Boot`) |
| Emulator.Cpu.Read | src/activities/emulator/CPU.ts:123-125 | the byte the bus holds at `addr` |
| Emulator.Cpu.ReadWord | src/activities/emulator/CPU.ts:127-131 | the little-endian word of the bytes at `addr` and `addr + 1` |
| Emulator.Cpu.Write | src/activities/emulator/CPU.ts:133-135 | the bus contents with one cell replaced |
| Emulator.Cpu.SetFlag | src/activities/emulator/CPU.ts:137-143 | only the named flag of `status` changes, to the given bit |
| Emulator.Cpu.Reset | src/activities/emulator/CPU.ts:73-83 | the new state is `Semantics.Reset` of the old (see `Properties.ResetState`) |
| Emulator.Cpu.Irq | src/activities/emulator/CPU.ts:85-93 | the new state is `Semantics.Irq` of the old (see `Properties.IrqVector`) |
| Emulator.Cpu.Nmi | src/activities/emulator/CPU.ts:95-99 | the new state is `Semantics.Nmi` of the old (see `Properties.NmiVector`) |
| Emulator.Cpu.Clock | src/activities/emulator/CPU.ts:101-117 | the new state is `Semantics.Clock` of the old (see `Properties.ClockWhileBusy` and `Properties.ClockStartsInstruction`) |
| Emulator.Cpu.Begin | src/activities/emulator/CPU.ts:102-107 | reads the opcode, sets Unused, steps `pc` and loads the table entry and its base cycles, as `Semantics.Begin` |
| Emulator.Cpu.Dispatch | src/activities/emulator/CPU.ts:109-113 | resolves the operand, runs the handler, adds the AND of the two extra-cycle bits and sets Unused, as `Semantics.Dispatch` |
| Emulator.Cpu.CompleteInstruction | src/activities/emulator/CPU.ts:119-121 | only the cycle counter changes, to 0 |
| Emulator.Cpu.SaveStateToStack | src/activities/emulator/CPU.ts:149-160 | the new state is `Semantics.SaveStateToStack` of the old (see `Properties.SaveStateFrame`) |
| Emulator.Cpu.Addressing | src/activities/emulator/CPU.ts:162-204 | the new state and the extra-cycle bit are those of the mode's resolver |
| Emulator.Cpu.AddressingImplied | src/activities/emulator/CPU.ts:206-209 | `fetched` takes A; no extra cycle |
| Emulator.Cpu.AddressingImmediate | src/activities/emulator/CPU.ts:211-214 | the operand address is `pc`, which steps past it |
| Emulator.Cpu.AddressingZeroPage | src/activities/emulator/CPU.ts:216-221 | the address is the operand byte, in page 0 |
| Emulator.Cpu.AddressingZeroPageX | src/activities/emulator/CPU.ts:223-228 | the operand byte plus X modulo 256 |
| Emulator.Cpu.AddressingZeroPageY | src/activities/emulator/CPU.ts:230-235 | the operand byte plus Y modulo 256 |
| Emulator.Cpu.AddressingRelative | src/activities/emulator/CPU.ts:237-241 | `relativeAddress` takes the operand byte |
| Emulator.Cpu.AddressingAbsolute | src/activities/emulator/CPU.ts:243-247 | the address is the operand word; `pc` steps by 2 |
| Emulator.Cpu.AddressingAbsoluteXOffset | src/activities/emulator/CPU.ts:249-256 | the operand word plus X, with an extra cycle on a page cross (see `Properties.AbsoluteIndexedPageCross`) |
| Emulator.Cpu.AddressingAbsoluteYOffset | src/activities/emulator/CPU.ts:258-265 | the operand word plus Y, with an extra cycle on a page cross (see `Properties.AbsoluteIndexedPageCross`) |
| Emulator.Cpu.AddressingIndirect | src/activities/emulator/CPU.ts:267-278 | the word at the pointer, with the page bug for a pointer ending in 0xFF (see `Properties.IndirectPointer`) |
| Emulator.Cpu.AddressingIndirectX | src/activities/emulator/CPU.ts:280-285 | the word at operand plus X, unwrapped (see `Properties.IndirectXDoesNotWrap`) |
| Emulator.Cpu.AddressingIndirectY | src/activities/emulator/CPU.ts:287-295 | the word at the zero-page operand plus Y, with an extra cycle on a page cross (see `Properties.IndirectYPageCross`) |
| Emulator.Cpu.Fetch | src/activities/emulator/CPU.ts:297-301 | returns and stores the operand byte (see `Semantics.Fetch`) |
| Emulator.Cpu.MoveRelative | src/activities/emulator/CPU.ts:787-793 | the branch target for `pc` and `relativeAddress`, without changing the state (see `Properties.RelativeOffset`) |
| Emulator.Cpu.Operate | src/activities/emulator/CPU.ts:52-67 | runs the handler of the mnemonic and returns its extra-cycle bit: 1 for the page-cross-eligible handlers, 0 otherwise (ORA and EOR return 0) |
| Emulator.Cpu.OperateAlu | src/activities/emulator/CPU.ts:303-346 | the handler of an arithmetic, logic, compare or shift mnemonic, with its extra-cycle bit |
| Emulator.Cpu.OperateBranch | src/activities/emulator/CPU.ts:348-467 | the handler of one of the eight branches |
| Emulator.Cpu.OperateFlagCount | src/activities/emulator/CPU.ts:469-568 | the handler of a flag-setting, increment or decrement mnemonic |
| Emulator.Cpu.OperateControl | src/activities/emulator/CPU.ts:570-711 | the handler of a jump, stack, return, NOP or illegal-opcode mnemonic |
| Emulator.Cpu.OperateTransfer | src/activities/emulator/CPU.ts:586-781 | the handler of a load, store or register transfer |
| Emulator.Cpu.Adc | src/activities/emulator/CPU.ts:303-312 | as `Semantics.Adc`: A, Carry, Zero, Overflow and Negative as `Properties.AdcFlags` states; returns 1 |
| Emulator.Cpu.Sbc | src/activities/emulator/CPU.ts:314-324 | as `Semantics.Sbc`: flags as `Properties.SbcFlags` states; returns 1 |
| Emulator.Cpu.And | src/activities/emulator/CPU.ts:326-332 | A becomes `A & m`, with Zero and Negative set from it; returns 1 |
| Emulator.Cpu.Ora | src/activities/emulator/CPU.ts:628-634 | A becomes `A \| m`, with Zero and Negative set from it; returns 0 |
| Emulator.Cpu.Eor | src/activities/emulator/CPU.ts:539-545 | A becomes `A ^ m`, with Zero and Negative set from it; returns 0 |
| Emulator.Cpu.Bit | src/activities/emulator/CPU.ts:384-391 | Zero, Negative and Overflow as `Alu.TestBits`; A unchanged |
| Emulator.Cpu.Cmp | src/activities/emulator/CPU.ts:489-496 | flags from comparing A with the operand (see `Properties.CompareFlags`) |
| Emulator.Cpu.Cpx | src/activities/emulator/CPU.ts:498-505 | flags from comparing X with the operand |
| Emulator.Cpu.Cpy | src/activities/emulator/CPU.ts:507-514 | flags from comparing Y with the operand |
| Emulator.Cpu.Asl | src/activities/emulator/CPU.ts:334-346 | shift left into Carry, writing A in implied mode and the memory cell otherwise |
| Emulator.Cpu.Lsr | src/activities/emulator/CPU.ts:610-622 | shift right into Carry, writing A or the cell |
| Emulator.Cpu.Rol | src/activities/emulator/CPU.ts:665-677 | rotate left through Carry, writing A or the cell |
| Emulator.Cpu.Ror | src/activities/emulator/CPU.ts:679-691 | rotate right through Carry, writing A or the cell |
| Emulator.Cpu.BranchIf | src/activities/emulator/CPU.ts:348-358 | an untaken branch changes nothing; a taken one adds a cycle, plus one on a page cross, and moves `pc` (see `Properties.BranchTiming`) |
| Emulator.Cpu.Bcc | src/activities/emulator/CPU.ts:348-358 | branch on Carry clear, comparing the target against `pc && 0xFF00` |
| Emulator.Cpu.Bcs | src/activities/emulator/CPU.ts:360-370 | branch on Carry set, comparing the target against `pc && 0xFF00` |
| Emulator.Cpu.Beq | src/activities/emulator/CPU.ts:372-382 | branch on Zero set, comparing the target against `pc && 0xFF00` |
| Emulator.Cpu.Bmi | src/activities/emulator/CPU.ts:393-403 | branch on Negative set |
| Emulator.Cpu.Bne | src/activities/emulator/CPU.ts:405-415 | branch on Zero clear |
| Emulator.Cpu.Bpl | src/activities/emulator/CPU.ts:417-427 | branch on Negative clear |
| Emulator.Cpu.Bvc | src/activities/emulator/CPU.ts:445-455 | branch on Overflow clear |
| Emulator.Cpu.Bvs | src/activities/emulator/CPU.ts:457-467 | branch on Overflow set |
| Emulator.Cpu.Clc | src/activities/emulator/CPU.ts:469-472 | only Carry changes, to 0 |
| Emulator.Cpu.Cld | src/activities/emulator/CPU.ts:474-477 | only Decimal changes, to 0 |
| Emulator.Cpu.Cli | src/activities/emulator/CPU.ts:479-482 | only Interrupt changes, to 0 |
| Emulator.Cpu.Clv | src/activities/emulator/CPU.ts:484-487 | only Overflow changes, to 0 |
| Emulator.Cpu.Sec | src/activities/emulator/CPU.ts:713-716 | only Carry changes, to 1 |
| Emulator.Cpu.Sed | src/activities/emulator/CPU.ts:718-721 | only Decimal changes, to 1 |
| Emulator.Cpu.Sei | src/activities/emulator/CPU.ts:723-726 | only Interrupt changes, to 1 |
| Emulator.Cpu.Dec | src/activities/emulator/CPU.ts:516-523 | the cell at the operand address decreases by one modulo 256, with Zero and Negative set from it |
| Emulator.Cpu.Inc | src/activities/emulator/CPU.ts:547-554 | the cell increases by one modulo 256, with Zero and Negative set from it |
| Emulator.Cpu.Dex | src/activities/emulator/CPU.ts:525-530 | X decreases by one modulo 256, with Zero and Negative set from it |
| Emulator.Cpu.Dey | src/activities/emulator/CPU.ts:532-537 | Y decreases by one modulo 256, with Zero and Negative set from it |
| Emulator.Cpu.Inx | src/activities/emulator/CPU.ts:556-561 | X increases by one modulo 256, with Zero and Negative set from it |
| Emulator.Cpu.Iny | src/activities/emulator/CPU.ts:563-568 | Y increases by one modulo 256, with Zero and Negative set from it |
| Emulator.Cpu.Jmp | src/activities/emulator/CPU.ts:570-573 | `pc` takes the operand address |
| Emulator.Cpu.Jsr | src/activities/emulator/CPU.ts:575-584 | pushes `pc - 1` high byte first, then jumps (see `Properties.JsrThenRts`) |
| Emulator.Cpu.Rts | src/activities/emulator/CPU.ts:706-711 | pulls the return address with a single stack increment, then adds 1 |
| Emulator.Cpu.Brk | src/activities/emulator/CPU.ts:429-443 | pushes `pc + 1` and the status with Break set, sets Interrupt and loads `pc` from 0xFFFE/0xFFFF (see `Properties.BrkThenRti`) |
| Emulator.Cpu.Rti | src/activities/emulator/CPU.ts:693-704 | pulls the status with Break and Unused cleared, then `pc` plus 1 |
| Emulator.Cpu.Lda | src/activities/emulator/CPU.ts:586-592 | A takes the operand, with Zero and Negative set from it |
| Emulator.Cpu.Ldx | src/activities/emulator/CPU.ts:594-600 | X takes the operand, with Zero and Negative set from it |
| Emulator.Cpu.Ldy | src/activities/emulator/CPU.ts:602-608 | Y takes the operand, with Zero and Negative set from it |
| Emulator.Cpu.Sta | src/activities/emulator/CPU.ts:728-731 | only the cell at the operand address changes, to A |
| Emulator.Cpu.Stx | src/activities/emulator/CPU.ts:733-736 | only the cell at the operand address changes, to X |
| Emulator.Cpu.Sty | src/activities/emulator/CPU.ts:738-741 | only the cell at the operand address changes, to Y |
| Emulator.Cpu.Tax | src/activities/emulator/CPU.ts:743-748 | X takes A, with Zero and Negative set from it |
| Emulator.Cpu.Tay | src/activities/emulator/CPU.ts:750-755 | Y takes A, with Zero and Negative set from it |
| Emulator.Cpu.Tsx | src/activities/emulator/CPU.ts:757-762 | X takes `sp`, with Zero and Negative set from it |
| Emulator.Cpu.Txa | src/activities/emulator/CPU.ts:764-769 | A takes X, with Zero and Negative set from it |
| Emulator.Cpu.Txs | src/activities/emulator/CPU.ts:771-774 | `sp` takes A, as the source writes it (see `Properties.TxsThenTsx`) |
| Emulator.Cpu.Tya | src/activities/emulator/CPU.ts:776-781 | A takes Y, with Zero and Negative set from it |
| Emulator.Cpu.Pha | src/activities/emulator/CPU.ts:636-640 | A is written at `0x100 + sp` and `sp` decreases |
| Emulator.Cpu.Php | src/activities/emulator/CPU.ts:642-648 | the status with Unused and Break set is pushed at `0x100 + sp`, then Break and Unused are cleared in the register and `sp` decreases |
| Emulator.Cpu.Pla | src/activities/emulator/CPU.ts:650-656 | `sp` increases and A takes the byte there, with Zero and Negative set from it |
| Emulator.Cpu.Plp | src/activities/emulator/CPU.ts:658-663 | `sp` increases and the status takes the byte there, with Unused set |
| Emulator.Cpu.Nop | src/activities/emulator/CPU.ts:624-626 | changes nothing and returns 0 |
| Emulator.Cpu.Xxx | src/activities/emulator/CPU.ts:783-785 | changes nothing and returns 0 |
| Properties.ResetState | src/activities/emulator/CPU.ts:73-83 | `pc` is the word at 0xFFFC/0xFFFD; A = X = Y = 0, `sp` = 0xFD, status byte 0x20, 8 cycles; memory and the scratch fields unchanged |
| Properties.ResetDeterministic | src/activities/emulator/CPU.ts:73-83 | two states with the same vector bytes reset to the same registers |
| Properties.ClockWhileBusy | src/activities/emulator/CPU.ts:101-117 | with cycles remaining, `clock` only counts one down |
| Properties.AddressingSkipsOperand | src/activities/emulator/CPU.ts:162-295 | every resolver moves `pc` past exactly its operand bytes and leaves the counter, the instruction and memory alone |
| Properties.OperateKeepsCounters | src/activities/emulator/CPU.ts:303-785 | no handler changes the current instruction; only branches touch the cycle counter; only branches, jumps, returns and BRK move `pc` |
| Properties.ClockStartsInstruction | src/activities/emulator/CPU.ts:101-117 | starting an instruction loads the table entry of the opcode at `pc` and leaves Unused set; for a non-branch, the counter is base cycles plus (resolver bit AND handler bit) minus 1; `pc` passes the opcode and its operand |
| Properties.ZeroPageStaysInPageZero | src/activities/emulator/CPU.ts:216-235 | zero-page addresses are the operand, or operand plus X or Y, modulo 256 |
| Properties.ZeroPageXWrapsToZero | src/activities/emulator/CPU.ts:223-228 | base 0xFF with X = 1 resolves to 0x0000 |
| Properties.IndirectPointer | src/activities/emulator/CPU.ts:267-278 | the target is the word at the pointer; a pointer ending in 0xFF takes its high byte from the start of its own page |
| Properties.IndirectPageBug | src/activities/emulator/CPU.ts:267-278 | pointer 0x30FF reads 0x30FF and 0x3000, not 0x3100 |
| Properties.AbsoluteIndexedPageCross | src/activities/emulator/CPU.ts:249-265 | the target is the operand word plus the index modulo 0x10000; the bit is 1 exactly when the high byte changes |
| Properties.IndirectYPageCross | src/activities/emulator/CPU.ts:287-295 | the target is the pointed word plus Y; the bit is 1 exactly when the high byte changes |
| Properties.IndirectXDoesNotWrap | src/activities/emulator/CPU.ts:280-285 | base 0xFF with X = 1 reads the pointer from 0x0100/0x0101 |
| Properties.AdcFrame | src/activities/emulator/CPU.ts:303-312 | ADC keeps Interrupt, Decimal, Break and Unused; apart from the fetched operand it changes only A and the status |
| Properties.AdcFlags | src/activities/emulator/CPU.ts:303-312 | with t = A + m + C: A = t mod 256, Carry iff t > 255, Zero iff t mod 256 = 0, Negative from bit 7, Overflow iff the operands share a sign that the result lacks; Interrupt, Decimal, Break and Unused are kept, and nothing but A, the status and the fetched operand changes |
| Properties.AdcExample | src/activities/emulator/CPU.ts:303-312 | 0x50 + 0x50 with Carry clear gives 0xA0, with C = 0, Z = 0, V = 1 and N = 1 |
| Properties.SbcFlags | src/activities/emulator/CPU.ts:314-324 | with t = A - m - (1 - C): A = t mod 256, Carry iff t >= 0, Overflow iff the signed difference leaves -128..127 |
| Properties.ComparisonFlags | src/activities/emulator/CPU.ts:489-496 | compare flags: Carry iff r > m, Zero iff r = m, Negative from bit 7 of r - m |
| Properties.CompareFlags | src/activities/emulator/CPU.ts:489-514 | CMP, CPX and CPY compare A, X and Y with the operand: Carry on a strict `>`, Zero on equality, Negative from bit 7 of the difference modulo 256; apart from fetching the operand only the status changes |
| Properties.RelativeOffset | src/activities/emulator/CPU.ts:787-793 | an offset byte of 0x80 or more counts `value - 256`; the target is `pc` plus the offset modulo 0x10000 |
| Properties.BranchTiming | src/activities/emulator/CPU.ts:348-467 | untaken: nothing changes; taken: `pc` is the target, one cycle plus one on a page cross (against `pc && 0xFF00` for BCC/BCS/BEQ), nothing else changes |
| Properties.LogicalAndQuirk | src/activities/emulator/CPU.ts:372-382 | a same-page BEQ costs two extra cycles where BNE costs one |
| Properties.SaveStateFrame | src/activities/emulator/CPU.ts:149-160 | PC high at `0x100 + sp`, PC low at `0x100 + sp - 1`, the status at `0x11 + sp - 2`; Interrupt set, Break clear, Unused set; `sp` down by 3; no other cell changes |
| Properties.NmiVector | src/activities/emulator/CPU.ts:95-99 | `nmi` saves the state, loads `pc` from 0xFFFA/0xFFFB and takes 8 cycles |
| Properties.IrqVector | src/activities/emulator/CPU.ts:85-93 | with Interrupt clear `irq` changes nothing; with it set, the `nmi` frame, the vector 0xFFFE/0xFFFF and 7 cycles |
| Properties.PhaThenPla | src/activities/emulator/CPU.ts:636-656 | PHA then PLA gives A and `sp` back |
| Properties.PhpThenPlp | src/activities/emulator/CPU.ts:642-663 | PHP then PLP gives the status back with Unused and Break set, and `sp` back |
| Properties.JsrThenRts | src/activities/emulator/CPU.ts:575-584 | JSR then RTS returns to the instruction after the JSR, with `sp` one below where it was |
| Properties.BrkPushes | src/activities/emulator/CPU.ts:429-443 | BRK stores the high and low bytes of `pc + 1` and the status with Interrupt and Break set at `0x100 + sp`, `sp - 1`, `sp - 2` (modulo 256) and lowers `sp` by three |
| Properties.NmiPushes | src/activities/emulator/CPU.ts:149-160 | `nmi` stores the high and low bytes of `pc` at `0x100 + sp` and `sp - 1`, leaves the cell at `sp - 2` holding the old memory value and lowers `sp` by three |
| Properties.RtiPulls | src/activities/emulator/CPU.ts:693-704 | RTI reads the status from `0x100 + sp + 1` with Break and Unused cleared, `pc` from `sp + 2`/`sp + 3` plus one, and raises `sp` by three (modulo 256) |
| Properties.BrkThenRti | src/activities/emulator/CPU.ts:693-704 | for every `sp` except 0, BRK then RTI resumes at `pc + 2` with `sp` restored and the status with Interrupt set, Break and Unused cleared |
| Properties.NmiThenRti | src/activities/emulator/CPU.ts:693-704 | for every `sp` except 0, `nmi` then RTI resumes one past the interrupted `pc`, with `sp` restored and the status read from `0x100 + Dec8(Dec8(sp))` with Break and Unused cleared |
| Properties.StaThenLda | src/activities/emulator/CPU.ts:728-731 | loading from the cell just stored gives A back |
| Properties.EorTwice | src/activities/emulator/CPU.ts:539-545 | EOR with the same operand twice gives A back |
| Properties.IncThenDec | src/activities/emulator/CPU.ts:516-554 | INC then DEC on a cell gives the store back |
| Properties.IndexCountersUndo | src/activities/emulator/CPU.ts:525-568 | INX undoes DEX, and INY undoes DEY |
| Properties.TxsThenTsx | src/activities/emulator/CPU.ts:771-774 | TXS then TSX puts A in X |
| Properties.TaxThenTxa | src/activities/emulator/CPU.ts:743-769 | TAX then TXA keeps A and makes X equal to it |
| Demo.Image | src/reducers/emulator.ts:9-14 | the store after loading holds the program at 0x8000 and the reset vector 0x8000 |
| Demo.LoadedPrologue | src/reducers/emulator.ts:6-8 | the loaded store holds the program's first thirteen bytes at 0x8000.. |
| Demo.LoadedBody | src/reducers/emulator.ts:6-8 | the loaded store holds the loop and the final store at 0x800D.. |
| Demo.WriteKeepsCode | src/activities/emulator/Bus.ts:21-25 | a write to page 0 leaves the program's bytes in place |
| Demo.TickRunsInstruction | src/components/CPU.tsx:38-41 | a tick on a finished instruction runs one whole instruction and ends with 0 cycles left |
| Demo.TickLdxTen | src/activities/emulator/CPU.ts:594-600 | LDX #10 at 0x8000: X = 10, next at 0x8002 |
| Demo.TickStxFirst | src/activities/emulator/CPU.ts:733-736 | STX $0000: cell 0 takes X, next at 0x8005 |
| Demo.TickLdxThree | src/activities/emulator/CPU.ts:594-600 | LDX #3: X = 3, next at 0x8007 |
| Demo.TickStxSecond | src/activities/emulator/CPU.ts:733-736 | STX $0001: cell 1 takes X, next at 0x800A |
| Demo.TickLdyCounter | src/activities/emulator/CPU.ts:602-608 | LDY $0000: Y takes cell 0, next at 0x800D |
| Demo.TickLdaZero | src/activities/emulator/CPU.ts:586-592 | LDA #0: A = 0, next at 0x800F |
| Demo.TickClearCarry | src/activities/emulator/CPU.ts:469-472 | CLC: Carry 0, next at 0x8010 |
| Demo.TickAddOperand | src/activities/emulator/CPU.ts:303-312 | ADC $0001 without carry out: A grows by cell 1, Carry stays 0, next at 0x8013 |
| Demo.TickCountDown | src/activities/emulator/CPU.ts:532-537 | DEY: Y down by one, Zero iff Y = 0, next at 0x8014 |
| Demo.TickLoopBack | src/activities/emulator/CPU.ts:405-415 | BNE -6: back to 0x8010 while Zero is clear, else on to 0x8016 |
| Demo.TickStoreProduct | src/activities/emulator/CPU.ts:728-731 | STA $0002: cell 2 takes A, next at 0x8019 |
| Demo.TickFollowsProgram | src/components/CPU.tsx:38-41 | a tick does all of the above, so it follows the program |
| Demo.IterateSplits | src/components/CPU.tsx:38-41 | m + n ticks are m ticks then n |
| Demo.PrologueRuns | src/reducers/emulator.ts:6-8 | the first seven instructions put 10 and 3 in cells 0 and 1, Y = 10, A = 0, Carry 0, at the loop head |
| Demo.LoopPass | src/reducers/emulator.ts:6-8 | one pass of ADC, DEY, BNE adds 3 to A, counts Y down and loops back while Y is not 0 |
| Demo.LoopRuns | src/reducers/emulator.ts:6-8 | the loop ends at 0x8016 with A = 30 and memory unchanged |
| Demo.ProgramRuns | src/reducers/emulator.ts:6-8 | 38 instructions from 0x8000 leave A = 30 and store 10, 3, 30 in cells 0, 1, 2, writing nothing else |
| Demo.DemoComputesProduct | src/reducers/emulator.ts:5-16 | the booted emulator ticked 38 times holds 30 in A and in cell 2, and its store is the image with cells 0, 1, 2 set to 10, 3, 30 |
| Demo.RunDemo | src/reducers/emulator.ts:5-16 | the load loop, the vector writes, a new `Cpu` and 38 ticks on real objects; reading cell 2 then gives 30 |

## Left out

- `IBus` is not modelled as an interface. The processor is tied to `RamBus`, the only bus
  the code has.
- Handler dispatch through `.bind(this)` function references is not modelled as such. The
  table maps each opcode to a mnemonic, and a `match` on the mnemonic runs the handler.
- The opcode table's instruction name strings are not modelled. Only the mnemonic stands in
  for the name.
- Bus.RamBus.constructor: unwritten cells of the source's `new Array(65536)` are `undefined`
  in JavaScript. Here they read 0.
- Emulator.Cpu.constructor: the source leaves `fetched`, `absoluteAddress` and
  `relativeAddress` undefined until first use, and its `op` starts unset. Here they start at
  0, and `op` starts as the illegal-opcode placeholder.
- Decimal mode is not modelled. The code stores the Decimal flag but never uses it in
  arithmetic.
- Register widths: the source's `as byte`/`as word` casts do not truncate.
  - Here `++`/`--` on X, Y and `sp` wrap modulo 256.
  - `++`, `--` and `+= 2` on `pc`, the index additions of the absolute-indexed and
    indirect-indexed modes, and the branch target wrap modulo 65536.
  - At those edges the JavaScript numbers would leave the byte or word range instead.
  - The pointer of the indexed indirect mode and the second address `readWord` reads are
    not wrapped. An address of 0x10000 then reads 0 from the bus, as in the source.
  - Consequences visible to a program: INX or INY at 0xFF gives 0 and sets Zero here,
    while the source stores 256 and leaves Zero and Negative clear; a push after `sp`
    has reached 0 writes 0x01FF here, where the source writes `0x100 + (-1)` = 0x00FF;
    `pc` at 0xFFFF steps to 0x0000 here, where the source holds 0x10000, which the bus
    reads as 0.
- The status register is stored as eight flags rather than as a byte.
  `StatusFlags.ByteRoundTrip` shows the two forms carry the same information.
- Alu.TestBits: the contract states Zero only for an accumulator of 0. The full rule, Zero
  exactly when `a & m` is 0, is the function's definition and is not restated.
- Semantics.Sbc: the operand's complement `m ^ 0xFF` is computed as `0xFF - m`.
  `Bytes.XorAllOnes` and `Alu.SbcIsAdcOfComplement` show the two are equal.
- `byte`, `word` and `toWord` come from src/types.ts, which is not part of this model.
  `toWord(lo, hi)` is taken to be `hi * 256 + lo`.
- The React components, the Redux store and actions, and the Electron window code are not
  modelled. From them, only the demo program and the Tick button's `clock()` +
  `completeInstruction()` sequence appear, in `Demo`.
- Quirks such as IRQ firing only with Interrupt set, the status byte pushed at
  `0x11 + sp - 2`, RTS pulling one byte, TXS copying A and the strict compare are reproduced
  as written. They are stated by lemmas in `Properties`, not corrected.
