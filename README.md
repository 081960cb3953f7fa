# gameboi CPU core in Dafny

This project models the CPU core of *gameboi*, a Game Boy (Sharp LR35902)
emulator, as found in `src/lib.rs`. The CPU has ten register bytes
(A F B C D E H L and the two bytes of SP) and a 16-bit program counter.
It decodes opcodes through three 256-entry tables:
- the kind table gives the instruction kind;
- the source table and the destination table give the operand registers or
  address modes.

It then executes the decoded instruction on the register file through an
8-bit and 16-bit ALU that writes the Z N H C flags into F.

The model has two layers:

- A pure layer:
  - `Isa`: registers, address modes, instruction kinds and instructions,
    with the byte-to-enum conversions.
  - `Tables`: the three opcode tables, as constants, with the facts the
    rest needs about them.
  - `Registers`: the register file as a sequence of ten bytes, with 8-bit
    and little-endian 16-bit access.
  - `Alu`: each ALU operation as a function returning its result and the
    flag byte.
  - `Decoder`: one decode step as a function of the bytes and `pc`,
    returning the outcome and the new `pc`.
  - `Exec`: each instruction as a function of the register file, and one
    `execute` step.
- An imperative layer, `Machine.Cpu`, in the source's own form. The
  register bytes are an `array<bv8>` and the program counter is a mutable
  field. Every method is proved equal to its counterpart in the pure
  layer, and the properties are proved as lemmas about that layer.

A decode step yields one of three outcomes:
- an instruction;
- no instruction, where the source returns `None`;
- a fault, where the source panics or transmutes an out-of-range byte
  into an enum. There are three decode faults:
  - `OutOfBounds`: the byte slice is indexed past its end;
  - `ZeroOperand`: an `assert!(… != 0)` on a table entry fails;
  - `UndefinedDiscriminant`: a table byte is not a discriminant of the enum
    it is transmuted into, which is undefined behaviour in a release build.

An `execute` step passes on the decode outcome: no instruction, or the
decode fault. After a decoded instruction, it either completes or ends in
`Unimplemented`, when the executor reaches a `todo!()` arm.

Where the code and its surrounding description disagree, the model follows
the code:
- `alu_sbc` adds the incoming carry instead of subtracting it.
- For subtraction, H is set when the second operand is below 16.
- For addition, H is set when the upper nibble of the result is non-zero.
- Opcode 0x3C (INC A on the hardware) has kind 0 in the kind table, so it
  decodes to nothing.
- `decode_reg_imm!` builds `LdRegImm` for every kind that uses it. So 0xCE,
  the only 8-bit register-immediate add in the kind table, decodes as a
  load. No opcode has kind AddRegImm. (0xE8 has kind AddWRegImm, which has
  no decoder arm, so it decodes to nothing.)
- Not every opcode with a non-zero kind decodes. Exactly eleven opcodes
  fault (`Decoder.DecodeFaultOpcodes`):
  - `ZeroOperand`, because an operand entry the arm asserts on is 0:
    - 0x0E, 0x1E, 0x2E and 0x3E (LdRegImm with destination entry 0);
    - 0xC2 (LdRegReg with source entry 0);
    - 0xC6 (ADD A,d8 on the hardware; kind AddRegMem) and 0xD2 (kind
      LdRegMem), whose operand entries are both 0.
  - `UndefinedDiscriminant`, because source entry 10 (an address mode) is
    transmuted into `Reg`:
    - 0x86 and 0x8E, through `decode_reg_mem!`;
    - 0x9E and 0xB6, through `decode_reg!`.
- The LdWRegImm arm names its first immediate byte `immh`. It then builds
  the word with `from_ne_bytes([immh, imml])`, so on a little-endian host the
  first byte is the LOW byte. The model takes the first byte as the low byte.

The program counter is the 16-bit `pc` of the source. The model follows a
release build, where `self.pc += 1` wraps from 0xFFFF to 0 (`Decoder.Next`).
A debug build panics there instead. The lemmas about instruction length
therefore hold under the hypothesis that the instruction ends below 2^16
(`Decoder.DecodeInBounds`), or they state the advance modulo 2^16
(`Decoder.DecodeAdvance`).

`InstrKind::from_u8` has `debug_assert!(value <= 10)`. Many entries of the
kind table are above 10, so this is not a precondition of the model. In a
release build the assertion is gone and the byte is transmuted. The model
decodes every discriminant of `InstrKind` and treats only the unused value
39 (and values above 42) as `UndefinedDiscriminant`. Because of
`Tables.KindTableFacts`, no table entry ever takes that path.

## Model

| member | source | states |
|---|---|---|
| Isa.RegFromU8 | src/lib.rs:25-28 | a table byte 0..9 becomes the register with that discriminant; it is `Invalid` exactly for 0 |
| Isa.RegAddrFromU8 | src/lib.rs:46-49 | a byte 0 or 10..15 becomes the address mode with that discriminant |
| Isa.KindFromU8 | src/lib.rs:118-121 | a byte gives a kind exactly when it is a discriminant of `InstrKind`, and that kind's discriminant is the byte |
| Isa.KindCodeRoundTrip | src/lib.rs:54-115 | every kind comes back from its own discriminant |
| Isa.WideKindCodes | src/lib.rs:54-115 | AddWRegWReg, IncWReg, DecWReg, LdWRegImm and Push, the wide-register kinds that have a decoder arm, are exactly discriminants 10, 31, 34, 40 and 41 |
| Isa.ImmediateKindCodes | src/lib.rs:54-115 | LdWRegImm is exactly discriminant 40; the one-byte-immediate kinds are exactly discriminants 3, 8, 13, 16, 19, 22, 28 and 37 |
| Isa.ArmlessKindCodes | src/lib.rs:54-115 | the kinds the decoder has no arm for are exactly discriminants 0, 6, 11, 24, 25 and 26 |
| Tables.KindTableFacts | src/lib.rs:216-275 | every one of the 256 kind-table entries is a discriminant of `InstrKind` and never IncWReg, DecWReg, LdWRegImm, Push or Pop (31, 34, 40, 41, 42); the AddWRegWReg opcodes take their source from B, D, H or SP and write HL; no source or destination entry is 2, the discriminant of F |
| Tables.FaultingEntries | src/lib.rs:216-275 | an opcode's source and destination entries fail the checks of its kind's decoder macro (`Tables.ArmRejects`: an asserted entry is 0, or an entry is not a discriminant of the enum it becomes) exactly for the eleven opcodes 0x0E, 0x1E, 0x2E, 0x3E, 0x86, 0x8E, 0x9E, 0xB6, 0xC2, 0xC6 and 0xD2 |
| Registers.Read8 | src/lib.rs:476-482 | no contract of its own: it reads the register's byte of the file; `Registers.Write8` (read after write) and `Registers.PairAliasing` state what it returns |
| Registers.Write8 | src/lib.rs:466-472 | after an 8-bit write the register reads back the value, and every other byte of the file is unchanged |
| Registers.Join | src/lib.rs:495-496 | the word built from two bytes has the first as its low byte and the second as its high byte |
| Registers.JoinSplit | src/lib.rs:495-513 | splitting a word into bytes and joining them again gives the same word |
| Registers.Read16 | src/lib.rs:487-497 | a wide read takes the low byte from the register's slot and the high byte from the next slot |
| Registers.Write16 | src/lib.rs:502-513 | a wide write stores the low byte in the register's slot and the high byte in the next slot, and the other eight bytes are unchanged |
| Registers.WideReadAfterWrite | src/lib.rs:487-513 | a wide read after a wide write of the same register returns the value written |
| Registers.WideWriteBack | src/lib.rs:487-513 | writing back the word just read leaves the register file unchanged |
| Registers.PairLow | src/lib.rs:186-192 | the partner of B, D and H is a register whose byte follows theirs in the file (C, E and L) |
| Registers.PairAliasing | src/lib.rs:186-192 | BC, DE and HL alias their 8-bit halves: a wide write changes the named register to the low byte and its partner (C, E, L) to the high byte |
| Alu.Flags | src/lib.rs:200-212 | the flag byte has Z, N, H and C set exactly as requested, and its low nibble is 0 |
| Alu.Add | src/lib.rs:519-539 | the result is the sum modulo 256; C is set iff the true sum exceeds 0xFF, H iff the result is at least 0x10, Z iff the result is 0; N clear; low nibble 0 |
| Alu.WideCarry | src/lib.rs:545 | the 16-bit overflow flag is the carry out of bit 15 |
| Alu.WideAdd | src/lib.rs:543-563 | the result is the sum modulo 2^16; C is the carry out of bit 15, H iff the result is at least 0x1000, Z iff it is 0; N clear; low nibble 0 |
| Alu.Adc | src/lib.rs:569-597 | with C clear in F this is `Add`; with C set the result is a+b+1 modulo 256 and C says the true a+b+1 exceeds 0xFF; Z and H describe a+b; N clear; low nibble 0 |
| Alu.Sub | src/lib.rs:601-624 | the result is a-b modulo 256; N is set; C iff b ≤ a (no borrow); H iff b < 16; Z iff a = b; low nibble 0 |
| Alu.Sbc | src/lib.rs:629-661 | with C clear in F this is `Sub`; with C set the result is a-b+1 modulo 256 and C is set iff b ≤ a and a-b is not 0xFF; H and Z as in `Sub`; N set; low nibble 0 |
| Alu.And | src/lib.rs:664-677 | the result is a & b; Z iff it is 0; H set; N and C clear; low nibble 0 |
| Alu.Or | src/lib.rs:680-693 | the result is the bitwise or of a and b; Z iff both operands are 0; H, N and C clear; low nibble 0 |
| Decoder.Wrap | src/lib.rs:302 | the incremented program counter is taken modulo 2^16 |
| Decoder.Next | src/lib.rs:302 | the incremented `pc` is one more below 0xFFFF, and 0xFFFF wraps to 0 |
| Decoder.OneReg | src/lib.rs:305-316 | `decode_reg!` on the opcode's source entry: it fails the assertion exactly when the entry is 0, hits the undefined transmute exactly when it is above 9, and decodes exactly when it is 1..9 |
| Decoder.Imm | src/lib.rs:318-326 | `decode_imm!`: past the end of the bytes it indexes out of range and leaves `pc`; otherwise it builds the instruction from the byte at `pc` and moves `pc` by one |
| Decoder.OneAddr | src/lib.rs:328-339 | `decode_mem!`: it fails the assertion exactly when the source entry is 0, hits the undefined transmute exactly when the entry is not an address mode, and decodes exactly when it is 10..15 |
| Decoder.TwoRegs | src/lib.rs:341-355 | `decode_reg_reg!`: it fails an assertion exactly when either entry is 0, hits the undefined transmute exactly when both are non-zero and one is above 9, and decodes exactly when both are 1..9 |
| Decoder.RegImm | src/lib.rs:357-372 | `decode_reg_imm!`: it indexes out of range exactly when `pc` is past the bytes (then `pc` stays), otherwise `pc` moves by one; it then fails the assertion exactly when the destination entry is 0, hits the undefined transmute exactly when it is above 9, and otherwise always builds `LdRegImm` of the byte at `pc` into that register |
| Decoder.RegToAddr | src/lib.rs:374-388 | `decode_reg_mem!`: the zero and transmute checks of a register source and an address-mode destination, and a decoded instruction is always `LdRegMem` with the two entries as operands, whatever the kind |
| Decoder.AddrToReg | src/lib.rs:390-404 | `decode_mem_reg!`: the same checks for an address-mode source and a register destination, and a decoded instruction is always `LdMemReg` |
| Decoder.WideImm | src/lib.rs:441-457 | the LdWRegImm arm: it indexes out of range exactly when either immediate byte is past the bytes, and `pc` moves past the bytes it read; then the destination entry's zero and transmute checks; a decoded instruction loads the word whose low byte is the first immediate and whose high byte is the second |
| Decoder.Operands | src/lib.rs:407-461 | no contract of its own: it sends the arms without immediates to their macros; `Decoder.OperandsInBounds`, `Decoder.OperandsNoInstr`, `Decoder.OperandsFaults` and `Exec.OperandsWellFormed` state what it yields |
| Decoder.ImmediateArm | src/lib.rs:410-457 | no contract of its own: it sends the immediate arms to `Decoder.Imm`, `Decoder.RegImm` and `Decoder.WideImm`; `Decoder.DecodeKindAdvance` and `Decoder.ImmediateArmFaults` state what it yields |
| Decoder.DecodeKind | src/lib.rs:407-461 | no contract of its own: the match on the kind; `Decoder.DecodeKindAdvance`, `Decoder.ArmNoInstr`, `Decoder.ArmFaultsExactly` and `Exec.ArmWellFormed` state what it yields |
| Decoder.Decode | src/lib.rs:296-462 | no contract of its own: one `decode` call; `Decoder.DecodeAdvance`, `Decoder.DecodeInBounds`, `Decoder.NoInstrKinds`, `Decoder.EntersArm`, `Decoder.DecodeFaultOpcodes`, `Exec.DecodedWellFormed` and `Exec.DecodedNamesNoF` state what it yields |
| Decoder.EntersArm | src/lib.rs:299-407 | when `pc` is inside the bytes and the opcode's kind byte is a discriminant, a decode step is that kind's arm, entered with `pc` one past the opcode |
| Decoder.InstrLength | src/lib.rs:407-457 | every opcode starts an instruction of 1 to 3 bytes |
| Decoder.LengthOfKind | src/lib.rs:407-457 | an opcode's length is one byte plus the immediate bytes its kind's arm reads: 2 for LdWRegImm, 1 for the immediate kinds, 0 otherwise |
| Decoder.OpcodeFacts | src/lib.rs:216-233 | every opcode's kind byte converts to a kind, never IncWReg, DecWReg, LdWRegImm or Push, and an AddWRegWReg opcode takes its source from B, D, H or SP and writes HL |
| Decoder.OperandsInBounds | src/lib.rs:305-404 | the arms that read only the operand tables never index the byte slice |
| Decoder.DecodeKindAdvance | src/lib.rs:318-461 | an arm moves `pc` past exactly the immediate bytes of its kind, unless it runs out of bytes; when the instruction fits below 2^16 it runs out exactly when the bytes end inside it |
| Decoder.DecodeAdvance | src/lib.rs:296-462 | with `pc` past the end, decoding faults and `pc` does not move; otherwise a step that does not run out of bytes moves `pc` (modulo 2^16) past the opcode and its immediates, even when it yields no instruction or an operand fault |
| Decoder.DecodeInBounds | src/lib.rs:299-446 | when the instruction at `pc` ends below 2^16, decoding runs out of bytes iff the byte slice ends inside the instruction |
| Decoder.ArmNoInstr | src/lib.rs:407-460 | an arm yields no instruction exactly for Nop, LdMemHLImm, AddWRegImm and the Xor kinds |
| Decoder.OperandsNoInstr | src/lib.rs:407-460 | the arms without immediates yield no instruction exactly for those kinds |
| Decoder.NoInstrKinds | src/lib.rs:407-460 | a decode step yields no instruction iff the opcode's kind byte is 0, 6, 11, 24, 25 or 26 |
| Decoder.Steps | src/lib.rs:866-886 | repeating a decode step n times, each from the `pc` the previous left, gives exactly n outcomes; outcome k is the step taken at the `pc` that k steps leave, so the first is the step at the starting `pc` |
| Decoder.StepsSplit | src/lib.rs:866-886 | m + n successive steps are m steps followed by n steps from where those left `pc` |
| Decoder.DecodeSteps | src/lib.rs:866-886 | n successive `decode` calls on one CPU give n outcomes, the first being the decode at the starting `pc` |
| Decoder.StuckPastEnd | src/lib.rs:299-302 | once `pc` is at or past the end of the bytes it stays there, and every further decode faults by indexing out of range |
| Decoder.ExampleProgramSteps | src/lib.rs:860-886 | three successive decodes of [0x40, 0x50, 0x46] from `pc` 0 give LdRegReg(B, B), LdRegReg(B, D) and LdMemReg(HL, B) and end at `pc` 3; a fourth indexes out of range |
| Decoder.ExampleProgramDecodes | src/lib.rs:860-886 | decoding [0x40, 0x50, 0x46] at `pc` 0, 1 and 2 gives LdRegReg(B, B), LdRegReg(B, D) and LdMemReg(HL, B), each moving `pc` by one |
| Decoder.IncADecodesToNothing | src/lib.rs:220 | 0x3C has kind 0 and decodes to nothing, moving `pc` by one |
| Decoder.AdcImmediateDecodesAsLoad | src/lib.rs:357-372 | 0xCE followed by byte v decodes to an immediate load of v into A, and `pc` advances by 2 |
| Decoder.AddImmediateFailsOperandCheck | src/lib.rs:374-388 | 0xC6 has kind AddRegMem with zero operand entries, and decoding it fails the operand assertion with `pc` one past the opcode |
| Decoder.AddFromMemoryIsUndefined | src/lib.rs:374-388 | 0x86 has source-table entry 10, which is not a register, so decoding hits the undefined transmute |
| Decoder.OperandsFaults | src/lib.rs:305-404 | an arm without immediates faults exactly when `Tables.ArmRejects` holds of its kind and entries |
| Decoder.ImmediateArmFaults | src/lib.rs:357-457 | when its immediate bytes are present, an immediate arm faults exactly when `Tables.ArmRejects` holds of its kind and the destination entry |
| Decoder.ArmFaultsExactly | src/lib.rs:305-461 | when its immediate bytes are present, a decoder arm faults exactly when `Tables.ArmRejects` holds of its kind and the opcode's entries |
| Decoder.FaultsByEntries | src/lib.rs:296-461 | when the instruction at `pc` fits in the bytes, decoding it faults exactly when its opcode is one of the eleven faulting opcodes |
| Decoder.DecodeFaultOpcodes | src/lib.rs:216-461 | for every opcode followed by two bytes, decoding faults exactly for 0x0E, 0x1E, 0x2E, 0x3E, 0xC2, 0xC6, 0xD2, 0x86, 0x8E, 0x9E and 0xB6 |
| Exec.WellFormed | src/lib.rs:466-512 | no contract of its own: the debug checks of the register accessors (no 8-bit access to `Invalid`; wide access only to B, D, H and SP); `Exec.Apply` requires it and `Exec.DecodedWellFormed` shows decoded instructions meet it |
| Exec.Arith8 | src/lib.rs:715-791 | an arm that stores an ALU result in an 8-bit `dst`: `dst` reads the result, F reads the flags unless `dst` is F, and no other byte changes |
| Exec.Arith16 | src/lib.rs:726-737 | an arm that stores a 16-bit ALU result in a pair: the pair reads the result, F reads the flags, and no byte outside them changes |
| Exec.ToggleCarry | src/lib.rs:799-800 | `^ FLAG_C` on F: C is inverted, the other bits of F are kept, and no other byte changes |
| Exec.Decrement | src/lib.rs:823 | the saturating decrement: 0 stays 0, any other value goes down by one |
| Exec.OperandsWellFormed | src/lib.rs:305-404 | for the kinds and operand entries the tables hold (`Decoder.OpcodeFacts`: no IncWReg, DecWReg or Push, and AddWRegWReg only from B, D, H or SP into HL), the operand arms never yield an instruction that fails the executor's register checks |
| Exec.ArmWellFormed | src/lib.rs:407-461 | for the kinds and operand entries the tables hold (`Decoder.OpcodeFacts`: no IncWReg, DecWReg, LdWRegImm or Push, and AddWRegWReg only from B, D, H or SP into HL), no arm of the decoder yields an instruction that fails the executor's register checks |
| Exec.DecodedWellFormed | src/lib.rs:466-512 | for any bytes and `pc`, a decoded instruction never names `Invalid` in an 8-bit access and names only B, D, H or SP in a wide access, so the debug panics in `read_reg`, `write_reg`, `read_widereg` and `write_widereg` cannot happen after decoding |
| Exec.IncRegFlags | src/lib.rs:793-801 | IncReg adds one to `dst`; C set iff `dst` was not 0xFF; Z iff it was 0xFF; H iff the result is at least 0x10; N clear; only `dst` and F change |
| Exec.IncDecFrame | src/lib.rs:793-820 | IncReg and DecReg change only `dst` and F |
| Exec.DecRegFlags | src/lib.rs:812-820 | DecReg subtracts one from `dst`; C set iff `dst` was 0; Z iff it was 1; H and N set; only `dst` and F change |
| Exec.DecWRegSaturates | src/lib.rs:821-827 | DecWReg decrements the wide register and stays at 0 instead of wrapping |
| Exec.DecWRegKeepsFlags | src/lib.rs:821-827 | DecWReg leaves F and every byte outside the pair unchanged |
| Exec.CompareChangesOnlyFlags | src/lib.rs:829-836 | CpReg and CpImm change only F, which becomes exactly `Sub`'s flags for A and the operand: Z iff A equals the operand, C iff the operand is at most A, H iff it is below 0x10, N set, low nibble 0 |
| Exec.LoadChangesOnlyDst | src/lib.rs:704-711 | LdRegReg and LdRegImm put the source value in `dst` and change nothing else |
| Exec.WideLoad | src/lib.rs:838-841 | LdWRegImm loads the 16-bit immediate into the wide register and changes nothing outside the pair |
| Exec.AdditionWritesDstAndFlags | src/lib.rs:715-747 | the 8-bit ADD and ADC arms complete; `dst` receives `Add` (or `Adc` with the old F) of the source (register or immediate) and `dst`; unless `dst` is F, F receives that operation's flags, so its low nibble is 0; nothing but `dst` and F changes |
| Exec.WideAdditionWritesPairAndFlags | src/lib.rs:726-737 | the 16-bit ADD arms complete; the wide `dst` receives `WideAdd` of the source (a wide register, or the immediate widened) and `dst`; F receives its flags; nothing outside F and the pair changes |
| Exec.AccumulatorWritesAAndFlags | src/lib.rs:749-791 | the SUB, SBC, AND and OR arms complete; A receives `Sub`, `Sbc` (with the old F), `And` or `Or` of A and the operand (register or immediate); F receives that operation's flags, so its low nibble is 0; nothing but A and F changes |
| Exec.UnsupportedStops | src/lib.rs:701-848 | the executor ends in `Unimplemented` exactly on the `todo!()` arms, and then leaves the registers unchanged; every other instruction completes |
| Exec.Apply | src/lib.rs:701-849 | no contract beyond requiring `Exec.WellFormed`: one executor arm; `Exec.UnsupportedStops` and the arm lemmas in this table state what each arm does |
| Exec.DecodedNamesNoF | src/lib.rs:216-461 | for any bytes and `pc`, a decoded instruction never names F as an 8-bit operand, since no operand-table entry is 2 |
| Exec.ApplyKeepsFlagNibble | src/lib.rs:701-849 | for a well-formed instruction with no 8-bit operand F, if F's low nibble is 0 before the arm it is 0 after |
| Exec.FlagNibbleStaysZero | src/lib.rs:696-852 | an `execute` step over any bytes from any `pc` keeps F's low nibble 0 when it starts at 0 |
| Exec.Execute | src/lib.rs:696-852 | no contract of its own: decode, then the executor arm; `Exec.ExecuteDecodesFirst` and `Exec.FlagNibbleStaysZero` state what it yields |
| Exec.ExecuteDecodesFirst | src/lib.rs:696-698 | an `execute` step leaves `pc` where decoding left it; when decoding yields nothing or faults the registers are unchanged; the step reports no instruction exactly when decoding found none |
| Machine.Cpu.constructor | src/lib.rs:286-291 | a new CPU has all registers and `pc` at 0 |
| Machine.Cpu.WriteReg | src/lib.rs:466-472 | the register array afterwards is `Write8` of the old one |
| Machine.Cpu.ReadReg | src/lib.rs:476-482 | returns `Read8` of the register array |
| Machine.Cpu.ReadWideReg | src/lib.rs:487-497 | returns `Read16` of the register array |
| Machine.Cpu.WriteWideReg | src/lib.rs:502-513 | the register array afterwards is `Write16` of the old one |
| Machine.Cpu.AluAdd | src/lib.rs:519-539 | returns `Add`'s result and stores its flags in F, nothing else |
| Machine.Cpu.AluWideAdd | src/lib.rs:543-563 | returns `WideAdd`'s result and stores its flags in F, nothing else |
| Machine.Cpu.AluAdc | src/lib.rs:569-597 | returns `Adc`'s result for the F read before the operation and stores its flags in F, nothing else |
| Machine.Cpu.AluSub | src/lib.rs:601-624 | returns `Sub`'s result and stores its flags in F, nothing else |
| Machine.Cpu.AluSbc | src/lib.rs:629-661 | returns `Sbc`'s result for the F read before the operation and stores its flags in F, nothing else |
| Machine.Cpu.AluAnd | src/lib.rs:664-677 | returns `And`'s result and stores its flags in F, nothing else |
| Machine.Cpu.AluOr | src/lib.rs:680-693 | returns `Or`'s result and stores its flags in F, nothing else |
| Machine.GatherFlags | src/lib.rs:526-535 | building the flag byte bit by bit gives `Flags` |
| Machine.Cpu.DecodeImm | src/lib.rs:318-326 | outcome and new `pc` are those of `Decoder.Imm` from the old `pc` |
| Machine.Cpu.DecodeRegImm | src/lib.rs:357-372 | outcome and new `pc` are those of `Decoder.RegImm` from the old `pc` |
| Machine.Cpu.DecodeWideImm | src/lib.rs:441-457 | outcome and new `pc` are those of `Decoder.WideImm` from the old `pc` |
| Machine.Cpu.Decode | src/lib.rs:296-462 | outcome and new `pc` are those of `Decoder.Decode` from the old `pc` |
| Machine.Cpu.DecodeByKind | src/lib.rs:407-461 | outcome and new `pc` are those of the decoder's arm for the kind |
| Machine.Cpu.DecodeImmediate | src/lib.rs:410-457 | outcome and new `pc` are those of the decoder's immediate arms |
| Machine.Cpu.RunLoadOrAdd | src/lib.rs:704-732 | outcome and new register array are those of `Exec.Apply` |
| Machine.Cpu.SecondOperand | src/lib.rs:749-835 | the second ALU operand is the immediate or the named register |
| Machine.Cpu.RunSubtract | src/lib.rs:749-769 | outcome and new register array are those of `Exec.Apply` |
| Machine.Cpu.RunCompare | src/lib.rs:829-836 | outcome and new register array are those of `Exec.Apply` |
| Machine.Cpu.RunLogic | src/lib.rs:771-791 | outcome and new register array are those of `Exec.Apply` |
| Machine.Cpu.RunIncDec | src/lib.rs:793-820 | outcome and new register array are those of `Exec.Apply` |
| Machine.Cpu.RunWideIncDec | src/lib.rs:802-827 | outcome and new register array are those of `Exec.Apply` |
| Machine.Cpu.Dispatch | src/lib.rs:701-849 | outcome and new register array are those of `Exec.Apply` for any well-formed instruction |
| Machine.Cpu.Execute | src/lib.rs:696-852 | outcome, new register array and new `pc` are those of `Exec.Execute` from the old state |
| Machine.DecodeExampleProgram | src/lib.rs:860-886 | three decodes of [0x40, 0x50, 0x46] on a new CPU give LdRegReg(B, B), LdRegReg(B, D) and LdMemReg(HL, B), and leave `pc` at 3 |

## Left out

- `src/mmu.rs` (memory) is not part of this model. The executor arms that would access memory are `todo!()` in the source and end in the `Unimplemented` outcome. So are Halt, Push and Pop.
- `tick!` (cycle timing) is an empty macro in the source and is not modelled.
- XOR and the jump instructions have no decoder arm (they decode to nothing) or no kind, and the CB-prefixed table is absent from the source, so none of them have semantics here.
- A panic (slice index, `assert!`, `todo!()`) ends the model's step with a fault. The register file and `pc` are then those reached at the point of the panic. What a caller does after the panic (unwinding) is not modelled.
- Debug builds panic when `pc += 1` overflows; the model follows the release wrap-around, and the length lemmas assume the instruction ends below 2^16.
- A little-endian host is assumed for `from_ne_bytes`/`to_ne_bytes`, as on the targets the emulator runs on.
- The register accessors take as preconditions the checks a debug build makes (never `Invalid`; wide access only on B, D, H, SP). In a release build, an 8-bit access to `Invalid` underflows the index and panics anyway. A wide access to A, C, E, F or L silently reads the neighbouring pair; that is not modelled. `Exec.DecodedWellFormed` shows that decoded instructions always pass these checks.
- Exec.IncRegFlags: stated for `dst` other than F, because when F is incremented the flag write and the result write hit the same byte.
- Exec.DecRegFlags: stated for `dst` other than F, for the same reason.
- Machine.Cpu.AluAdc: reads F and takes result and flags from `Alu.Adc` instead of replaying the second `overflowing_add` and the flag bits one by one; `Alu.Adc` itself follows those steps.
- Machine.Cpu.AluSbc: the same, with `Alu.Sbc`.
- `Instr`'s `Debug` formatting, the `PartialEq` derivations and the test harness itself are not modelled; the one test becomes `Machine.DecodeExampleProgram` on the CPU object and `Decoder.ExampleProgramSteps` on the pure decoder.
