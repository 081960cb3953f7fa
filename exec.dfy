/** The executor as a function of the register file: what each instruction
    does to the ten register bytes, and one `execute` step (decode, then
    run) on the register file and the program counter. */
module Exec {
  import opened Isa
  import opened Tables
  import opened Registers
  import opened Alu
  import opened Decoder

  /** The operand checks a debug build makes when the executor accesses
      registers: an 8-bit access never names `Invalid`, and a wide access
      names B, D, H or SP. */
  predicate WellFormed(i: Instr)
  {
    match i
    case LdRegReg(s, d) => s != Reg.Invalid && d != Reg.Invalid
    case LdRegImm(_, d) => d != Reg.Invalid
    case AddRegReg(s, d) => s != Reg.Invalid && d != Reg.Invalid
    case AddRegImm(_, d) => d != Reg.Invalid
    case AddWRegWReg(s, d) => s.IsWide() && d.IsWide()
    case AddWRegImm(_, d) => d.IsWide()
    case AdcRegReg(s, d) => s != Reg.Invalid && d != Reg.Invalid
    case AdcRegImm(_, d) => d != Reg.Invalid
    case SubReg(s) => s != Reg.Invalid
    case SbcReg(s) => s != Reg.Invalid
    case AndReg(s) => s != Reg.Invalid
    case OrReg(s) => s != Reg.Invalid
    case IncReg(d) => d != Reg.Invalid
    case IncWReg(d) => d.IsWide()
    case DecReg(d) => d != Reg.Invalid
    case DecWReg(d) => d.IsWide()
    case CpReg(s) => s != Reg.Invalid
    case LdWRegImm(_, d) => d.IsWide()
    case Push(s) => s.IsWide()
    case _ => true
  }

  /** No 8-bit register operand of `i` names F, so the executor writes F
      only with flags from the ALU. */
  predicate AvoidsF(i: Instr)
  {
    match i
    case LdRegReg(s, d) => s != F && d != F
    case LdRegImm(_, d) => d != F
    case LdRegMem(s, _) => s != F
    case LdMemReg(_, d) => d != F
    case AddRegReg(s, d) => s != F && d != F
    case AddRegImm(_, d) => d != F
    case AdcRegReg(s, d) => s != F && d != F
    case AdcRegImm(_, d) => d != F
    case SubReg(s) => s != F
    case SbcReg(s) => s != F
    case AndReg(s) => s != F
    case OrReg(s) => s != F
    case IncReg(d) => d != F
    case DecReg(d) => d != F
    case CpReg(s) => s != F
    case _ => true
  }

  /** The instructions whose arm in the executor is `todo!()`. */
  predicate Unsupported(i: Instr)
  {
    i.Halt? || i.LdRegMem? || i.LdMemReg? || i.LdMemHLImm? || i.AddRegMem? || i.AdcRegMem?
    || i.SubMem? || i.SbcMem? || i.AndMem? || i.OrMem? || i.IncMem? || i.DecMem? || i.CpMem?
    || i.Push? || i.Pop?
  }

  /** How a step ended: it ran to completion, decoding found no instruction,
      decoding stopped with a fault, or the executor reached an arm it has
      no semantics for (`todo!()`). */
  datatype Outcome = Done | NoInstruction | Stopped(fault: Fault) | Unimplemented

  /** The outcome of running one instruction, with the register file after it. */
  datatype Step = Step(outcome: Outcome, regs: RegFile)

  /** An 8-bit ALU operation: the ALU writes F, then the result goes to
      `dst`, so `dst` holds the result, F the flags unless `dst` is F, and no
      other register changes. */
  function Arith8(rf: RegFile, dst: Reg, out: AluOut<bv8>): (r: RegFile)
    requires dst != Reg.Invalid
    ensures Read8(r, dst) == out.result
    ensures dst != F ==> Read8(r, F) == out.flags
    ensures forall k :: 0 <= k < 10 && k != Slot(dst) && k != Slot(F) ==> r[k] == rf[k]
  {
    Write8(Write8(rf, F, out.flags), dst, out.result)
  }

  /** A 16-bit ALU operation: the ALU writes F, then the result goes to the
      wide `dst`, which then reads back the result; F holds the flags and
      nothing outside F and the pair changes. */
  function Arith16(rf: RegFile, dst: Reg, out: AluOut<bv16>): (r: RegFile)
    requires dst.IsWide()
    ensures Read16(r, dst) == out.result
    ensures Read8(r, F) == out.flags
    ensures forall k :: 0 <= k < 10 && k != Slot(F) && k != Slot(dst) && k != Slot(dst) + 1 ==> r[k] == rf[k]
  {
    WideReadAfterWrite(Write8(rf, F, out.flags), dst, out.result);
    Write16(Write8(rf, F, out.flags), dst, out.result)
  }

  /** The increments and the 8-bit decrement flip the carry bit of F after
      the ALU has set it: C is inverted, the other bits of F and every other
      register keep their value. */
  function ToggleCarry(rf: RegFile): (r: RegFile)
    ensures Has(Read8(r, F), FLAG_C) <==> !Has(Read8(rf, F), FLAG_C)
    ensures Read8(r, F) & !FLAG_C == Read8(rf, F) & !FLAG_C
    ensures forall k :: 0 <= k < 10 && k != Slot(F) ==> r[k] == rf[k]
  {
    Write8(rf, F, Read8(rf, F) ^ FLAG_C)
  }

  /** The saturating decrement of DecWReg: one less, but never below 0. */
  function Decrement(w: bv16): (r: bv16)
    ensures w == 0 ==> r == 0
    ensures w != 0 ==> r + 1 == w
  {
    if w == 0 then 0 else w - 1
  }

  /** What executing a decoded instruction does to the register file. */
  function Apply(rf: RegFile, i: Instr): Step
    requires WellFormed(i)
  {
    match i
    case Nop => Step(Done, rf)
    case LdRegReg(s, d) => Step(Done, Write8(rf, d, Read8(rf, s)))
    case LdRegImm(v, d) => Step(Done, Write8(rf, d, v))
    case AddRegReg(s, d) => Step(Done, Arith8(rf, d, Add(Read8(rf, s), Read8(rf, d))))
    case AddRegImm(v, d) => Step(Done, Arith8(rf, d, Add(v, Read8(rf, d))))
    case AddWRegWReg(s, d) => Step(Done, Arith16(rf, d, WideAdd(Read16(rf, s), Read16(rf, d))))
    case AddWRegImm(v, d) => Step(Done, Arith16(rf, d, WideAdd(v as bv16, Read16(rf, d))))
    case AdcRegReg(s, d) =>
      Step(Done, Arith8(rf, d, Adc(Read8(rf, s), Read8(rf, d), Read8(rf, F))))
    case AdcRegImm(v, d) => Step(Done, Arith8(rf, d, Adc(v, Read8(rf, d), Read8(rf, F))))
    case SubReg(s) => Step(Done, Arith8(rf, A, Sub(Read8(rf, A), Read8(rf, s))))
    case SubImm(v) => Step(Done, Arith8(rf, A, Sub(Read8(rf, A), v)))
    case SbcReg(s) => Step(Done, Arith8(rf, A, Sbc(Read8(rf, A), Read8(rf, s), Read8(rf, F))))
    case SbcImm(v) => Step(Done, Arith8(rf, A, Sbc(Read8(rf, A), v, Read8(rf, F))))
    case AndReg(s) => Step(Done, Arith8(rf, A, And(Read8(rf, A), Read8(rf, s))))
    case AndImm(v) => Step(Done, Arith8(rf, A, And(Read8(rf, A), v)))
    case OrReg(s) => Step(Done, Arith8(rf, A, Or(Read8(rf, A), Read8(rf, s))))
    case OrImm(v) => Step(Done, Arith8(rf, A, Or(Read8(rf, A), v)))
    case IncReg(d) => Step(Done, ToggleCarry(Arith8(rf, d, Add(Read8(rf, d), 1))))
    case IncWReg(d) => Step(Done, ToggleCarry(Arith16(rf, d, WideAdd(Read16(rf, d), 1))))
    case DecReg(d) => Step(Done, ToggleCarry(Arith8(rf, d, Sub(Read8(rf, d), 1))))
    case DecWReg(d) => Step(Done, Write16(rf, d, Decrement(Read16(rf, d))))
    case CpReg(s) => Step(Done, Write8(rf, F, Sub(Read8(rf, A), Read8(rf, s)).flags))
    case CpImm(v) => Step(Done, Write8(rf, F, Sub(Read8(rf, A), v).flags))
    case LdWRegImm(v, d) => Step(Done, Write16(rf, d, v))
    case Halt => Step(Unimplemented, rf)
    case LdRegMem(_, _) => Step(Unimplemented, rf)
    case LdMemReg(_, _) => Step(Unimplemented, rf)
    case LdMemHLImm => Step(Unimplemented, rf)
    case AddRegMem(_, _) => Step(Unimplemented, rf)
    case AdcRegMem(_, _) => Step(Unimplemented, rf)
    case SubMem(_) => Step(Unimplemented, rf)
    case SbcMem(_) => Step(Unimplemented, rf)
    case AndMem(_) => Step(Unimplemented, rf)
    case OrMem(_) => Step(Unimplemented, rf)
    case IncMem(_) => Step(Unimplemented, rf)
    case DecMem(_) => Step(Unimplemented, rf)
    case CpMem(_) => Step(Unimplemented, rf)
    case Push(_) => Step(Unimplemented, rf)
    case Pop(_) => Step(Unimplemented, rf)
  }

  /** The operand decoding never yields an instruction the executor would
      reject, given what the tables hold for its opcode. */
  lemma OperandsWellFormed(kind: InstrKind, s: bv8, d: bv8)
    requires !ReadsImmediate(kind)
    requires kind.AddWRegWReg? ==> s in {3, 5, 7, 9} && d == 7
    requires !(kind.IncWReg? || kind.DecWReg? || kind.Push?)
    ensures Operands(kind, s, d).Decoded? ==> WellFormed(Operands(kind, s, d).instr)
  {
    if TwoOperandKind(kind) {
      TwoOperandsWellFormed(kind, s, d);
    } else {
      OneOperandWellFormed(kind, s, d);
    }
  }

  /** The kinds whose operands come from both table entries, and Halt. */
  predicate TwoOperandKind(kind: InstrKind)
  {
    kind.Halt? || kind.LdRegReg? || kind.LdRegMem? || kind.LdMemReg? || kind.AddRegReg?
    || kind.AddRegMem? || kind.AddWRegWReg? || kind.AdcRegReg? || kind.AdcRegMem?
  }

  lemma TwoOperandsWellFormed(kind: InstrKind, s: bv8, d: bv8)
    requires TwoOperandKind(kind)
    requires kind.AddWRegWReg? ==> s in {3, 5, 7, 9} && d == 7
    ensures Operands(kind, s, d).Decoded? ==> WellFormed(Operands(kind, s, d).instr)
  {
  }

  lemma OneOperandWellFormed(kind: InstrKind, s: bv8, d: bv8)
    requires !ReadsImmediate(kind) && !TwoOperandKind(kind)
    requires !(kind.IncWReg? || kind.DecWReg? || kind.Push?)
    ensures Operands(kind, s, d).Decoded? ==> WellFormed(Operands(kind, s, d).instr)
  {
  }

  /** Neither does any arm of the decoder. */
  lemma ArmWellFormed(code: seq<bv8>, pc: Pc, op: bv8, kind: InstrKind)
    requires kind.AddWRegWReg? ==> SrcOf(op) in {3, 5, 7, 9} && DstOf(op) == 7
    requires !(kind.IncWReg? || kind.DecWReg? || kind.LdWRegImm? || kind.Push?)
    ensures var d := DecodeKind(code, pc, op, kind);
      d.outcome.Decoded? ==> WellFormed(d.outcome.instr)
  {
    if !ReadsImmediate(kind) {
      OperandsWellFormed(kind, SrcOf(op), DstOf(op));
    }
  }

  /** Whatever the bytes, a decoded instruction passes the executor's
      register checks: 8-bit operands are never `Invalid`, and AddWRegWReg,
      the only wide kind in the kind table that the decoder has an arm for,
      names wide registers. */
  lemma {:induction false} DecodedWellFormed(code: seq<bv8>, pc: Pc)
    ensures var d := Decode(code, pc);
      d.outcome.Decoded? ==> WellFormed(d.outcome.instr)
  {
    if pc < |code| {
      var op := code[pc];
      OpcodeFacts(op);
      var kind := KindFromU8(KindOf(op)).value;
      ArmWellFormed(code, Next(pc), op, kind);
      assert Decode(code, pc) == DecodeKind(code, Next(pc), op, kind);
    }
  }

  /** No operand entry of the tables is F's code, so no decoded instruction
      names F as an 8-bit operand. */
  lemma {:induction false} DecodedNamesNoF(code: seq<bv8>, pc: Pc)
    ensures var d := Decode(code, pc);
      d.outcome.Decoded? ==> AvoidsF(d.outcome.instr)
  {
    if pc < |code| {
      var op := code[pc];
      OpcodeFacts(op);
      KindTableFacts();
      assert 0 <= op as int < 256;
      assert SrcOf(op) != F_CODE && DstOf(op) != F_CODE;
      EntersArm(code, pc);
      ArmAvoidsF(code, Next(pc), op, KindFromU8(KindOf(op)).value);
    }
  }

  lemma ArmAvoidsF(code: seq<bv8>, pc: Pc, op: bv8, kind: InstrKind)
    requires SrcOf(op) != F_CODE && DstOf(op) != F_CODE
    ensures var d := DecodeKind(code, pc, op, kind);
      d.outcome.Decoded? ==> AvoidsF(d.outcome.instr)
  {
    if ReadsImmediate(kind) {
      ImmediateArmAvoidsF(code, pc, op, kind);
    } else {
      OperandsAvoidF(kind, SrcOf(op), DstOf(op));
    }
  }

  lemma ImmediateArmAvoidsF(code: seq<bv8>, pc: Pc, op: bv8, kind: InstrKind)
    requires ReadsImmediate(kind) && DstOf(op) != F_CODE
    ensures var d := ImmediateArm(code, pc, op, kind);
      d.outcome.Decoded? ==> AvoidsF(d.outcome.instr)
  {
  }

  lemma OperandsAvoidF(kind: InstrKind, s: bv8, d: bv8)
    requires !ReadsImmediate(kind) && s != F_CODE && d != F_CODE
    ensures Operands(kind, s, d).Decoded? ==> AvoidsF(Operands(kind, s, d).instr)
  {
    if TwoOperandKind(kind) {
      TwoOperandsAvoidF(kind, s, d);
    } else {
      OneOperandAvoidsF(kind, s, d);
    }
  }

  lemma TwoOperandsAvoidF(kind: InstrKind, s: bv8, d: bv8)
    requires TwoOperandKind(kind) && s != F_CODE && d != F_CODE
    ensures Operands(kind, s, d).Decoded? ==> AvoidsF(Operands(kind, s, d).instr)
  {
  }

  lemma OneOperandAvoidsF(kind: InstrKind, s: bv8, d: bv8)
    requires !ReadsImmediate(kind) && !TwoOperandKind(kind) && s != F_CODE
    ensures Operands(kind, s, d).Decoded? ==> AvoidsF(Operands(kind, s, d).instr)
  {
    if kind.SubReg? || kind.SbcReg? || kind.AndReg? || kind.OrReg? || kind.IncReg? || kind.DecReg? || kind.CpReg? {
      OneRegAvoidsF(kind, s, d);
    }
  }

  lemma OneRegAvoidsF(kind: InstrKind, s: bv8, d: bv8)
    requires kind.SubReg? || kind.SbcReg? || kind.AndReg? || kind.OrReg? || kind.IncReg? || kind.DecReg? || kind.CpReg?
    requires s != F_CODE
    ensures Operands(kind, s, d).Decoded? ==> AvoidsF(Operands(kind, s, d).instr)
  {
  }

  /** The result of one step of the CPU. */
  datatype Execution = Execution(outcome: Outcome, regs: RegFile, pc: Pc)

  /** `execute`: decode at `pc`; without an instruction the registers are
      left alone, otherwise the instruction is run. */
  function Execute(rf: RegFile, pc: Pc, code: seq<bv8>): Execution
  {
    var d := Decode(code, pc);
    match d.outcome
    case NoInstr => Execution(NoInstruction, rf, d.pc)
    case DecodeFault(f) => Execution(Stopped(f), rf, d.pc)
    case Decoded(i) =>
      DecodedWellFormed(code, pc);
      var s := Apply(rf, i);
      Execution(s.outcome, s.regs, d.pc)
  }

  /** IncReg adds one to `dst`. Because the executor flips the carry the
      addition produced, C ends up set exactly when `dst` did NOT wrap from
      0xFF. Z, H and N are those of the addition, and no other register
      changes. */
  lemma IncRegFlags(rf: RegFile, d: Reg)
    requires d != Reg.Invalid && d != F
    ensures var s := Apply(rf, Instr.IncReg(d));
      var x := Read8(rf, d);
      var f := Read8(s.regs, F);
      && s.outcome == Done
      && Read8(s.regs, d) == x + 1
      && (Has(f, FLAG_C) <==> x != 0xFF)
      && (Has(f, FLAG_Z) <==> x == 0xFF)
      && (Has(f, FLAG_H) <==> x + 1 >= 0x10)
      && !Has(f, FLAG_N)
      && forall k :: 0 <= k < 10 && k != Slot(d) && k != Slot(F) ==> s.regs[k] == rf[k]
  {
    IncDecFrame(rf, Instr.IncReg(d));
  }

  /** IncReg and DecReg write `dst` and F and nothing else. */
  lemma IncDecFrame(rf: RegFile, i: Instr)
    requires (i.IncReg? || i.DecReg?) && i.dst != Reg.Invalid
    ensures var s := Apply(rf, i);
      forall k :: 0 <= k < 10 && k != Slot(i.dst) && k != Slot(F) ==> s.regs[k] == rf[k]
  {
  }

  /** DecReg subtracts one from `dst`. The executor flips the no-borrow
      carry of the subtraction, so C ends up set exactly when `dst` wrapped
      from 0; N and H are always set, Z when `dst` was 1, and no other
      register changes. */
  lemma DecRegFlags(rf: RegFile, d: Reg)
    requires d != Reg.Invalid && d != F
    ensures var s := Apply(rf, Instr.DecReg(d));
      var x := Read8(rf, d);
      var f := Read8(s.regs, F);
      && s.outcome == Done
      && Read8(s.regs, d) == x - 1
      && (Has(f, FLAG_C) <==> x == 0)
      && (Has(f, FLAG_Z) <==> x == 1)
      && Has(f, FLAG_H) && Has(f, FLAG_N)
      && forall k :: 0 <= k < 10 && k != Slot(d) && k != Slot(F) ==> s.regs[k] == rf[k]
  {
    IncDecFrame(rf, Instr.DecReg(d));
  }

  /** DecWReg counts down and stops at 0 instead of wrapping. */
  lemma {:induction false} DecWRegSaturates(rf: RegFile, d: Reg)
    requires d.IsWide()
    ensures var s := Apply(rf, Instr.DecWReg(d));
      var w := Read16(rf, d);
      && s.outcome == Done
      && (w == 0 ==> Read16(s.regs, d) == 0)
      && (w != 0 ==> Read16(s.regs, d) + 1 == w)
  {
    WideReadAfterWrite(rf, d, Decrement(Read16(rf, d)));
  }

  /** DecWReg leaves F, like every register outside the pair, untouched. */
  lemma DecWRegKeepsFlags(rf: RegFile, d: Reg)
    requires d.IsWide()
    ensures var s := Apply(rf, Instr.DecWReg(d));
      && Read8(s.regs, F) == Read8(rf, F)
      && forall k :: 0 <= k < 10 && k != Slot(d) && k != Slot(d) + 1 ==> s.regs[k] == rf[k]
  {
  }

  /** CpReg and CpImm compare A with the operand and change nothing but F:
      Z says they are equal, C that the operand is at most A. */
  lemma CompareChangesOnlyFlags(rf: RegFile, i: Instr)
    requires (i.CpReg? && i.src != Reg.Invalid) || i.CpImm?
    ensures var s := Apply(rf, i);
      var v := if i.CpReg? then Read8(rf, i.src) else i.imm;
      var a := Read8(rf, A);
      var f := Read8(s.regs, F);
      && s.outcome == Done
      && (Has(f, FLAG_Z) <==> a == v)
      && (Has(f, FLAG_C) <==> v <= a)
      && (Has(f, FLAG_H) <==> v < 0x10)
      && Has(f, FLAG_N)
      && f == Sub(a, v).flags
      && forall k :: 0 <= k < 10 && k != Slot(F) ==> s.regs[k] == rf[k]
  {
  }

  /** LdRegReg and LdRegImm put the value in `dst` and change nothing else. */
  lemma LoadChangesOnlyDst(rf: RegFile, i: Instr)
    requires (i.LdRegReg? && i.src != Reg.Invalid && i.dst != Reg.Invalid)
          || (i.LdRegImm? && i.dst != Reg.Invalid)
    ensures var s := Apply(rf, i);
      var v := if i.LdRegReg? then Read8(rf, i.src) else i.imm;
      && s.outcome == Done
      && Read8(s.regs, i.dst) == v
      && forall k :: 0 <= k < 10 && k != Slot(i.dst) ==> s.regs[k] == rf[k]
  {
  }

  /** LdWRegImm loads the 16-bit immediate into the wide register, and
      nothing outside the pair changes. */
  lemma {:induction false} WideLoad(rf: RegFile, v: bv16, d: Reg)
    requires d.IsWide()
    ensures var s := Apply(rf, Instr.LdWRegImm(v, d));
      && s.outcome == Done
      && Read16(s.regs, d) == v
      && forall k :: 0 <= k < 10 && k != Slot(d) && k != Slot(d) + 1 ==> s.regs[k] == rf[k]
  {
    WideReadAfterWrite(rf, d, v);
  }

  /** The 8-bit additions: the ALU adds the source (register or immediate)
      to `dst` (with the carry of F for ADC), `dst` receives the sum and F
      the flags, unless `dst` is F itself, and nothing else changes; the
      low nibble of F is then 0. */
  lemma AdditionWritesDstAndFlags(rf: RegFile, i: Instr)
    requires i.AddRegReg? || i.AddRegImm? || i.AdcRegReg? || i.AdcRegImm?
    requires WellFormed(i)
    ensures var s := Apply(rf, i);
      var x := if i.AddRegImm? || i.AdcRegImm? then i.imm else Read8(rf, i.src);
      var y := Read8(rf, i.dst);
      var out := if i.AddRegReg? || i.AddRegImm? then Add(x, y) else Adc(x, y, Read8(rf, F));
      && s.outcome == Done
      && Read8(s.regs, i.dst) == out.result
      && (i.dst != F ==> Read8(s.regs, F) == out.flags)
      && (i.dst != F ==> Read8(s.regs, F) & 0x0F == 0)
      && forall k :: 0 <= k < 10 && k != Slot(i.dst) && k != Slot(F) ==> s.regs[k] == rf[k]
  {
  }

  /** The 16-bit additions: the wide `dst` receives the 16-bit sum of the
      source (a wide register, or the immediate widened) and `dst`, F the
      flags of that sum, and nothing outside F and the pair changes. */
  lemma {:induction false} WideAdditionWritesPairAndFlags(rf: RegFile, i: Instr)
    requires i.AddWRegWReg? || i.AddWRegImm?
    requires WellFormed(i)
    ensures var s := Apply(rf, i);
      var x := if i.AddWRegImm? then i.imm as bv16 else Read16(rf, i.src);
      var out := WideAdd(x, Read16(rf, i.dst));
      && s.outcome == Done
      && Read16(s.regs, i.dst) == out.result
      && Read8(s.regs, F) == out.flags
      && forall k :: 0 <= k < 10 && k != Slot(F) && k != Slot(i.dst) && k != Slot(i.dst) + 1 ==>
           s.regs[k] == rf[k]
  {
  }

  /** The one-operand arithmetic and logic instructions: the ALU combines A
      with the operand (register or immediate; SBC also with the carry of
      F), A receives the result and F the flags, so the low nibble of F is
      0, and nothing else changes. */
  lemma AccumulatorWritesAAndFlags(rf: RegFile, i: Instr)
    requires i.SubReg? || i.SubImm? || i.SbcReg? || i.SbcImm?
          || i.AndReg? || i.AndImm? || i.OrReg? || i.OrImm?
    requires WellFormed(i)
    ensures var s := Apply(rf, i);
      var v := if i.SubImm? || i.SbcImm? || i.AndImm? || i.OrImm? then i.imm else Read8(rf, i.src);
      var a := Read8(rf, A);
      var out := if i.SubReg? || i.SubImm? then Sub(a, v)
                 else if i.SbcReg? || i.SbcImm? then Sbc(a, v, Read8(rf, F))
                 else if i.AndReg? || i.AndImm? then And(a, v)
                 else Or(a, v);
      && s.outcome == Done
      && Read8(s.regs, A) == out.result
      && Read8(s.regs, F) == out.flags
      && Read8(s.regs, F) & 0x0F == 0
      && forall k :: 0 <= k < 10 && k != Slot(A) && k != Slot(F) ==> s.regs[k] == rf[k]
  {
    if i.SubReg? || i.SubImm? || i.SbcReg? || i.SbcImm? {
      SubtractArms(rf, i);
    } else {
      LogicArms(rf, i);
    }
  }

  lemma SubtractArms(rf: RegFile, i: Instr)
    requires i.SubReg? || i.SubImm? || i.SbcReg? || i.SbcImm?
    requires WellFormed(i)
    ensures var s := Apply(rf, i);
      var v := if i.SubImm? || i.SbcImm? then i.imm else Read8(rf, i.src);
      var a := Read8(rf, A);
      var out := if i.SubReg? || i.SubImm? then Sub(a, v) else Sbc(a, v, Read8(rf, F));
      && s.outcome == Done
      && Read8(s.regs, A) == out.result
      && Read8(s.regs, F) == out.flags
      && Read8(s.regs, F) & 0x0F == 0
      && forall k :: 0 <= k < 10 && k != Slot(A) && k != Slot(F) ==> s.regs[k] == rf[k]
  {
  }

  lemma LogicArms(rf: RegFile, i: Instr)
    requires i.AndReg? || i.AndImm? || i.OrReg? || i.OrImm?
    requires WellFormed(i)
    ensures var s := Apply(rf, i);
      var v := if i.AndImm? || i.OrImm? then i.imm else Read8(rf, i.src);
      var a := Read8(rf, A);
      var out := if i.AndReg? || i.AndImm? then And(a, v) else Or(a, v);
      && s.outcome == Done
      && Read8(s.regs, A) == out.result
      && Read8(s.regs, F) == out.flags
      && Read8(s.regs, F) & 0x0F == 0
      && forall k :: 0 <= k < 10 && k != Slot(A) && k != Slot(F) ==> s.regs[k] == rf[k]
  {
  }

  /** The executor stops with `Unimplemented` exactly on the instructions it
      has no semantics for, and then leaves the registers as they were;
      every other instruction runs to completion. */
  lemma UnsupportedStops(rf: RegFile, i: Instr)
    requires WellFormed(i)
    ensures Apply(rf, i).outcome == Unimplemented <==> Unsupported(i)
    ensures Unsupported(i) ==> Apply(rf, i).regs == rf
    ensures !Unsupported(i) ==> Apply(rf, i).outcome == Done
  {
    if Unsupported(i) {
      UnsupportedArms(rf, i);
    } else {
      SupportedArms(rf, i);
    }
  }

  lemma UnsupportedArms(rf: RegFile, i: Instr)
    requires WellFormed(i) && Unsupported(i)
    ensures Apply(rf, i) == Step(Unimplemented, rf)
  {
  }

  lemma SupportedArms(rf: RegFile, i: Instr)
    requires WellFormed(i) && !Unsupported(i)
    ensures Apply(rf, i).outcome == Done
  {
  }

  /** A step leaves `pc` where decoding left it. When decoding yields
      nothing or faults, the registers are unchanged. */
  lemma {:induction false} ExecuteDecodesFirst(rf: RegFile, pc: Pc, code: seq<bv8>)
    ensures Execute(rf, pc, code).pc == Decode(code, pc).pc
    ensures !Decode(code, pc).outcome.Decoded? ==> Execute(rf, pc, code).regs == rf
    ensures Execute(rf, pc, code).outcome == NoInstruction <==> Decode(code, pc).outcome == NoInstr
  {
    match Decode(code, pc).outcome {
      case Decoded(i) =>
        DecodedWellFormed(code, pc);
        UnsupportedStops(rf, i);
      case NoInstr =>
      case DecodeFault(_) =>
    }
  }

  /** The ALU always leaves the low nibble of F at 0, and an instruction
      that avoids F never writes anything else there. */
  lemma ApplyKeepsFlagNibble(rf: RegFile, i: Instr)
    requires WellFormed(i) && AvoidsF(i)
    requires Read8(rf, F) & 0x0F == 0
    ensures Read8(Apply(rf, i).regs, F) & 0x0F == 0
  {
    if Unsupported(i) {
      UnsupportedArms(rf, i);
    } else if i.AddRegReg? || i.AddRegImm? || i.AdcRegReg? || i.AdcRegImm? {
      AdditionWritesDstAndFlags(rf, i);
    } else if i.SubReg? || i.SubImm? || i.SbcReg? || i.SbcImm?
           || i.AndReg? || i.AndImm? || i.OrReg? || i.OrImm? {
      AccumulatorWritesAAndFlags(rf, i);
    } else if i.AddWRegWReg? || i.AddWRegImm? {
      WideAdditionWritesPairAndFlags(rf, i);
    } else if i.LdRegReg? || i.LdRegImm? {
      LoadChangesOnlyDst(rf, i);
    } else if i.LdWRegImm? {
      WideLoad(rf, i.imm16, i.dst);
    } else if i.CpReg? || i.CpImm? {
      CompareChangesOnlyFlags(rf, i);
    } else if i.DecWReg? {
      DecWRegKeepsFlags(rf, i.dst);
    } else if i.Nop? {
    } else {
      IncDecKeepFlagNibble(rf, i);
    }
  }

  /** The increments and decrements write the ALU's flags and then invert
      C, which leaves the low nibble alone. */
  lemma IncDecKeepFlagNibble(rf: RegFile, i: Instr)
    requires i.IncReg? || i.DecReg? || i.IncWReg?
    requires WellFormed(i) && AvoidsF(i)
    requires Read8(rf, F) & 0x0F == 0
    ensures Read8(Apply(rf, i).regs, F) & 0x0F == 0
  {
  }

  /** A step that starts with the low nibble of F clear leaves it clear:
      whatever the bytes, no decoded instruction writes F except through
      the ALU. */
  lemma {:induction false} FlagNibbleStaysZero(rf: RegFile, pc: Pc, code: seq<bv8>)
    requires Read8(rf, F) & 0x0F == 0
    ensures Read8(Execute(rf, pc, code).regs, F) & 0x0F == 0
  {
    DecodedNamesNoF(code, pc);
    DecodedWellFormed(code, pc);
    match Decode(code, pc).outcome {
      case Decoded(i) => ApplyKeepsFlagNibble(rf, i);
      case NoInstr =>
      case DecodeFault(_) =>
    }
  }
}
