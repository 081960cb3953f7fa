/** The CPU object: ten register bytes in an array and the program counter,
    updated in place by its methods as the source's `Cpu` does. Every method
    is proved to do to the object what the pure functions of the other
    modules say: the register accessors agree with `Registers`, the ALU
    methods with `Alu`, `Decode` with `Decoder.Decode` and `Execute` with
    `Exec.Execute`. */
module Machine {
  import opened Isa
  import opened Tables
  import opened Registers
  import opened Alu
  import opened Decoder
  import opened Exec

  class Cpu {
    /** A F B C D E H L and the two bytes of SP. */
    const registers: array<bv8>
    /** The program counter. */
    var pc: Pc

    ghost predicate Valid()
      reads this
    {
      registers.Length == 10
    }

    /** The register bytes as a value. */
    function Regs(): RegFile
      reads this, registers
      requires Valid()
    {
      registers[..]
    }

    /** A CPU with every register and the program counter at 0. */
    constructor ()
      ensures Valid() && fresh(registers)
      ensures Regs() == ZERO && pc == 0
    {
      registers := new bv8[10](_ => 0);
      pc := 0;
    }

    /** `write_reg`. */
    method WriteReg(r: Reg, v: bv8)
      requires Valid() && r != Reg.Invalid
      modifies registers
      ensures Regs() == Write8(old(Regs()), r, v)
    {
      registers[r.Code() as int - 1] := v;
    }

    /** `read_reg`. */
    method ReadReg(r: Reg) returns (v: bv8)
      requires Valid() && r != Reg.Invalid
      ensures v == Read8(Regs(), r)
    {
      v := registers[r.Code() as int - 1];
    }

    /** `read_widereg`: the two bytes of the pair, the first one low. */
    method ReadWideReg(r: Reg) returns (w: bv16)
      requires Valid() && r.IsWide()
      ensures w == Read16(Regs(), r)
    {
      var k := r.Code() as int - 1;
      w := Join(registers[k], registers[k + 1]);
    }

    /** `write_widereg`: the low byte first, then the high byte. */
    method WriteWideReg(r: Reg, w: bv16)
      requires Valid() && r.IsWide()
      modifies registers
      ensures Regs() == Write16(old(Regs()), r, w)
    {
      var k := r.Code() as int - 1;
      registers[k] := Lo(w);
      registers[k + 1] := Hi(w);
    }

    /** `alu_add`: the flags are gathered bit by bit, then written to F. */
    method AluAdd(a: bv8, b: bv8) returns (res: bv8)
      requires Valid()
      modifies registers
      ensures res == Add(a, b).result
      ensures Regs() == Write8(old(Regs()), F, Add(a, b).flags)
    {
      res := a + b;
      var carry := res < a;
      var halfCarry := res >> 4 != 0;
      var zero := res == 0;
      var flags := GatherFlags(zero, false, halfCarry, carry);
      WriteReg(F, flags);
    }

    /** `alu_wideadd`. */
    method AluWideAdd(a: bv16, b: bv16) returns (res: bv16)
      requires Valid()
      modifies registers
      ensures res == WideAdd(a, b).result
      ensures Regs() == Write8(old(Regs()), F, WideAdd(a, b).flags)
    {
      res := a + b;
      var carry := WideCarry(a, b);
      var halfCarry := res >> 12 != 0;
      var zero := res == 0;
      var flags := GatherFlags(zero, false, halfCarry, carry);
      WriteReg(F, flags);
    }

    /** `alu_adc`: reads the carry from F before writing the new flags. The
        result and the flag byte are those of `Adc`. */
    method AluAdc(a: bv8, b: bv8) returns (res: bv8)
      requires Valid()
      modifies registers
      ensures res == Adc(a, b, old(Read8(Regs(), F))).result
      ensures Regs() == Write8(old(Regs()), F, Adc(a, b, old(Read8(Regs(), F))).flags)
    {
      var flags := ReadReg(F);
      var out := Adc(a, b, flags);
      WriteReg(F, out.flags);
      res := out.result;
    }

    /** `alu_sub`. */
    method AluSub(a: bv8, b: bv8) returns (res: bv8)
      requires Valid()
      modifies registers
      ensures res == Sub(a, b).result
      ensures Regs() == Write8(old(Regs()), F, Sub(a, b).flags)
    {
      res := a - b;
      var carry := a < b;
      var halfCarry := b >> 4 != 0;
      var zero := res == 0;
      var flags := GatherFlags(zero, true, !halfCarry, !carry);
      WriteReg(F, flags);
    }

    /** `alu_sbc`: like `alu_sub`, and with C set in F it adds 1. The result
        and the flag byte are those of `Sbc`. */
    method AluSbc(a: bv8, b: bv8) returns (res: bv8)
      requires Valid()
      modifies registers
      ensures res == Sbc(a, b, old(Read8(Regs(), F))).result
      ensures Regs() == Write8(old(Regs()), F, Sbc(a, b, old(Read8(Regs(), F))).flags)
    {
      var flags := ReadReg(F);
      var out := Sbc(a, b, flags);
      WriteReg(F, out.flags);
      res := out.result;
    }

    /** `alu_and`. */
    method AluAnd(a: bv8, b: bv8) returns (res: bv8)
      requires Valid()
      modifies registers
      ensures res == And(a, b).result
      ensures Regs() == Write8(old(Regs()), F, And(a, b).flags)
    {
      res := a & b;
      var zero := res == 0;
      var flags := FLAG_H;
      if zero { flags := flags | FLAG_Z; }
      WriteReg(F, flags);
    }

    /** `alu_or`. */
    method AluOr(a: bv8, b: bv8) returns (res: bv8)
      requires Valid()
      modifies registers
      ensures res == Or(a, b).result
      ensures Regs() == Write8(old(Regs()), F, Or(a, b).flags)
    {
      res := a | b;
      var zero := res == 0;
      var flags: bv8 := 0;
      if zero { flags := flags | FLAG_Z; }
      WriteReg(F, flags);
    }

    /** `decode_imm!`: read one immediate byte and step past it. */
    method DecodeImm(code: seq<bv8>, make: bv8 -> Instr) returns (out: DecodeOutcome)
      modifies this`pc
      ensures Decoding(out, pc) == Decoder.Imm(code, old(pc), make)
    {
      if |code| <= pc {
        return DecodeFault(OutOfBounds);
      }
      var imm := code[pc];
      pc := Next(pc);
      out := Decoded(make(imm));
    }

    /** `decode_reg_imm!`: read the immediate, step past it, then check the
        destination entry. */
    method DecodeRegImm(code: seq<bv8>, op: bv8) returns (out: DecodeOutcome)
      modifies this`pc
      ensures Decoding(out, pc) == RegImm(code, old(pc), DstOf(op))
    {
      if |code| <= pc {
        return DecodeFault(OutOfBounds);
      }
      var imm := code[pc];
      pc := Next(pc);
      var dst := DstOf(op);
      if dst == 0 {
        return DecodeFault(ZeroOperand);
      }
      if dst > 9 {
        return DecodeFault(UndefinedDiscriminant);
      }
      out := Decoded(Instr.LdRegImm(imm, RegFromU8(dst)));
    }

    /** The LdWRegImm arm: two immediate bytes, each followed by a step. */
    method DecodeWideImm(code: seq<bv8>, op: bv8) returns (out: DecodeOutcome)
      modifies this`pc
      ensures Decoding(out, pc) == WideImm(code, old(pc), DstOf(op))
    {
      if |code| <= pc {
        return DecodeFault(OutOfBounds);
      }
      var lo := code[pc];
      pc := Next(pc);
      if |code| <= pc {
        return DecodeFault(OutOfBounds);
      }
      var hi := code[pc];
      pc := Next(pc);
      var dst := DstOf(op);
      if dst == 0 {
        return DecodeFault(ZeroOperand);
      }
      if dst > 9 {
        return DecodeFault(UndefinedDiscriminant);
      }
      out := Decoded(Instr.LdWRegImm(Join(lo, hi), RegFromU8(dst)));
    }

    /** `decode`: read the opcode, step past it, and decode by its kind. */
    method Decode(code: seq<bv8>) returns (out: DecodeOutcome)
      modifies this`pc
      ensures Decoding(out, pc) == Decoder.Decode(code, old(pc))
    {
      if |code| <= pc {
        return DecodeFault(OutOfBounds);
      }
      var op := code[pc];
      pc := Next(pc);
      var kind := KindFromU8(KindOf(op));
      if kind.None? {
        return DecodeFault(UndefinedDiscriminant);
      }
      out := DecodeByKind(code, op, kind.value);
    }

    /** The match of `decode` on the kind of the opcode, with `pc` already
        past the opcode. */
    method DecodeByKind(code: seq<bv8>, op: bv8, kind: InstrKind) returns (out: DecodeOutcome)
      modifies this`pc
      ensures Decoding(out, pc) == DecodeKind(code, old(pc), op, kind)
    {
      if ReadsImmediate(kind) {
        out := DecodeImmediate(code, op, kind);
      } else {
        out := Operands(kind, SrcOf(op), DstOf(op));
      }
    }

    /** The arms of `decode` that read immediate bytes. */
    method DecodeImmediate(code: seq<bv8>, op: bv8, kind: InstrKind) returns (out: DecodeOutcome)
      requires ReadsImmediate(kind)
      modifies this`pc
      ensures Decoding(out, pc) == ImmediateArm(code, old(pc), op, kind)
    {
      if kind.LdRegImm? || kind.AddRegImm? || kind.AdcRegImm? {
        out := DecodeRegImm(code, op);
      } else if kind.SubImm? {
        out := DecodeImm(code, v => Instr.SubImm(v));
      } else if kind.SbcImm? {
        out := DecodeImm(code, v => Instr.SbcImm(v));
      } else if kind.AndImm? {
        out := DecodeImm(code, v => Instr.AndImm(v));
      } else if kind.OrImm? {
        out := DecodeImm(code, v => Instr.OrImm(v));
      } else if kind.CpImm? {
        out := DecodeImm(code, v => Instr.CpImm(v));
      } else {
        out := DecodeWideImm(code, op);
      }
    }

    /** The arms of `execute` that load or add. */
    method RunLoadOrAdd(i: Instr) returns (o: Outcome)
      requires Valid() && WellFormed(i)
      requires i.LdRegReg? || i.LdRegImm? || i.AddRegReg? || i.AddRegImm? || i.AddWRegWReg?
            || i.AddWRegImm? || i.AdcRegReg? || i.AdcRegImm? || i.LdWRegImm?
      modifies registers
      ensures Step(o, Regs()) == Apply(old(Regs()), i)
    {
      o := Done;
      match i
      case LdRegReg(s, d) =>
        var v := ReadReg(s);
        WriteReg(d, v);
      case LdRegImm(v, d) =>
        WriteReg(d, v);
      case AddRegReg(s, d) =>
        var x := ReadReg(s);
        var y := ReadReg(d);
        var res := AluAdd(x, y);
        WriteReg(d, res);
      case AddRegImm(v, d) =>
        var y := ReadReg(d);
        var res := AluAdd(v, y);
        WriteReg(d, res);
      case AddWRegWReg(s, d) =>
        var x := ReadWideReg(s);
        var y := ReadWideReg(d);
        var res := AluWideAdd(x, y);
        WriteWideReg(d, res);
      case AddWRegImm(v, d) =>
        var y := ReadWideReg(d);
        var res := AluWideAdd(v as bv16, y);
        WriteWideReg(d, res);
      case AdcRegReg(s, d) =>
        var x := ReadReg(s);
        var y := ReadReg(d);
        var res := AluAdc(x, y);
        WriteReg(d, res);
      case AdcRegImm(v, d) =>
        var y := ReadReg(d);
        var res := AluAdc(v, y);
        WriteReg(d, res);
      case LdWRegImm(v, d) =>
        WriteWideReg(d, v);
    }

    /** The operand of an arm that works on A: the immediate, or the
        source register. */
    method SecondOperand(i: Instr) returns (v: bv8)
      requires Valid() && WellFormed(i)
      requires i.SubReg? || i.SubImm? || i.SbcReg? || i.SbcImm? || i.AndReg? || i.AndImm?
            || i.OrReg? || i.OrImm? || i.CpReg? || i.CpImm?
      ensures v == if i.SubImm? || i.SbcImm? || i.AndImm? || i.OrImm? || i.CpImm?
                   then i.imm else Read8(Regs(), i.src)
    {
      if i.SubImm? || i.SbcImm? || i.AndImm? || i.OrImm? || i.CpImm? {
        v := i.imm;
      } else {
        v := ReadReg(i.src);
      }
    }

    /** The SUB and SBC arms of `execute`, which store into A. */
    method RunSubtract(i: Instr) returns (o: Outcome)
      requires Valid() && WellFormed(i)
      requires i.SubReg? || i.SubImm? || i.SbcReg? || i.SbcImm?
      modifies registers
      ensures Step(o, Regs()) == Apply(old(Regs()), i)
    {
      var a := ReadReg(A);
      var v := SecondOperand(i);
      var res: bv8;
      if i.SbcReg? || i.SbcImm? {
        res := AluSbc(a, v);
      } else {
        res := AluSub(a, v);
      }
      WriteReg(A, res);
      o := Done;
    }

    /** The CP arms of `execute`: the subtraction only leaves its flags. */
    method RunCompare(i: Instr) returns (o: Outcome)
      requires Valid() && WellFormed(i)
      requires i.CpReg? || i.CpImm?
      modifies registers
      ensures Step(o, Regs()) == Apply(old(Regs()), i)
    {
      var a := ReadReg(A);
      var v := SecondOperand(i);
      var _ := AluSub(a, v);
      o := Done;
    }

    /** The bitwise arms of `execute`, which store into A. */
    method RunLogic(i: Instr) returns (o: Outcome)
      requires Valid() && WellFormed(i)
      requires i.AndReg? || i.AndImm? || i.OrReg? || i.OrImm?
      modifies registers
      ensures Step(o, Regs()) == Apply(old(Regs()), i)
    {
      var a := ReadReg(A);
      var v := SecondOperand(i);
      var res: bv8;
      if i.AndReg? || i.AndImm? {
        res := AluAnd(a, v);
      } else {
        res := AluOr(a, v);
      }
      WriteReg(A, res);
      o := Done;
    }

    /** The 8-bit increment and decrement arms of `execute`: after the ALU
        has written F, C is flipped. */
    method RunIncDec(i: Instr) returns (o: Outcome)
      requires Valid() && WellFormed(i)
      requires i.IncReg? || i.DecReg?
      modifies registers
      ensures Step(o, Regs()) == Apply(old(Regs()), i)
    {
      var x := ReadReg(i.dst);
      var res: bv8;
      if i.IncReg? {
        res := AluAdd(x, 1);
      } else {
        res := AluSub(x, 1);
      }
      WriteReg(i.dst, res);
      var flags := ReadReg(F);
      WriteReg(F, flags ^ FLAG_C);
      o := Done;
    }

    /** The wide increment and decrement arms of `execute`. The increment
        flips C like the 8-bit ones; the decrement stops at 0 and leaves F
        alone. */
    method RunWideIncDec(i: Instr) returns (o: Outcome)
      requires Valid() && WellFormed(i)
      requires i.IncWReg? || i.DecWReg?
      modifies registers
      ensures Step(o, Regs()) == Apply(old(Regs()), i)
    {
      var x := ReadWideReg(i.dst);
      if i.IncWReg? {
        var res := AluWideAdd(x, 1);
        WriteWideReg(i.dst, res);
        var flags := ReadReg(F);
        WriteReg(F, flags ^ FLAG_C);
      } else {
        var res := if x == 0 then 0 else x - 1;
        WriteWideReg(i.dst, res);
      }
      o := Done;
    }

    /** Run one decoded instruction. */
    method Dispatch(i: Instr) returns (o: Outcome)
      requires Valid() && WellFormed(i)
      modifies registers
      ensures Step(o, Regs()) == Apply(old(Regs()), i)
    {
      if i.Nop? {
        o := Done;
      } else if i.LdRegReg? || i.LdRegImm? || i.AddRegReg? || i.AddRegImm? || i.AddWRegWReg?
             || i.AddWRegImm? || i.AdcRegReg? || i.AdcRegImm? || i.LdWRegImm? {
        o := RunLoadOrAdd(i);
      } else if i.SubReg? || i.SubImm? || i.SbcReg? || i.SbcImm? {
        o := RunSubtract(i);
      } else if i.CpReg? || i.CpImm? {
        o := RunCompare(i);
      } else if i.AndReg? || i.AndImm? || i.OrReg? || i.OrImm? {
        o := RunLogic(i);
      } else if i.IncReg? || i.DecReg? {
        o := RunIncDec(i);
      } else if i.IncWReg? || i.DecWReg? {
        o := RunWideIncDec(i);
      } else {
        if i.Push? {
          var _ := ReadWideReg(i.src);
        }
        o := Unimplemented;
      }
    }

    /** `execute`: decode at `pc`, stop when nothing was decoded, otherwise
        run the instruction. */
    method Execute(code: seq<bv8>) returns (o: Outcome)
      requires Valid()
      modifies this`pc, registers
      ensures Execution(o, Regs(), pc) == Exec.Execute(old(Regs()), old(pc), code)
    {
      ghost var pc0 := pc;
      var d := Decode(code);
      match d
      case NoInstr => o := NoInstruction;
      case DecodeFault(f) => o := Stopped(f);
      case Decoded(i) =>
        DecodedWellFormed(code, pc0);
        o := Dispatch(i);
    }
  }

  /** The flag byte an ALU operation builds: it starts from N when `sub`
      is set, or from 0, and ORs in C, H and Z one at a time. */
  method GatherFlags(zero: bool, sub: bool, half: bool, carry: bool) returns (flags: bv8)
    ensures flags == Flags(zero, sub, half, carry)
  {
    flags := if sub then FLAG_N else 0;
    if carry { flags := flags | FLAG_C; }
    if half { flags := flags | FLAG_H; }
    if zero { flags := flags | FLAG_Z; }
  }

  /** The decoder test of the source: on a fresh CPU, three decodes of
      `[0x40, 0x50, 0x46]` give LD B,B, then LD D,B, then LD B,(HL), and
      leave `pc` at 3. */
  method DecodeExampleProgram() returns (first: DecodeOutcome, second: DecodeOutcome,
                                         third: DecodeOutcome, pc: Pc)
    ensures first == Decoded(Instr.LdRegReg(B, B))
    ensures second == Decoded(Instr.LdRegReg(B, D))
    ensures third == Decoded(Instr.LdMemReg(RegAddr.HL, B))
    ensures pc == 3
  {
    ExampleProgramDecodes();
    var cpu := new Cpu();
    var program: seq<bv8> := [0x40, 0x50, 0x46];
    first := cpu.Decode(program);
    second := cpu.Decode(program);
    third := cpu.Decode(program);
    pc := cpu.pc;
  }
}
