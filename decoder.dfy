/** The decoder: from the byte at `pc` (and the immediates after it) to an
    instruction, through the three opcode tables. Decoding is a function of
    the instruction bytes and the program counter; it yields the outcome and
    the program counter as the CPU holds it afterwards.

    The source reads bytes with checked slice indexing, asserts that the
    operand table entries it uses are non-zero, and transmutes table bytes to
    enumerations. Each of these can stop decoding: an index past the end of
    the bytes, a zero operand entry, and a byte that names no variant (which
    is undefined behaviour in a release build) are outcomes of their own
    here. The program counter is a 16-bit counter that wraps. */
module Decoder {
  import opened Isa
  import opened Tables
  import opened Registers

  /** Why decoding stopped instead of producing a result. */
  datatype Fault =
    | OutOfBounds            // a byte was read past the end of the instructions
    | ZeroOperand            // an operand entry asserted non-zero was zero
    | UndefinedDiscriminant  // a table byte names no variant of its enumeration

  /** What one decode step yields: an instruction, no instruction (the
      source's `None`), or a fault. */
  datatype DecodeOutcome = Decoded(instr: Instr) | NoInstr | DecodeFault(fault: Fault)

  /** The values of the 16-bit program counter. */
  type Pc = x: int | 0 <= x < 0x1_0000

  /** A sum of program counter and a small offset, reduced to 16 bits. */
  function Wrap(x: int): (p: Pc)
    requires 0 <= x < 0x2_0000
    ensures p == x % 0x1_0000
  {
    if x < 0x1_0000 then x else x - 0x1_0000
  }

  /** `pc += 1` on the 16-bit program counter; it wraps to 0 as in a release
      build. */
  function Next(pc: Pc): (p: Pc)
    ensures pc < 0xFFFF ==> p == pc + 1
    ensures pc == 0xFFFF ==> p == 0
  {
    Wrap(pc + 1)
  }

  /** The outcome of a decode step with the program counter after it. */
  datatype Decoding = Decoding(outcome: DecodeOutcome, pc: Pc)

  // The three table entries of an opcode.
  function KindOf(op: bv8): bv8 { KindEntry(op as int) }
  function SrcOf(op: bv8): bv8 { SrcEntry(op as int) }
  function DstOf(op: bv8): bv8 { DstEntry(op as int) }

  /** `decode_reg!`: one register operand, always the opcode's source
      entry `s`, whether the instruction reads or writes it. */
  function OneReg(s: bv8, make: Reg -> Instr): (r: DecodeOutcome)
    ensures r == DecodeFault(ZeroOperand) <==> s == 0
    ensures r == DecodeFault(UndefinedDiscriminant) <==> s > 9
    ensures r.Decoded? <==> 0 < s <= 9
  {
    if s == 0 then DecodeFault(ZeroOperand)
    else if s > 9 then DecodeFault(UndefinedDiscriminant)
    else Decoded(make(RegFromU8(s)))
  }

  /** `decode_mem!`: one address operand, the source entry `s`. */
  function OneAddr(s: bv8, make: RegAddr -> Instr): (r: DecodeOutcome)
    ensures r == DecodeFault(ZeroOperand) <==> s == 0
    ensures r == DecodeFault(UndefinedDiscriminant) <==> !IsRegAddrCode(s)
    ensures r.Decoded? <==> 10 <= s <= 15
  {
    if s == 0 then DecodeFault(ZeroOperand)
    else if !IsRegAddrCode(s) then DecodeFault(UndefinedDiscriminant)
    else Decoded(make(RegAddrFromU8(s)))
  }

  /** `decode_reg_reg!`: both entries are asserted non-zero before either is
      converted. */
  function TwoRegs(s: bv8, d: bv8, make: (Reg, Reg) -> Instr): (r: DecodeOutcome)
    ensures r == DecodeFault(ZeroOperand) <==> s == 0 || d == 0
    ensures r == DecodeFault(UndefinedDiscriminant) <==> s != 0 && d != 0 && (s > 9 || d > 9)
    ensures r.Decoded? <==> 0 < s <= 9 && 0 < d <= 9
  {
    if s == 0 || d == 0 then DecodeFault(ZeroOperand)
    else if s > 9 || d > 9 then DecodeFault(UndefinedDiscriminant)
    else Decoded(make(RegFromU8(s), RegFromU8(d)))
  }

  /** `decode_reg_mem!`: a register source and an address destination; it
      builds a load whatever the kind it was used for. */
  function RegToAddr(s: bv8, d: bv8): (r: DecodeOutcome)
    ensures r == DecodeFault(ZeroOperand) <==> s == 0 || d == 0
    ensures r == DecodeFault(UndefinedDiscriminant)
        <==> s != 0 && d != 0 && (s > 9 || !IsRegAddrCode(d))
    ensures r.Decoded? <==> 0 < s <= 9 && 10 <= d <= 15
    ensures r.Decoded? ==>
      r.instr.LdRegMem? && r.instr.src.Code() == s && r.instr.dstAddr.Code() == d
  {
    if s == 0 || d == 0 then DecodeFault(ZeroOperand)
    else if s > 9 || !IsRegAddrCode(d) then DecodeFault(UndefinedDiscriminant)
    else Decoded(Instr.LdRegMem(RegFromU8(s), RegAddrFromU8(d)))
  }

  /** `decode_mem_reg!`: an address source and a register destination. */
  function AddrToReg(s: bv8, d: bv8): (r: DecodeOutcome)
    ensures r == DecodeFault(ZeroOperand) <==> s == 0 || d == 0
    ensures r == DecodeFault(UndefinedDiscriminant)
        <==> s != 0 && d != 0 && (!IsRegAddrCode(s) || d > 9)
    ensures r.Decoded? <==> 10 <= s <= 15 && 0 < d <= 9
    ensures r.Decoded? ==>
      r.instr.LdMemReg? && r.instr.srcAddr.Code() == s && r.instr.dst.Code() == d
  {
    if s == 0 || d == 0 then DecodeFault(ZeroOperand)
    else if !IsRegAddrCode(s) || d > 9 then DecodeFault(UndefinedDiscriminant)
    else Decoded(Instr.LdMemReg(RegAddrFromU8(s), RegFromU8(d)))
  }

  /** What the tables hold for any opcode: its kind byte names a kind, never
      IncWReg, DecWReg, LdWRegImm or Push, and AddWRegWReg only comes with
      BC, DE, HL or SP added into HL. */
  lemma OpcodeFacts(op: bv8)
    ensures KindFromU8(KindOf(op)).Some?
    ensures var k := KindFromU8(KindOf(op)).value;
      && !(k.IncWReg? || k.DecWReg? || k.LdWRegImm? || k.Push?)
      && (k.AddWRegWReg? ==> SrcOf(op) in {3, 5, 7, 9} && DstOf(op) == 7)
  {
    KindTableFacts();
    assert 0 <= op as int < 256;
    WideKindCodes(KindOf(op));
  }

  /** The number of immediate bytes the arm of a kind reads. */
  function ImmediateBytes(kind: InstrKind): nat
  {
    if kind.LdWRegImm? then 2 else if ReadsImmediate(kind) then 1 else 0
  }

  /** The outcome for a kind that reads no immediate byte, from the
      opcode's source and destination entries `s` and `d`. Nop, LdMemHLImm,
      AddWRegImm and the Xor kinds fall to the source's catch-all `None`. */
  function Operands(kind: InstrKind, s: bv8, d: bv8): DecodeOutcome
    requires !ReadsImmediate(kind)
  {
    match kind
    case Halt => Decoded(Instr.Halt)
    case LdRegReg => TwoRegs(s, d, (x, y) => Instr.LdRegReg(x, y))
    case LdRegMem => RegToAddr(s, d)
    case LdMemReg => AddrToReg(s, d)
    case AddRegReg => TwoRegs(s, d, (x, y) => Instr.AddRegReg(x, y))
    case AddRegMem => RegToAddr(s, d)
    case AddWRegWReg => TwoRegs(s, d, (x, y) => Instr.AddWRegWReg(x, y))
    case AdcRegReg => TwoRegs(s, d, (x, y) => Instr.AdcRegReg(x, y))
    case AdcRegMem => RegToAddr(s, d)
    case SubReg => OneReg(s, r => Instr.SubReg(r))
    case SubMem => OneAddr(s, a => Instr.SubMem(a))
    case SbcReg => OneReg(s, r => Instr.SbcReg(r))
    case SbcMem => OneAddr(s, a => Instr.SbcMem(a))
    case AndReg => OneReg(s, r => Instr.AndReg(r))
    case AndMem => OneAddr(s, a => Instr.AndMem(a))
    case OrReg => OneReg(s, r => Instr.OrReg(r))
    case OrMem => OneAddr(s, a => Instr.OrMem(a))
    case IncReg => OneReg(s, r => Instr.IncReg(r))
    case IncWReg => OneReg(s, r => Instr.IncWReg(r))
    case IncMem => OneAddr(s, a => Instr.IncMem(a))
    case DecReg => OneReg(s, r => Instr.DecReg(r))
    case DecWReg => OneReg(s, r => Instr.DecWReg(r))
    case DecMem => OneAddr(s, a => Instr.DecMem(a))
    case CpReg => OneReg(s, r => Instr.CpReg(r))
    case CpMem => OneAddr(s, a => Instr.CpMem(a))
    case Push => OneReg(s, r => Instr.Push(r))
    case Pop => OneReg(s, r => Instr.Pop(r))
    case _ => NoInstr
  }

  /** `decode_imm!`: one immediate byte at `pc`. */
  function Imm(code: seq<bv8>, pc: Pc, make: bv8 -> Instr): (r: Decoding)
    ensures r.outcome == DecodeFault(OutOfBounds) <==> |code| <= pc
    ensures |code| <= pc ==> r.pc == pc
    ensures pc < |code| ==> r == Decoding(Decoded(make(code[pc])), Next(pc))
  {
    if |code| <= pc then Decoding(DecodeFault(OutOfBounds), pc)
    else Decoding(Decoded(make(code[pc])), Next(pc))
  }

  /** `decode_reg_imm!`: the immediate is read (and `pc` advanced) before the
      destination entry is checked; it builds a load whatever the kind. */
  function RegImm(code: seq<bv8>, pc: Pc, d: bv8): (r: Decoding)
    ensures r.outcome == DecodeFault(OutOfBounds) <==> |code| <= pc
    ensures r.pc == if |code| <= pc then pc else Next(pc)
    ensures pc < |code| ==> (r.outcome == DecodeFault(ZeroOperand) <==> d == 0)
    ensures pc < |code| ==> (r.outcome == DecodeFault(UndefinedDiscriminant) <==> d > 9)
    ensures r.outcome.Decoded? ==>
      r.outcome.instr.LdRegImm? && r.outcome.instr.imm == code[pc] && r.outcome.instr.dst.Code() == d
  {
    if |code| <= pc then Decoding(DecodeFault(OutOfBounds), pc)
    else
      var imm := code[pc];
      var next := Next(pc);
      if d == 0 then Decoding(DecodeFault(ZeroOperand), next)
      else if d > 9 then Decoding(DecodeFault(UndefinedDiscriminant), next)
      else Decoding(Decoded(Instr.LdRegImm(imm, RegFromU8(d))), next)
  }

  /** The LdWRegImm arm: two immediate bytes, the first one the low byte. */
  function WideImm(code: seq<bv8>, pc: Pc, d: bv8): (r: Decoding)
    ensures r.outcome == DecodeFault(OutOfBounds) <==> |code| <= pc || |code| <= Next(pc)
    ensures r.pc == if |code| <= pc then pc else if |code| <= Next(pc) then Next(pc) else Next(Next(pc))
    ensures pc < |code| && Next(pc) < |code| ==> (r.outcome == DecodeFault(ZeroOperand) <==> d == 0)
    ensures pc < |code| && Next(pc) < |code| ==> (r.outcome == DecodeFault(UndefinedDiscriminant) <==> d > 9)
    ensures r.outcome.Decoded? ==>
      && r.outcome.instr.LdWRegImm? && r.outcome.instr.dst.Code() == d
      && Lo(r.outcome.instr.imm16) == code[pc] && Hi(r.outcome.instr.imm16) == code[Next(pc)]
  {
    if |code| <= pc then Decoding(DecodeFault(OutOfBounds), pc)
    else
      var lo := code[pc];
      var pc1 := Next(pc);
      if |code| <= pc1 then Decoding(DecodeFault(OutOfBounds), pc1)
      else
        var hi := code[pc1];
        var pc2 := Next(pc1);
        if d == 0 then Decoding(DecodeFault(ZeroOperand), pc2)
        else if d > 9 then Decoding(DecodeFault(UndefinedDiscriminant), pc2)
        else Decoding(Decoded(Instr.LdWRegImm(Join(lo, hi), RegFromU8(d))), pc2)
  }

  /** One decode step at `pc`: read the opcode, advance `pc` past it, and
      decode by the opcode's kind. */
  function Decode(code: seq<bv8>, pc: Pc): Decoding
  {
    if |code| <= pc then Decoding(DecodeFault(OutOfBounds), pc)
    else
      var op := code[pc];
      match KindFromU8(KindOf(op))
      case None => Decoding(DecodeFault(UndefinedDiscriminant), Next(pc))
      case Some(kind) => DecodeKind(code, Next(pc), op, kind)
  }

  /** The arm of the decoder for `kind`, entered with `pc` just past the
      opcode `op`. */
  function DecodeKind(code: seq<bv8>, pc: Pc, op: bv8, kind: InstrKind): Decoding
  {
    if ReadsImmediate(kind) then ImmediateArm(code, pc, op, kind)
    else Decoding(Operands(kind, SrcOf(op), DstOf(op)), pc)
  }

  /** The arms that read immediate bytes. */
  function ImmediateArm(code: seq<bv8>, pc: Pc, op: bv8, kind: InstrKind): Decoding
    requires ReadsImmediate(kind)
  {
    if kind.LdRegImm? || kind.AddRegImm? || kind.AdcRegImm? then RegImm(code, pc, DstOf(op))
    else if kind.SubImm? then Imm(code, pc, v => Instr.SubImm(v))
    else if kind.SbcImm? then Imm(code, pc, v => Instr.SbcImm(v))
    else if kind.AndImm? then Imm(code, pc, v => Instr.AndImm(v))
    else if kind.OrImm? then Imm(code, pc, v => Instr.OrImm(v))
    else if kind.CpImm? then Imm(code, pc, v => Instr.CpImm(v))
    else WideImm(code, pc, DstOf(op))
  }

  /** The length in bytes of the instruction an opcode starts, as the kind
      table implies: two for the immediate kinds, three for a wide
      immediate load, one for everything else. */
  function InstrLength(op: bv8): (n: nat)
    ensures 1 <= n <= 3
  {
    var k := KindOf(op);
    if k == 40 then 3
    else if k == 3 || k == 8 || k == 13 || k == 16 || k == 19 || k == 22 || k == 28 || k == 37 then 2
    else 1
  }

  /** The table length of an opcode is that of its kind. */
  lemma LengthOfKind(op: bv8, kind: InstrKind)
    requires KindFromU8(KindOf(op)) == Some(kind)
    ensures InstrLength(op) == 1 + ImmediateBytes(kind)
  {
    ImmediateKindCodes(KindOf(op));
  }

  /** Only reading bytes can run out of them: the operand tables never do. */
  lemma OperandsInBounds(kind: InstrKind, s: bv8, d: bv8)
    requires !ReadsImmediate(kind)
    ensures Operands(kind, s, d) != DecodeFault(OutOfBounds)
  {
  }

  /** An arm reads as many immediate bytes as its kind has and moves `pc`
      past them, unless it runs out of bytes. */
  lemma {:induction false} DecodeKindAdvance(code: seq<bv8>, pc: Pc, op: bv8, kind: InstrKind)
    ensures var d := DecodeKind(code, pc, op, kind);
      d.outcome != DecodeFault(OutOfBounds) ==> d.pc == Wrap(pc + ImmediateBytes(kind))
    ensures var d := DecodeKind(code, pc, op, kind);
      pc + ImmediateBytes(kind) <= 0x1_0000 ==>
        (d.outcome == DecodeFault(OutOfBounds) <==> 0 < ImmediateBytes(kind) && |code| < pc + ImmediateBytes(kind))
  {
    if !ReadsImmediate(kind) {
      OperandsInBounds(kind, SrcOf(op), DstOf(op));
    }
  }

  /** Decoding with `pc` past the end faults without moving `pc`. Otherwise a
      decode step that does not run out of bytes moves `pc` (modulo 2^16)
      past the whole instruction: the opcode and its immediates, and that
      also when it yields no instruction or an operand fault. */
  lemma {:induction false} DecodeAdvance(code: seq<bv8>, pc: Pc)
    ensures |code| <= pc ==> Decode(code, pc) == Decoding(DecodeFault(OutOfBounds), pc)
    ensures pc < |code| && Decode(code, pc).outcome != DecodeFault(OutOfBounds) ==>
      Decode(code, pc).pc == Wrap(pc + InstrLength(code[pc]))
  {
    if pc < |code| {
      var op := code[pc];
      match KindFromU8(KindOf(op)) {
        case None =>
          assert InstrLength(op) == 1;
        case Some(kind) =>
          LengthOfKind(op, kind);
          DecodeKindAdvance(code, Next(pc), op, kind);
      }
    }
  }

  /** When the instruction at `pc` fits below 2^16, decoding runs out of bytes
      exactly when the bytes end inside the instruction. */
  lemma {:induction false} DecodeInBounds(code: seq<bv8>, pc: Pc)
    requires pc < |code|
    requires pc + InstrLength(code[pc]) <= 0x1_0000
    ensures Decode(code, pc).outcome == DecodeFault(OutOfBounds)
        <==> |code| < pc + InstrLength(code[pc])
  {
    var op := code[pc];
    match KindFromU8(KindOf(op)) {
      case None =>
        assert InstrLength(op) == 1;
      case Some(kind) =>
        LengthOfKind(op, kind);
        DecodeKindAdvance(code, Next(pc), op, kind);
    }
  }

  /** Every arm with a body yields an instruction or a fault. */
  lemma ArmNoInstr(code: seq<bv8>, pc: Pc, op: bv8, kind: InstrKind)
    ensures (DecodeKind(code, pc, op, kind).outcome == NoInstr)
      <==> (kind.Nop? || kind.LdMemHLImm? || kind.AddWRegImm?
            || kind.XorReg? || kind.XorImm? || kind.XorMem?)
  {
    if !ReadsImmediate(kind) {
      OperandsNoInstr(kind, SrcOf(op), DstOf(op));
    }
  }

  /** The operand decoding yields no instruction exactly for the kinds it
      has no arm for. */
  lemma OperandsNoInstr(kind: InstrKind, s: bv8, d: bv8)
    requires !ReadsImmediate(kind)
    ensures (Operands(kind, s, d) == NoInstr)
      <==> (kind.Nop? || kind.LdMemHLImm? || kind.AddWRegImm?
            || kind.XorReg? || kind.XorImm? || kind.XorMem?)
  {
  }

  /** A decode step yields no instruction exactly when the kind byte of the
      opcode is Nop (0), LdMemHLImm (6), AddWRegImm (11) or one of the
      Xor kinds (24 to 26): the decoder has no arm for these. */
  lemma {:induction false} NoInstrKinds(code: seq<bv8>, pc: Pc)
    requires pc < |code|
    ensures var k := KindOf(code[pc]);
      (Decode(code, pc).outcome == NoInstr)
        <==> (k == 0 || k == 6 || k == 11 || k == 24 || k == 25 || k == 26)
  {
    var op := code[pc];
    OpcodeFacts(op);
    ArmlessKindCodes(KindOf(op));
    ArmNoInstr(code, Next(pc), op, KindFromU8(KindOf(op)).value);
  }

  /** The outcomes of successive decode steps, and the `pc` after the last. */
  datatype Run = Run(outcomes: seq<DecodeOutcome>, pc: Pc)

  /** `n` successive steps of `step`, each starting at the `pc` the previous
      one left. */
  function Steps(step: Pc -> Decoding, pc: Pc, n: nat): (r: Run)
    ensures |r.outcomes| == n
    ensures n > 0 ==> r.outcomes[0] == step(pc).outcome
    ensures forall k {:trigger r.outcomes[k]} :: 0 <= k < n ==> r.outcomes[k] == step(Steps(step, pc, k).pc).outcome
    decreases n
  {
    if n == 0 then Run([], pc)
    else
      var d := step(pc);
      var rest := Steps(step, d.pc, n - 1);
      Run([d.outcome] + rest.outcomes, rest.pc)
  }

  /** Steps compose: `m + n` steps are `m` steps followed by `n` steps from
      where those left `pc`. */
  lemma {:induction false} StepsSplit(step: Pc -> Decoding, pc: Pc, m: nat, n: nat)
    ensures var first := Steps(step, pc, m);
      var second := Steps(step, first.pc, n);
      Steps(step, pc, m + n) == Run(first.outcomes + second.outcomes, second.pc)
    decreases m
  {
    if m > 0 {
      var d := step(pc);
      StepsSplit(step, d.pc, m - 1, n);
      var rest := Steps(step, d.pc, m - 1);
      var more := Steps(step, rest.pc, n).outcomes;
      assert [d.outcome] + (rest.outcomes + more) == ([d.outcome] + rest.outcomes) + more;
    }
  }

  /** `n` successive decode steps on one CPU, as the decoder test makes
      them: each `decode` starts at the `pc` the previous one left. */
  function DecodeSteps(code: seq<bv8>, pc: Pc, n: nat): (r: Run)
    ensures |r.outcomes| == n
    ensures n > 0 ==> r.outcomes[0] == Decode(code, pc).outcome
  {
    Steps((p: Pc) => Decode(code, p), pc, n)
  }

  /** Once `pc` is past the bytes it stays there, and every further decode
      step faults. */
  lemma {:induction false} StuckPastEnd(code: seq<bv8>, pc: Pc, n: nat)
    requires |code| <= pc
    ensures DecodeSteps(code, pc, n) == Run(seq(n, _ => DecodeFault(OutOfBounds)), pc)
    decreases n
  {
    if n > 0 {
      StuckPastEnd(code, pc, n - 1);
      assert Decode(code, pc) == Decoding(DecodeFault(OutOfBounds), pc);
      assert seq(n, _ => DecodeFault(OutOfBounds))
          == [DecodeFault(OutOfBounds)] + seq(n - 1, _ => DecodeFault(OutOfBounds));
    }
  }

  /** The decoder test of the source as decode steps: `[0x40, 0x50, 0x46]`
      decodes to LD B,B, LD D,B and LD B,(HL) with `pc` ending at 3, and a
      fourth step indexes past the bytes. */
  lemma ExampleProgramSteps()
    ensures DecodeSteps([0x40, 0x50, 0x46], 0, 3)
         == Run([Decoded(Instr.LdRegReg(B, B)), Decoded(Instr.LdRegReg(B, D)),
                 Decoded(Instr.LdMemReg(RegAddr.HL, B))], 3)
    ensures DecodeSteps([0x40, 0x50, 0x46], 0, 4).outcomes[3] == DecodeFault(OutOfBounds)
  {
    var code: seq<bv8> := [0x40, 0x50, 0x46];
    ExampleProgramDecodes();
    StepsSplit((p: Pc) => Decode(code, p), 0, 3, 1);
    StuckPastEnd(code, 3, 1);
  }

  /** The three decode steps of the example program one by one. */
  lemma ExampleProgramDecodes()
    ensures Decode([0x40, 0x50, 0x46], 0) == Decoding(Decoded(Instr.LdRegReg(B, B)), 1)
    ensures Decode([0x40, 0x50, 0x46], 1) == Decoding(Decoded(Instr.LdRegReg(B, D)), 2)
    ensures Decode([0x40, 0x50, 0x46], 2) == Decoding(Decoded(Instr.LdMemReg(RegAddr.HL, B)), 3)
  {
    assert KindOf(0x40) == 2 && SrcOf(0x40) == 3 && DstOf(0x40) == 3;
    assert KindOf(0x50) == 2 && SrcOf(0x50) == 3 && DstOf(0x50) == 5;
    assert KindOf(0x46) == 5 && SrcOf(0x46) == 10 && DstOf(0x46) == 3;
  }

  /** 0x3C, an increment of A on the Game Boy, has kind 0 (Nop) in the kind
      table, so it decodes to no instruction. */
  lemma IncADecodesToNothing()
    ensures Decode([0x3C], 0) == Decoding(NoInstr, 1)
  {
  }

  /** 0xCE, an add-with-carry of an immediate to A on the Game Boy, goes
      through the register-immediate arm, which always builds a load: it
      decodes as loading the immediate into A. */
  lemma AdcImmediateDecodesAsLoad(v: bv8)
    ensures Decode([0xCE, v], 0) == Decoding(Decoded(Instr.LdRegImm(v, A)), 2)
  {
  }

  /** 0xC6, an add of an immediate to A on the Game Boy, has kind
      AddRegMem in the kind table and zero operand entries, so decoding it
      fails the operand assertion after the opcode. */
  lemma AddImmediateFailsOperandCheck(v: bv8)
    ensures Decode([0xC6, v], 0) == Decoding(DecodeFault(ZeroOperand), 1)
  {
  }

  /** With its immediate bytes present, an arm faults exactly when it
      rejects the opcode's operand entries. */
  lemma ArmFaultsExactly(code: seq<bv8>, pc: Pc, op: bv8, kind: InstrKind)
    requires pc + ImmediateBytes(kind) <= |code|
    ensures DecodeKind(code, pc, op, kind).outcome.DecodeFault? <==> ArmRejects(kind, SrcOf(op), DstOf(op))
  {
    if ReadsImmediate(kind) {
      ImmediateArmFaults(code, pc, op, kind);
    } else {
      OperandsFaults(kind, SrcOf(op), DstOf(op));
    }
  }

  lemma ImmediateArmFaults(code: seq<bv8>, pc: Pc, op: bv8, kind: InstrKind)
    requires ReadsImmediate(kind) && pc + ImmediateBytes(kind) <= |code|
    ensures ImmediateArm(code, pc, op, kind).outcome.DecodeFault? <==> ArmRejects(kind, SrcOf(op), DstOf(op))
  {
  }

  lemma OperandsFaults(kind: InstrKind, s: bv8, d: bv8)
    requires !ReadsImmediate(kind)
    ensures Operands(kind, s, d).DecodeFault? <==> ArmRejects(kind, s, d)
  {
  }

  /** Past a valid kind byte, a decode step is the arm of that kind. */
  lemma EntersArm(code: seq<bv8>, pc: Pc)
    requires pc < |code| && IsKindCode(KindOf(code[pc]))
    ensures Decode(code, pc) == DecodeKind(code, Next(pc), code[pc], KindFromU8(KindOf(code[pc])).value)
  {
  }

  /** Exactly eleven opcodes fault in decoding when enough bytes follow
      them: 0x0E, 0x1E, 0x2E, 0x3E, 0xC2, 0xC6 and 0xD2 have a zero operand
      entry where their arm asserts one, and 0x86, 0x8E, 0x9E and 0xB6 have
      the address code 10 where their arm reads a register. */
  lemma {:induction false} DecodeFaultOpcodes(op: bv8, a: bv8, b: bv8)
    ensures Decode([op, a, b], 0).outcome.DecodeFault?
        <==> op in {0x0E, 0x1E, 0x2E, 0x3E, 0xC2, 0xC6, 0xD2, 0x86, 0x8E, 0x9E, 0xB6}
  {
    var code: seq<bv8> := [op, a, b];
    OpcodeFacts(op);
    LengthOfKind(op, KindFromU8(KindOf(op)).value);
    FaultsByEntries(code, 0);
    FaultingBytes(op);
  }

  /** The faulting opcodes as bytes. */
  lemma FaultingBytes(op: bv8)
    ensures op as int in FAULTING_OPCODES
        <==> op in {0x0E, 0x1E, 0x2E, 0x3E, 0xC2, 0xC6, 0xD2, 0x86, 0x8E, 0x9E, 0xB6}
  {
  }

  /** With the whole instruction present, a decode step faults exactly when
      its opcode is one of the eleven. */
  lemma FaultsByEntries(code: seq<bv8>, pc: Pc)
    requires pc < |code| && IsKindCode(KindOf(code[pc]))
    requires pc + 1 + ImmediateBytes(KindFromU8(KindOf(code[pc])).value) <= |code|
    ensures Decode(code, pc).outcome.DecodeFault? <==> code[pc] as int in FAULTING_OPCODES
  {
    var op := code[pc];
    var kind := KindFromU8(KindOf(op)).value;
    FaultingEntries(op as int);
    EntersArm(code, pc);
    ArmFaultsExactly(code, Next(pc), op, kind);
    RejectsByCode(KindOf(op), SrcOf(op), DstOf(op));
  }

  /** 0x86, an add from memory at HL to A on the Game Boy, goes through
      the register-to-memory arm, which reads its source entry (an address
      code) as a register number beyond the `Reg` discriminants. */
  lemma AddFromMemoryIsUndefined()
    ensures Decode([0x86], 0) == Decoding(DecodeFault(UndefinedDiscriminant), 1)
  {
    assert KindOf(0x86) == 9 && SrcOf(0x86) == 10 && DstOf(0x86) == 1;
  }
}
