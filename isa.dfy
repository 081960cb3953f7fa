/** The instruction-set vocabulary of the CPU: the 8-bit register names, the
    register-pair addressing modes, the instruction kinds that the opcode
    tables name by number, and the decoded instruction value.
    Every enumeration keeps the discriminant the source gives it, and each
    `...FromU8` conversion is the inverse of its `Code()` on exactly the
    values that name a variant. */
module Isa {

  /** The 8-bit registers, numbered from 1; `Invalid` (0) is the "no operand"
      sentinel. SP is the one register that is only ever used wide. */
  datatype Reg = Invalid | A | F | B | C | D | E | H | L | SP
  {
    function Code(): bv8
    {
      match this
      case Invalid => 0
      case A => 1
      case F => 2
      case B => 3
      case C => 4
      case D => 5
      case E => 6
      case H => 7
      case L => 8
      case SP => 9
    }

    /** The registers a wide (16-bit) access may name: B (BC), D (DE), H (HL)
        and SP. The debug-build checks refuse Invalid, A, C, E, F and L. */
    predicate IsWide()
    {
      this == B || this == D || this == H || this == SP
    }
  }

  /** Conversion from a table byte to a register. The source transmutes the
      byte after a debug-only check that it is at most 9. */
  function RegFromU8(v: bv8): (r: Reg)
    requires v <= 9
    ensures r.Code() == v
    ensures r == Reg.Invalid <==> v == 0
  {
    if v == 0 then Reg.Invalid
    else if v == 1 then A
    else if v == 2 then F
    else if v == 3 then B
    else if v == 4 then C
    else if v == 5 then D
    else if v == 6 then E
    else if v == 7 then H
    else if v == 8 then L
    else SP
  }

  /** The registers (pairs) that hold an address, numbered from 10 so that
      the operand tables can mix them with register numbers. */
  datatype RegAddr = Invalid | HL | HLPlus | HLMinus | BC | DE | Imm
  {
    function Code(): bv8
    {
      match this
      case Invalid => 0
      case HL => 10
      case HLPlus => 11
      case HLMinus => 12
      case BC => 13
      case DE => 14
      case Imm => 15
    }
  }

  /** The byte values that name an address mode. */
  predicate IsRegAddrCode(v: bv8)
  {
    v == 0 || (10 <= v && v <= 15)
  }

  /** Conversion from a table byte to an address mode, transmuted after a
      debug-only check that the byte is 0 or in 10..15. */
  function RegAddrFromU8(v: bv8): (r: RegAddr)
    requires IsRegAddrCode(v)
    ensures r.Code() == v
  {
    if v == 0 then RegAddr.Invalid
    else if v == 10 then HL
    else if v == 11 then HLPlus
    else if v == 12 then HLMinus
    else if v == 13 then BC
    else if v == 14 then DE
    else Imm
  }

  /** The instruction kinds of the kind table. Discriminant 39 is unused. */
  datatype InstrKind =
    | Nop | Halt
    | LdRegReg | LdRegImm | LdRegMem | LdMemReg | LdMemHLImm
    | AddRegReg | AddRegImm | AddRegMem | AddWRegWReg | AddWRegImm
    | AdcRegReg | AdcRegImm | AdcRegMem
    | SubReg | SubImm | SubMem
    | SbcReg | SbcImm | SbcMem
    | AndReg | AndImm | AndMem
    | XorReg | XorImm | XorMem
    | OrReg | OrImm | OrMem
    | IncReg | IncWReg | IncMem
    | DecReg | DecWReg | DecMem
    | CpReg | CpImm | CpMem
    | LdWRegImm | Push | Pop
  {
    function Code(): bv8
    {
      match this
      case Nop => 0
      case Halt => 1
      case LdRegReg => 2
      case LdRegImm => 3
      case LdRegMem => 4
      case LdMemReg => 5
      case LdMemHLImm => 6
      case AddRegReg => 7
      case AddRegImm => 8
      case AddRegMem => 9
      case AddWRegWReg => 10
      case AddWRegImm => 11
      case AdcRegReg => 12
      case AdcRegImm => 13
      case AdcRegMem => 14
      case SubReg => 15
      case SubImm => 16
      case SubMem => 17
      case SbcReg => 18
      case SbcImm => 19
      case SbcMem => 20
      case AndReg => 21
      case AndImm => 22
      case AndMem => 23
      case XorReg => 24
      case XorImm => 25
      case XorMem => 26
      case OrReg => 27
      case OrImm => 28
      case OrMem => 29
      case IncReg => 30
      case IncWReg => 31
      case IncMem => 32
      case DecReg => 33
      case DecWReg => 34
      case DecMem => 35
      case CpReg => 36
      case CpImm => 37
      case CpMem => 38
      case LdWRegImm => 40
      case Push => 41
      case Pop => 42
    }
  }

  /** The byte values that are discriminants of `InstrKind`. */
  predicate IsKindCode(v: bv8)
  {
    v < 43 && v != 39
  }

  /** Conversion from a kind-table byte to an instruction kind. The source
      transmutes the byte; a byte that is no discriminant has no kind, shown
      here as `None`. The lookup is split by ranges of discriminants. */
  function KindFromU8(v: bv8): (r: Option<InstrKind>)
    ensures r.Some? <==> IsKindCode(v)
    ensures r.Some? ==> r.value.Code() == v
  {
    if v < 6 then KindFrom0(v)
    else if v < 12 then KindFrom6(v)
    else if v < 18 then KindFrom12(v)
    else if v < 24 then KindFrom18(v)
    else if v < 30 then KindFrom24(v)
    else if v < 36 then KindFrom30(v)
    else if v < 42 then KindFrom36(v)
    else KindFrom42(v)
  }

  // The ranges of KindFromU8.
  function KindFrom0(v: bv8): (r: Option<InstrKind>)
    requires v < 6
    ensures r.Some? <==> IsKindCode(v)
    ensures r.Some? ==> r.value.Code() == v
  {
    match v
    case 0 => Some(InstrKind.Nop)
    case 1 => Some(InstrKind.Halt)
    case 2 => Some(InstrKind.LdRegReg)
    case 3 => Some(InstrKind.LdRegImm)
    case 4 => Some(InstrKind.LdRegMem)
    case 5 => Some(InstrKind.LdMemReg)
    case _ => None
  }

  function KindFrom6(v: bv8): (r: Option<InstrKind>)
    requires 6 <= v < 12
    ensures r.Some? <==> IsKindCode(v)
    ensures r.Some? ==> r.value.Code() == v
  {
    match v
    case 6 => Some(InstrKind.LdMemHLImm)
    case 7 => Some(InstrKind.AddRegReg)
    case 8 => Some(InstrKind.AddRegImm)
    case 9 => Some(InstrKind.AddRegMem)
    case 10 => Some(InstrKind.AddWRegWReg)
    case 11 => Some(InstrKind.AddWRegImm)
    case _ => None
  }

  function KindFrom12(v: bv8): (r: Option<InstrKind>)
    requires 12 <= v < 18
    ensures r.Some? <==> IsKindCode(v)
    ensures r.Some? ==> r.value.Code() == v
  {
    match v
    case 12 => Some(InstrKind.AdcRegReg)
    case 13 => Some(InstrKind.AdcRegImm)
    case 14 => Some(InstrKind.AdcRegMem)
    case 15 => Some(InstrKind.SubReg)
    case 16 => Some(InstrKind.SubImm)
    case 17 => Some(InstrKind.SubMem)
    case _ => None
  }

  function KindFrom18(v: bv8): (r: Option<InstrKind>)
    requires 18 <= v < 24
    ensures r.Some? <==> IsKindCode(v)
    ensures r.Some? ==> r.value.Code() == v
  {
    match v
    case 18 => Some(InstrKind.SbcReg)
    case 19 => Some(InstrKind.SbcImm)
    case 20 => Some(InstrKind.SbcMem)
    case 21 => Some(InstrKind.AndReg)
    case 22 => Some(InstrKind.AndImm)
    case 23 => Some(InstrKind.AndMem)
    case _ => None
  }

  function KindFrom24(v: bv8): (r: Option<InstrKind>)
    requires 24 <= v < 30
    ensures r.Some? <==> IsKindCode(v)
    ensures r.Some? ==> r.value.Code() == v
  {
    match v
    case 24 => Some(InstrKind.XorReg)
    case 25 => Some(InstrKind.XorImm)
    case 26 => Some(InstrKind.XorMem)
    case 27 => Some(InstrKind.OrReg)
    case 28 => Some(InstrKind.OrImm)
    case 29 => Some(InstrKind.OrMem)
    case _ => None
  }

  function KindFrom30(v: bv8): (r: Option<InstrKind>)
    requires 30 <= v < 36
    ensures r.Some? <==> IsKindCode(v)
    ensures r.Some? ==> r.value.Code() == v
  {
    match v
    case 30 => Some(InstrKind.IncReg)
    case 31 => Some(InstrKind.IncWReg)
    case 32 => Some(InstrKind.IncMem)
    case 33 => Some(InstrKind.DecReg)
    case 34 => Some(InstrKind.DecWReg)
    case 35 => Some(InstrKind.DecMem)
    case _ => None
  }

  function KindFrom36(v: bv8): (r: Option<InstrKind>)
    requires 36 <= v < 42
    ensures r.Some? <==> IsKindCode(v)
    ensures r.Some? ==> r.value.Code() == v
  {
    match v
    case 36 => Some(InstrKind.CpReg)
    case 37 => Some(InstrKind.CpImm)
    case 38 => Some(InstrKind.CpMem)
    case 40 => Some(InstrKind.LdWRegImm)
    case 41 => Some(InstrKind.Push)
    case _ => None
  }

  function KindFrom42(v: bv8): (r: Option<InstrKind>)
    requires 42 <= v
    ensures r.Some? <==> IsKindCode(v)
    ensures r.Some? ==> r.value.Code() == v
  {
    match v
    case 42 => Some(InstrKind.Pop)
    case _ => None
  }

  /** Every kind survives the trip through its discriminant. */
  lemma KindCodeRoundTrip(k: InstrKind)
    ensures KindFromU8(k.Code()) == Some(k)
  {
  }

  /** The discriminants of the wide-register kinds that have a decoder arm
      (AddWRegImm, 11, is wide too, but has none). */
  lemma WideKindCodes(v: bv8)
    requires IsKindCode(v)
    ensures var k := KindFromU8(v).value;
      && (k.AddWRegWReg? <==> v == 10) && (k.IncWReg? <==> v == 31) && (k.DecWReg? <==> v == 34)
      && (k.LdWRegImm? <==> v == 40) && (k.Push? <==> v == 41)
  {
  }

  /** The discriminants of the kinds that carry immediate bytes: 40 for
      LdWRegImm, and eight more for the kinds with one immediate byte. */
  lemma ImmediateKindCodes(v: bv8)
    requires IsKindCode(v)
    ensures var k := KindFromU8(v).value;
      && (k.LdWRegImm? <==> v == 40)
      && ((k.LdRegImm? || k.AddRegImm? || k.AdcRegImm? || k.SubImm? || k.SbcImm?
           || k.AndImm? || k.OrImm? || k.CpImm?)
          <==> (v == 3 || v == 8 || v == 13 || v == 16 || v == 19 || v == 22 || v == 28 || v == 37))
  {
  }

  /** The discriminants of the kinds the decoder has no arm for. */
  lemma ArmlessKindCodes(v: bv8)
    requires IsKindCode(v)
    ensures var k := KindFromU8(v).value;
      (k.Nop? || k.LdMemHLImm? || k.AddWRegImm? || k.XorReg? || k.XorImm? || k.XorMem?)
        <==> (v == 0 || v == 6 || v == 11 || v == 24 || v == 25 || v == 26)
  {
  }

  datatype Option<T> = None | Some(value: T)

  /** A decoded instruction. Each variant carries the operands the source's
      variant carries; field names differ where the source reuses `src` or
      `dst` for operands of different types. */
  datatype Instr =
    | Nop
    | Halt
    | LdRegReg(src: Reg, dst: Reg)
    | LdRegImm(imm: bv8, dst: Reg)
    | LdRegMem(src: Reg, dstAddr: RegAddr)
    | LdMemReg(srcAddr: RegAddr, dst: Reg)
    | LdMemHLImm
    | AddRegReg(src: Reg, dst: Reg)
    | AddRegImm(imm: bv8, dst: Reg)
    | AddRegMem(srcAddr: RegAddr, dst: Reg)
    | AddWRegWReg(src: Reg, dst: Reg)
    | AddWRegImm(imm: bv8, dst: Reg)
    | AdcRegReg(src: Reg, dst: Reg)
    | AdcRegImm(imm: bv8, dst: Reg)
    | AdcRegMem(srcAddr: RegAddr, dst: Reg)
    | SubReg(src: Reg)
    | SubImm(imm: bv8)
    | SubMem(srcAddr: RegAddr)
    | SbcReg(src: Reg)
    | SbcImm(imm: bv8)
    | SbcMem(srcAddr: RegAddr)
    | AndReg(src: Reg)
    | AndImm(imm: bv8)
    | AndMem(srcAddr: RegAddr)
    | OrReg(src: Reg)
    | OrImm(imm: bv8)
    | OrMem(srcAddr: RegAddr)
    | IncReg(dst: Reg)
    | IncWReg(dst: Reg)
    | IncMem(dstAddr: RegAddr)
    | DecReg(dst: Reg)
    | DecWReg(dst: Reg)
    | DecMem(dstAddr: RegAddr)
    | CpReg(src: Reg)
    | CpImm(imm: bv8)
    | CpMem(srcAddr: RegAddr)
    | LdWRegImm(imm16: bv16, dst: Reg)
    | Push(src: Reg)
    | Pop(dst: Reg)
}
