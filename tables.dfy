/** The three 256-entry opcode tables, indexed by the opcode byte: the
    instruction kind, the source operand code and the destination operand
    code. Their contents are the source's, entry for entry; each table is
    written as its sixteen rows (row n holds opcodes 0xn0..0xnF), and entry
    `i` is entry `i % 16` of row `i / 16`, which keeps every lookup a lookup
    into one short row. Operand code 0 means "no operand here"; 1..9 name a
    `Reg`, 10..15 a `RegAddr`. */
module Tables {
  import opened Isa

  /** INST_KIND_TABLE[i]. */
  function KindEntry(i: int): bv8
    requires 0 <= i < 256
  {
    KindRow(i / 16)[i % 16]
  }

  /** SRC_TABLE[i]. */
  function SrcEntry(i: int): bv8
    requires 0 <= i < 256
  {
    SrcRow(i / 16)[i % 16]
  }

  /** DST_TABLE[i]. */
  function DstEntry(i: int): bv8
    requires 0 <= i < 256
  {
    DstRow(i / 16)[i % 16]
  }

  /** Row `r` of the kind table: the entries of opcodes 0xr0..0xrF. */
  function KindRow(r: int): (row: seq<bv8>)
    requires 0 <= r < 16
    ensures |row| == 16
  {
    match r
    case 0 => KIND_ROW_0
    case 1 => KIND_ROW_1
    case 2 => KIND_ROW_2
    case 3 => KIND_ROW_3
    case 4 => KIND_ROW_4
    case 5 => KIND_ROW_5
    case 6 => KIND_ROW_6
    case 7 => KIND_ROW_7
    case 8 => KIND_ROW_8
    case 9 => KIND_ROW_9
    case 10 => KIND_ROW_A
    case 11 => KIND_ROW_B
    case 12 => KIND_ROW_C
    case 13 => KIND_ROW_D
    case 14 => KIND_ROW_E
    case _ => KIND_ROW_F
  }

  const KIND_ROW_0: seq<bv8> := [ 0,  0,  4,  0,  0,  0,  3,  0,  0, 10,  5,  0,  0,  0,  3,  0]
  const KIND_ROW_1: seq<bv8> := [ 0,  0,  4,  0,  0,  0,  3,  0,  0, 10,  5,  0,  0,  0,  3,  0]
  const KIND_ROW_2: seq<bv8> := [ 0,  0,  4,  0,  0,  0,  3,  0,  0, 10,  5,  0,  0,  0,  3,  0]
  const KIND_ROW_3: seq<bv8> := [ 0,  0,  4,  0,  0,  0,  3,  0,  0, 10,  5,  0,  0,  0,  3,  0]
  const KIND_ROW_4: seq<bv8> := [ 2,  2,  2,  2,  2,  2,  5,  2,  2,  2,  2,  2,  2,  2,  5,  2]
  const KIND_ROW_5: seq<bv8> := [ 2,  2,  2,  2,  2,  2,  5,  2,  2,  2,  2,  2,  2,  2,  5,  2]
  const KIND_ROW_6: seq<bv8> := [ 2,  2,  2,  2,  2,  2,  5,  2,  2,  2,  2,  2,  2,  2,  5,  2]
  const KIND_ROW_7: seq<bv8> := [ 4,  4,  4,  4,  4,  4,  1,  4,  2,  2,  2,  2,  2,  2,  5,  2]
  const KIND_ROW_8: seq<bv8> := [ 7,  7,  7,  7,  7,  7,  9,  7, 12, 12, 12, 12, 12, 12, 14, 12]
  const KIND_ROW_9: seq<bv8> := [15, 15, 15, 15, 15, 15, 17, 15, 18, 18, 18, 18, 18, 18, 18, 18]
  const KIND_ROW_A: seq<bv8> := [21, 21, 21, 21, 21, 21, 23, 21, 24, 24, 24, 24, 24, 24, 24, 24]
  const KIND_ROW_B: seq<bv8> := [27, 27, 27, 27, 27, 27, 27, 28,  0,  0,  0,  0,  0,  0,  0,  0]
  const KIND_ROW_C: seq<bv8> := [ 0,  0,  2,  0,  0,  0,  9,  0,  0,  0,  0,  0,  0,  0, 13,  0]
  const KIND_ROW_D: seq<bv8> := [ 0,  0,  4,  0,  0,  0, 16,  0,  0,  0,  0,  0,  0,  0, 19,  0]
  const KIND_ROW_E: seq<bv8> := [ 0,  0,  0,  0,  0,  0, 22,  0, 11,  0,  0,  0,  0,  0, 25,  0]
  const KIND_ROW_F: seq<bv8> := [ 0,  0,  0,  0,  0,  0, 28,  0,  0,  0,  0,  0,  0,  0,  0,  0]

  /** Row `r` of the source operand table: the entries of opcodes 0xr0..0xrF. */
  function SrcRow(r: int): (row: seq<bv8>)
    requires 0 <= r < 16
    ensures |row| == 16
  {
    match r
    case 0 => SRC_ROW_0
    case 1 => SRC_ROW_1
    case 2 => SRC_ROW_2
    case 3 => SRC_ROW_3
    case 4 => SRC_ROW_4
    case 5 => SRC_ROW_5
    case 6 => SRC_ROW_6
    case 7 => SRC_ROW_7
    case 8 => SRC_ROW_8
    case 9 => SRC_ROW_9
    case 10 => SRC_ROW_A
    case 11 => SRC_ROW_B
    case 12 => SRC_ROW_C
    case 13 => SRC_ROW_D
    case 14 => SRC_ROW_E
    case _ => SRC_ROW_F
  }

  const SRC_ROW_0: seq<bv8> := [ 0,  0,  1,  3,  3,  3,  0,  0,  9,  3, 13,  3,  4,  3,  0,  0]
  const SRC_ROW_1: seq<bv8> := [ 0,  0,  1,  5,  5,  5,  0,  0,  0,  5, 14,  5,  6,  5,  0,  0]
  const SRC_ROW_2: seq<bv8> := [ 0,  0,  1,  7,  7,  7,  0,  0,  0,  7, 11,  7,  8,  8,  0,  0]
  const SRC_ROW_3: seq<bv8> := [ 0,  0,  1,  9, 10, 10,  0,  0,  0,  9, 12,  9,  1,  1,  0,  0]
  const SRC_ROW_4: seq<bv8> := [ 3,  3,  4,  6,  7,  8, 10,  1,  3,  4,  5,  6,  7,  8, 10,  1]
  const SRC_ROW_5: seq<bv8> := [ 3,  4,  5,  6,  7,  8, 10,  1,  3,  4,  5,  6,  7,  8, 10,  1]
  const SRC_ROW_6: seq<bv8> := [ 3,  4,  5,  6,  7,  8, 10,  1,  3,  4,  5,  6,  7,  8, 10,  1]
  const SRC_ROW_7: seq<bv8> := [ 3,  4,  5,  6,  7,  8,  0,  1,  3,  4,  5,  6,  7,  8, 10,  1]
  const SRC_ROW_8: seq<bv8> := [ 3,  4,  5,  6,  7,  8, 10,  1,  3,  4,  5,  6,  7,  8, 10,  1]
  const SRC_ROW_9: seq<bv8> := [ 3,  4,  5,  6,  7,  8, 10,  1,  3,  4,  5,  6,  7,  8, 10,  1]
  const SRC_ROW_A: seq<bv8> := [ 3,  4,  5,  6,  7,  8, 10,  1,  3,  4,  5,  6,  7,  8, 10,  1]
  const SRC_ROW_B: seq<bv8> := [ 3,  4,  5,  6,  7,  8, 10,  1,  3,  4,  5,  6,  7,  8, 10,  1]
  const SRC_ROW_C: seq<bv8> := [ 0,  3,  0,  0,  0,  3,  0,  0,  0,  0,  0,  0,  0,  0,  0,  0]
  const SRC_ROW_D: seq<bv8> := [ 0,  5,  0,  0,  0,  5,  0,  0,  0,  0,  0,  0,  0,  0,  0,  0]
  const SRC_ROW_E: seq<bv8> := [ 0,  7,  0,  0,  0,  7,  0,  0,  0,  0,  0,  0,  0,  0,  0,  0]
  const SRC_ROW_F: seq<bv8> := [ 0,  1,  0,  1,  0,  1,  0,  0,  0,  0,  0,  0,  0,  0,  0,  0]

  /** Row `r` of the destination operand table: the entries of opcodes 0xr0..0xrF. */
  function DstRow(r: int): (row: seq<bv8>)
    requires 0 <= r < 16
    ensures |row| == 16
  {
    match r
    case 0 => DST_ROW_0
    case 1 => DST_ROW_1
    case 2 => DST_ROW_2
    case 3 => DST_ROW_3
    case 4 => DST_ROW_4
    case 5 => DST_ROW_5
    case 6 => DST_ROW_6
    case 7 => DST_ROW_7
    case 8 => DST_ROW_8
    case 9 => DST_ROW_9
    case 10 => DST_ROW_A
    case 11 => DST_ROW_B
    case 12 => DST_ROW_C
    case 13 => DST_ROW_D
    case 14 => DST_ROW_E
    case _ => DST_ROW_F
  }

  const DST_ROW_0: seq<bv8> := [ 0,  3, 12,  0,  0,  0,  3,  0,  0,  7,  1,  0,  0,  4,  0,  0]
  const DST_ROW_1: seq<bv8> := [ 0,  5, 13,  0,  0,  0,  5,  0,  0,  7,  1,  0,  0,  6,  0,  0]
  const DST_ROW_2: seq<bv8> := [ 0,  7, 10,  0,  0,  0,  7,  0,  0,  7,  1,  0,  0,  8,  0,  0]
  const DST_ROW_3: seq<bv8> := [ 0,  9, 11,  0,  0,  0,  9,  0,  0,  7,  1,  0,  0,  1,  0,  0]
  const DST_ROW_4: seq<bv8> := [ 3,  3,  3,  3,  3,  3,  3,  3,  4,  4,  4,  4,  4,  4,  4,  4]
  const DST_ROW_5: seq<bv8> := [ 5,  5,  5,  5,  5,  5,  5,  5,  6,  6,  6,  6,  6,  6,  6,  6]
  const DST_ROW_6: seq<bv8> := [ 7,  7,  7,  7,  7,  7,  7,  7,  8,  8,  8,  8,  8,  8,  8,  8]
  const DST_ROW_7: seq<bv8> := [10, 10, 10, 10, 10, 10,  0, 10,  1,  1,  1,  1,  1,  1,  1,  1]
  const DST_ROW_8: seq<bv8> := [ 1,  1,  1,  1,  1,  1,  1,  1,  1,  1,  1,  1,  1,  1,  1,  1]
  const DST_ROW_9: seq<bv8> := [ 0,  0,  0,  0,  0,  0,  0,  0,  1,  1,  1,  1,  1,  1,  1,  1]
  const DST_ROW_A: seq<bv8> := [ 0,  0,  0,  0,  0,  0,  0,  0,  0,  0,  0,  0,  0,  0,  0,  0]
  const DST_ROW_B: seq<bv8> := [ 0,  0,  0,  0,  0,  0,  1,  0,  0,  0,  0,  0,  0,  0,  1,  0]
  const DST_ROW_C: seq<bv8> := [ 0,  0,  0,  0,  0,  0,  0,  0,  0,  0,  0,  0,  0,  0,  1,  0]
  const DST_ROW_D: seq<bv8> := [ 0,  0,  0,  0,  0,  0,  0,  0,  0,  0,  0,  0,  0,  0,  0,  0]
  const DST_ROW_E: seq<bv8> := [ 0,  0,  0,  0,  0,  0,  0,  0,  0,  0,  0,  0,  0,  0,  0,  0]
  const DST_ROW_F: seq<bv8> := [ 0,  0,  0,  0,  0,  0,  0,  0,  0,  0,  0,  0,  0,  0,  0,  0]

  /** The kind codes that occur in the kind table. */
  const USED_KINDS: set<bv8> :=
    {0, 1, 2, 3, 4, 5, 6, 7, 8, 9, 10, 11, 12, 13, 14,
     15, 16, 17, 18, 19, 20, 21, 22, 23, 24, 25, 26, 27, 28}

  /** The opcodes whose kind-table entry is AddWRegWReg (10). */
  const WIDE_ADD_OPCODES: set<int> := {0x09, 0x19, 0x29, 0x39}

  /** The register code of F. */
  const F_CODE: bv8 := 2

  /** The operand entries `s` and `d` that the decoder's arm for `kind`
      rejects: an entry the arm asserts non-zero is 0, or an entry it
      converts names no variant of the enumeration it is converted to.
      Kinds without an arm, and the arms that take only an immediate,
      reject nothing. */
  predicate ArmRejects(kind: InstrKind, s: bv8, d: bv8)
  {
    match kind
    case LdRegImm | AddRegImm | AdcRegImm | LdWRegImm => d == 0 || d > 9  // decode_reg_imm!, LdWRegImm
    case LdRegReg | AddRegReg | AddWRegWReg | AdcRegReg =>                 // decode_reg_reg!
      s == 0 || d == 0 || s > 9 || d > 9
    case LdRegMem | AddRegMem | AdcRegMem =>                               // decode_reg_mem!
      s == 0 || d == 0 || s > 9 || !IsRegAddrCode(d)
    case LdMemReg => s == 0 || d == 0 || !IsRegAddrCode(s) || d > 9         // decode_mem_reg!
    case SubReg | SbcReg | AndReg | OrReg | IncReg | IncWReg | DecReg | DecWReg | CpReg | Push | Pop =>
      s == 0 || s > 9                                                      // decode_reg!
    case SubMem | SbcMem | AndMem | OrMem | IncMem | DecMem | CpMem =>      // decode_mem!
      s == 0 || !IsRegAddrCode(s)
    case _ => false
  }

  /** `ArmRejects` by kind code, the form the table lemmas below check. */
  predicate RejectsOperands(k: bv8, s: bv8, d: bv8)
  {
    if k in {3, 8, 13, 40} then d == 0 || d > 9                                  // decode_reg_imm!, LdWRegImm
    else if k in {2, 7, 10, 12} then s == 0 || d == 0 || s > 9 || d > 9          // decode_reg_reg!
    else if k in {4, 9, 14} then s == 0 || d == 0 || s > 9 || !IsRegAddrCode(d)  // decode_reg_mem!
    else if k == 5 then s == 0 || d == 0 || !IsRegAddrCode(s) || d > 9           // decode_mem_reg!
    else if k in {15, 18, 21, 27, 30, 31, 33, 34, 36, 41, 42} then s == 0 || s > 9  // decode_reg!
    else if k in {17, 20, 23, 29, 32, 35, 38} then s == 0 || !IsRegAddrCode(s)   // decode_mem!
    else false
  }

  /** The opcodes whose operand entries their arm rejects. */
  const FAULTING_OPCODES: set<int> := {0x0E, 0x1E, 0x2E, 0x3E, 0xC2, 0xC6, 0xD2, 0x86, 0x8E, 0x9E, 0xB6}

  /** What the table lemmas below state of opcode `i`, whose kind, source
      and destination entries are `k`, `s` and `d`. */
  predicate EntryFacts(i: int, k: bv8, s: bv8, d: bv8)
  {
    k in USED_KINDS &&
    (k == 10 ==> i in WIDE_ADD_OPCODES && s in {3, 5, 7, 9} && d == 7) &&
    s != F_CODE && d != F_CODE
  }

  /** Whether the arm rejects the entries of opcode `i` exactly when `i` is
      one of the eleven faulting opcodes. */
  predicate FaultsExactly(i: int, k: bv8, s: bv8, d: bv8)
  {
    RejectsOperands(k, s, d) <==> i in FAULTING_OPCODES
  }

  // The facts, one row of the tables at a time.
  lemma Row0Facts(c: int)
    requires c == 0 || c == 1 || c == 2 || c == 3 || c == 4 || c == 5 || c == 6 || c == 7
          || c == 8 || c == 9 || c == 10 || c == 11 || c == 12 || c == 13 || c == 14 || c == 15
    ensures EntryFacts(0x00 + c, KIND_ROW_0[c], SRC_ROW_0[c], DST_ROW_0[c])
  {
  }

  lemma Row0FaultsLeft(c: int)
    requires c == 0 || c == 1 || c == 2 || c == 3 || c == 4 || c == 5 || c == 6 || c == 7
    ensures FaultsExactly(0x00 + c, KIND_ROW_0[c], SRC_ROW_0[c], DST_ROW_0[c])
  {
  }

  lemma Row0FaultsRight(c: int)
    requires c == 8 || c == 9 || c == 10 || c == 11 || c == 12 || c == 13 || c == 14 || c == 15
    ensures FaultsExactly(0x00 + c, KIND_ROW_0[c], SRC_ROW_0[c], DST_ROW_0[c])
  {
  }

  lemma Row1Facts(c: int)
    requires c == 0 || c == 1 || c == 2 || c == 3 || c == 4 || c == 5 || c == 6 || c == 7
          || c == 8 || c == 9 || c == 10 || c == 11 || c == 12 || c == 13 || c == 14 || c == 15
    ensures EntryFacts(0x10 + c, KIND_ROW_1[c], SRC_ROW_1[c], DST_ROW_1[c])
  {
  }

  lemma Row1FaultsLeft(c: int)
    requires c == 0 || c == 1 || c == 2 || c == 3 || c == 4 || c == 5 || c == 6 || c == 7
    ensures FaultsExactly(0x10 + c, KIND_ROW_1[c], SRC_ROW_1[c], DST_ROW_1[c])
  {
  }

  lemma Row1FaultsRight(c: int)
    requires c == 8 || c == 9 || c == 10 || c == 11 || c == 12 || c == 13 || c == 14 || c == 15
    ensures FaultsExactly(0x10 + c, KIND_ROW_1[c], SRC_ROW_1[c], DST_ROW_1[c])
  {
  }

  lemma Row2Facts(c: int)
    requires c == 0 || c == 1 || c == 2 || c == 3 || c == 4 || c == 5 || c == 6 || c == 7
          || c == 8 || c == 9 || c == 10 || c == 11 || c == 12 || c == 13 || c == 14 || c == 15
    ensures EntryFacts(0x20 + c, KIND_ROW_2[c], SRC_ROW_2[c], DST_ROW_2[c])
  {
  }

  lemma Row2FaultsLeft(c: int)
    requires c == 0 || c == 1 || c == 2 || c == 3 || c == 4 || c == 5 || c == 6 || c == 7
    ensures FaultsExactly(0x20 + c, KIND_ROW_2[c], SRC_ROW_2[c], DST_ROW_2[c])
  {
  }

  lemma Row2FaultsRight(c: int)
    requires c == 8 || c == 9 || c == 10 || c == 11 || c == 12 || c == 13 || c == 14 || c == 15
    ensures FaultsExactly(0x20 + c, KIND_ROW_2[c], SRC_ROW_2[c], DST_ROW_2[c])
  {
  }

  lemma Row3Facts(c: int)
    requires c == 0 || c == 1 || c == 2 || c == 3 || c == 4 || c == 5 || c == 6 || c == 7
          || c == 8 || c == 9 || c == 10 || c == 11 || c == 12 || c == 13 || c == 14 || c == 15
    ensures EntryFacts(0x30 + c, KIND_ROW_3[c], SRC_ROW_3[c], DST_ROW_3[c])
  {
  }

  lemma Row3FaultsLeft(c: int)
    requires c == 0 || c == 1 || c == 2 || c == 3 || c == 4 || c == 5 || c == 6 || c == 7
    ensures FaultsExactly(0x30 + c, KIND_ROW_3[c], SRC_ROW_3[c], DST_ROW_3[c])
  {
  }

  lemma Row3FaultsRight(c: int)
    requires c == 8 || c == 9 || c == 10 || c == 11 || c == 12 || c == 13 || c == 14 || c == 15
    ensures FaultsExactly(0x30 + c, KIND_ROW_3[c], SRC_ROW_3[c], DST_ROW_3[c])
  {
  }

  lemma Row4Facts(c: int)
    requires c == 0 || c == 1 || c == 2 || c == 3 || c == 4 || c == 5 || c == 6 || c == 7
          || c == 8 || c == 9 || c == 10 || c == 11 || c == 12 || c == 13 || c == 14 || c == 15
    ensures EntryFacts(0x40 + c, KIND_ROW_4[c], SRC_ROW_4[c], DST_ROW_4[c])
  {
  }

  lemma Row4FaultsLeft(c: int)
    requires c == 0 || c == 1 || c == 2 || c == 3 || c == 4 || c == 5 || c == 6 || c == 7
    ensures FaultsExactly(0x40 + c, KIND_ROW_4[c], SRC_ROW_4[c], DST_ROW_4[c])
  {
  }

  lemma Row4FaultsRight(c: int)
    requires c == 8 || c == 9 || c == 10 || c == 11 || c == 12 || c == 13 || c == 14 || c == 15
    ensures FaultsExactly(0x40 + c, KIND_ROW_4[c], SRC_ROW_4[c], DST_ROW_4[c])
  {
  }

  lemma Row5Facts(c: int)
    requires c == 0 || c == 1 || c == 2 || c == 3 || c == 4 || c == 5 || c == 6 || c == 7
          || c == 8 || c == 9 || c == 10 || c == 11 || c == 12 || c == 13 || c == 14 || c == 15
    ensures EntryFacts(0x50 + c, KIND_ROW_5[c], SRC_ROW_5[c], DST_ROW_5[c])
  {
  }

  lemma Row5FaultsLeft(c: int)
    requires c == 0 || c == 1 || c == 2 || c == 3 || c == 4 || c == 5 || c == 6 || c == 7
    ensures FaultsExactly(0x50 + c, KIND_ROW_5[c], SRC_ROW_5[c], DST_ROW_5[c])
  {
  }

  lemma Row5FaultsRight(c: int)
    requires c == 8 || c == 9 || c == 10 || c == 11 || c == 12 || c == 13 || c == 14 || c == 15
    ensures FaultsExactly(0x50 + c, KIND_ROW_5[c], SRC_ROW_5[c], DST_ROW_5[c])
  {
  }

  lemma Row6Facts(c: int)
    requires c == 0 || c == 1 || c == 2 || c == 3 || c == 4 || c == 5 || c == 6 || c == 7
          || c == 8 || c == 9 || c == 10 || c == 11 || c == 12 || c == 13 || c == 14 || c == 15
    ensures EntryFacts(0x60 + c, KIND_ROW_6[c], SRC_ROW_6[c], DST_ROW_6[c])
  {
  }

  lemma Row6FaultsLeft(c: int)
    requires c == 0 || c == 1 || c == 2 || c == 3 || c == 4 || c == 5 || c == 6 || c == 7
    ensures FaultsExactly(0x60 + c, KIND_ROW_6[c], SRC_ROW_6[c], DST_ROW_6[c])
  {
  }

  lemma Row6FaultsRight(c: int)
    requires c == 8 || c == 9 || c == 10 || c == 11 || c == 12 || c == 13 || c == 14 || c == 15
    ensures FaultsExactly(0x60 + c, KIND_ROW_6[c], SRC_ROW_6[c], DST_ROW_6[c])
  {
  }

  lemma Row7Facts(c: int)
    requires c == 0 || c == 1 || c == 2 || c == 3 || c == 4 || c == 5 || c == 6 || c == 7
          || c == 8 || c == 9 || c == 10 || c == 11 || c == 12 || c == 13 || c == 14 || c == 15
    ensures EntryFacts(0x70 + c, KIND_ROW_7[c], SRC_ROW_7[c], DST_ROW_7[c])
  {
  }

  lemma Row7FaultsLeft(c: int)
    requires c == 0 || c == 1 || c == 2 || c == 3 || c == 4 || c == 5 || c == 6 || c == 7
    ensures FaultsExactly(0x70 + c, KIND_ROW_7[c], SRC_ROW_7[c], DST_ROW_7[c])
  {
  }

  lemma Row7FaultsRight(c: int)
    requires c == 8 || c == 9 || c == 10 || c == 11 || c == 12 || c == 13 || c == 14 || c == 15
    ensures FaultsExactly(0x70 + c, KIND_ROW_7[c], SRC_ROW_7[c], DST_ROW_7[c])
  {
  }

  lemma Row8Facts(c: int)
    requires c == 0 || c == 1 || c == 2 || c == 3 || c == 4 || c == 5 || c == 6 || c == 7
          || c == 8 || c == 9 || c == 10 || c == 11 || c == 12 || c == 13 || c == 14 || c == 15
    ensures EntryFacts(0x80 + c, KIND_ROW_8[c], SRC_ROW_8[c], DST_ROW_8[c])
  {
  }

  lemma Row8FaultsLeft(c: int)
    requires c == 0 || c == 1 || c == 2 || c == 3 || c == 4 || c == 5 || c == 6 || c == 7
    ensures FaultsExactly(0x80 + c, KIND_ROW_8[c], SRC_ROW_8[c], DST_ROW_8[c])
  {
  }

  lemma Row8FaultsRight(c: int)
    requires c == 8 || c == 9 || c == 10 || c == 11 || c == 12 || c == 13 || c == 14 || c == 15
    ensures FaultsExactly(0x80 + c, KIND_ROW_8[c], SRC_ROW_8[c], DST_ROW_8[c])
  {
  }

  lemma Row9Facts(c: int)
    requires c == 0 || c == 1 || c == 2 || c == 3 || c == 4 || c == 5 || c == 6 || c == 7
          || c == 8 || c == 9 || c == 10 || c == 11 || c == 12 || c == 13 || c == 14 || c == 15
    ensures EntryFacts(0x90 + c, KIND_ROW_9[c], SRC_ROW_9[c], DST_ROW_9[c])
  {
  }

  lemma Row9FaultsLeft(c: int)
    requires c == 0 || c == 1 || c == 2 || c == 3 || c == 4 || c == 5 || c == 6 || c == 7
    ensures FaultsExactly(0x90 + c, KIND_ROW_9[c], SRC_ROW_9[c], DST_ROW_9[c])
  {
  }

  lemma Row9FaultsRight(c: int)
    requires c == 8 || c == 9 || c == 10 || c == 11 || c == 12 || c == 13 || c == 14 || c == 15
    ensures FaultsExactly(0x90 + c, KIND_ROW_9[c], SRC_ROW_9[c], DST_ROW_9[c])
  {
  }

  lemma RowAFacts(c: int)
    requires c == 0 || c == 1 || c == 2 || c == 3 || c == 4 || c == 5 || c == 6 || c == 7
          || c == 8 || c == 9 || c == 10 || c == 11 || c == 12 || c == 13 || c == 14 || c == 15
    ensures EntryFacts(0xA0 + c, KIND_ROW_A[c], SRC_ROW_A[c], DST_ROW_A[c])
  {
  }

  lemma RowAFaultsLeft(c: int)
    requires c == 0 || c == 1 || c == 2 || c == 3 || c == 4 || c == 5 || c == 6 || c == 7
    ensures FaultsExactly(0xA0 + c, KIND_ROW_A[c], SRC_ROW_A[c], DST_ROW_A[c])
  {
  }

  lemma RowAFaultsRight(c: int)
    requires c == 8 || c == 9 || c == 10 || c == 11 || c == 12 || c == 13 || c == 14 || c == 15
    ensures FaultsExactly(0xA0 + c, KIND_ROW_A[c], SRC_ROW_A[c], DST_ROW_A[c])
  {
  }

  lemma RowBFacts(c: int)
    requires c == 0 || c == 1 || c == 2 || c == 3 || c == 4 || c == 5 || c == 6 || c == 7
          || c == 8 || c == 9 || c == 10 || c == 11 || c == 12 || c == 13 || c == 14 || c == 15
    ensures EntryFacts(0xB0 + c, KIND_ROW_B[c], SRC_ROW_B[c], DST_ROW_B[c])
  {
  }

  lemma RowBFaultsLeft(c: int)
    requires c == 0 || c == 1 || c == 2 || c == 3 || c == 4 || c == 5 || c == 6 || c == 7
    ensures FaultsExactly(0xB0 + c, KIND_ROW_B[c], SRC_ROW_B[c], DST_ROW_B[c])
  {
  }

  lemma RowBFaultsRight(c: int)
    requires c == 8 || c == 9 || c == 10 || c == 11 || c == 12 || c == 13 || c == 14 || c == 15
    ensures FaultsExactly(0xB0 + c, KIND_ROW_B[c], SRC_ROW_B[c], DST_ROW_B[c])
  {
  }

  lemma RowCFacts(c: int)
    requires c == 0 || c == 1 || c == 2 || c == 3 || c == 4 || c == 5 || c == 6 || c == 7
          || c == 8 || c == 9 || c == 10 || c == 11 || c == 12 || c == 13 || c == 14 || c == 15
    ensures EntryFacts(0xC0 + c, KIND_ROW_C[c], SRC_ROW_C[c], DST_ROW_C[c])
  {
  }

  lemma RowCFaultsLeft(c: int)
    requires c == 0 || c == 1 || c == 2 || c == 3 || c == 4 || c == 5 || c == 6 || c == 7
    ensures FaultsExactly(0xC0 + c, KIND_ROW_C[c], SRC_ROW_C[c], DST_ROW_C[c])
  {
  }

  lemma RowCFaultsRight(c: int)
    requires c == 8 || c == 9 || c == 10 || c == 11 || c == 12 || c == 13 || c == 14 || c == 15
    ensures FaultsExactly(0xC0 + c, KIND_ROW_C[c], SRC_ROW_C[c], DST_ROW_C[c])
  {
  }

  lemma RowDFacts(c: int)
    requires c == 0 || c == 1 || c == 2 || c == 3 || c == 4 || c == 5 || c == 6 || c == 7
          || c == 8 || c == 9 || c == 10 || c == 11 || c == 12 || c == 13 || c == 14 || c == 15
    ensures EntryFacts(0xD0 + c, KIND_ROW_D[c], SRC_ROW_D[c], DST_ROW_D[c])
  {
  }

  lemma RowDFaultsLeft(c: int)
    requires c == 0 || c == 1 || c == 2 || c == 3 || c == 4 || c == 5 || c == 6 || c == 7
    ensures FaultsExactly(0xD0 + c, KIND_ROW_D[c], SRC_ROW_D[c], DST_ROW_D[c])
  {
  }

  lemma RowDFaultsRight(c: int)
    requires c == 8 || c == 9 || c == 10 || c == 11 || c == 12 || c == 13 || c == 14 || c == 15
    ensures FaultsExactly(0xD0 + c, KIND_ROW_D[c], SRC_ROW_D[c], DST_ROW_D[c])
  {
  }

  lemma RowEFacts(c: int)
    requires c == 0 || c == 1 || c == 2 || c == 3 || c == 4 || c == 5 || c == 6 || c == 7
          || c == 8 || c == 9 || c == 10 || c == 11 || c == 12 || c == 13 || c == 14 || c == 15
    ensures EntryFacts(0xE0 + c, KIND_ROW_E[c], SRC_ROW_E[c], DST_ROW_E[c])
  {
  }

  lemma RowEFaultsLeft(c: int)
    requires c == 0 || c == 1 || c == 2 || c == 3 || c == 4 || c == 5 || c == 6 || c == 7
    ensures FaultsExactly(0xE0 + c, KIND_ROW_E[c], SRC_ROW_E[c], DST_ROW_E[c])
  {
  }

  lemma RowEFaultsRight(c: int)
    requires c == 8 || c == 9 || c == 10 || c == 11 || c == 12 || c == 13 || c == 14 || c == 15
    ensures FaultsExactly(0xE0 + c, KIND_ROW_E[c], SRC_ROW_E[c], DST_ROW_E[c])
  {
  }

  lemma RowFFacts(c: int)
    requires c == 0 || c == 1 || c == 2 || c == 3 || c == 4 || c == 5 || c == 6 || c == 7
          || c == 8 || c == 9 || c == 10 || c == 11 || c == 12 || c == 13 || c == 14 || c == 15
    ensures EntryFacts(0xF0 + c, KIND_ROW_F[c], SRC_ROW_F[c], DST_ROW_F[c])
  {
  }

  lemma RowFFaultsLeft(c: int)
    requires c == 0 || c == 1 || c == 2 || c == 3 || c == 4 || c == 5 || c == 6 || c == 7
    ensures FaultsExactly(0xF0 + c, KIND_ROW_F[c], SRC_ROW_F[c], DST_ROW_F[c])
  {
  }

  lemma RowFFaultsRight(c: int)
    requires c == 8 || c == 9 || c == 10 || c == 11 || c == 12 || c == 13 || c == 14 || c == 15
    ensures FaultsExactly(0xF0 + c, KIND_ROW_F[c], SRC_ROW_F[c], DST_ROW_F[c])
  {
  }

  /** `EntryFacts` holds of every opcode. */
  lemma Entry(i: int)
    requires 0 <= i < 256
    ensures EntryFacts(i, KindEntry(i), SrcEntry(i), DstEntry(i))
  {
    var r, c := i / 16, i % 16;
    if r == 0 { Row0Facts(c); }
    else if r == 1 { Row1Facts(c); }
    else if r == 2 { Row2Facts(c); }
    else if r == 3 { Row3Facts(c); }
    else if r == 4 { Row4Facts(c); }
    else if r == 5 { Row5Facts(c); }
    else if r == 6 { Row6Facts(c); }
    else if r == 7 { Row7Facts(c); }
    else if r == 8 { Row8Facts(c); }
    else if r == 9 { Row9Facts(c); }
    else if r == 10 { RowAFacts(c); }
    else if r == 11 { RowBFacts(c); }
    else if r == 12 { RowCFacts(c); }
    else if r == 13 { RowDFacts(c); }
    else if r == 14 { RowEFacts(c); }
    else { RowFFacts(c); }
  }

  /** `FaultsExactly` holds of every opcode. */
  lemma EntryFaults(i: int)
    requires 0 <= i < 256
    ensures FaultsExactly(i, KindEntry(i), SrcEntry(i), DstEntry(i))
  {
    var r, c := i / 16, i % 16;
    if c < 8 {
      if r == 0 { Row0FaultsLeft(c); }
      else if r == 1 { Row1FaultsLeft(c); }
      else if r == 2 { Row2FaultsLeft(c); }
      else if r == 3 { Row3FaultsLeft(c); }
      else if r == 4 { Row4FaultsLeft(c); }
      else if r == 5 { Row5FaultsLeft(c); }
      else if r == 6 { Row6FaultsLeft(c); }
      else if r == 7 { Row7FaultsLeft(c); }
      else if r == 8 { Row8FaultsLeft(c); }
      else if r == 9 { Row9FaultsLeft(c); }
      else if r == 10 { RowAFaultsLeft(c); }
      else if r == 11 { RowBFaultsLeft(c); }
      else if r == 12 { RowCFaultsLeft(c); }
      else if r == 13 { RowDFaultsLeft(c); }
      else if r == 14 { RowEFaultsLeft(c); }
      else { RowFFaultsLeft(c); }
    } else {
      if r == 0 { Row0FaultsRight(c); }
      else if r == 1 { Row1FaultsRight(c); }
      else if r == 2 { Row2FaultsRight(c); }
      else if r == 3 { Row3FaultsRight(c); }
      else if r == 4 { Row4FaultsRight(c); }
      else if r == 5 { Row5FaultsRight(c); }
      else if r == 6 { Row6FaultsRight(c); }
      else if r == 7 { Row7FaultsRight(c); }
      else if r == 8 { Row8FaultsRight(c); }
      else if r == 9 { Row9FaultsRight(c); }
      else if r == 10 { RowAFaultsRight(c); }
      else if r == 11 { RowBFaultsRight(c); }
      else if r == 12 { RowCFaultsRight(c); }
      else if r == 13 { RowDFaultsRight(c); }
      else if r == 14 { RowEFaultsRight(c); }
      else { RowFFaultsRight(c); }
    }
  }

  /** Every entry of the kind table is a discriminant of `InstrKind`, so the
      conversion of a table entry to a kind is always defined; no entry
      selects IncWReg, DecWReg, LdWRegImm, Push or Pop; AddWRegWReg is
      selected only by 0x09, 0x19, 0x29 and 0x39, whose source operands are
      BC, DE, HL and SP and whose destination operand is HL; and no operand
      entry names F. */
  lemma KindTableFacts()
    ensures forall i :: 0 <= i < 256 ==> IsKindCode(KindEntry(i))
    ensures forall i :: 0 <= i < 256 ==> KindEntry(i) !in {31, 34, 40, 41, 42}
    ensures forall i :: 0 <= i < 256 && KindEntry(i) == 10 ==>
              SrcEntry(i) in {3, 5, 7, 9} && DstEntry(i) == 7
    ensures forall i :: 0 <= i < 256 ==> SrcEntry(i) != F_CODE && DstEntry(i) != F_CODE
  {
    forall i | 0 <= i < 256
      ensures IsKindCode(KindEntry(i))
      ensures KindEntry(i) !in {31, 34, 40, 41, 42}
      ensures KindEntry(i) == 10 ==> SrcEntry(i) in {3, 5, 7, 9} && DstEntry(i) == 7
      ensures SrcEntry(i) != F_CODE && DstEntry(i) != F_CODE
    {
      Entry(i);
      UsedKindFacts(KindEntry(i));
    }
  }

  lemma UsedKindFacts(v: bv8)
    requires v in USED_KINDS
    ensures IsKindCode(v) && v !in {31, 34, 40, 41, 42}
  {
  }

  /** Exactly eleven opcodes have operand entries that their arm rejects:
      0x0E, 0x1E, 0x2E and 0x3E (a zero destination for decode_reg_imm!),
      0xC2 (a zero source for decode_reg_reg!), 0xC6 and 0xD2 (zero entries
      for decode_reg_mem!), and 0x86, 0x8E, 0x9E and 0xB6 (the address code
      10 where a register is read). */
  lemma FaultingEntries(i: int)
    requires 0 <= i < 256
    ensures RejectsOperands(KindEntry(i), SrcEntry(i), DstEntry(i)) <==> i in FAULTING_OPCODES
  {
    EntryFaults(i);
  }

  /** The kinds whose decoding reads immediate bytes after the opcode. */
  predicate ReadsImmediate(kind: InstrKind)
  {
    kind.LdRegImm? || kind.AddRegImm? || kind.AdcRegImm? || kind.SubImm? || kind.SbcImm?
    || kind.AndImm? || kind.OrImm? || kind.CpImm? || kind.LdWRegImm?
  }

  /** `RejectsOperands` of a kind code is `ArmRejects` of the kind it
      names. */
  lemma RejectsByCode(k: bv8, s: bv8, d: bv8)
    requires IsKindCode(k)
    ensures RejectsOperands(k, s, d) <==> ArmRejects(KindFromU8(k).value, s, d)
  {
    if k < 6 { RejectsByCode0(k, s, d); }
    else if k < 12 { RejectsByCode6(k, s, d); }
    else if k < 18 { RejectsByCode12(k, s, d); }
    else if k < 24 { RejectsByCode18(k, s, d); }
    else if k < 30 { RejectsByCode24(k, s, d); }
    else if k < 36 { RejectsByCode30(k, s, d); }
    else if k < 42 { RejectsByCode36(k, s, d); }
    else { RejectsByCode42(k, s, d); }
  }

  // The same, six kind codes at a time.
  lemma RejectsByCode0(k: bv8, s: bv8, d: bv8)
    requires k == 0 || k == 1 || k == 2 || k == 3 || k == 4 || k == 5
    ensures RejectsOperands(k, s, d) <==> ArmRejects(KindFromU8(k).value, s, d)
  {
  }

  lemma RejectsByCode6(k: bv8, s: bv8, d: bv8)
    requires k == 6 || k == 7 || k == 8 || k == 9 || k == 10 || k == 11
    ensures RejectsOperands(k, s, d) <==> ArmRejects(KindFromU8(k).value, s, d)
  {
  }

  lemma RejectsByCode12(k: bv8, s: bv8, d: bv8)
    requires k == 12 || k == 13 || k == 14 || k == 15 || k == 16 || k == 17
    ensures RejectsOperands(k, s, d) <==> ArmRejects(KindFromU8(k).value, s, d)
  {
  }

  lemma RejectsByCode18(k: bv8, s: bv8, d: bv8)
    requires k == 18 || k == 19 || k == 20 || k == 21 || k == 22 || k == 23
    ensures RejectsOperands(k, s, d) <==> ArmRejects(KindFromU8(k).value, s, d)
  {
  }

  lemma RejectsByCode24(k: bv8, s: bv8, d: bv8)
    requires k == 24 || k == 25 || k == 26 || k == 27 || k == 28 || k == 29
    ensures RejectsOperands(k, s, d) <==> ArmRejects(KindFromU8(k).value, s, d)
  {
  }

  lemma RejectsByCode30(k: bv8, s: bv8, d: bv8)
    requires k == 30 || k == 31 || k == 32 || k == 33 || k == 34 || k == 35
    ensures RejectsOperands(k, s, d) <==> ArmRejects(KindFromU8(k).value, s, d)
  {
  }

  lemma RejectsByCode36(k: bv8, s: bv8, d: bv8)
    requires k == 36 || k == 37 || k == 38 || k == 40 || k == 41
    ensures RejectsOperands(k, s, d) <==> ArmRejects(KindFromU8(k).value, s, d)
  {
  }

  lemma RejectsByCode42(k: bv8, s: bv8, d: bv8)
    requires k == 42
    ensures RejectsOperands(k, s, d) <==> ArmRejects(KindFromU8(k).value, s, d)
  {
  }
}
