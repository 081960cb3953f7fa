/** The register file as a value: ten bytes holding A, F, B, C, D, E, H, L
    and the two bytes of SP, in that order. Register number r (1-based)
    lives in slot r-1; a wide access on r uses slot r-1 as its low byte and
    slot r as its high byte, so BC, DE and HL are the pairs B:C, D:E, H:L and
    SP spans the last two slots. The CPU object keeps these bytes in an
    array; the functions here say what its accessors do to them. */
module Registers {
  import opened Isa

  type RegFile = s: seq<bv8> | |s| == 10 witness [0, 0, 0, 0, 0, 0, 0, 0, 0, 0]

  /** The register file of a freshly created CPU. */
  const ZERO: RegFile := [0, 0, 0, 0, 0, 0, 0, 0, 0, 0]

  /** The slot of a register: its number minus one. */
  function Slot(r: Reg): (k: nat)
    requires r != Reg.Invalid
    ensures k < 9
  {
    r.Code() as nat - 1
  }

  /** The byte an 8-bit read of `r` returns. */
  function Read8(rf: RegFile, r: Reg): bv8
    requires r != Reg.Invalid
  {
    rf[Slot(r)]
  }

  /** The register file after an 8-bit write of `v` to `r`: `r` reads back
      `v` and every other slot keeps its byte. */
  function Write8(rf: RegFile, r: Reg, v: bv8): (rf': RegFile)
    requires r != Reg.Invalid
    ensures Read8(rf', r) == v
    ensures forall k :: 0 <= k < 10 && k != Slot(r) ==> rf'[k] == rf[k]
  {
    rf[Slot(r) := v]
  }

  /** The low and the high byte of a word. */
  function Lo(w: bv16): bv8 { (w & 0xFF) as bv8 }
  function Hi(w: bv16): bv8 { (w >> 8) as bv8 }

  /** The word with the given low and high bytes, as a little-endian
      host assembles two consecutive bytes. */
  function Join(lo: bv8, hi: bv8): (w: bv16)
    ensures Lo(w) == lo && Hi(w) == hi
  {
    (hi as bv16 << 8) | lo as bv16
  }

  /** A word is determined by its two bytes. */
  lemma JoinSplit(w: bv16)
    ensures Join(Lo(w), Hi(w)) == w
  {
  }

  /** The word a wide read of `r` returns: the first slot of the pair is its
      low byte and the second its high byte. */
  function Read16(rf: RegFile, r: Reg): (w: bv16)
    requires r.IsWide()
    ensures Lo(w) == rf[Slot(r)] && Hi(w) == rf[Slot(r) + 1]
  {
    Join(rf[Slot(r)], rf[Slot(r) + 1])
  }

  /** The register file after a wide write of `w` to `r`: the low byte of
      `w` goes to the first slot of the pair, the high byte to the second,
      and no other slot changes. */
  function Write16(rf: RegFile, r: Reg, w: bv16): (rf': RegFile)
    requires r.IsWide()
    ensures rf'[Slot(r)] == Lo(w) && rf'[Slot(r) + 1] == Hi(w)
    ensures forall k :: 0 <= k < 10 && k != Slot(r) && k != Slot(r) + 1 ==> rf'[k] == rf[k]
  {
    rf[Slot(r) := Lo(w)][Slot(r) + 1 := Hi(w)]
  }

  /** A wide write followed by a wide read of the same register returns the
      word written. */
  lemma {:induction false} WideReadAfterWrite(rf: RegFile, r: Reg, w: bv16)
    requires r.IsWide()
    ensures Read16(Write16(rf, r, w), r) == w
  {
    JoinSplit(w);
  }

  /** Writing back the word just read leaves the register file as it was. */
  lemma WideWriteBack(rf: RegFile, r: Reg)
    requires r.IsWide()
    ensures Write16(rf, r, Read16(rf, r)) == rf
  {
  }

  /** The second register of the pair that a wide register names:
      C for B, E for D, L for H. */
  function PairLow(r: Reg): (q: Reg)
    requires r == B || r == D || r == H
    ensures q != Reg.Invalid && Slot(q) == Slot(r) + 1
  {
    if r == B then C else if r == D then E else L
  }

  /** BC, DE and HL alias their 8-bit halves: the wide value has the first
      register as low byte and the second as high byte, and a wide write is
      seen by 8-bit reads of the two halves. */
  lemma PairAliasing(rf: RegFile, r: Reg, w: bv16)
    requires r == B || r == D || r == H
    ensures Read16(rf, r) == Join(Read8(rf, r), Read8(rf, PairLow(r)))
    ensures Read8(Write16(rf, r, w), r) == Lo(w)
    ensures Read8(Write16(rf, r, w), PairLow(r)) == Hi(w)
  {
  }
}
