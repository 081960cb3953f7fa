/** The arithmetic-logic unit as pure functions: each operation yields its
    result together with the flag byte the CPU then stores in F. The flag
    byte only ever uses the upper four bits (Z N H C); the lower four are 0. */
module Alu {

  const FLAG_Z: bv8 := 0x80  // zero
  const FLAG_N: bv8 := 0x40  // last operation was a subtraction
  const FLAG_H: bv8 := 0x20  // half carry, as this CPU computes it
  const FLAG_C: bv8 := 0x10  // carry

  /** Whether the flag bit `flag` is set in the flag byte `f`. */
  predicate Has(f: bv8, flag: bv8)
  {
    f & flag != 0
  }

  /** The flag byte with exactly the given flags set. */
  function Flags(zero: bool, sub: bool, half: bool, carry: bool): (f: bv8)
    ensures Has(f, FLAG_Z) == zero && Has(f, FLAG_N) == sub
    ensures Has(f, FLAG_H) == half && Has(f, FLAG_C) == carry
    ensures f & 0x0F == 0
  {
    (if zero then FLAG_Z else 0) | (if sub then FLAG_N else 0)
      | (if half then FLAG_H else 0) | (if carry then FLAG_C else 0)
  }

  /** What an ALU operation produces: its result and the new flag byte. */
  datatype AluOut<W> = AluOut(result: W, flags: bv8)

  /** 8-bit addition. C is the carry out of bit 7. H is set whenever the
      upper nibble of the result is non-zero. */
  function Add(a: bv8, b: bv8): (r: AluOut<bv8>)
    ensures r.result as bv9 == (a as bv9 + b as bv9) & 0xFF
    ensures Has(r.flags, FLAG_C) <==> a as bv9 + b as bv9 > 0xFF
    ensures Has(r.flags, FLAG_H) <==> r.result >= 0x10
    ensures Has(r.flags, FLAG_Z) <==> r.result == 0
    ensures !Has(r.flags, FLAG_N) && r.flags & 0x0F == 0
  {
    var res := a + b;
    AluOut(res, Flags(res == 0, false, res >> 4 != 0, res < a))
  }

  /** Whether a 16-bit addition wraps, told by the wrapped sum falling below
      an operand. */
  predicate WideCarry(a: bv16, b: bv16)
    ensures WideCarry(a, b) <==> (a as bv17 + b as bv17) >> 16 == 1
  {
    a + b < a
  }

  /** 16-bit addition. C is the carry out of bit 15, H is set whenever the
      upper nibble of the result is non-zero. */
  function WideAdd(a: bv16, b: bv16): (r: AluOut<bv16>)
    ensures r.result as bv17 == (a as bv17 + b as bv17) & 0xFFFF
    ensures Has(r.flags, FLAG_C) <==> WideCarry(a, b)
    ensures Has(r.flags, FLAG_H) <==> r.result >= 0x1000
    ensures Has(r.flags, FLAG_Z) <==> r.result == 0
    ensures !Has(r.flags, FLAG_N) && r.flags & 0x0F == 0
  {
    var res := a + b;
    AluOut(res, Flags(res == 0, false, res >> 12 != 0, WideCarry(a, b)))
  }

  /** 8-bit addition with carry in: `fIn` is the flag byte before the
      operation. Without an incoming carry this is `Add`. With one, 1 more is
      added, C is set when either of the two additions carries out of
      bit 7, and Z and H still describe the sum before the carry was added. */
  function Adc(a: bv8, b: bv8, fIn: bv8): (r: AluOut<bv8>)
    ensures !Has(fIn, FLAG_C) ==> r == Add(a, b)
    ensures Has(fIn, FLAG_C) ==> r.result as bv9 == (a as bv9 + b as bv9 + 1) & 0xFF
    ensures Has(fIn, FLAG_C) ==> (Has(r.flags, FLAG_C) <==> a as bv9 + b as bv9 + 1 > 0xFF)
    ensures Has(r.flags, FLAG_Z) <==> a + b == 0
    ensures Has(r.flags, FLAG_H) <==> a + b >= 0x10
    ensures !Has(r.flags, FLAG_N) && r.flags & 0x0F == 0
  {
    var sum := a + b;
    var carry := sum < a;
    if Has(fIn, FLAG_C) then
      var res := sum + 1;
      AluOut(res, Flags(sum == 0, false, sum >> 4 != 0, carry || res < sum))
    else
      AluOut(sum, Flags(sum == 0, false, sum >> 4 != 0, carry))
  }

  /** 8-bit subtraction `a - b`. N is always set; C is set when there is no
      borrow, that is when `b <= a`; H is set when `b` is below 16; Z when
      the operands are equal. */
  function Sub(a: bv8, b: bv8): (r: AluOut<bv8>)
    ensures r.result as bv9 == (a as bv9 - b as bv9) & 0xFF
    ensures Has(r.flags, FLAG_C) <==> b <= a
    ensures Has(r.flags, FLAG_H) <==> b < 16
    ensures Has(r.flags, FLAG_Z) <==> a == b
    ensures Has(r.flags, FLAG_N) && r.flags & 0x0F == 0
  {
    var res := a - b;
    AluOut(res, Flags(res == 0, true, !(b >> 4 != 0), !(a < b)))
  }

  /** 8-bit subtraction with carry: `fIn` is the flag byte before the
      operation. Without an incoming carry this is `Sub`. With one, 1 is
      ADDED to the difference, and C (no borrow) is cleared when that
      addition wraps; Z and H describe the operands as in `Sub`. */
  function Sbc(a: bv8, b: bv8, fIn: bv8): (r: AluOut<bv8>)
    ensures !Has(fIn, FLAG_C) ==> r == Sub(a, b)
    ensures Has(fIn, FLAG_C) ==> r.result as bv9 == (a as bv9 - b as bv9 + 1) & 0xFF
    ensures Has(fIn, FLAG_C) ==> (Has(r.flags, FLAG_C) <==> b <= a && a - b != 0xFF)
    ensures Has(r.flags, FLAG_H) <==> b < 16
    ensures Has(r.flags, FLAG_Z) <==> a == b
    ensures Has(r.flags, FLAG_N) && r.flags & 0x0F == 0
  {
    var diff := a - b;
    var borrow := a < b;
    if Has(fIn, FLAG_C) then
      var res := diff + 1;
      AluOut(res, Flags(diff == 0, true, !(b >> 4 != 0), !(borrow || res < diff)))
    else
      AluOut(diff, Flags(diff == 0, true, !(b >> 4 != 0), !borrow))
  }

  /** Bitwise and. H is always set, N and C never; Z says no bit is common
      to both operands. */
  function And(a: bv8, b: bv8): (r: AluOut<bv8>)
    ensures r.result == a & b
    ensures Has(r.flags, FLAG_Z) <==> a & b == 0
    ensures Has(r.flags, FLAG_H) && !Has(r.flags, FLAG_N) && !Has(r.flags, FLAG_C)
    ensures r.flags & 0x0F == 0
  {
    var res := a & b;
    AluOut(res, Flags(res == 0, false, true, false))
  }

  /** Bitwise or. Only Z can be set, and it is set exactly when both
      operands are zero. */
  function Or(a: bv8, b: bv8): (r: AluOut<bv8>)
    ensures r.result == a | b
    ensures Has(r.flags, FLAG_Z) <==> a == 0 && b == 0
    ensures !Has(r.flags, FLAG_H) && !Has(r.flags, FLAG_N) && !Has(r.flags, FLAG_C)
    ensures r.flags & 0x0F == 0
  {
    var res := a | b;
    AluOut(res, Flags(res == 0, false, false, false))
  }
}
