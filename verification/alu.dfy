/** What the arithmetic instructions mean, stated on numbers and decimal digits rather than on masks. */
module Alu {
  import opened Bits
  import opened Status

  datatype Regs = Regs(a: byte, x: byte, y: byte, sp: byte, pc: word, p: Flags)

  function Carry(p: Flags): nat { if p.c then 1 else 0 }

  predicate SignedOverflow(total: int) { total < -0x80 || total > 0x7F }

  /** One digit of an addition: the digit left, and the carry out. Nibbles above 9 are legal inputs. */
  function DigitSum(x: nat, y: nat, carry: nat): (nat, nat) {
    var s := x + y + carry;
    if s < 10 then (s, 0) else ((s + 6) % 16, 1)
  }

  /** One digit of a subtraction: the digit left, and the borrow out. */
  function DigitDifference(x: nat, y: nat, borrow: nat): (nat, nat) {
    var s := x - y - borrow;
    if s >= 0 then (s, 0) else ((s - 6) % 16, 1)
  }

  function AdcBinary(r: Regs, m: byte): Regs {
    var sum := r.a + m + Carry(r.p);
    var v: byte := sum % 0x100;
    r.(a := v,
       p := SetNZ(r.p, v).(c := sum >= 0x100, v := SignedOverflow(Signed(r.a) + Signed(m) + Carry(r.p))))
  }

  /** NMOS decimal addition: two digit sums. C is the decimal carry and Z belongs to the binary sum;
      N and V belong to the sum whose low digit is corrected and whose high digit is not. */
  function AdcDecimal(r: Regs, m: byte): Regs {
    var (low, half) := DigitSum(r.a % 16, m % 16, Carry(r.p));
    var (high, out) := DigitSum(r.a / 16, m / 16, half);
    var top := (r.a / 16 + m / 16 + half) % 16 >= 8;
    r.(a := 16 * high + low,
       p := r.p.(c := out == 1,
                 z := (r.a + m + Carry(r.p)) % 0x100 == 0,
                 n := top,
                 v := Negative(r.a) == Negative(m) && Negative(r.a) != top))
  }

  function Adc(r: Regs, m: byte): Regs { if r.p.d then AdcDecimal(r, m) else AdcBinary(r, m) }

  function SbcBinary(r: Regs, m: byte): Regs {
    var difference := r.a - m - (1 - Carry(r.p));
    var v: byte := difference % 0x100;
    r.(a := v,
       p := SetNZ(r.p, v).(c := difference >= 0,
                           v := SignedOverflow(Signed(r.a) - Signed(m) - (1 - Carry(r.p)))))
  }

  /** NMOS decimal subtraction: the flags of the binary subtraction, and two digit differences. */
  function SbcDecimal(r: Regs, m: byte): Regs {
    var (low, half) := DigitDifference(r.a % 16, m % 16, 1 - Carry(r.p));
    var (high, _) := DigitDifference(r.a / 16, m / 16, half);
    SbcBinary(r, m).(a := 16 * high + low)
  }

  function Sbc(r: Regs, m: byte): Regs { if r.p.d then SbcDecimal(r, m) else SbcBinary(r, m) }

  /** CMP, CPX and CPY: C says the register is not below the operand. */
  function Compared(p: Flags, reg: byte, m: byte): Flags {
    SetNZ(p, (reg - m) % 0x100).(c := reg >= m)
  }

  datatype RmwOp = ASL | LSR | ROL | ROR | INC | DEC

  /** The byte a shift, rotate, increment or decrement leaves. */
  function Shifted(op: RmwOp, carry: bool, v: byte): byte {
    var c := if carry then 1 else 0;
    match op
    case ASL => 2 * v % 0x100
    case LSR => v / 2
    case ROL => (2 * v + c) % 0x100
    case ROR => v / 2 + 0x80 * c
    case INC => (v + 1) % 0x100
    case DEC => (v - 1) % 0x100
  }

  /** The bit a shift or rotate moves out; INC and DEC leave C alone. */
  predicate ShiftedOut(op: RmwOp, carry: bool, v: byte) {
    match op
    case ASL | ROL => v >= 0x80
    case LSR | ROR => v % 2 == 1
    case INC | DEC => carry
  }

  function ShiftFlags(op: RmwOp, p: Flags, v: byte): Flags {
    SetNZ(p, Shifted(op, p.c, v)).(c := ShiftedOut(op, p.c, v))
  }
}
