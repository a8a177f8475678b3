/** The mask expressions of the flag code, and the arithmetic facts that say what they compute. */
module Masks {
  import opened Bits
  import opened Alu

  method TopBitSet(v: byte) returns (on: bool)
    ensures on == Negative(v)
  {
    MaskTests(v);
    on := And(v, 0x80) != 0;
  }

  method LowBitSet(v: byte) returns (on: bool)
    ensures on == (v % 2 == 1)
  {
    MaskTests(v);
    on := And(v, 0x01) != 0;
  }

  method SixthBitSet(v: byte) returns (on: bool)
    ensures on == (v / 0x40 % 2 == 1)
  {
    MaskTests(v);
    on := And(v, 0x40) != 0;
  }

  method WithBit0(v: byte) returns (r: byte)
    requires v % 2 == 0
    ensures r == v + 1
  {
    SetOneBit(v);
    r := Or(v, 0x01);
  }

  method WithBit7(v: byte) returns (r: byte)
    requires v < 0x80
    ensures r == v + 0x80
  {
    SetOneBit(v);
    r := Or(v, 0x80);
  }

  method Nibbles(v: byte) returns (low: int, high: int)
    ensures low == v % 16 && high == v / 16 * 16
  {
    NibbleMasks(v);
    low, high := And(v, 0x0F), And(v, 0xF0);
  }

  /** The mask `(x ^ r) & (y ^ r) & 0x80` is set when both operands differ in sign from the result. */
  method OverflowBit(x: byte, y: byte, r: byte) returns (on: bool)
    ensures on == (Negative(x) != Negative(r) && Negative(y) != Negative(r))
  {
    OverflowMask(x, y, r);
    on := And(And(Xor(x, r), Xor(y, r)), 0x80) != 0;
  }

  /** The sign rule is signed overflow. */
  lemma {:induction false} SumOverflow(x: byte, y: byte, carry: nat)
    requires carry <= 1
    ensures var r: byte := (x + y + carry) % 0x100;
            (Negative(x) != Negative(r) && Negative(y) != Negative(r)) == SignedOverflow(Signed(x) + Signed(y) + carry)
  {
    assert (x + y + carry) % 0x100 == if x + y + carry < 0x100 then x + y + carry else x + y + carry - 0x100;
  }

  /** Adding the complement subtracts, with an inverted borrow. */
  lemma {:induction false} Complement(x: byte, m: byte, carry: nat)
    requires carry <= 1
    ensures var sum := x + (0xFF - m) + carry;
            var difference := x - m - (1 - carry);
            && (sum > 0xFF) == (difference >= 0)
            && sum % 0x100 == difference % 0x100
            && Signed(x) + Signed(0xFF - m) + carry == Signed(x) - Signed(m) - (1 - carry)
  {
    var difference := x - m - (1 - carry);
    assert (difference + 0x100) % 0x100 == difference % 0x100;
  }

  /** The two-stage correction of the addition is two digit sums. */
  lemma {:induction false} DigitwiseSum(x: byte, y: byte, carry: nat)
    requires carry <= 1
    ensures var (low, half) := DigitSum(x % 16, y % 16, carry);
            var (high, out) := DigitSum(x / 16, y / 16, half);
            var s := x % 16 + y % 16 + carry;
            var al := if s >= 0x0A then (s + 0x06) % 0x10 + 0x10 else s;
            var ah := x / 16 * 16 + y / 16 * 16 + al;
            var total := if ah >= 0xA0 then ah + 0x60 else ah;
            && Negative(ah % 0x100) == ((x / 16 + y / 16 + half) % 16 >= 8)
            && (total >= 0x100) == (out == 1)
            && total % 0x100 == 16 * high + low
  {
    var d := LowDigitSum(x % 16, y % 16, carry);
    HighDigitSum(x / 16, y / 16, d.1, d.0);
  }

  lemma {:induction false} LowDigitSum(xl: nat, yl: nat, carry: nat) returns (d: (nat, nat))
    requires xl < 16 && yl < 16 && carry <= 1
    ensures d == DigitSum(xl, yl, carry) && d.0 < 16 && d.1 <= 1
    ensures var s := xl + yl + carry;
            (if s >= 0x0A then (s + 0x06) % 0x10 + 0x10 else s) == d.0 + 0x10 * d.1
  {
    d := DigitSum(xl, yl, carry);
  }

  lemma {:induction false} HighDigitSum(xh: nat, yh: nat, half: nat, low: nat)
    requires xh < 16 && yh < 16 && half <= 1 && low < 16
    ensures var (high, out) := DigitSum(xh, yh, half);
            var ah := xh * 16 + yh * 16 + (low + 0x10 * half);
            var total := if ah >= 0xA0 then ah + 0x60 else ah;
            && Negative(ah % 0x100) == ((xh + yh + half) % 16 >= 8)
            && (total >= 0x100) == (out == 1)
            && total % 0x100 == 16 * high + low
  {
    var h := xh + yh + half;
    Shifted16(h, low);
    Shifted16(h + 6, low);
  }

  /** A byte made of two digits, the high one reduced modulo 16. */
  lemma {:induction false} Shifted16(h: int, low: nat)
    requires low < 16
    ensures (16 * h + low) % 0x100 == 16 * (h % 16) + low
    ensures ((16 * h + low) % 0x100 >= 0x80) == (h % 16 >= 8)
  {
    var q, r := h / 16, h % 16;
    assert 16 * h + low == 0x100 * q + (16 * r + low);
  }

  /** The two-stage correction of the subtraction is two digit differences. */
  lemma {:induction false} DigitwiseDifference(x: byte, y: byte, borrow: nat)
    requires borrow <= 1
    ensures var (low, half) := DigitDifference(x % 16, y % 16, borrow);
            var (high, _) := DigitDifference(x / 16, y / 16, half);
            var s := x % 16 - y % 16 - borrow;
            var al := if s < 0 then (s - 0x06) % 0x10 - 0x10 else s;
            var ah := x / 16 * 16 - y / 16 * 16 + al;
            (if ah < 0 then ah - 0x60 else ah) % 0x100 == 16 * high + low
  {
    var d := LowDigitDifference(x % 16, y % 16, borrow);
    HighDigitDifference(x / 16, y / 16, d.1, d.0);
  }

  lemma {:induction false} LowDigitDifference(xl: nat, yl: nat, borrow: nat) returns (d: (nat, nat))
    requires xl < 16 && yl < 16 && borrow <= 1
    ensures d == DigitDifference(xl, yl, borrow) && d.0 < 16 && d.1 <= 1
    ensures var s := xl - yl - borrow;
            (if s < 0 then (s - 0x06) % 0x10 - 0x10 else s) == d.0 - 0x10 * d.1
  {
    d := DigitDifference(xl, yl, borrow);
  }

  lemma {:induction false} HighDigitDifference(xh: nat, yh: nat, half: nat, low: nat)
    requires xh < 16 && yh < 16 && half <= 1 && low < 16
    ensures var (high, _) := DigitDifference(xh, yh, half);
            var ah := xh * 16 - yh * 16 + (low - 0x10 * half);
            (if ah < 0 then ah - 0x60 else ah) % 0x100 == 16 * high + low
  {
    var h := xh - yh - half;
    Shifted16(h, low);
    Shifted16(h - 6, low);
  }

  /** The nibble arithmetic of decimal addition: the half-corrected sum, and the fully corrected one. */
  method AddNibbles(x: byte, y: byte, cin: nat) returns (aInt: byte, ah: nat)
    requires cin <= 1
    ensures var (low, half) := DigitSum(x % 16, y % 16, cin);
            var (high, out) := DigitSum(x / 16, y / 16, half);
            && Negative(aInt) == ((x / 16 + y / 16 + half) % 16 >= 8)
            && (ah >= 0x100) == (out == 1)
            && ah % 0x100 == 16 * high + low
  {
    var xLow, xHigh := Nibbles(x);
    var yLow, yHigh := Nibbles(y);
    var al := xLow + yLow + cin;
    if al >= 0x0A {
      al := (al + 0x06) % 0x10 + 0x10;
    }
    ah := xHigh + yHigh + al;
    aInt := ah % 0x100;
    if ah >= 0xA0 {
      ah := ah + 0x60;
    }
    DigitwiseSum(x, y, cin);
  }

  /** The nibble arithmetic of decimal subtraction. */
  method SubtractNibbles(x: byte, y: byte, borrow: nat) returns (d: byte)
    requires borrow <= 1
    ensures var (low, half) := DigitDifference(x % 16, y % 16, borrow);
            var (high, _) := DigitDifference(x / 16, y / 16, half);
            d == 16 * high + low
  {
    var xLow, xHigh := Nibbles(x);
    var yLow, yHigh := Nibbles(y);
    var al: int := xLow - yLow - borrow;
    if al < 0 {
      al := (al - 0x06) % 0x10 - 0x10;
    }
    var aInt: int := xHigh - yHigh + al;
    if aInt < 0 {
      aInt := aInt - 0x60;
    }
    d := aInt % 0x100;
    DigitwiseDifference(x, y, borrow);
  }
}
