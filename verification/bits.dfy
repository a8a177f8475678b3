/** Bytes, words and the bit operations of the emulator, on integers of explicit width. */
module Bits {
  type byte = n: int | 0 <= n < 0x100
  type word = n: int | 0 <= n < 0x1_0000

  function Lo(w: word): byte { w % 0x100 }

  function Hi(w: word): byte { w / 0x100 }

  /** The source's `uint16(lo) | uint16(hi)<<8`; the two halves share no bit. */
  function Word(lo: byte, hi: byte): word { lo + 0x100 * hi }

  // Unsigned arithmetic wraps.

  function Add8(v: byte, w: byte): byte { if v + w < 0x100 then v + w else v + w - 0x100 }

  function Inc8(v: byte): byte { if v == 0xFF then 0 else v + 1 }

  function Dec8(v: byte): byte { if v == 0 then 0xFF else v - 1 }

  function Next(w: word): word { if w == 0xFFFF then 0 else w + 1 }

  function Previous(w: word): word { if w == 0 then 0xFFFF else w - 1 }

  function Add16(w: word, v: byte): word { if w + v < 0x1_0000 then w + v else w + v - 0x1_0000 }

  /** Two's complement reading of a byte. */
  function Signed(v: byte): int { if v < 0x80 then v else v - 0x100 }

  predicate Negative(v: byte) { v >= 0x80 }

  // Bitwise gates, one bit at a time.

  datatype Gate = AndGate | OrGate | XorGate {
    predicate Out(x: bool, y: bool) {
      match this
      case AndGate => x && y
      case OrGate => x || y
      case XorGate => x != y
    }
  }

  function Pow2(n: nat): nat
    ensures Pow2(n) > 0
  {
    if n == 0 then 1 else 2 * Pow2(n - 1)
  }

  predicate Bit(a: nat, k: nat)
    decreases k, a
  {
    if k == 0 then a % 2 == 1 else Bit(a / 2, k - 1)
  }

  function Gated(g: Gate, a: nat, b: nat, n: nat): (r: nat)
    ensures r < Pow2(n)
    decreases n, a
  {
    if n == 0 then 0
    else (if g.Out(a % 2 == 1, b % 2 == 1) then 1 else 0) + 2 * Gated(g, a / 2, b / 2, n - 1)
  }

  function And(a: byte, b: byte): byte { assert Pow2(8) == 0x100; Gated(AndGate, a, b, 8) }

  function Or(a: byte, b: byte): byte { assert Pow2(8) == 0x100; Gated(OrGate, a, b, 8) }

  function Xor(a: byte, b: byte): byte { assert Pow2(8) == 0x100; Gated(XorGate, a, b, 8) }

  /** Every bit of a gated byte is the gate applied to the operands' bits. */
  lemma {:induction false} GatedBit(g: Gate, a: nat, b: nat, n: nat, k: nat)
    requires k < n
    ensures Bit(Gated(g, a, b, n), k) == g.Out(Bit(a, k), Bit(b, k))
    decreases n
  {
    var r := Gated(g, a / 2, b / 2, n - 1);
    var low := if g.Out(a % 2 == 1, b % 2 == 1) then 1 else 0;
    assert (low + 2 * r) % 2 == low && (low + 2 * r) / 2 == r;
    if k > 0 {
      GatedBit(g, a / 2, b / 2, n - 1, k - 1);
    }
  }

  lemma {:induction false} AndZero(a: nat, n: nat)
    ensures Gated(AndGate, a, 0, n) == 0
    decreases n
  {
    if n > 0 { AndZero(a / 2, n - 1); }
  }

  /** Masking with one bit isolates that bit. */
  lemma {:induction false} AndOneBit(a: nat, k: nat, n: nat)
    requires k < n
    ensures Gated(AndGate, a, Pow2(k), n) == if Bit(a, k) then Pow2(k) else 0
    decreases n
  {
    if k == 0 {
      AndZero(a / 2, n - 1);
    } else {
      assert Pow2(k) % 2 == 0 && Pow2(k) / 2 == Pow2(k - 1);
      AndOneBit(a / 2, k - 1, n - 1);
    }
  }

  lemma {:induction false} BitFour(a: nat, k: nat)
    ensures Bit(a, k + 4) == Bit(a / 16, k)
  {
    var b := a / 2;
    var c := b / 2;
    var d := c / 2;
    assert Bit(a, k + 4) == Bit(b, k + 3) == Bit(c, k + 2) == Bit(d, k + 1) == Bit(d / 2, k);
    assert d / 2 == a / 16;
  }

  lemma {:induction false} BitThree(a: nat)
    ensures Bit(a, 3) == (a / 8 % 2 == 1)
    ensures Bit(a, 2) == (a / 4 % 2 == 1)
  {
    var b := a / 2;
    var c := b / 2;
    assert Bit(a, 3) == Bit(b, 2) == Bit(c, 1) == Bit(c / 2, 0);
    assert Bit(a, 2) == Bit(b, 1) == Bit(c, 0);
  }

  lemma {:induction false} TopBit(v: byte)
    ensures Bit(v, 7) == Negative(v)
    ensures Bit(v, 6) == (v / 0x40 % 2 == 1)
  {
    var h := v / 16;
    assert Bit(v, 7) == Bit(h, 3) by { BitFour(v, 3); }
    assert Bit(v, 6) == Bit(h, 2) by { BitFour(v, 2); }
    BitThree(h);
    assert h / 4 == v / 0x40;
  }

  /** The mask tests the source makes. */
  lemma {:induction false} MaskTests(v: byte)
    ensures (And(v, 0x80) != 0) == Negative(v)
    ensures (And(v, 0x40) != 0) == (v / 0x40 % 2 == 1)
    ensures (And(v, 0x01) != 0) == (v % 2 == 1)
  {
    assert Pow2(7) == 0x80 && Pow2(6) == 0x40 && Pow2(0) == 1;
    AndOneBit(v, 7, 8);
    AndOneBit(v, 6, 8);
    AndOneBit(v, 0, 8);
    TopBit(v);
  }

  /** Setting the lowest or the highest bit of a byte in which it is clear. */
  lemma {:induction false} SetOneBit(v: byte)
    ensures v % 2 == 0 ==> Or(v, 0x01) == v + 1
    ensures v < 0x80 ==> Or(v, 0x80) == v + 0x80
  {
    OrZero(v / 2, 7);
    assert Pow2(7) == 0x80;
    if v < 0x80 { OrAbove(v, 7); }
  }

  lemma {:induction false} OrZero(a: nat, n: nat)
    requires a < Pow2(n)
    ensures Gated(OrGate, a, 0, n) == a
    decreases n
  {
    if n > 0 { OrZero(a / 2, n - 1); }
  }

  lemma {:induction false} OrAbove(a: nat, k: nat)
    requires a < Pow2(k)
    ensures Gated(OrGate, a, Pow2(k), k + 1) == a + Pow2(k)
    decreases k
  {
    if k > 0 {
      assert Pow2(k) % 2 == 0 && Pow2(k) / 2 == Pow2(k - 1);
      OrAbove(a / 2, k - 1);
    }
  }

  /** One step and two steps of a mask whose low bits are all set, or all clear. */
  lemma {:induction false} AndStep(a: nat, m: nat, n: nat)
    ensures Gated(AndGate, a, 2 * m + 1, n + 1) == a % 2 + 2 * Gated(AndGate, a / 2, m, n)
    ensures Gated(AndGate, a, 2 * m, n + 1) == 2 * Gated(AndGate, a / 2, m, n)
  {
    assert (2 * m + 1) / 2 == m && 2 * m / 2 == m;
  }

  lemma {:induction false} AndTwo(a: nat, m: nat, n: nat)
    ensures Gated(AndGate, a, 4 * m + 3, n + 2) == a % 4 + 4 * Gated(AndGate, a / 4, m, n)
    ensures Gated(AndGate, a, 4 * m, n + 2) == 4 * Gated(AndGate, a / 4, m, n)
  {
    var b := a / 2;
    AndStep(a, 2 * m + 1, n + 1);
    AndStep(b, m, n);
    AndStep(a, 2 * m, n + 1);
    assert b / 2 == a / 4 && a % 4 == a % 2 + 2 * (b % 2);
  }

  lemma {:induction false} AndFour(a: nat, m: nat, n: nat)
    ensures Gated(AndGate, a, 16 * m + 15, n + 4) == a % 16 + 16 * Gated(AndGate, a / 16, m, n)
    ensures Gated(AndGate, a, 16 * m, n + 4) == 16 * Gated(AndGate, a / 16, m, n)
  {
    var q := a / 4;
    AndTwo(a, 4 * m + 3, n + 2);
    AndTwo(q, m, n);
    AndTwo(a, 4 * m, n + 2);
    Quarters(a);
  }

  lemma {:induction false} Quarters(a: nat)
    ensures a / 4 / 4 == a / 16 && a % 16 == a % 4 + 4 * (a / 4 % 4)
  {
  }

  /** The nibble masks: `a & 0x0F` and `a & 0xF0`. */
  lemma {:induction false} NibbleMasks(a: byte)
    ensures And(a, 0x0F) == a % 16
    ensures And(a, 0xF0) == a / 16 * 16
  {
    hide Gated;
    var h := a / 16;
    assert Gated(AndGate, a, 16 * 0 + 15, 4 + 4) == a % 16 by { AndFour(a, 0, 4); AndZero(h, 4); }
    assert Gated(AndGate, a, 16 * 15, 4 + 4) == 16 * Gated(AndGate, h, 15, 4) by { AndFour(a, 15, 4); }
    assert Gated(AndGate, h, 16 * 0 + 15, 0 + 4) == h by { AndFour(h, 0, 0); }
  }

  /** The sign rule behind the overflow mask `(x ^ r) & (y ^ r) & 0x80`. */
  lemma {:induction false} OverflowMask(x: byte, y: byte, r: byte)
    ensures (And(And(Xor(x, r), Xor(y, r)), 0x80) != 0)
         == (Negative(x) != Negative(r) && Negative(y) != Negative(r))
  {
    MaskTests(And(Xor(x, r), Xor(y, r)));
    TopBit(And(Xor(x, r), Xor(y, r)));
    GatedBit(AndGate, Xor(x, r), Xor(y, r), 8, 7);
    GatedBit(XorGate, x, r, 8, 7);
    GatedBit(XorGate, y, r, 8, 7);
    TopBit(x);
    TopBit(y);
    TopBit(r);
  }

  lemma {:induction false} WordSplit(w: word)
    ensures Word(Lo(w), Hi(w)) == w
  {
  }
}
