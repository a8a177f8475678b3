/** The flag byte, the gates and the arithmetic instructions in plain numbers, for all bytes and carries. */
module Arithmetic {
  import opened Bits
  import opened Status
  import opened Alu
  import opened Masks

  /** Bit k of a byte, by division. */
  lemma {:induction false} BitsByDivision(v: byte)
    ensures Bit(v, 0) == (v % 2 == 1) && Bit(v, 1) == (v / 2 % 2 == 1)
    ensures Bit(v, 2) == (v / 4 % 2 == 1) && Bit(v, 3) == (v / 8 % 2 == 1)
    ensures Bit(v, 4) == (v / 16 % 2 == 1) && Bit(v, 5) == (v / 32 % 2 == 1)
    ensures Bit(v, 6) == (v / 64 % 2 == 1) && Bit(v, 7) == (v / 128 % 2 == 1)
  {
    hide Bit;
    LowBits(v);
    LowBits(v / 16);
    BitFour(v, 0);
    BitFour(v, 1);
    BitFour(v, 2);
    BitFour(v, 3);
    Sixteenths(v);
  }

  lemma {:induction false} LowBits(v: nat)
    ensures Bit(v, 0) == (v % 2 == 1) && Bit(v, 1) == (v / 2 % 2 == 1)
    ensures Bit(v, 2) == (v / 4 % 2 == 1) && Bit(v, 3) == (v / 8 % 2 == 1)
  {
    BitThree(v);
    assert Bit(v, 1) == Bit(v / 2, 0);
  }

  lemma {:induction false} Sixteenths(v: nat)
    ensures v / 16 / 2 == v / 32 && v / 16 / 4 == v / 64 && v / 16 / 8 == v / 128
  {
  }

  /** AND, ORA and EOR work on each bit by itself. */
  lemma {:induction false} GatesInNumbers(x: byte, y: byte)
    ensures var r := And(x, y);
            && (r % 2 == 1 <==> x % 2 == 1 && y % 2 == 1)
            && (r / 2 % 2 == 1 <==> x / 2 % 2 == 1 && y / 2 % 2 == 1)
            && (r / 4 % 2 == 1 <==> x / 4 % 2 == 1 && y / 4 % 2 == 1)
            && (r / 8 % 2 == 1 <==> x / 8 % 2 == 1 && y / 8 % 2 == 1)
            && (r / 16 % 2 == 1 <==> x / 16 % 2 == 1 && y / 16 % 2 == 1)
            && (r / 32 % 2 == 1 <==> x / 32 % 2 == 1 && y / 32 % 2 == 1)
            && (r / 64 % 2 == 1 <==> x / 64 % 2 == 1 && y / 64 % 2 == 1)
            && (r / 128 % 2 == 1 <==> x / 128 % 2 == 1 && y / 128 % 2 == 1)
    ensures var r := Or(x, y);
            && (r % 2 == 1 <==> x % 2 == 1 || y % 2 == 1)
            && (r / 2 % 2 == 1 <==> x / 2 % 2 == 1 || y / 2 % 2 == 1)
            && (r / 4 % 2 == 1 <==> x / 4 % 2 == 1 || y / 4 % 2 == 1)
            && (r / 8 % 2 == 1 <==> x / 8 % 2 == 1 || y / 8 % 2 == 1)
            && (r / 16 % 2 == 1 <==> x / 16 % 2 == 1 || y / 16 % 2 == 1)
            && (r / 32 % 2 == 1 <==> x / 32 % 2 == 1 || y / 32 % 2 == 1)
            && (r / 64 % 2 == 1 <==> x / 64 % 2 == 1 || y / 64 % 2 == 1)
            && (r / 128 % 2 == 1 <==> x / 128 % 2 == 1 || y / 128 % 2 == 1)
    ensures var r := Xor(x, y);
            && (r % 2 == 1 <==> x % 2 != y % 2)
            && (r / 2 % 2 == 1 <==> x / 2 % 2 != y / 2 % 2)
            && (r / 4 % 2 == 1 <==> x / 4 % 2 != y / 4 % 2)
            && (r / 8 % 2 == 1 <==> x / 8 % 2 != y / 8 % 2)
            && (r / 16 % 2 == 1 <==> x / 16 % 2 != y / 16 % 2)
            && (r / 32 % 2 == 1 <==> x / 32 % 2 != y / 32 % 2)
            && (r / 64 % 2 == 1 <==> x / 64 % 2 != y / 64 % 2)
            && (r / 128 % 2 == 1 <==> x / 128 % 2 != y / 128 % 2)
  {
    GatedBits(AndGate, x, y);
    GatedBits(OrGate, x, y);
    GatedBits(XorGate, x, y);
    BitsByDivision(x);
    BitsByDivision(y);
    BitsByDivision(And(x, y));
    BitsByDivision(Or(x, y));
    BitsByDivision(Xor(x, y));
    hide Bit, Gated;
  }

  lemma {:induction false} GatedBits(g: Gate, x: byte, y: byte)
    ensures forall k :: 0 <= k < 8 ==> Bit(Gated(g, x, y, 8), k) == g.Out(Bit(x, k), Bit(y, k))
  {
    hide Bit, Gated;
    forall k | 0 <= k < 8 ensures Bit(Gated(g, x, y, 8), k) == g.Out(Bit(x, k), Bit(y, k)) {
      GatedBit(g, x, y, 8, k);
    }
  }

  /** The weight of each flag in the byte P: N, V, U, B, D, I, Z, C from the top. */
  lemma {:induction false} FlagWeights(p: Flags)
    ensures ToByte(p) ==
      (if p.n then 128 else 0) + (if p.v then 64 else 0) + (if p.u then 32 else 0) + (if p.b then 16 else 0)
      + (if p.d then 8 else 0) + (if p.i then 4 else 0) + (if p.z then 2 else 0) + (if p.c then 1 else 0)
  {
  }

  /** And each flag read back from that byte. */
  lemma {:induction false} FlagBits(p: Flags)
    ensures var v := ToByte(p);
            && (v / 128 % 2 == 1) == p.n && (v / 64 % 2 == 1) == p.v
            && (v / 32 % 2 == 1) == p.u && (v / 16 % 2 == 1) == p.b
            && (v / 8 % 2 == 1) == p.d && (v / 4 % 2 == 1) == p.i
            && (v / 2 % 2 == 1) == p.z && (v % 2 == 1) == p.c
  {
    hide ToByte, FromByte, Bit;
    FlagsRoundTrip(p);
    FlagMasks(ToByte(p));
    BitsByDivision(ToByte(p));
  }

  /** ADC with D clear: the sum, its carry, its sign, whether it is zero, and whether it leaves -128..127 as a sum of
      signed numbers. Nothing else moves. */
  lemma {:induction false} AdcInNumbers(r: Regs, m: byte)
    requires !r.p.d
    ensures var sum := r.a + m + if r.p.c then 1 else 0;
            var signed := (if r.a < 128 then r.a else r.a - 256) + (if m < 128 then m else m - 256)
              + if r.p.c then 1 else 0;
            Adc(r, m) == r.(a := sum % 256,
                            p := r.p.(c := sum > 255, z := sum % 256 == 0, n := sum % 256 >= 128,
                                      v := signed < -128 || 127 < signed))
  {
  }

  /** SBC in both modes: the flags are those of the difference with C as an inverted borrow. With D clear, A is the
      difference too. */
  lemma {:induction false} SbcInNumbers(r: Regs, m: byte)
    ensures var borrow := if r.p.c then 0 else 1;
            var difference := r.a - m - borrow;
            var signed := (if r.a < 128 then r.a else r.a - 256) - (if m < 128 then m else m - 256) - borrow;
            var r' := Sbc(r, m);
            && r' == r.(a := r'.a,
                        p := r.p.(c := difference >= 0, z := (difference + 256) % 256 == 0,
                                  n := (difference + 256) % 256 >= 128, v := signed < -128 || 127 < signed))
            && (!r.p.d ==> r'.a == (difference + 256) % 256)
  {
    var difference := r.a - m - if r.p.c then 0 else 1;
    assert difference % 256 == (difference + 256) % 256;
  }

  /** The sum of two bytes with its low digit corrected, and with both. */
  function HalfCorrected(x: byte, y: byte, carry: nat): nat {
    var low := x % 16 + y % 16 + carry;
    x / 16 * 16 + y / 16 * 16 + if low < 10 then low else (low + 6) % 16 + 16
  }

  function Corrected(x: byte, y: byte, carry: nat): nat {
    var half := HalfCorrected(x, y, carry);
    if half < 160 then half else half + 96
  }

  lemma {:induction false} CorrectionsAreDigits(x: byte, y: byte, carry: nat)
    requires carry <= 1
    ensures var (low, half) := DigitSum(x % 16, y % 16, carry);
            var (high, out) := DigitSum(x / 16, y / 16, half);
            && (HalfCorrected(x, y, carry) % 256 >= 128) == ((x / 16 + y / 16 + half) % 16 >= 8)
            && (Corrected(x, y, carry) > 255) == (out == 1)
            && Corrected(x, y, carry) % 256 == 16 * high + low
  {
    hide DigitSum;
    DigitwiseSum(x, y, carry);
  }

  /** ADC with D set, on all bytes, BCD or not: the low digits are added and corrected by 6 when they pass 9, the high
      ones by $60 when they pass $9F; N and V are taken between the two corrections, and Z from the binary sum. */
  lemma {:induction false} DecimalAdcInNumbers(r: Regs, m: byte)
    requires r.p.d
    ensures var carry := if r.p.c then 1 else 0;
            var half, total := HalfCorrected(r.a, m, carry), Corrected(r.a, m, carry);
            Adc(r, m) == r.(a := total % 256,
                            p := r.p.(c := total > 255, z := (r.a + m + carry) % 256 == 0, n := half % 256 >= 128,
                                      v := (r.a < 128) == (m < 128) && (r.a < 128) != (half % 256 < 128)))
  {
    hide DigitSum, HalfCorrected, Corrected;
    CorrectionsAreDigits(r.a, m, if r.p.c then 1 else 0);
  }

  /** SBC with D set, on all bytes: each digit is corrected by 6 when it borrows. */
  lemma {:induction false} DecimalSbcInNumbers(r: Regs, m: byte)
    requires r.p.d
    ensures var low := r.a % 16 - m % 16 - if r.p.c then 0 else 1;
            var all := r.a / 16 * 16 - m / 16 * 16 + if low >= 0 then low else (low + 16 - 6) % 16 - 16;
            Sbc(r, m).a == (512 + if all >= 0 then all else all - 96) % 256
  {
    hide DigitDifference, SbcBinary;
    DigitwiseDifference(r.a, m, 1 - Carry(r.p));
    var low := r.a % 16 - m % 16 - (1 - Carry(r.p));
    var all := r.a / 16 * 16 - m / 16 * 16 + if low >= 0 then low else (low + 16 - 6) % 16 - 16;
    assert low < 0 ==> (low + 16 - 6) % 16 == (low - 6) % 16;
    Around(if all >= 0 then all else all - 96);
  }

  lemma {:induction false} Around(n: int)
    ensures (512 + n) % 256 == n % 256
  {
  }
}
