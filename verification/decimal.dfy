/** Chains of ADC and SBC over multi-byte numbers, low byte first, in decimal and in binary. */
module Chains {
  import opened Bits
  import opened Status
  import opened Alu
  import opened Masks

  predicate IsBcd(v: byte) { v % 16 < 10 && v / 16 < 10 }

  /** The number a byte stands for: two decimal digits when D is set, eight bits when it is clear. */
  function ValueOf(decimal: bool, v: byte): nat { if decimal then 10 * (v / 16) + v % 16 else v }

  function Base(decimal: bool): nat { if decimal then 100 else 0x100 }

  /** A byte that stands for a number in the current mode. */
  predicate Legal(decimal: bool, v: byte) { decimal ==> IsBcd(v) }

  // One byte.

  lemma {:induction false} DigitSumMeans(x: nat, y: nat, carry: nat)
    requires x < 10 && y < 10 && carry <= 1
    ensures var (d, out) := DigitSum(x, y, carry);
            d < 10 && out <= 1 && d + 10 * out == x + y + carry
  {
    var s := x + y + carry;
    if s >= 10 { assert (s + 6) % 16 == s - 10; }
  }

  lemma {:induction false} DigitDifferenceMeans(x: nat, y: nat, borrow: nat)
    requires x < 10 && y < 10 && borrow <= 1
    ensures var (d, out) := DigitDifference(x, y, borrow);
            d < 10 && out <= 1 && d - 10 * out == x - y - borrow
  {
    var s := x - y - borrow;
    if s < 0 { assert (s - 6) % 16 == s + 10; }
  }

  lemma {:induction false} TwoDigits(high: nat, low: nat)
    requires high < 16 && low < 16
    ensures (16 * high + low) / 16 == high && (16 * high + low) % 16 == low
  {
  }

  lemma {:induction false} AdcDecimalMeans(r: Regs, m: byte)
    requires IsBcd(r.a) && IsBcd(m)
    ensures var r' := AdcDecimal(r, m);
            && IsBcd(r'.a) && r'.p.d == r.p.d
            && ValueOf(true, r'.a) + 100 * Carry(r'.p) == ValueOf(true, r.a) + ValueOf(true, m) + Carry(r.p)
  {
    var (low, half) := DigitSum(r.a % 16, m % 16, Carry(r.p));
    var (high, out) := DigitSum(r.a / 16, m / 16, half);
    DigitSumMeans(r.a % 16, m % 16, Carry(r.p));
    DigitSumMeans(r.a / 16, m / 16, half);
    TwoDigits(high, low);
  }

  lemma {:induction false} AdcBinaryMeans(r: Regs, m: byte)
    ensures var r' := AdcBinary(r, m);
            r'.p.d == r.p.d && r'.a + 0x100 * Carry(r'.p) == r.a + m + Carry(r.p)
  {
    var sum := r.a + m + Carry(r.p);
    assert sum % 0x100 == if sum < 0x100 then sum else sum - 0x100;
  }

  /** ADC adds: the result and the carry make up the sum of the operands and the carry in. */
  lemma {:induction false} AdcMeans(r: Regs, m: byte)
    requires Legal(r.p.d, r.a) && Legal(r.p.d, m)
    ensures var r' := Adc(r, m);
            && Legal(r.p.d, r'.a) && r'.p.d == r.p.d
            && ValueOf(r.p.d, r'.a) + Base(r.p.d) * Carry(r'.p) == ValueOf(r.p.d, r.a) + ValueOf(r.p.d, m) + Carry(r.p)
  {
    hide AdcDecimal, AdcBinary;
    if r.p.d { AdcDecimalMeans(r, m); } else { AdcBinaryMeans(r, m); }
  }

  lemma {:induction false} SbcBinaryMeans(r: Regs, m: byte)
    ensures var r' := SbcBinary(r, m);
            && r'.p.d == r.p.d && (r'.p.c <==> r.a - m - (1 - Carry(r.p)) >= 0)
            && r'.a - 0x100 * (1 - Carry(r'.p)) == r.a - m - (1 - Carry(r.p))
  {
    var difference := r.a - m - (1 - Carry(r.p));
    assert difference % 0x100 == if difference >= 0 then difference else difference + 0x100;
  }

  lemma {:induction false} SbcDecimalMeans(r: Regs, m: byte)
    requires IsBcd(r.a) && IsBcd(m)
    ensures var r' := SbcDecimal(r, m);
            && IsBcd(r'.a) && r'.p.d == r.p.d
            && ValueOf(true, r'.a) - 100 * (1 - Carry(r'.p)) == ValueOf(true, r.a) - ValueOf(true, m) - (1 - Carry(r.p))
  {
    hide SbcBinary;
    SbcBinaryMeans(r, m);
    var (low, half) := DigitDifference(r.a % 16, m % 16, 1 - Carry(r.p));
    var (high, out) := DigitDifference(r.a / 16, m / 16, half);
    DigitDifferenceMeans(r.a % 16, m % 16, 1 - Carry(r.p));
    DigitDifferenceMeans(r.a / 16, m / 16, half);
    TwoDigits(high, low);
    BorrowAgrees(r.a, m, 1 - Carry(r.p), half, out, high, low);
  }

  /** SBC subtracts, with C as an inverted borrow in both directions. */
  lemma {:induction false} SbcMeans(r: Regs, m: byte)
    requires Legal(r.p.d, r.a) && Legal(r.p.d, m)
    ensures var r' := Sbc(r, m);
            && Legal(r.p.d, r'.a) && r'.p.d == r.p.d
            && ValueOf(r.p.d, r'.a) - Base(r.p.d) * (1 - Carry(r'.p))
               == ValueOf(r.p.d, r.a) - ValueOf(r.p.d, m) - (1 - Carry(r.p))
  {
    hide SbcDecimal, SbcBinary;
    if r.p.d { SbcDecimalMeans(r, m); } else { SbcBinaryMeans(r, m); }
  }

  /** On digits, the decimal borrow is the binary borrow the flags come from. */
  lemma {:induction false} BorrowAgrees(x: byte, y: byte, borrow: nat, half: nat, out: nat, high: nat, low: nat)
    requires low < 10 && high < 10 && half <= 1 && out <= 1
    requires low - 10 * half == x % 16 - y % 16 - borrow && high - 10 * out == x / 16 - y / 16 - half
    ensures (x - y - borrow >= 0) == (out == 0)
  {
    assert x - y - borrow == 16 * (high - 10 * out) + low + 6 * half;
  }

  // Any number of bytes.

  datatype Chain = Chain(digits: seq<byte>, p: Flags)

  /** Adding two numbers byte by byte: A is loaded, the operand added, and C carried to the next byte. */
  function AddAll(r: Regs, xs: seq<byte>, ys: seq<byte>): Chain
    requires |xs| == |ys|
    decreases |xs|
  {
    if xs == [] then Chain([], r.p)
    else
      var r' := Adc(r.(a := xs[0]), ys[0]);
      var rest := AddAll(r', xs[1..], ys[1..]);
      Chain([r'.a] + rest.digits, rest.p)
  }

  function SubtractAll(r: Regs, xs: seq<byte>, ys: seq<byte>): Chain
    requires |xs| == |ys|
    decreases |xs|
  {
    if xs == [] then Chain([], r.p)
    else
      var r' := Sbc(r.(a := xs[0]), ys[0]);
      var rest := SubtractAll(r', xs[1..], ys[1..]);
      Chain([r'.a] + rest.digits, rest.p)
  }

  /** The number a byte string stands for, low byte first. */
  function Number(decimal: bool, xs: seq<byte>): nat
    decreases |xs|
  {
    if xs == [] then 0 else ValueOf(decimal, xs[0]) + Base(decimal) * Number(decimal, xs[1..])
  }

  function Power(b: nat, k: nat): nat { if k == 0 then 1 else b * Power(b, k - 1) }

  predicate AllLegal(decimal: bool, xs: seq<byte>) { forall k :: 0 <= k < |xs| ==> Legal(decimal, xs[k]) }

  lemma {:induction false} NumberOf(decimal: bool, x: byte, rest: seq<byte>)
    ensures Number(decimal, [x] + rest) == ValueOf(decimal, x) + Base(decimal) * Number(decimal, rest)
  {
    assert ([x] + rest)[1..] == rest;
  }

  lemma {:induction false} NumberBound(decimal: bool, xs: seq<byte>)
    requires AllLegal(decimal, xs)
    ensures Number(decimal, xs) < Power(Base(decimal), |xs|)
    decreases |xs|
  {
    if xs != [] {
      NumberBound(decimal, xs[1..]);
      var n, p := Number(decimal, xs[1..]), Power(Base(decimal), |xs| - 1);
      assert n <= p - 1;
      assert Legal(decimal, xs[0]) && ValueOf(decimal, xs[0]) < Base(decimal);
    }
  }

  /** One byte of a chain in front of the rest: the borrow between them cancels. */
  lemma {:induction false} ChainStep(b: nat, p: nat, low: nat, y: nat, into: nat, x: nat, between: nat,
                                     rest: nat, ys: nat, xs: nat, out: nat)
    requires low + y + into == x + b * between && rest + ys + between == xs + p * out
    ensures (low + b * rest) + (y + b * ys) + into == (x + b * xs) + (b * p) * out
  {
    assert b * (rest + ys + between) == b * rest + b * ys + b * between;
    Distribute(b, xs, p, out);
  }

  lemma {:induction false} Distribute(b: int, n: int, p: int, c: int)
    ensures b * (n + p * c) == b * n + (b * p) * c
  {
  }

  /** A chain of ADCs adds numbers of any length: digits and final carry make up the sum. */
  lemma {:induction false} AddAllAdds(r: Regs, xs: seq<byte>, ys: seq<byte>)
    requires |xs| == |ys| && AllLegal(r.p.d, xs) && AllLegal(r.p.d, ys)
    ensures var c := AddAll(r, xs, ys);
            && |c.digits| == |xs| && AllLegal(r.p.d, c.digits)
            && Number(r.p.d, c.digits) + Power(Base(r.p.d), |xs|) * Carry(c.p)
               == Number(r.p.d, xs) + Number(r.p.d, ys) + Carry(r.p)
    decreases |xs|
  {
    hide Adc;
    if xs != [] {
      var d := r.p.d;
      var b := Base(d);
      AdcMeans(r.(a := xs[0]), ys[0]);
      var r' := Adc(r.(a := xs[0]), ys[0]);
      AddAllAdds(r', xs[1..], ys[1..]);
      var rest := AddAll(r', xs[1..], ys[1..]);
      NumberOf(d, r'.a, rest.digits);
      var n, p, c := Number(d, rest.digits), Power(b, |xs| - 1), Carry(rest.p);
      Distribute(b, n, p, c);
    }
  }

  lemma {:induction false} NumberUnfolds(decimal: bool, xs: seq<byte>)
    requires xs != []
    ensures Number(decimal, xs) == ValueOf(decimal, xs[0]) + Base(decimal) * Number(decimal, xs[1..])
  {
  }

  /** The subtraction as a balance: what is left, what is taken away and the borrow in, against the number it is taken
      from and the borrow out. */
  lemma {:induction false} SubtractAllBalances(r: Regs, xs: seq<byte>, ys: seq<byte>)
    requires |xs| == |ys| && AllLegal(r.p.d, xs) && AllLegal(r.p.d, ys)
    ensures var c := SubtractAll(r, xs, ys);
            && |c.digits| == |xs| && AllLegal(r.p.d, c.digits)
            && Number(r.p.d, c.digits) + Number(r.p.d, ys) + (1 - Carry(r.p))
               == Number(r.p.d, xs) + Power(Base(r.p.d), |xs|) * (1 - Carry(c.p))
    decreases |xs|
  {
    hide Sbc;
    if xs != [] {
      var d, b := r.p.d, Base(r.p.d);
      var r' := Sbc(r.(a := xs[0]), ys[0]);
      SbcMeans(r.(a := xs[0]), ys[0]);
      SubtractAllBalances(r', xs[1..], ys[1..]);
      var rest := SubtractAll(r', xs[1..], ys[1..]);
      NumberOf(d, r'.a, rest.digits);
      NumberUnfolds(d, xs);
      NumberUnfolds(d, ys);
      ChainStep(b, Power(b, |xs| - 1), ValueOf(d, r'.a), ValueOf(d, ys[0]), 1 - Carry(r.p), ValueOf(d, xs[0]),
                1 - Carry(r'.p), Number(d, rest.digits), Number(d, ys[1..]), Number(d, xs[1..]), 1 - Carry(rest.p));
      hide ValueOf, Legal, Number, Base;
    }
  }

  /** A chain of SBCs subtracts: the final C is clear exactly when the whole subtraction borrows. */
  lemma {:induction false} SubtractAllSubtracts(r: Regs, xs: seq<byte>, ys: seq<byte>)
    requires |xs| == |ys| && AllLegal(r.p.d, xs) && AllLegal(r.p.d, ys)
    ensures var c := SubtractAll(r, xs, ys);
            && |c.digits| == |xs| && AllLegal(r.p.d, c.digits)
            && Number(r.p.d, c.digits) - Power(Base(r.p.d), |xs|) * (1 - Carry(c.p))
               == Number(r.p.d, xs) - Number(r.p.d, ys) - (1 - Carry(r.p))
  {
    hide Sbc, SubtractAll, Number, Power, Base, AllLegal;
    SubtractAllBalances(r, xs, ys);
  }

  /** As a quotient and a remainder: a k-byte addition is the sum modulo base^k, and C is what is carried out. */
  lemma {:induction false} AddAllModulo(r: Regs, xs: seq<byte>, ys: seq<byte>)
    requires |xs| == |ys| && AllLegal(r.p.d, xs) && AllLegal(r.p.d, ys)
    ensures var c := AddAll(r, xs, ys);
            var total := Number(r.p.d, xs) + Number(r.p.d, ys) + Carry(r.p);
            var limit := Power(Base(r.p.d), |xs|);
            && (c.p.c <==> total >= limit)
            && Number(r.p.d, c.digits) == if total < limit then total else total - limit
  {
    hide Adc;
    AddAllAdds(r, xs, ys);
    NumberBound(r.p.d, AddAll(r, xs, ys).digits);
  }

  lemma {:induction false} SubtractAllModulo(r: Regs, xs: seq<byte>, ys: seq<byte>)
    requires |xs| == |ys| && AllLegal(r.p.d, xs) && AllLegal(r.p.d, ys)
    ensures var c := SubtractAll(r, xs, ys);
            var total := Number(r.p.d, xs) - Number(r.p.d, ys) - (1 - Carry(r.p));
            && (c.p.c <==> total >= 0)
            && Number(r.p.d, c.digits) == if total >= 0 then total else total + Power(Base(r.p.d), |xs|)
  {
    hide Sbc;
    SubtractAllSubtracts(r, xs, ys);
    NumberBound(r.p.d, SubtractAll(r, xs, ys).digits);
  }

  // Relations between the instructions.

  lemma {:induction false} ValueInjective(decimal: bool, v: byte, w: byte)
    requires Legal(decimal, v) && Legal(decimal, w) && ValueOf(decimal, v) == ValueOf(decimal, w)
    ensures v == w
  {
  }

  /** Adding and then subtracting with the carry inverted gives A back. */
  lemma {:induction false} SbcUndoesAdc(r: Regs, m: byte)
    requires Legal(r.p.d, r.a) && Legal(r.p.d, m)
    ensures var sum := Adc(r, m);
            Sbc(sum.(p := sum.p.(c := !r.p.c)), m).a == r.a
  {
    hide Adc, Sbc;
    var sum := Adc(r, m);
    var back := Sbc(sum.(p := sum.p.(c := !r.p.c)), m);
    AdcMeans(r, m);
    SbcMeans(sum.(p := sum.p.(c := !r.p.c)), m);
    assert 0 <= ValueOf(r.p.d, back.a) < Base(r.p.d);
    ValueInjective(r.p.d, back.a, r.a);
  }

  /** On every pair of bytes, BCD or not, decimal SBC sets the flags of binary SBC, and decimal ADC its Z. */
  lemma {:induction false} DecimalFlags(r: Regs, m: byte)
    ensures SbcDecimal(r, m).p == SbcBinary(r, m).p
    ensures AdcDecimal(r, m).p.z == AdcBinary(r, m).p.z
  {
  }

  /** Decimal ADC takes N and V from the sum with its low digit corrected, where the specification asks for the binary
      sum. The two agree in N unless the low digits make 10 to 15 and the high digits are one short of a sign change,
      and in V unless, besides, the operands have the same sign. */
  lemma {:induction false} DecimalSignIff(r: Regs, m: byte)
    ensures var low, high := r.a % 16 + m % 16 + Carry(r.p), r.a / 16 + m / 16;
            var apart := 10 <= low <= 15 && high % 8 == 7;
            && (AdcDecimal(r, m).p.n == AdcBinary(r, m).p.n <==> !apart)
            && (AdcDecimal(r, m).p.v == AdcBinary(r, m).p.v <==> !(apart && Negative(r.a) == Negative(m)))
  {
    hide AdcDecimal, AdcBinary;
    var low, high := r.a % 16 + m % 16 + Carry(r.p), r.a / 16 + m / 16;
    DecimalSign(r, m);
    BinarySign(r, m);
    SignOfNibble(high);
  }

  lemma {:induction false} DecimalSign(r: Regs, m: byte)
    ensures var low, high := r.a % 16 + m % 16 + Carry(r.p), r.a / 16 + m / 16;
            var top := (high + if low < 10 then 0 else 1) % 16 >= 8;
            var p := AdcDecimal(r, m).p;
            p.n == top && p.v == (Negative(r.a) == Negative(m) && Negative(r.a) != top)
  {
    assert DigitSum(r.a % 16, m % 16, Carry(r.p)).1 == if r.a % 16 + m % 16 + Carry(r.p) < 10 then 0 else 1;
  }

  lemma {:induction false} BinarySign(r: Regs, m: byte)
    ensures var low, high := r.a % 16 + m % 16 + Carry(r.p), r.a / 16 + m / 16;
            var top := (high + if low < 16 then 0 else 1) % 16 >= 8;
            var p := AdcBinary(r, m).p;
            p.n == top && p.v == (Negative(r.a) == Negative(m) && Negative(r.a) != top)
  {
    SumSign(r.a, m, Carry(r.p));
    SumOverflow(r.a, m, Carry(r.p));
  }

  lemma {:induction false} SumSign(x: byte, y: byte, carry: nat)
    requires carry <= 1
    ensures var low := x % 16 + y % 16 + carry;
            Negative((x + y + carry) % 0x100) == ((x / 16 + y / 16 + if low < 16 then 0 else 1) % 16 >= 8)
  {
    var low := x % 16 + y % 16 + carry;
    var over := if low < 16 then 0 else 1;
    Shifted16(x / 16 + y / 16 + over, low - 16 * over);
    assert x + y + carry == 16 * (x / 16 + y / 16 + over) + (low - 16 * over);
  }

  /** One more in the high digit changes the sign bit at 7 and at 15 only. */
  lemma {:induction false} SignOfNibble(high: nat)
    requires high <= 30
    ensures ((high + 1) % 16 >= 8) == (high % 16 >= 8) <==> high % 8 != 7
  {
  }

  /** So $79 + $00 with carry reads as negative, and $99 + $01 leaves zero in A with Z clear and N set. */
  lemma {:induction false} DecimalFlagsInPractice()
    ensures var r := Regs(0x79, 0, 0, 0, 0, NO_FLAGS.(d := true, c := true));
            Adc(r, 0x00).p.n && !AdcBinary(r, 0x00).p.n
    ensures var r := Regs(0x99, 0, 0, 0, 0, NO_FLAGS.(d := true));
            var r' := Adc(r, 0x01);
            r'.a == 0 && r'.p.c && !r'.p.z && r'.p.n
  {
  }
}
