/** The processor status register P, layout NV-UB-DIZC with C in bit 0. */
module Status {
  import opened Bits

  /** One field for each bit of P: U is bit 5, B is bit 4. */
  datatype Flags = Flags(n: bool, v: bool, u: bool, b: bool, d: bool, i: bool, z: bool, c: bool)

  const NO_FLAGS := Flags(false, false, false, false, false, false, false, false)

  /** A bit shifted in below the bits of `rest`. */
  function Below(rest: nat, on: bool): (v: nat)
    ensures v / 2 == rest && (v % 2 == 1) == on
  {
    2 * rest + if on then 1 else 0
  }

  function ToByte(p: Flags): byte {
    var nv := Below(Below(0, p.n), p.v);
    var nvub := Below(Below(nv, p.u), p.b);
    var nvubdi := Below(Below(nvub, p.d), p.i);
    Below(Below(nvubdi, p.z), p.c)
  }

  function FromByte(v: byte): Flags {
    var v1 := v / 2;
    var v2 := v1 / 2;
    var v3 := v2 / 2;
    var v4 := v3 / 2;
    var v5 := v4 / 2;
    var v6 := v5 / 2;
    Flags(v6 / 2 % 2 == 1, v6 % 2 == 1, v5 % 2 == 1, v4 % 2 == 1, v3 % 2 == 1, v2 % 2 == 1, v1 % 2 == 1, v % 2 == 1)
  }

  /** Pushing P and pulling it again loses nothing. */
  lemma {:induction false} FlagsRoundTrip(p: Flags)
    ensures FromByte(ToByte(p)) == p
  {
    var nv := Below(Below(0, p.n), p.v);
    var nvub := Below(Below(nv, p.u), p.b);
    var nvubdi := Below(Below(nvub, p.d), p.i);
    var v := Below(Below(nvubdi, p.z), p.c);
    assert v / 2 / 2 == nvubdi && nvubdi / 2 / 2 == nvub && nvub / 2 / 2 == nv;
    assert v == ToByte(p);
  }

  lemma {:induction false} Rejoined(v: nat)
    ensures Below(v / 2, v % 2 == 1) == v
  {
  }

  /** Every byte is the image of exactly the flags it decodes to. */
  lemma {:induction false} ByteRoundTrip(v: byte)
    ensures ToByte(FromByte(v)) == v
  {
    var v1 := v / 2;
    var v2 := v1 / 2;
    var v3 := v2 / 2;
    var v4 := v3 / 2;
    var v5 := v4 / 2;
    var v6 := v5 / 2;
    var v7 := v6 / 2;
    assert v7 < 2 && v7 / 2 == 0;
    Rejoined(v7); Rejoined(v6); Rejoined(v5); Rejoined(v4);
    Rejoined(v3); Rejoined(v2); Rejoined(v1); Rejoined(v);
  }

  /** The mask each flag has in P: U is $20 and B is $10. */
  lemma {:induction false} FlagMasks(v: byte)
    ensures var p := FromByte(v);
            && p.n == Bit(v, 7) && p.v == Bit(v, 6) && p.u == Bit(v, 5) && p.b == Bit(v, 4)
            && p.d == Bit(v, 3) && p.i == Bit(v, 2) && p.z == Bit(v, 1) && p.c == Bit(v, 0)
  {
    var v1 := v / 2;
    var v2 := v1 / 2;
    var v3 := v2 / 2;
    var v4 := v3 / 2;
    var v5 := v4 / 2;
    var v6 := v5 / 2;
    assert Bit(v, 1) == Bit(v1, 0);
    assert Bit(v, 2) == Bit(v1, 1) == Bit(v2, 0);
    assert Bit(v, 3) == Bit(v1, 2) == Bit(v2, 1) == Bit(v3, 0);
    assert Bit(v, 4) == Bit(v1, 3) == Bit(v2, 2) == Bit(v3, 1) == Bit(v4, 0);
    assert Bit(v, 5) == Bit(v1, 4) == Bit(v2, 3) == Bit(v3, 2) == Bit(v4, 1) == Bit(v5, 0);
    assert Bit(v, 6) == Bit(v1, 5) == Bit(v2, 4) == Bit(v3, 3) == Bit(v4, 2) == Bit(v5, 1) == Bit(v6, 0);
    assert Bit(v, 7) == Bit(v1, 6) == Bit(v2, 5) == Bit(v3, 4) == Bit(v4, 3) == Bit(v5, 2) == Bit(v6, 1)
      == Bit(v6 / 2, 0);
  }

  /** N and Z as every load, transfer, logic and arithmetic instruction sets them. */
  function SetNZ(p: Flags, v: byte): Flags { p.(z := v == 0, n := Negative(v)) }
}
