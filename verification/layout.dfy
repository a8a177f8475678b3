/** The memory map by address: what each of the 65536 addresses reads, writes and reports, with the decoder's own names
    nowhere used. */
module Layout {
  import opened Bits
  import opened Bus
  import opened BbcMemory

  /** What a read returns. Slots 0 to 8 are ACIA, serial ULA, video ULA, system VIA, user VIA, FDC, Econet, ADC and
      Tube. */
  lemma {:induction false} ReadsByAddress(m: Bbc, a: word)
    ensures Read(m, a) ==
      if a <= 0x7FFF then m.ram[a]
      else if a <= 0xBFFF then (if m.loaded[m.bank] then m.side[m.bank][a - 0x8000] else 0xFF)
      else if a <= 0xFBFF then m.os[a - 0xC000]
      else if a <= 0xFDFF then 0xFF
      else if a <= 0xFE07 then (if a % 2 == 1 then m.crtc.regs[m.crtc.selected] else 0xFF)
      else if a <= 0xFE0F then m.files[0][a % 4]
      else if a <= 0xFE1F then m.files[1][0]
      else if a <= 0xFE2F then m.files[2][a % 2]
      else if a <= 0xFE3F then 0xFF
      else if a <= 0xFE5F then m.files[3][a % 16]
      else if a <= 0xFE7F then m.files[4][a % 16]
      else if a <= 0xFEBF then 0xFF
      else if a <= 0xFEDF then m.files[7][a % 4]
      else if a <= 0xFEFF then m.files[8][a % 8]
      else m.os[a - 0xC000]
  {
    LowDigits(a);
  }

  lemma {:induction false} LowDigits(a: word)
    ensures Lo(a) % 2 == a % 2 && Lo(a) % 4 == a % 4 && Lo(a) % 8 == a % 8 && Lo(a) % 16 == a % 16
    ensures 0xFE00 <= a < 0xFF00 ==> Lo(a) == a - 0xFE00
  {
    assert a == 256 * (a / 256) + a % 256;
  }

  /** What a write changes, and that it changes nothing else: RAM, the bank latch and the CRTC. */
  lemma {:induction false} WritesByAddress(m: Bbc, a: word, v: byte)
    ensures var m' := Write(m, a, v);
            && m'.os == m.os && m'.osLoaded == m.osLoaded && m'.side == m.side && m'.loaded == m.loaded
            && (forall i :: 0 <= i < 0x8000 ==> m'.ram[i] == if i == a then v else m.ram[i])
            && m'.bank == (if 0xFE30 <= a <= 0xFE33 then v % 4 else m.bank)
            && m'.crtc.selected == (if 0xFE00 <= a <= 0xFE07 && a % 2 == 0 then v % 32 % 18 else m.crtc.selected)
            && (forall i :: 0 <= i < 18 ==>
                  m'.crtc.regs[i]
                  == if 0xFE00 <= a <= 0xFE07 && a % 2 == 1 && i == m.crtc.selected then v else m.crtc.regs[i])
  {
    LowDigits(a);
  }

  /** And the register files: each by its range, each repeated through it. */
  lemma {:induction false} FilesByAddress(m: Bbc, a: word, v: byte)
    ensures var m' := Write(m, a, v);
            && m'.files[0] == (if 0xFE08 <= a <= 0xFE0F then m.files[0][a % 4 := v] else m.files[0])
            && m'.files[1] == (if 0xFE10 <= a <= 0xFE1F then m.files[1][0 := v] else m.files[1])
            && m'.files[2] == (if 0xFE20 <= a <= 0xFE2F then m.files[2][a % 2 := v] else m.files[2])
            && m'.files[3] == (if 0xFE40 <= a <= 0xFE5F then m.files[3][a % 16 := v] else m.files[3])
            && m'.files[4] == (if 0xFE60 <= a <= 0xFE7F then m.files[4][a % 16 := v] else m.files[4])
  {
    LowDigits(a);
  }

  lemma {:induction false} UpperFilesByAddress(m: Bbc, a: word, v: byte)
    ensures var m' := Write(m, a, v);
            && m'.files[5] == (if 0xFE80 <= a <= 0xFE9F then m.files[5][a % 4 := v] else m.files[5])
            && m'.files[6] == (if 0xFEA0 <= a <= 0xFEBF then m.files[6][a % 4 := v] else m.files[6])
            && m'.files[7] == (if 0xFEC0 <= a <= 0xFEDF then m.files[7][a % 4 := v] else m.files[7])
            && m'.files[8] == (if 0xFEE0 <= a <= 0xFEFF then m.files[8][a % 8 := v] else m.files[8])
  {
    LowDigits(a);
  }

  /** Exactly which accesses the unmapped-access hook hears of, and what it is told. */
  lemma {:induction false} HooksByAddress(m: Bbc, a: word, v: byte)
    ensures Observe(m, a, false, v) ==
      if (0x8000 <= a <= 0xBFFF && !m.loaded[m.bank]) || 0xFC00 <= a <= 0xFDFF
         || 0xFE30 <= a <= 0xFE33 || 0xFE38 <= a <= 0xFE3F
      then [HookCall(a, false, v)] else []
    ensures Observe(m, a, true, v) ==
      if 0xFC00 <= a <= 0xFDFF || 0xFE38 <= a <= 0xFE3F then [HookCall(a, true, v)] else []
  {
    LowDigits(a);
  }

  /** A write moves the bank latch exactly when it goes to $FE30 to $FE33 with another bank in its low two bits. */
  lemma {:induction false} BankMovesIff(m: Bbc, a: word, v: byte)
    ensures Write(m, a, v).bank != m.bank <==> 0xFE30 <= a <= 0xFE33 && v % 4 != m.bank
  {
    WritesByAddress(m, a, v);
  }

  predicate AllZero(bytes: seq<byte>, n: nat) { |bytes| == n && forall i :: 0 <= i < n ==> bytes[i] == 0 }

  /** The stub registers and RAM of a machine just switched on. */
  predicate SwitchedOn(m: Bbc) {
    && AllZero(m.ram, 0x8000) && m.bank == 0 && m.crtc.selected == 0 && AllZero(m.crtc.regs, 18)
    && AllZero(m.files[0], 4) && AllZero(m.files[1], 1) && AllZero(m.files[2], 2)
    && AllZero(m.files[3], 16) && AllZero(m.files[4], 16) && AllZero(m.files[5], 4)
    && AllZero(m.files[6], 4) && AllZero(m.files[7], 4) && AllZero(m.files[8], 8)
  }

  /** A new machine: everything zero, and no image loaded. */
  lemma {:induction false} BlankIsZero()
    ensures var m := Blank();
            && SwitchedOn(m) && AllZero(m.os, 0x4000) && !m.osLoaded
            && (forall i :: 0 <= i < 4 ==> AllZero(m.side[i], 0x4000) && !m.loaded[i])
  {
  }

  /** ColdReset's memory: zero again, under the images that were there. */
  lemma {:induction false} ClearedIsZero(m: Bbc)
    ensures var m' := Cleared(m);
            && SwitchedOn(m')
            && m'.os == m.os && m'.osLoaded == m.osLoaded && m'.side == m.side && m'.loaded == m.loaded
  {
  }

  /** Loading an image touches one bank. */
  lemma {:induction false} BankLoaded(m: Bbc, bank: nat, image: seq<byte>)
    requires bank < 4 && |image| == 0x4000
    ensures var m' := WithBank(m, bank, image);
            && m' == m.(side := m'.side, loaded := m'.loaded)
            && forall i :: 0 <= i < 4 ==>
                 m'.side[i] == (if i == bank then image else m.side[i]) && m'.loaded[i] == (i == bank || m.loaded[i])
  {
  }
}
