/** The memory map as the object the CPU is bound to. */
module MappedMemory {
  import opened Bits
  import opened Bus
  import opened BbcMemory
  import opened Devices

  class MemoryMap {
    const ram: array<byte>
    const rom: RomBanks
    const periph: Peripherals
    /** The calls made so far to the host's unmapped-access hook. */
    var hookCalls: seq<HookCall>

    /** The whole memory as one value, and the functions reads and writes compute on it. */
    ghost var contents: Bbc
    ghost const io: Memory<Bbc>
    ghost const repr: set<object>

    /** The objects hold `contents`. The unused argument lets `Valid` be a quantifier, so that a client
        that only passes `Valid` along is not shown the decoder behind it. */
    ghost predicate Holds(key: int)
      reads this, repr
    {
      && this in repr && ram in repr && rom in repr && periph in repr && periph.repr <= repr
      && this !in periph.repr && ram !in periph.repr && rom !in periph.repr
      && ram.Length == RAM_SIZE && rom.Valid() && periph.Valid()
      && io == Io()
      && contents == Bbc(ram[..], rom.os, rom.osLoaded, rom.sideways, rom.loaded, rom.bank,
                         periph.crtc.State(), periph.FileBytes())
    }

    ghost predicate Valid()
      reads this, repr
      ensures Valid() ==> this in repr
    {
      assert Holds(0) ==> this in repr;
      forall key :: Holds(key)
    }

    constructor ()
      ensures Valid() && fresh(repr) && io == Io()
      ensures contents == Blank() && hookCalls == []
    {
      var memory := new byte[RAM_SIZE](_ => 0);
      var roms := new RomBanks();
      var stubs := new Peripherals();
      ram, rom, periph := memory, roms, stubs;
      hookCalls := [];
      io := Io();
      repr := {this, memory, roms} + stubs.repr;
      contents := Blank();
      new;
      hide Zeros;
      assert ram[..] == Zeros(RAM_SIZE) by { AllZero(ram[..]); }
      assert Holds(0);
      hide Holds;
      LockHolds();
    }

    static lemma AllZero(bytes: seq<byte>)
      requires forall k :: 0 <= k < |bytes| ==> bytes[k] == 0
      ensures bytes == Zeros(|bytes|)
    {
    }

    /** The read as the bus sees it: the byte, the memory unchanged, and the hook told of an unmapped address. */
    method Read(addr: word) returns (v: byte)
      requires Valid()
      modifies this`hookCalls
      ensures Valid()
      ensures v == Peek(io, contents, addr)
      ensures hookCalls == old(hookCalls) + Seen(io, contents, addr, false, v)
    {
      assert Holds(0);
      if addr < 0x8000 {
        v := ram[addr];
      } else if addr < 0xC000 {
        v := SidewaysRead(addr);
      } else if addr < 0xFC00 {
        v := rom.os[addr - 0xC000];
      } else if addr < 0xFD00 {
        FireUnmapped(addr, false, OPEN_BUS);
        v := OPEN_BUS;
      } else if addr < 0xFE00 {
        FireUnmapped(addr, false, OPEN_BUS);
        v := OPEN_BUS;
      } else if addr < 0xFF00 {
        v := IoRead(addr);
      } else {
        v := rom.os[addr - 0xC000];
      }
      assert v == BbcMemory.Read(contents, addr);
      assert forall key :: Holds(key);
    }

    method FireUnmapped(addr: word, write: bool, value: byte)
      modifies this`hookCalls
      ensures hookCalls == old(hookCalls) + [HookCall(addr, write, value)]
    {
      hookCalls := hookCalls + [HookCall(addr, write, value)];
    }

    method SidewaysRead(addr: word) returns (v: byte)
      requires Holds(0) && 0x8000 <= addr < 0xC000
      modifies this`hookCalls
      ensures v == BbcMemory.Read(contents, addr)
      ensures hookCalls == old(hookCalls) + Observe(contents, addr, false, v)
    {
      var bank := rom.bank;
      if !rom.loaded[bank] {
        FireUnmapped(addr, false, OPEN_BUS);
        return OPEN_BUS;
      }
      v := rom.sideways[bank][addr - 0x8000];
    }

    method IoRead(addr: word) returns (v: byte)
      requires Holds(0) && 0xFE00 <= addr < 0xFF00
      modifies this`hookCalls
      ensures v == BbcMemory.Read(contents, addr)
      ensures hookCalls == old(hookCalls) + Observe(contents, addr, false, v)
    {
      var low := Lo(addr);
      if low < 0x40 {
        v := IoReadLow(addr, low);
      } else {
        v := IoReadHigh(addr, low);
      }
    }

    method IoReadLow(addr: word, low: byte) returns (v: byte)
      requires Holds(0) && addr == 0xFE00 + low && low < 0x40
      modifies this`hookCalls
      ensures v == BbcMemory.Read(contents, addr)
      ensures hookCalls == old(hookCalls) + Observe(contents, addr, false, v)
    {
      assert Lo(addr) == low && CellOf(addr) == SheilaCell(low);
      if low < 0x08 {
        v := periph.crtc.Read(low % 2);
      } else if low < 0x10 {
        v := ReadFile(addr, Acia, 0, low % 4);
      } else if low < 0x20 {
        v := ReadFile(addr, SerialUla, 1, 0);
      } else if low < 0x30 {
        v := ReadFile(addr, VideoUla, 2, low % 2);
      } else if low < 0x34 {
        FireUnmapped(addr, false, OPEN_BUS);
        v := OPEN_BUS;
      } else if low < 0x38 {
        v := OPEN_BUS;
      } else {
        FireUnmapped(addr, false, OPEN_BUS);
        v := OPEN_BUS;
      }
    }

    method IoReadHigh(addr: word, low: byte) returns (v: byte)
      requires Holds(0) && addr == 0xFE00 + low && 0x40 <= low
      ensures v == BbcMemory.Read(contents, addr)
      ensures Observe(contents, addr, false, v) == []
    {
      hide Holds, BbcMemory.Read;
      assert Lo(addr) == low && CellOf(addr) == SheilaCell(low);
      if low < 0x60 {
        v := ReadFile(addr, SystemVia, 3, low % 16);
      } else if low < 0x80 {
        v := ReadFile(addr, UserVia, 4, low % 16);
      } else if low < 0xA0 {
        v := ReadFile(addr, Fdc, 5, low % 4);
      } else if low < 0xC0 {
        v := ReadFile(addr, Econet, 6, low % 4);
      } else if low < 0xE0 {
        v := ReadFile(addr, Adc, 7, low % 4);
      } else {
        v := ReadFile(addr, Tube, 8, low % 8);
      }
    }

    method ReadFile(addr: word, stub: Stub, slot: nat, reg: nat) returns (v: byte)
      requires Holds(0) && CellOf(addr) == File(stub, reg) && slot == Slot(stub)
      ensures v == BbcMemory.Read(contents, addr)
      ensures Observe(contents, addr, false, v) == []
    {
      v := periph.files[slot].Read(reg);
    }

    /** The write as the bus sees it; writes to ROM are dropped. */
    method Write(addr: word, value: byte)
      requires Valid()
      modifies repr
      ensures Valid()
      ensures contents == Poke(io, old(contents), addr, value)
      ensures hookCalls == old(hookCalls) + Seen(io, old(contents), addr, true, value)
    {
      assert Holds(0);
      if addr < 0x8000 {
        ram[addr] := value;
        contents := BbcMemory.Write(contents, addr, value);
      } else if 0xFC00 <= addr < 0xFE00 {
        FireUnmapped(addr, true, value);
      } else if 0xFE00 <= addr < 0xFF00 {
        IoWrite(addr, value);
      }
      assert contents == BbcMemory.Write(old(contents), addr, value);
      assert forall key :: Holds(key);
    }

    method IoWrite(addr: word, value: byte)
      requires Holds(0) && 0xFE00 <= addr < 0xFF00
      modifies repr
      ensures Holds(0)
      ensures contents == BbcMemory.Write(old(contents), addr, value)
      ensures hookCalls == old(hookCalls) + Observe(old(contents), addr, true, value)
    {
      var low := Lo(addr);
      if low < 0x40 {
        IoWriteLow(addr, low, value);
      } else {
        IoWriteHigh(addr, low, value);
      }
    }

    method IoWriteLow(addr: word, low: byte, value: byte)
      requires Holds(0) && addr == 0xFE00 + low && low < 0x40
      modifies repr
      ensures Holds(0)
      ensures contents == BbcMemory.Write(old(contents), addr, value)
      ensures hookCalls == old(hookCalls) + Observe(old(contents), addr, true, value)
    {
      assert Lo(addr) == low && CellOf(addr) == SheilaCell(low);
      if low < 0x08 {
        StoreCrtc(addr, low % 2, value);
      } else if low < 0x10 {
        StoreFile(addr, Acia, 0, low % 4, value);
      } else if low < 0x20 {
        StoreFile(addr, SerialUla, 1, 0, value);
      } else if low < 0x30 {
        StoreFile(addr, VideoUla, 2, low % 2, value);
      } else if low < 0x34 {
        WriteRomSelect(addr, value);
      } else if low < 0x38 {
      } else {
        FireUnmapped(addr, true, value);
      }
    }

    method IoWriteHigh(addr: word, low: byte, value: byte)
      requires Holds(0) && addr == 0xFE00 + low && 0x40 <= low
      modifies repr
      ensures Holds(0)
      ensures contents == BbcMemory.Write(old(contents), addr, value)
      ensures hookCalls == old(hookCalls) && Observe(old(contents), addr, true, value) == []
    {
      hide Holds, BbcMemory.Write;
      assert Lo(addr) == low && CellOf(addr) == SheilaCell(low);
      if low < 0x60 {
        StoreFile(addr, SystemVia, 3, low % 16, value);
      } else if low < 0x80 {
        StoreFile(addr, UserVia, 4, low % 16, value);
      } else if low < 0xA0 {
        StoreFile(addr, Fdc, 5, low % 4, value);
      } else if low < 0xC0 {
        StoreFile(addr, Econet, 6, low % 4, value);
      } else if low < 0xE0 {
        StoreFile(addr, Adc, 7, low % 4, value);
      } else {
        StoreFile(addr, Tube, 8, low % 8, value);
      }
    }

    // The three kinds of store behind the SHEILA page. Each changes one object and nothing beside it.

    method StoreCrtc(addr: word, reg: byte, value: byte)
      requires Holds(0) && reg < 2 && CellOf(addr) == if reg == 0 then CrtcIndex else CrtcData
      modifies this`contents, periph.crtc, periph.crtc.regs
      ensures Holds(0)
      ensures contents == BbcMemory.Write(old(contents), addr, value)
    {
      periph.crtc.Write(reg, value);
      contents := BbcMemory.Write(contents, addr, value);
    }

    method StoreFile(addr: word, stub: Stub, slot: nat, reg: nat, value: byte)
      requires Holds(0) && CellOf(addr) == File(stub, reg) && slot == Slot(stub) && reg < Size(slot)
      modifies repr
      ensures Holds(0) && hookCalls == old(hookCalls)
      ensures contents == BbcMemory.Write(old(contents), addr, value)
    {
      periph.files[slot].Write(reg, value);
      contents := BbcMemory.Write(contents, addr, value);
    }

    method WriteRomSelect(addr: word, value: byte)
      requires Holds(0) && CellOf(addr) == RomSelect
      modifies this`contents, rom
      ensures Holds(0)
      ensures contents == BbcMemory.Write(old(contents), addr, value)
    {
      rom.bank := value % 4;
      contents := BbcMemory.Write(contents, addr, value);
    }

    // What the machine does to the memory beside the bus.

    method ClearBank()
      requires Valid()
      modifies repr
      ensures Valid() && contents == old(contents).(bank := 0) && hookCalls == old(hookCalls)
    {
      assert Holds(0);
      rom.bank := 0;
      contents := contents.(bank := 0);
      assert forall key :: Holds(key);
    }

    /** Power-on memory: RAM and stubs zero, bank 0, ROMs kept. */
    method ClearAll()
      requires Valid()
      modifies repr
      ensures Valid() && hookCalls == old(hookCalls)
      ensures contents == Cleared(old(contents))
    {
      assert Holds(0);
      ClearRam();
      SelectBank(0);
      ClearStubs(CrtcState(0, Zeros(CRTC_REGS)), ZeroFiles());
      hide Holds;
      LockHolds();
    }

    method ClearRam()
      requires Holds(0)
      modifies this`contents, ram
      ensures Holds(0) && contents == old(contents).(ram := Zeros(RAM_SIZE))
    {
      hide Zeros;
      ZeroRam();
      contents := contents.(ram := Zeros(RAM_SIZE));
    }

    /** The ghost arguments are the power-on registers; only their sizes matter for `Holds`. */
    method ClearStubs(ghost crtc: CrtcState, ghost files: seq<seq<byte>>)
      requires Holds(0) && crtc == CrtcState(0, Zeros(CRTC_REGS)) && files == ZeroFiles()
      modifies this`contents, periph.crtc, periph.crtc.regs, periph.files
      ensures Holds(0) && contents == old(contents).(crtc := crtc, files := files)
    {
      ZeroStubs(crtc, files);
      contents := contents.(crtc := crtc, files := files);
    }

    method ZeroStubs(ghost crtc: CrtcState, ghost files: seq<seq<byte>>)
      requires periph.Valid() && crtc == CrtcState(0, Zeros(CRTC_REGS)) && files == ZeroFiles()
      modifies periph.crtc, periph.crtc.regs, periph.files
      ensures periph.Valid() && periph.crtc.State() == crtc && periph.FileBytes() == files
    {
      periph.Zero();
    }

    method ZeroRam()
      requires ram.Length == RAM_SIZE
      modifies ram
      ensures ram[..] == Zeros(RAM_SIZE)
    {
      for i := 0 to ram.Length
        invariant forall k :: 0 <= k < i ==> ram[k] == 0
      {
        ram[i] := 0;
      }
    }

    method FillRam(bytes: seq<byte>)
      requires ram.Length == RAM_SIZE == |bytes|
      modifies ram
      ensures ram[..] == bytes
    {
      forall i | 0 <= i < RAM_SIZE { ram[i] := bytes[i]; }
    }

    method LoadOs(image: seq<byte>)
      requires Valid() && |image| == ROM_SIZE
      modifies repr
      ensures Valid() && contents == old(contents).(os := image, osLoaded := true) && hookCalls == old(hookCalls)
    {
      assert Holds(0);
      rom.os, rom.osLoaded := image, true;
      contents := contents.(os := image, osLoaded := true);
      assert forall key :: Holds(key);
    }

    method LoadBank(bank: nat, image: seq<byte>)
      requires Valid() && bank < BANKS && |image| == ROM_SIZE
      modifies repr
      ensures Valid() && contents == WithBank(old(contents), bank, image) && hookCalls == old(hookCalls)
    {
      assert Holds(0);
      rom.sideways, rom.loaded := rom.sideways[bank := image], rom.loaded[bank := true];
      contents := WithBank(contents, bank, image);
      assert forall key :: Holds(key);
    }

    method RestoreFrom(newRam: seq<byte>, bank: nat, crtc: CrtcState, files: seq<seq<byte>>)
      requires Valid() && |newRam| == RAM_SIZE && |crtc.regs| == CRTC_REGS
      requires |files| == STUBS && forall i :: 0 <= i < STUBS ==> |files[i]| == Size(i)
      modifies repr
      ensures Valid() && hookCalls == old(hookCalls)
      ensures contents == Refilled(old(contents), newRam, bank, crtc, files)
    {
      assert Holds(0);
      RefillRam(newRam);
      SelectBank(bank % BANKS);
      RestoreStubs(crtc, files);
      hide Holds;
      LockHolds();
    }

    /** `Holds` does not depend on its argument. */
    lemma LockHolds()
      requires Holds(0)
      ensures Valid()
    {
      assert forall key :: Holds(key);
    }

    method RefillRam(newRam: seq<byte>)
      requires Holds(0) && |newRam| == RAM_SIZE
      modifies this`contents, ram
      ensures Holds(0) && contents == old(contents).(ram := newRam)
    {
      FillRam(newRam);
      contents := contents.(ram := newRam);
    }

    method SelectBank(bank: nat)
      requires Holds(0) && bank < BANKS
      modifies this`contents, rom
      ensures Holds(0) && contents == old(contents).(bank := bank)
    {
      rom.bank := bank;
      contents := contents.(bank := bank);
    }

    method RestoreStubs(crtc: CrtcState, files: seq<seq<byte>>)
      requires Holds(0) && |crtc.regs| == CRTC_REGS
      requires |files| == STUBS && forall i :: 0 <= i < STUBS ==> |files[i]| == Size(i)
      modifies this`contents, periph.crtc, periph.crtc.regs, periph.files
      ensures Holds(0)
      ensures contents == old(contents).(crtc := CrtcState(crtc.selected % CRTC_REGS, crtc.regs), files := files)
    {
      periph.Restore(crtc, files);
      contents := contents.(crtc := CrtcState(crtc.selected % CRTC_REGS, crtc.regs), files := files);
    }

    /** Copies of what a snapshot captures. */
    method Capture()
      returns (r: seq<byte>, bank: nat, loaded: seq<bool>, crtc: CrtcState, files: seq<seq<byte>>, osLoaded: bool)
      requires Valid()
      ensures r == contents.ram && bank == contents.bank && loaded == contents.loaded && crtc == contents.crtc
      ensures files == contents.files && osLoaded == contents.osLoaded
    {
      assert Holds(0);
      r, bank, loaded, osLoaded := ram[..], rom.bank, rom.loaded, rom.osLoaded;
      crtc := CrtcState(periph.crtc.selected, periph.crtc.regs[..]);
      files := [];
      for k := 0 to STUBS
        invariant |files| == k && forall i :: 0 <= i < k ==> files[i] == periph.files[i].regs
      {
        files := files + [periph.files[k].regs];
      }
      assert files == periph.FileBytes();
    }
  }
}
