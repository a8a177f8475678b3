/** The BBC Model B memory map: what each address names, and what a read, a write and the unmapped-access hook do. */
module BbcMemory {
  import opened Bits
  import opened Bus

  const OPEN_BUS: byte := 0xFF
  const RAM_SIZE: nat := 0x8000
  const ROM_SIZE: nat := 0x4000
  const CRTC_REGS: nat := 18
  const BANKS: nat := 4

  /** The stubs that are plain register files. */
  datatype Stub = Acia | SerialUla | VideoUla | SystemVia | UserVia | Fdc | Econet | Adc | Tube

  const STUBS: nat := 9

  function Slot(u: Stub): (i: nat)
    ensures i < STUBS
  {
    match u
    case Acia => 0 case SerialUla => 1 case VideoUla => 2 case SystemVia => 3 case UserVia => 4
    case Fdc => 5 case Econet => 6 case Adc => 7 case Tube => 8
  }

  /** The number of registers of the stub in a slot. */
  function Size(slot: nat): nat
    requires slot < STUBS
  {
    if slot == 1 then 1 else if slot == 2 then 2 else if slot == 3 || slot == 4 then 16 else if slot == 8 then 8 else 4
  }

  /** FDC and Econet keep what is written and answer every read with open bus. */
  predicate Readable(slot: nat) { slot != Slot(Fdc) && slot != Slot(Econet) }

  datatype CrtcState = CrtcState(selected: nat, regs: seq<byte>)

  datatype BbcRaw = Bbc(
    ram: seq<byte>,
    os: seq<byte>, osLoaded: bool,
    side: seq<seq<byte>>, loaded: seq<bool>, bank: nat,
    crtc: CrtcState,
    files: seq<seq<byte>>)

  /** Every index the decoder makes is in range. */
  predicate InRange(m: BbcRaw) {
    && |m.ram| == RAM_SIZE
    && |m.os| == ROM_SIZE
    && |m.side| == BANKS && (forall i :: 0 <= i < BANKS ==> |m.side[i]| == ROM_SIZE)
    && |m.loaded| == BANKS && m.bank < BANKS
    && m.crtc.selected < CRTC_REGS && |m.crtc.regs| == CRTC_REGS
    && |m.files| == STUBS && (forall i :: 0 <= i < STUBS ==> |m.files[i]| == Size(i))
  }

  type Bbc = m: BbcRaw | InRange(m) witness PowerOn()

  function Zeros(n: nat): seq<byte> { seq(n, _ => 0) }

  function ZeroFiles(): seq<seq<byte>> { seq(STUBS, i requires 0 <= i < STUBS => Zeros(Size(i))) }

  /** A machine with no ROM loaded. */
  function PowerOn(): BbcRaw {
    Bbc(Zeros(RAM_SIZE), Zeros(ROM_SIZE), false, seq(BANKS, _ => Zeros(ROM_SIZE)), seq(BANKS, _ => false), 0,
        CrtcState(0, Zeros(CRTC_REGS)), ZeroFiles())
  }

  function Blank(): Bbc { PowerOn() }

  /** What an address names. */
  datatype Cell =
    | Ram(index: nat) | Sideways(offset: nat) | Os(offset: nat)
    | CrtcIndex | CrtcData | File(stub: Stub, reg: nat)
    | RomSelect | AccCon | Nothing

  function SheilaCell(low: byte): Cell {
    if low < 0x08 then (if low % 2 == 0 then CrtcIndex else CrtcData)
    else if low < 0x10 then File(Acia, low % 4)
    else if low < 0x20 then File(SerialUla, 0)
    else if low < 0x30 then File(VideoUla, low % 2)
    else if low < 0x34 then RomSelect
    else if low < 0x38 then AccCon
    else if low < 0x40 then Nothing
    else if low < 0x60 then File(SystemVia, low % 16)
    else if low < 0x80 then File(UserVia, low % 16)
    else if low < 0xA0 then File(Fdc, low % 4)
    else if low < 0xC0 then File(Econet, low % 4)
    else if low < 0xE0 then File(Adc, low % 4)
    else File(Tube, low % 8)
  }

  /** The layout of the 64 KB address space. */
  function CellOf(a: word): (c: Cell)
    ensures c.Ram? ==> c.index < RAM_SIZE
    ensures c.Sideways? || c.Os? ==> c.offset < ROM_SIZE
    ensures c.File? ==> c.reg < Size(Slot(c.stub))
  {
    if a < 0x8000 then Ram(a)
    else if a < 0xC000 then Sideways(a - 0x8000)
    else if 0xFC00 <= a < 0xFE00 then Nothing
    else if 0xFE00 <= a < 0xFF00 then SheilaCell(Lo(a))
    else Os(a - 0xC000)
  }

  function Read(m: Bbc, a: word): byte {
    match CellOf(a)
    case Ram(i) => m.ram[i]
    case Sideways(i) => if m.loaded[m.bank] then m.side[m.bank][i] else OPEN_BUS
    case Os(i) => m.os[i]
    case CrtcData => m.crtc.regs[m.crtc.selected]
    case File(u, reg) => if Readable(Slot(u)) then m.files[Slot(u)][reg] else OPEN_BUS
    case CrtcIndex | RomSelect | AccCon | Nothing => OPEN_BUS
  }

  function Put(files: seq<seq<byte>>, slot: nat, reg: nat, v: byte): seq<seq<byte>>
    requires slot < |files| && reg < |files[slot]|
  {
    var regs: seq<byte> := files[slot];
    files[slot := regs[reg := v]]
  }

  function Write(m: Bbc, a: word, v: byte): Bbc {
    match CellOf(a)
    case Ram(i) => m.(ram := m.ram[i := v])
    case CrtcIndex => m.(crtc := m.crtc.(selected := v % 32 % CRTC_REGS))
    case CrtcData => m.(crtc := m.crtc.(regs := m.crtc.regs[m.crtc.selected := v]))
    case File(u, reg) =>
      m.(files := Put(m.files, Slot(u), reg, v))
    case RomSelect => m.(bank := v % BANKS)
    case Sideways(_) | Os(_) | AccCon | Nothing => m
  }

  /** The accesses nobody answers, under the bank selected at the time. */
  predicate Unmapped(m: Bbc, a: word, write: bool) {
    match CellOf(a)
    case Nothing => true
    case RomSelect => !write
    case Sideways(_) => !write && !m.loaded[m.bank]
    case _ => false
  }

  function Observe(m: Bbc, a: word, write: bool, v: byte): seq<HookCall> {
    if Unmapped(m, a, write) then [HookCall(a, write, v)] else []
  }

  function Io(): Memory<Bbc> {
    Memory((m: Bbc, a: word) => Read(m, a),
           (m: Bbc, a: word, v: byte) => Write(m, a, v),
           (m: Bbc, a: word, w: bool, v: byte) => Observe(m, a, w, v))
  }

  // What the machine does to the memory beside the bus.

  /** Power-on RAM, stubs and bank under the ROMs that are loaded. */
  function Cleared(m: Bbc): Bbc {
    m.(ram := Zeros(RAM_SIZE), bank := 0, crtc := CrtcState(0, Zeros(CRTC_REGS)), files := ZeroFiles())
  }

  function WithBank(m: Bbc, bank: nat, image: seq<byte>): Bbc
    requires bank < BANKS && |image| == ROM_SIZE
  {
    m.(side := m.side[bank := image], loaded := m.loaded[bank := true])
  }

  function Refilled(m: Bbc, ram: seq<byte>, bank: nat, crtc: CrtcState, files: seq<seq<byte>>): Bbc
    requires |ram| == RAM_SIZE && |crtc.regs| == CRTC_REGS
    requires |files| == STUBS && forall i :: 0 <= i < STUBS ==> |files[i]| == Size(i)
  {
    m.(ram := ram, bank := bank % BANKS, crtc := CrtcState(crtc.selected % CRTC_REGS, crtc.regs), files := files)
  }
}
