/** The algebra of the BBC memory map, and what no run can change in it. */
module BbcLaws {
  import opened Bits
  import opened Bus
  import opened BbcMemory
  import opened Interpreter
  import StackDiscipline
  import opened BusLog
  import opened Runs
  import Isa

  lemma {:induction false} IoIs(m: Bbc, a: word, w: bool, v: byte)
    ensures Peek(Io(), m, a) == Read(m, a) && Poke(Io(), m, a, v) == Write(m, a, v)
      && Seen(Io(), m, a, w, v) == Observe(m, a, w, v)
  {
  }

  /** Only the last of two writes to an address matters, on every device: so a dummy write is harmless everywhere. */
  lemma {:induction false} WriteAbsorbs(m: Bbc, a: word, v: byte, w: byte)
    ensures Write(Write(m, a, v), a, w) == Write(m, a, w)
  {
    var once, twice := Write(m, a, w), Write(Write(m, a, v), a, w);
    match CellOf(a)
    case Ram(i) => assert twice.ram == once.ram;
    case CrtcData => assert twice.crtc.regs == once.crtc.regs;
    case File(u, reg) =>
      var k := Slot(u);
      assert twice.files[k] == once.files[k];
      assert twice.files == once.files;
    case _ =>
  }

  /** A cell that gives back what is written to it. */
  predicate Readback(c: Cell) { c.Ram? || c.CrtcData? || (c.File? && Readable(Slot(c.stub))) }

  /** Exactly what a read sees after a write: the byte written, when both addresses name the same cell (mirrors
      included); another bank after a write to the latch; another CRTC register after a write to the index; and
      otherwise what it saw before. */
  lemma {:induction false} ReadAfterWrite(m: Bbc, a: word, v: byte, b: word)
    ensures Read(Write(m, a, v), b) ==
      if CellOf(a) == CellOf(b) && Readback(CellOf(a)) then v
      else if CellOf(a).RomSelect? && CellOf(b).Sideways? then
        (if m.loaded[v % BANKS] then m.side[v % BANKS][CellOf(b).offset] else OPEN_BUS)
      else if CellOf(a).CrtcIndex? && CellOf(b).CrtcData? then m.crtc.regs[v % 32 % CRTC_REGS]
      else Read(m, b)
  {
    if CellOf(a).File? && CellOf(b).File? {
      if CellOf(a).stub != CellOf(b).stub { SlotsDiffer(CellOf(a).stub, CellOf(b).stub); }
    }
  }

  lemma {:induction false} SlotsDiffer(u: Stub, w: Stub)
    requires u != w
    ensures Slot(u) != Slot(w)
  {
  }

  /** Which SHEILA addresses are mirrors of each other. */
  lemma {:induction false} Mirrors(low: byte, other: byte)
    requires SheilaCell(low).File? && SheilaCell(other).File?
    ensures SheilaCell(low) == SheilaCell(other) <==>
      (SheilaCell(low).stub == SheilaCell(other).stub
        && low % Size(Slot(SheilaCell(low).stub)) == other % Size(Slot(SheilaCell(low).stub)))
  {
  }

  lemma {:induction false} IoAbsorbs()
    ensures Absorbing(Io())
  {
    forall m: Bbc, a: word, v: byte, w: byte
      ensures Poke(Io(), Poke(Io(), m, a, v), a, w) == Poke(Io(), m, a, w)
    {
      WriteAbsorbs(m, a, v, w);
    }
  }

  /** The stack page is main RAM. */
  lemma {:induction false} IoStackIsRam()
    ensures StackDiscipline.StackIsRam(Io())
  {
    forall m: Bbc, a: word, v: byte, b: word | 0x100 <= b < 0x200
      ensures Peek(Io(), Poke(Io(), m, a, v), b) == if a == b then v else Peek(Io(), m, b)
    {
      ReadAfterWrite(m, a, v, b);
    }
  }

  /** What the host loaded: images and flags. */
  predicate SameRoms(m: Bbc, m': Bbc) {
    m'.os == m.os && m'.osLoaded == m.osLoaded && m'.side == m.side && m'.loaded == m.loaded
  }

  lemma {:induction false} ReplayKeepsRoms(m: Bbc, events: seq<BusEvent>)
    ensures SameRoms(m, Replayed(Io(), m, events))
    decreases |events|
  {
    if events != [] {
      var e := events[0];
      IoIs(m, e.addr, true, e.value);
      ReplayKeepsRoms(AfterEvent(Io(), m, e), events[1..]);
    }
  }

  /** No run of the processor, from any state, ever changes a ROM byte or a loaded flag. That every array index stays in
      range is part of the type of the memory: bank below 4 and CRTC index below 18, in every reachable state. */
  lemma {:induction false} RunKeepsRoms(env: Env, s: Isa.Core<Bbc>, moves: seq<Move>)
    ensures var m := After(Io(), env, s, moves).bus.mem;
            SameRoms(s.bus.mem, m) && m.bank < BANKS && m.crtc.selected < CRTC_REGS
  {
    hide After;
    var events := RunExplained(Io(), env, s, moves);
    ReplayKeepsRoms(s.bus.mem, events);
  }

  /** A write to ROM is dropped without a word: the hook is not told. */
  lemma {:induction false} RomWritesAreSilent(m: Bbc, a: word, v: byte)
    requires CellOf(a).Sideways? || CellOf(a).Os?
    ensures Write(m, a, v) == m && Observe(m, a, true, v) == []
  {
  }

  /** One hook call for each access of a log that is unmapped under the bank selected at that moment, in order. */
  function UnmappedCalls(m: Bbc, events: seq<BusEvent>): seq<HookCall>
    decreases |events|
  {
    if events == [] then []
    else
      var e := events[0];
      var write := e.kind.BusWrite?;
      (if Unmapped(m, e.addr, write) then [HookCall(e.addr, write, e.value)] else [])
      + UnmappedCalls(if write then Write(m, e.addr, e.value) else m, events[1..])
  }

  lemma {:induction false} CalledIsUnmapped(m: Bbc, events: seq<BusEvent>)
    ensures Called(Io(), m, events) == UnmappedCalls(m, events)
    decreases |events|
  {
    if events != [] {
      var e := events[0];
      IoIs(m, e.addr, e.kind.BusWrite?, e.value);
      CalledIsUnmapped(AfterEvent(Io(), m, e), events[1..]);
    }
  }

  /** Over every run, from any state: the hook calls it adds are the subsequence of the bus events it adds that are
      unmapped at their moment, with at most one call a cycle. */
  lemma {:induction false} HookLogIsFilteredBusLog(env: Env, s: Isa.Core<Bbc>, moves: seq<Move>)
    returns (events: seq<BusEvent>)
    ensures var b := After(Io(), env, s, moves).bus;
            && b.log == s.bus.log + events
            && b.hooks == s.bus.hooks + UnmappedCalls(s.bus.mem, events)
            && |UnmappedCalls(s.bus.mem, events)| <= |events|
  {
    hide After, Called, UnmappedCalls, Replayed, Truthful;
    events := RunExplained(Io(), env, s, moves);
    CalledIsUnmapped(s.bus.mem, events);
    forall m: Bbc, a: word, w: bool, v: byte ensures |Seen(Io(), m, a, w, v)| <= 1 { IoIs(m, a, w, v); }
    OneCallPerCycle(Io(), s.bus.mem, events);
  }

  /** From a fresh processor, the whole hook log is the filtered bus log. */
  lemma {:induction false} FreshHookLog(env: Env, m: Bbc, moves: seq<Move>)
    ensures var b := After(Io(), env, Fresh(m), moves).bus;
            b.hooks == UnmappedCalls(m, b.log)
  {
    hide After, UnmappedCalls;
    var events := HookLogIsFilteredBusLog(env, Fresh(m), moves);
    assert [] + events == events;
    assert [] + UnmappedCalls(m, events) == UnmappedCalls(m, events);
  }
}
