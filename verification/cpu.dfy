/** The NMOS 6502: registers, signal lines and a cycle counter, driven one bus cycle at a time. */
module Processor {
  import opened Bits
  import opened Status
  import opened Bus
  import opened Alu
  import opened Isa
  import opened Runs
  import BbcMemory
  import opened MappedMemory
  import opened Tracing
  import opened Masks

  class CPU {
    var a: byte
    var x: byte
    var y: byte
    var sp: byte
    var pc: word
    var p: Flags

    const mem: MemoryMap
    /** The host's calls from inside bus cycles. */
    const env: Env

    var irqLine: bool
    var nmiPending: bool
    var nmiPrev: bool
    var resetPending: bool
    var rdy: bool

    var cycles: u64
    var trace: Trace?
    var fetched: byte

    ghost var edges: nat
    ghost var coalesced: nat
    ghost var taken: nat
    /** Every bus access so far, and every call to the illegal-opcode hook. */
    ghost var log: seq<BusEvent>
    ghost var traps: seq<(word, byte)>
    /** The length of `log` when the trace was attached or last reset, and what the recorder held just then. */
    ghost var attachedAt: nat
    ghost var prior: seq<BusEvent>

    ghost function Tracer(): set<object>
      reads this`trace
    {
      if trace == null then {} else {trace, trace.events}
    }

    /** The memory and the recorder are apart from the processor, and the recorder has seen every event since it was
        attached, and nothing else since.
        Registers and lines take no part. The unused argument serves as in `MemoryMap.Holds`. */
    ghost predicate Sound(key: int)
      reads this`log, this`trace, this`attachedAt, this`prior, mem, mem.repr, Tracer()
    {
      && mem.Valid() && this !in mem.repr && mem.repr !! Tracer() && this !in Tracer()
      && attachedAt <= |log|
      && (trace != null ==> trace.Valid() && trace.recorded == prior + log[attachedAt..])
    }

    ghost predicate Valid()
      reads this`log, this`trace, this`attachedAt, this`prior, mem, mem.repr, Tracer()
      ensures Valid() ==> this !in mem.repr && this !in Tracer() && mem in mem.repr && mem !in Tracer()
    {
      assert Sound(0) ==> this !in mem.repr && this !in Tracer() && mem in mem.repr && mem !in Tracer();
      forall key :: Sound(key)
    }

    /** What an attached recorder has been given. */
    ghost function Recorded(): seq<BusEvent>
      reads this`trace, Tracer()
    {
      if trace == null then [] else trace.recorded
    }

    ghost function LineState(): Lines
      reads this`irqLine, this`nmiPending, this`nmiPrev, this`resetPending, this`rdy, this`edges, this`coalesced,
        this`taken
    {
      Lines(irqLine, nmiPending, nmiPrev, resetPending, rdy, edges, coalesced, taken)
    }

    ghost function BusState(): Bus<BbcMemory.Bbc>
      reads this`irqLine, this`nmiPending, this`nmiPrev, this`resetPending, this`rdy, this`edges, this`coalesced,
        this`taken
      reads this`cycles, this`log, this`traps, mem`contents, mem`hookCalls
    {
      Bus(mem.contents, LineState(), cycles, log, mem.hookCalls, traps)
    }

    ghost function RegState(): Regs
      reads this`a, this`x, this`y, this`sp, this`pc, this`p
    {
      Regs(a, x, y, sp, pc, p)
    }

    ghost function State(): Core<BbcMemory.Bbc>
      reads this`a, this`x, this`y, this`sp, this`pc, this`p
      reads this`irqLine, this`nmiPending, this`nmiPrev, this`resetPending, this`rdy, this`edges, this`coalesced,
        this`taken
      reads this`cycles, this`log, this`traps, mem`contents, mem`hookCalls
    {
      Core(RegState(), BusState())
    }

    /** A processor fresh from reset: everything zero, and a RESET pending. The memory is not touched. */
    constructor (mem: MemoryMap, env: Env)
      requires mem.Valid()
      ensures Valid() && this.mem == mem && this.env == env && trace == null
      ensures State() == Core(Regs(0, 0, 0, 0, 0, NO_FLAGS), Bus(mem.contents, POWER_ON, 0, [], mem.hookCalls, []))
    {
      this.mem, this.env := mem, env;
      a, x, y, sp, pc, p := 0, 0, 0, 0, 0, NO_FLAGS;
      irqLine, nmiPending, nmiPrev, resetPending, rdy := false, false, false, true, true;
      cycles, trace, fetched := 0, null, 0;
      edges, coalesced, taken, log, traps := 0, 0, 0, [], [];
      attachedAt, prior := 0, [];
      new;
      assert forall key :: Sound(key);
    }

    /** Attaching a recorder, or detaching with null, is seen by nothing else. */
    method SetTrace(t: Trace?)
      requires Valid()
      requires t != null ==> t.Valid() && t as object != this && t.events as object != this && {t, t.events} !! mem.repr
      modifies this`trace, this`attachedAt, this`prior
      ensures Valid() && trace == t && attachedAt == |log|
      ensures prior == if t == null then [] else t.recorded
    {
      assert Sound(0);
      trace := t;
      attachedAt := |log|;
      prior := if t == null then [] else t.recorded;
      assert t != null ==> t.recorded == prior + log[attachedAt..];
      assert forall key :: Sound(key);
    }

    // Signal lines.

    method AssertReset()
      modifies this`resetPending
      ensures LineState() == Signalled(old(LineState()), RaiseReset)
    {
      resetPending := true;
    }

    method AssertIRQ(level: bool)
      modifies this`irqLine
      ensures LineState() == Signalled(old(LineState()), SetIrq(level))
    {
      irqLine := level;
    }

    method AssertNMI()
      modifies this`nmiPending, this`nmiPrev, this`edges, this`coalesced
      ensures LineState() == Signalled(old(LineState()), RaiseNmi)
    {
      if !nmiPrev {
        edges := edges + 1;
        coalesced := coalesced + if nmiPending then 1 else 0;
        nmiPending := true;
      }
      nmiPrev := true;
    }

    method DeassertNMI()
      modifies this`nmiPrev
      ensures LineState() == Signalled(old(LineState()), DropNmi)
    {
      nmiPrev := false;
    }

    method SetRDY(ready: bool)
      modifies this`rdy
      ensures LineState() == Signalled(old(LineState()), SetReady(ready))
    {
      rdy := ready;
    }

    /** The host's calls during one bus cycle. */
    method Deliver(sigs: seq<Signal>)
      modifies this`irqLine, this`nmiPending, this`nmiPrev, this`resetPending, this`rdy, this`edges, this`coalesced
      ensures LineState() == Delivered(old(LineState()), sigs)
    {
      for k := 0 to |sigs|
        invariant LineState() == Delivered(old(LineState()), sigs[..k])
      {
        match sigs[k] {
          case RaiseNmi => AssertNMI();
          case DropNmi => DeassertNMI();
          case SetIrq(level) => AssertIRQ(level);
          case RaiseReset => AssertReset();
          case SetReady(level) => SetRDY(level);
        }
        assert sigs[..k + 1][..k] == sigs[..k];
      }
      assert sigs[..|sigs|] == sigs;
    }

    // Bus cycles.

    method Read(addr: word) returns (v: byte)
      requires Valid()
      modifies this, mem.repr, Tracer()
      ensures Valid() && trace == old(trace) && attachedAt == old(attachedAt) && prior == old(prior)
      ensures v == Peek(mem.io, old(mem.contents), addr) && fetched == v
      ensures mem.contents == old(mem.contents)
      ensures BusState() == Do(mem.io, env, old(BusState()), R(addr))
      ensures RegState() == old(RegState())
      ensures trace != null ==> Recorded() == old(Recorded()) + [BusEvent(cycles, addr, v, BusRead)]
    {
      v := ReadCycle(addr);
    }

    method Write(addr: word, value: byte)
      requires Valid()
      modifies this, mem.repr, Tracer()
      ensures Valid() && trace == old(trace) && attachedAt == old(attachedAt) && prior == old(prior)
      ensures BusState() == Do(mem.io, env, old(BusState()), W(addr, value))
      ensures RegState() == old(RegState())
      ensures trace != null ==> Recorded() == old(Recorded()) + [BusEvent(cycles, addr, value, BusWrite)]
    {
      WriteCycle(addr, value);
    }

    // The same two cycles, naming the fields they leave alone.

    method ReadCycle(addr: word) returns (v: byte)
      requires Valid()
      modifies this`irqLine, this`nmiPending, this`nmiPrev, this`resetPending, this`rdy, this`edges, this`coalesced
      modifies this`cycles, this`log, this`fetched, mem.repr, Tracer()
      ensures Valid()
      ensures v == Peek(mem.io, old(mem.contents), addr) && fetched == v
      ensures mem.contents == old(mem.contents)
      ensures BusState() == Do(mem.io, env, old(BusState()), R(addr))
      ensures trace != null ==> Recorded() == old(Recorded()) + [BusEvent(cycles, addr, v, BusRead)]
    {
      v := Load(addr);
      Clock(addr, v, BusRead);
    }

    method WriteCycle(addr: word, value: byte)
      requires Valid()
      modifies this`irqLine, this`nmiPending, this`nmiPrev, this`resetPending, this`rdy, this`edges, this`coalesced
      modifies this`cycles, this`log, mem.repr, Tracer()
      ensures Valid()
      ensures BusState() == Do(mem.io, env, old(BusState()), W(addr, value))
      ensures trace != null ==> Recorded() == old(Recorded()) + [BusEvent(cycles, addr, value, BusWrite)]
    {
      Save(addr, value);
      Clock(addr, value, BusWrite);
    }

    // The memory's part of a bus cycle.

    method Load(addr: word) returns (v: byte)
      requires Valid()
      modifies mem`hookCalls, this`fetched
      ensures Valid() && fetched == v
      ensures Recorded() == old(Recorded())
      ensures v == Peek(mem.io, mem.contents, addr)
      ensures mem.hookCalls == old(mem.hookCalls) + Seen(mem.io, mem.contents, addr, false, v)
    {
      assert Sound(0);
      v := mem.Read(addr);
      fetched := v;
      assert forall key :: Sound(key);
    }

    method Save(addr: word, value: byte)
      requires Valid()
      modifies mem.repr
      ensures Valid()
      ensures Recorded() == old(Recorded())
      ensures mem.contents == Poke(mem.io, old(mem.contents), addr, value)
      ensures mem.hookCalls == old(mem.hookCalls) + Seen(mem.io, old(mem.contents), addr, true, value)
    {
      assert Sound(0);
      mem.Write(addr, value);
      assert forall key :: Sound(key);
    }

    /** The rest of a bus cycle: the host's signals, the counter and the recorder. */
    method Clock(addr: word, value: byte, kind: Kind)
      requires Valid()
      modifies this`irqLine, this`nmiPending, this`nmiPrev, this`resetPending, this`rdy, this`edges, this`coalesced
      modifies this`cycles, this`log, Tracer()
      ensures Valid()
      ensures LineState() == Delivered(old(LineState()), env(old(cycles)))
      ensures cycles == Tick(old(cycles))
      ensures log == old(log) + [BusEvent(cycles, addr, value, kind)]
      ensures trace != null ==> Recorded() == old(Recorded()) + [BusEvent(cycles, addr, value, kind)]
    {
      assert Sound(0);
      Deliver(env(cycles));
      cycles := Tick(cycles);
      assert forall key :: Sound(key);
      Record(BusEvent(cycles, addr, value, kind));
    }

    method Record(e: BusEvent)
      requires Valid()
      modifies this`log, Tracer()
      ensures Valid() && log == old(log) + [e]
      ensures trace != null ==> Recorded() == old(Recorded()) + [e]
    {
      hide Last, Trace.Retained;
      assert Sound(0);
      log := log + [e];
      if trace != null {
        trace.Append(e);
        assert log[attachedAt..] == old(log)[attachedAt..] + [e];
        assert trace.recorded == prior + log[attachedAt..];
      }
      assert forall key :: Sound(key);
    }

    method Fetch() returns (v: byte)
      requires Valid()
      modifies this, mem.repr, Tracer()
      ensures Valid() && trace == old(trace) && attachedAt == old(attachedAt) && prior == old(prior)
      ensures v == Peek(mem.io, old(mem.contents), old(pc)) && fetched == v
      ensures mem.contents == old(mem.contents)
      ensures BusState() == Do(mem.io, env, old(BusState()), R(old(pc)))
      ensures RegState() == Fetched(old(RegState()))
    {
      hide Sound, Do, Peek;
      v := Read(pc);
      pc := Next(pc);
    }

    method Push(value: byte)
      requires Valid()
      modifies this, mem.repr, Tracer()
      ensures Valid() && trace == old(trace) && attachedAt == old(attachedAt) && prior == old(prior)
      ensures BusState() == Do(mem.io, env, old(BusState()), W(Stack(old(sp)), value))
      ensures RegState() == old(RegState()).(sp := Dec8(old(sp)))
    {
      hide Sound, Do;
      Write(0x0100 + sp, value);
      sp := Dec8(sp);
    }

    method Pull() returns (v: byte)
      requires Valid()
      modifies this, mem.repr, Tracer()
      ensures Valid() && trace == old(trace) && attachedAt == old(attachedAt) && prior == old(prior)
      ensures v == Peek(mem.io, old(mem.contents), Stack(Inc8(old(sp))))
      ensures BusState() == Do(mem.io, env, old(BusState()), R(Stack(Inc8(old(sp)))))
      ensures RegState() == old(RegState()).(sp := Inc8(old(sp)))
    {
      hide Sound, Do;
      sp := Inc8(sp);
      v := Read(0x0100 + sp);
    }

    // Effective addresses.

    method EffZeroPage() returns (addr: word)
      requires Valid()
      modifies this, mem.repr, Tracer()
      ensures Valid() && trace == old(trace) && attachedAt == old(attachedAt) && prior == old(prior)
      ensures addr == Ea(mem.io, old(mem.contents), old(RegState()), ZeroPage)
      ensures BusState()
        == Drive(mem.io, env, old(BusState()), EaActs(mem.io, old(mem.contents), old(RegState()), ZeroPage, false))
      ensures RegState() == PastOperand(old(RegState()), ZeroPage)
    {
      hide Sound, Do, Drive, Peek;
      addr := Fetch();
      Drive1(mem.io, env, old(BusState()), R(old(pc)));
    }

    method EffZeroPageX() returns (addr: word)
      requires Valid()
      modifies this, mem.repr, Tracer()
      ensures Valid() && trace == old(trace) && attachedAt == old(attachedAt) && prior == old(prior)
      ensures addr == Ea(mem.io, old(mem.contents), old(RegState()), ZeroPageX)
      ensures BusState()
        == Drive(mem.io, env, old(BusState()), EaActs(mem.io, old(mem.contents), old(RegState()), ZeroPageX, false))
      ensures RegState() == PastOperand(old(RegState()), ZeroPageX)
    {
      hide Sound, Do, Drive, Peek;
      var base := Fetch();
      var _ := Read(base);
      addr := Add8(base, x);
      Drive2(mem.io, env, old(BusState()), R(old(pc)), R(base));
    }

    method EffZeroPageY() returns (addr: word)
      requires Valid()
      modifies this, mem.repr, Tracer()
      ensures Valid() && trace == old(trace) && attachedAt == old(attachedAt) && prior == old(prior)
      ensures addr == Ea(mem.io, old(mem.contents), old(RegState()), ZeroPageY)
      ensures BusState()
        == Drive(mem.io, env, old(BusState()), EaActs(mem.io, old(mem.contents), old(RegState()), ZeroPageY, false))
      ensures RegState() == PastOperand(old(RegState()), ZeroPageY)
    {
      hide Sound, Do, Drive, Peek;
      var base := Fetch();
      var _ := Read(base);
      addr := Add8(base, y);
      Drive2(mem.io, env, old(BusState()), R(old(pc)), R(base));
    }

    method EffAbsolute() returns (addr: word)
      requires Valid()
      modifies this, mem.repr, Tracer()
      ensures Valid() && trace == old(trace) && attachedAt == old(attachedAt) && prior == old(prior)
      ensures addr == Ea(mem.io, old(mem.contents), old(RegState()), Absolute)
      ensures BusState()
        == Drive(mem.io, env, old(BusState()), EaActs(mem.io, old(mem.contents), old(RegState()), Absolute, false))
      ensures RegState() == PastOperand(old(RegState()), Absolute)
    {
      hide Sound, Do, Drive, Peek;
      var lo := Fetch();
      var hi := Fetch();
      addr := Word(lo, hi);
      Drive2(mem.io, env, old(BusState()), R(old(pc)), R(Next(old(pc))));
    }

    method EffAbsoluteX(alwaysPenalty: bool) returns (addr: word)
      requires Valid()
      modifies this, mem.repr, Tracer()
      ensures Valid() && trace == old(trace) && attachedAt == old(attachedAt) && prior == old(prior)
      ensures addr == Ea(mem.io, old(mem.contents), old(RegState()), AbsoluteX)
      ensures BusState()
        == Drive(mem.io, env, old(BusState()),
          EaActs(mem.io, old(mem.contents), old(RegState()), AbsoluteX, alwaysPenalty))
      ensures RegState() == PastOperand(old(RegState()), AbsoluteX)
    {
      hide Sound, Do, Drive, Peek;
      var lo := Fetch();
      var hi := Fetch();
      var base := Word(lo, hi);
      addr := Add16(base, x);
      Drive2(mem.io, env, old(BusState()), R(old(pc)), R(Next(old(pc))));
      FixUpRead(base, addr, alwaysPenalty);
      DriveAppend(mem.io, env, old(BusState()), [R(old(pc)), R(Next(old(pc)))], FixUp(base, addr, alwaysPenalty));
    }

    method EffAbsoluteY(alwaysPenalty: bool) returns (addr: word)
      requires Valid()
      modifies this, mem.repr, Tracer()
      ensures Valid() && trace == old(trace) && attachedAt == old(attachedAt) && prior == old(prior)
      ensures addr == Ea(mem.io, old(mem.contents), old(RegState()), AbsoluteY)
      ensures BusState()
        == Drive(mem.io, env, old(BusState()),
          EaActs(mem.io, old(mem.contents), old(RegState()), AbsoluteY, alwaysPenalty))
      ensures RegState() == PastOperand(old(RegState()), AbsoluteY)
    {
      hide Sound, Do, Drive, Peek;
      var lo := Fetch();
      var hi := Fetch();
      var base := Word(lo, hi);
      addr := Add16(base, y);
      Drive2(mem.io, env, old(BusState()), R(old(pc)), R(Next(old(pc))));
      FixUpRead(base, addr, alwaysPenalty);
      DriveAppend(mem.io, env, old(BusState()), [R(old(pc)), R(Next(old(pc)))], FixUp(base, addr, alwaysPenalty));
    }

    /** The dummy read at the address whose high byte is not yet fixed up. */
    method FixUpRead(base: word, addr: word, alwaysPenalty: bool)
      requires Valid()
      modifies this, mem.repr, Tracer()
      ensures Valid() && trace == old(trace) && attachedAt == old(attachedAt) && prior == old(prior)
      ensures BusState() == Drive(mem.io, env, old(BusState()), FixUp(base, addr, alwaysPenalty))
      ensures RegState() == old(RegState())
    {
      hide Sound, Do, Peek;
      if alwaysPenalty || Hi(base) != Hi(addr) {
        var _ := Read(Word(Lo(addr), Hi(base)));
        Drive1(mem.io, env, old(BusState()), R(Word(Lo(addr), Hi(base))));
      }
    }

    /** JMP's pointer read, which never carries into the pointer's high byte. */
    method EffIndirect() returns (addr: word)
      requires Valid()
      modifies this, mem.repr, Tracer()
      ensures Valid() && trace == old(trace) && attachedAt == old(attachedAt) && prior == old(prior)
      ensures var at := Word16(mem.io, old(mem.contents), old(pc), Next(old(pc)));
              && addr == Word16(mem.io, old(mem.contents), at, JumpPointer(at))
              && BusState()
                == Drive(mem.io, env, old(BusState()), [R(old(pc)), R(Next(old(pc))), R(at), R(JumpPointer(at))])
      ensures RegState() == PastOperand(old(RegState()), Indirect)
    {
      hide Sound, Do, Drive, Peek;
      var ptrLo := Fetch();
      var ptrHi := Fetch();
      var ptr := Word(ptrLo, ptrHi);
      var lo := Read(ptr);
      var hi := Read(Word(Inc8(Lo(ptr)), Hi(ptr)));
      addr := Word(lo, hi);
      Drive4(mem.io, env, old(BusState()), R(old(pc)), R(Next(old(pc))), R(ptr), R(JumpPointer(ptr)));
    }

    method EffIndexedIndirect() returns (addr: word)
      requires Valid()
      modifies this, mem.repr, Tracer()
      ensures Valid() && trace == old(trace) && attachedAt == old(attachedAt) && prior == old(prior)
      ensures addr == Ea(mem.io, old(mem.contents), old(RegState()), IndexedIndirect)
      ensures BusState()
        == Drive(mem.io, env, old(BusState()),
          EaActs(mem.io, old(mem.contents), old(RegState()), IndexedIndirect, false))
      ensures RegState() == PastOperand(old(RegState()), IndexedIndirect)
    {
      hide Sound, Do, Drive, Peek;
      var base := Fetch();
      var _ := Read(base);
      var ptr := Add8(base, x);
      var lo := Read(ptr);
      var hi := Read(Inc8(ptr));
      addr := Word(lo, hi);
      Drive4(mem.io, env, old(BusState()), R(old(pc)), R(base), R(ptr), R(Inc8(ptr)));
    }

    method EffIndirectIndexed(alwaysPenalty: bool) returns (addr: word)
      requires Valid()
      modifies this, mem.repr, Tracer()
      ensures Valid() && trace == old(trace) && attachedAt == old(attachedAt) && prior == old(prior)
      ensures addr == Ea(mem.io, old(mem.contents), old(RegState()), IndirectIndexed)
      ensures BusState()
        == Drive(mem.io, env, old(BusState()),
          EaActs(mem.io, old(mem.contents), old(RegState()), IndirectIndexed, alwaysPenalty))
      ensures RegState() == PastOperand(old(RegState()), IndirectIndexed)
    {
      hide Sound, Do, Drive, Peek;
      var ptr := Fetch();
      var lo := Read(ptr);
      var hi := Read(Inc8(ptr));
      var base := Word(lo, hi);
      addr := Add16(base, y);
      Drive3(mem.io, env, old(BusState()), R(old(pc)), R(ptr), R(Inc8(ptr)));
      FixUpRead(base, addr, alwaysPenalty);
      DriveAppend(mem.io, env, old(BusState()), [R(old(pc)), R(ptr), R(Inc8(ptr))], FixUp(base, addr, alwaysPenalty));
    }

    // Flags and arithmetic. These change A and P and touch no bus.

    method UpdateNZ(v: byte)
      modifies this`p
      ensures p == SetNZ(old(p), v)
    {
      p := p.(z := v == 0);
      var top := TopBitSet(v);
      p := p.(n := top);
    }

    method OpAdc(m: byte)
      modifies this`a, this`p
      ensures RegState() == Adc(old(RegState()), m)
    {
      hide AdcDecimal, SignedOverflow;
      if p.d {
        AdcBcd(m);
        return;
      }
      var cin := if p.c then 1 else 0;
      var sum := a + m + cin;
      var result: byte := sum % 0x100;
      p := p.(c := sum > 0xFF);
      var v := OverflowBit(a, m, result);
      p := p.(v := v);
      SumOverflow(a, m, cin);
      a := result;
      UpdateNZ(a);
    }

    method OpSbc(m: byte)
      modifies this`a, this`p
      ensures RegState() == Sbc(old(RegState()), m)
    {
      hide SbcDecimal, SignedOverflow;
      if p.d {
        SbcBcd(m);
        return;
      }
      var cin := if p.c then 1 else 0;
      var m2: byte := 0xFF - m;
      var sum := a + m2 + cin;
      var result: byte := sum % 0x100;
      p := p.(c := sum > 0xFF);
      var v := OverflowBit(a, m2, result);
      p := p.(v := v);
      SumOverflow(a, m2, cin);
      Complement(a, m, cin);
      a := result;
      UpdateNZ(a);
    }

    method AdcBcd(m: byte)
      requires p.d
      modifies this`a, this`p
      ensures RegState() == AdcDecimal(old(RegState()), m)
    {
      hide DigitSum;
      var cin := if p.c then 1 else 0;
      p := p.(z := (a + m + cin) % 0x100 == 0);
      var aInt, ah := AddNibbles(a, m, cin);
      var top := TopBitSet(aInt);
      var v := OverflowBit(a, m, aInt);
      p := p.(n := top, v := v, c := ah >= 0x100);
      a := ah % 0x100;
    }

    method SbcBcd(m: byte)
      requires p.d
      modifies this`a, this`p
      ensures RegState() == SbcDecimal(old(RegState()), m)
    {
      hide DigitDifference, SignedOverflow;
      var cin := if p.c then 1 else 0;
      var m2: byte := 0xFF - m;
      var binSum := a + m2 + cin;
      var binResult: byte := binSum % 0x100;
      var top := TopBitSet(binResult);
      var v := OverflowBit(a, m2, binResult);
      p := p.(z := binResult == 0, n := top, v := v, c := binSum > 0xFF);
      SumOverflow(a, m2, cin);
      Complement(a, m, cin);
      a := SubtractNibbles(a, m, 1 - cin);
    }

    // Loads, logic and compares.

    method Compare(reg: byte, m: byte)
      modifies this`p
      ensures p == Compared(old(p), reg, m)
    {
      p := p.(c := reg >= m);
      UpdateNZ((reg - m) % 0x100);
    }

    method OpBit(m: byte)
      modifies this`p
      ensures p == old(p).(z := And(a, m) == 0, v := m / 0x40 % 2 == 1, n := Negative(m))
    {
      p := p.(z := And(a, m) == 0);
      var six := SixthBitSet(m);
      var top := TopBitSet(m);
      p := p.(v := six);
      p := p.(n := top);
    }

    method LoadA(m: byte)
      modifies this`a, this`p
      ensures a == m && p == SetNZ(old(p), m)
    {
      a := m;
      UpdateNZ(a);
    }

    /** What a read instruction does with its operand. */
    method UseOperand(op: ReadOp, m: byte)
      modifies this`a, this`x, this`y, this`p
      ensures RegState() == Loaded(op, old(RegState()), m)
    {
      match op {
        case LDA => LoadA(m);
        case LDX => x := m; UpdateNZ(x);
        case LDY => y := m; UpdateNZ(y);
        case AND => a := And(a, m); UpdateNZ(a);
        case ORA => a := Or(a, m); UpdateNZ(a);
        case EOR => a := Xor(a, m); UpdateNZ(a);
        case BIT => OpBit(m);
        case CMP => Compare(a, m);
        case CPX => Compare(x, m);
        case CPY => Compare(y, m);
        case ADC => OpAdc(m);
        case SBC => OpSbc(m);
      }
    }

    /** The same, with what it leaves alone. */
    method ApplyOperand(op: ReadOp, m: byte)
      requires Valid()
      modifies this`a, this`x, this`y, this`p
      ensures Valid() && RegState() == Loaded(op, old(RegState()), m)
    {
      label mid:
      UseOperand(op, m);
      assert unchanged@mid(this`log, this`trace, this`attachedAt, this`prior, mem, mem.repr, Tracer());
    }

    /** The address helper of a mode. */
    method EffectiveAddress(mode: Operand, alwaysPenalty: bool) returns (addr: word)
      requires !mode.Immediate?
      requires Valid()
      modifies this, mem.repr, Tracer()
      ensures Valid() && trace == old(trace) && attachedAt == old(attachedAt) && prior == old(prior)
      ensures addr == Ea(mem.io, old(mem.contents), old(RegState()), mode)
      ensures BusState()
        == Drive(mem.io, env, old(BusState()), EaActs(mem.io, old(mem.contents), old(RegState()), mode, alwaysPenalty))
      ensures RegState() == PastOperand(old(RegState()), mode)
      ensures mem.contents == old(mem.contents)
    {
      hide Sound, Do, Drive, Peek;
      match mode {
        case ZeroPage => addr := EffZeroPage();
        case ZeroPageX => addr := EffZeroPageX();
        case ZeroPageY => addr := EffZeroPageY();
        case Absolute => addr := EffAbsolute();
        case AbsoluteX => addr := EffAbsoluteX(alwaysPenalty);
        case AbsoluteY => addr := EffAbsoluteY(alwaysPenalty);
        case IndexedIndirect => addr := EffIndexedIndirect();
        case IndirectIndexed => addr := EffIndirectIndexed(alwaysPenalty);
      }
      ReadsOnly(mem.io, env, old(BusState()), EaActs(mem.io, old(mem.contents), old(RegState()), mode, alwaysPenalty));
    }

    /** The operand byte of a read instruction, fetched or read at the effective address. */
    method OperandByte(mode: Operand) returns (m: byte)
      requires Valid()
      modifies this, mem.repr, Tracer()
      ensures Valid() && trace == old(trace) && attachedAt == old(attachedAt) && prior == old(prior)
      ensures m == Peek(mem.io, old(mem.contents), Ea(mem.io, old(mem.contents), old(RegState()), mode))
      ensures RegState() == PastOperand(old(RegState()), mode)
      ensures BusState() == Drive(mem.io, env, old(BusState()),
        EaActs(mem.io, old(mem.contents), old(RegState()), mode, false)
          + [R(Ea(mem.io, old(mem.contents), old(RegState()), mode))])
    {
      hide Sound, Do, Drive, Peek;
      ghost var acts := EaActs(mem.io, mem.contents, RegState(), mode, false);
      if mode.Immediate? {
        m := Fetch();
        assert [] + [R(old(pc))] == [R(old(pc))];
        Drive1(mem.io, env, old(BusState()), R(old(pc)));
      } else {
        var addr := EffectiveAddress(mode, false);
        m := Read(addr);
        DriveSnoc(mem.io, env, old(BusState()), acts, R(addr));
      }
    }

    method ReadInst(op: ReadOp, mode: Operand)
      requires Valid()
      modifies this, mem.repr, Tracer()
      ensures Valid() && trace == old(trace) && attachedAt == old(attachedAt) && prior == old(prior)
      ensures RegState()
        == Loaded(op, PastOperand(old(RegState()), mode),
          Peek(mem.io, old(mem.contents), Ea(mem.io, old(mem.contents), old(RegState()), mode)))
      ensures BusState()
        == Drive(mem.io, env, old(BusState()), EaActs(mem.io, old(mem.contents), old(RegState()), mode, false)
          + [R(Ea(mem.io, old(mem.contents), old(RegState()), mode))])
    {
      hide Sound, Loaded, Ea, Base, EaActs, Do, Drive, Peek;
      var m := OperandByte(mode);
      ApplyOperand(op, m);
    }

    // Stores. The source has none that addresses its operand bytes directly.

    method StoreInst(op: StoreOp, mode: Operand)
      requires !mode.Immediate?
      requires Valid()
      modifies this, mem.repr, Tracer()
      ensures Valid() && trace == old(trace) && attachedAt == old(attachedAt) && prior == old(prior)
      ensures RegState() == PastOperand(old(RegState()), mode)
      ensures BusState()
        == Drive(mem.io, env, old(BusState()), EaActs(mem.io, old(mem.contents), old(RegState()), mode, true)
          + [W(Ea(mem.io, old(mem.contents), old(RegState()), mode), StoredReg(op, old(RegState())))])
    {
      hide Sound, Do, Drive, Peek;
      ghost var acts := EaActs(mem.io, mem.contents, RegState(), mode, true);
      var addr := EffectiveAddress(mode, true);
      var v: byte;
      match op {
        case STA => v := a;
        case STX => v := x;
        case STY => v := y;
      }
      Write(addr, v);
      DriveSnoc(mem.io, env, old(BusState()), acts, W(addr, v));
    }

    // Shifts, rotates, increments and decrements of memory.

    method OpAsl(v: byte) returns (r: byte)
      modifies this`p
      ensures r == Shifted(ASL, old(p.c), v) && p == ShiftFlags(ASL, old(p), v)
    {
      var top := TopBitSet(v);
      p := p.(c := top);
      r := (2 * v) % 0x100;
      UpdateNZ(r);
    }

    method OpLsr(v: byte) returns (r: byte)
      modifies this`p
      ensures r == Shifted(LSR, old(p.c), v) && p == ShiftFlags(LSR, old(p), v)
    {
      var low := LowBitSet(v);
      p := p.(c := low);
      r := v / 2;
      UpdateNZ(r);
    }

    method OpRol(v: byte) returns (r: byte)
      modifies this`p
      ensures r == Shifted(ROL, old(p.c), v) && p == ShiftFlags(ROL, old(p), v)
    {
      var oldC := p.c;
      var top := TopBitSet(v);
      p := p.(c := top);
      r := (2 * v) % 0x100;
      if oldC {
        r := WithBit0(r);
      }
      UpdateNZ(r);
    }

    method OpRor(v: byte) returns (r: byte)
      modifies this`p
      ensures r == Shifted(ROR, old(p.c), v) && p == ShiftFlags(ROR, old(p), v)
    {
      var oldC := p.c;
      var low := LowBitSet(v);
      p := p.(c := low);
      r := v / 2;
      if oldC {
        r := WithBit7(r);
      }
      UpdateNZ(r);
    }

    method OpInc(v: byte) returns (r: byte)
      modifies this`p
      ensures r == Shifted(INC, old(p.c), v) && p == ShiftFlags(INC, old(p), v)
    {
      r := (v + 1) % 0x100;
      UpdateNZ(r);
    }

    method OpDec(v: byte) returns (r: byte)
      modifies this`p
      ensures r == Shifted(DEC, old(p.c), v) && p == ShiftFlags(DEC, old(p), v)
    {
      r := (v - 1) % 0x100;
      UpdateNZ(r);
    }

    method Transform(op: RmwOp, v: byte) returns (r: byte)
      modifies this`p
      ensures r == Shifted(op, old(p.c), v) && p == ShiftFlags(op, old(p), v)
    {
      match op {
        case ASL => r := OpAsl(v);
        case LSR => r := OpLsr(v);
        case ROL => r := OpRol(v);
        case ROR => r := OpRor(v);
        case INC => r := OpInc(v);
        case DEC => r := OpDec(v);
      }
    }

    /** A read, a dummy write of the byte just read, and the write of the new byte. */
    method ReadModifyWrite(addr: word, op: RmwOp)
      requires Valid()
      modifies this, mem.repr, Tracer()
      ensures Valid() && trace == old(trace) && attachedAt == old(attachedAt) && prior == old(prior)
      ensures var v := Peek(mem.io, old(mem.contents), addr);
              && RegState() == old(RegState()).(p := ShiftFlags(op, old(p), v))
              && BusState()
                == Drive(mem.io, env, old(BusState()), [R(addr), W(addr, v), W(addr, Shifted(op, old(p.c), v))])
    {
      hide Sound, Do, Drive, Peek, ShiftFlags, Shifted;
      var v := Read(addr);
      Write(addr, v);
      label mid:
      var r := Transform(op, v);
      assert unchanged@mid(this`log, this`trace, this`attachedAt, this`prior, mem, mem.repr, Tracer());
      Write(addr, r);
      Drive3(mem.io, env, old(BusState()), R(addr), W(addr, v), W(addr, r));
    }

    method RmwInst(op: RmwOp, mode: Operand)
      requires !mode.Immediate?
      requires Valid()
      modifies this, mem.repr, Tracer()
      ensures Valid() && trace == old(trace) && attachedAt == old(attachedAt) && prior == old(prior)
      ensures RegState()
        == PastOperand(old(RegState()), mode).(
             p := ShiftFlags(op, old(p),
               Peek(mem.io, old(mem.contents), Ea(mem.io, old(mem.contents), old(RegState()), mode))))
      ensures var ea := Ea(mem.io, old(mem.contents), old(RegState()), mode);
              var v := Peek(mem.io, old(mem.contents), ea);
              BusState()
                == Drive(mem.io, env, old(BusState()), EaActs(mem.io, old(mem.contents), old(RegState()), mode, true)
                  + [R(ea), W(ea, v), W(ea, Shifted(op, old(p.c), v))])
    {
      hide Sound, Do, Drive, Peek;
      ghost var acts := EaActs(mem.io, mem.contents, RegState(), mode, true);
      var addr := EffectiveAddress(mode, true);
      ghost var v := Peek(mem.io, mem.contents, addr);
      ReadModifyWrite(addr, op);
      DriveAppend(mem.io, env, old(BusState()), acts, [R(addr), W(addr, v), W(addr, Shifted(op, old(p.c), v))]);
    }

    // Implied instructions: one dummy read, then registers only.

    method DummyFetch()
      requires Valid()
      modifies this, mem.repr, Tracer()
      ensures Valid() && trace == old(trace) && attachedAt == old(attachedAt) && prior == old(prior)
      ensures RegState() == old(RegState())
      ensures BusState() == Drive(mem.io, env, old(BusState()), [R(old(pc))])
      ensures mem.contents == old(mem.contents)
    {
      hide Sound, Do, Drive, Peek;
      var _ := Read(pc);
      Drive1(mem.io, env, old(BusState()), R(old(pc)));
    }

    method ImpliedInst(op: ImpliedOp)
      requires Valid()
      modifies this, mem.repr, Tracer()
      ensures Valid() && trace == old(trace) && attachedAt == old(attachedAt) && prior == old(prior)
      ensures RegState() == ImpliedRegs(op, old(RegState()))
      ensures BusState() == Drive(mem.io, env, old(BusState()), [R(old(pc))])
    {
      hide Sound, ImpliedRegs, Do, Drive;
      DummyFetch();
      label mid:
      Transfer(op);
      assert unchanged@mid(this`log, this`trace, this`attachedAt, this`prior, mem, mem.repr, Tracer());
    }

    method Transfer(op: ImpliedOp)
      modifies this`a, this`x, this`y, this`sp, this`p
      ensures RegState() == ImpliedRegs(op, old(RegState()))
    {
      match op {
        case TAX => x := a; UpdateNZ(x);
        case TAY => y := a; UpdateNZ(y);
        case TSX => x := sp; UpdateNZ(x);
        case TXA => a := x; UpdateNZ(a);
        case TXS => sp := x;
        case TYA => a := y; UpdateNZ(a);
        case CLC => p := p.(c := false);
        case SEC => p := p.(c := true);
        case CLD => p := p.(d := false);
        case SED => p := p.(d := true);
        case CLI => p := p.(i := false);
        case SEI => p := p.(i := true);
        case CLV => p := p.(v := false);
        case NOP =>
        case INX => x := Inc8(x); UpdateNZ(x);
        case INY => y := Inc8(y); UpdateNZ(y);
        case DEX => x := Dec8(x); UpdateNZ(x);
        case DEY => y := Dec8(y); UpdateNZ(y);
      }
    }

    /** The accumulator forms of the shifts and rotates. */
    method ShiftInst(op: RmwOp)
      requires !op.INC? && !op.DEC?
      requires Valid()
      modifies this, mem.repr, Tracer()
      ensures Valid() && trace == old(trace) && attachedAt == old(attachedAt) && prior == old(prior)
      ensures RegState() == old(RegState()).(a := Shifted(op, old(p.c), old(a)), p := ShiftFlags(op, old(p), old(a)))
      ensures BusState() == Drive(mem.io, env, old(BusState()), [R(old(pc))])
    {
      hide Sound, Do, Drive;
      DummyFetch();
      label mid:
      match op {
        case ASL => AslA();
        case LSR => LsrA();
        case ROL => RolA();
        case ROR => RorA();
      }
      assert unchanged@mid(this`log, this`trace, this`attachedAt, this`prior, mem, mem.repr, Tracer());
    }

    method AslA()
      modifies this`a, this`p
      ensures a == Shifted(ASL, old(p.c), old(a)) && p == ShiftFlags(ASL, old(p), old(a))
    {
      var top := TopBitSet(a);
      p := p.(c := top);
      a := (2 * a) % 0x100;
      UpdateNZ(a);
    }

    method LsrA()
      modifies this`a, this`p
      ensures a == Shifted(LSR, old(p.c), old(a)) && p == ShiftFlags(LSR, old(p), old(a))
    {
      var low := LowBitSet(a);
      p := p.(c := low);
      a := a / 2;
      UpdateNZ(a);
    }

    method RolA()
      modifies this`a, this`p
      ensures a == Shifted(ROL, old(p.c), old(a)) && p == ShiftFlags(ROL, old(p), old(a))
    {
      var oldC := p.c;
      var top := TopBitSet(a);
      p := p.(c := top);
      a := (2 * a) % 0x100;
      if oldC {
        a := WithBit0(a);
      }
      UpdateNZ(a);
    }

    method RorA()
      modifies this`a, this`p
      ensures a == Shifted(ROR, old(p.c), old(a)) && p == ShiftFlags(ROR, old(p), old(a))
    {
      var oldC := p.c;
      var low := LowBitSet(a);
      p := p.(c := low);
      a := a / 2;
      if oldC {
        a := WithBit7(a);
      }
      UpdateNZ(a);
    }

    // Branches, jumps and the stack.

    /** The extra cycles of a taken branch. */
    method GoTo(newPC: word)
      requires Valid()
      modifies this, mem.repr, Tracer()
      ensures Valid() && trace == old(trace) && attachedAt == old(attachedAt) && prior == old(prior)
      ensures RegState() == old(RegState()).(pc := newPC)
      ensures BusState() == Drive(mem.io, env, old(BusState()), [R(old(pc))] + FixUp(old(pc), newPC, false))
    {
      hide Sound, Do, Drive, Peek;
      var oldPC := pc;
      DummyFetch();
      FixUpRead(oldPC, newPC, false);
      DriveAppend(mem.io, env, old(BusState()), [R(old(pc))], FixUp(oldPC, newPC, false));
      Jump(newPC);
    }

    /** A mask test of P as a byte. */
    method Flag(mask: byte) returns (on: bool)
      ensures on == (And(ToByte(p), mask) != 0)
    {
      on := And(ToByte(p), mask) != 0;
    }

    method BranchCondition(op: BranchOp) returns (take: bool)
      ensures take == Taken(op, p)
    {
      match op {
        case BCC => take := Flag(0x01); take := !take;
        case BCS => take := Flag(0x01);
        case BEQ => take := Flag(0x02);
        case BNE => take := Flag(0x02); take := !take;
        case BMI => take := Flag(0x80);
        case BPL => take := Flag(0x80); take := !take;
        case BVC => take := Flag(0x40); take := !take;
        case BVS => take := Flag(0x40);
      }
      ConditionMasks(p);
      hide And, ToByte;
    }

    method BranchInst(op: BranchOp)
      requires Valid()
      modifies this, mem.repr, Tracer()
      ensures Valid() && trace == old(trace) && attachedAt == old(attachedAt) && prior == old(prior)
      ensures RegState()
        == old(RegState()).(
             pc := if Taken(op, old(p)) then BranchTarget(old(pc), Peek(mem.io, old(mem.contents), old(pc)))
                   else Next(old(pc)))
      ensures var target := BranchTarget(old(pc), Peek(mem.io, old(mem.contents), old(pc)));
              BusState() == Drive(mem.io, env, old(BusState()),
                if !Taken(op, old(p)) then [R(old(pc))]
                else [R(old(pc)), R(Next(old(pc)))] + FixUp(Next(old(pc)), target, false))
    {
      hide Sound, Do, Drive, Peek;
      var take := BranchCondition(op);
      var offset := Fetch();
      var newPC: word := (pc + Signed(offset)) % 0x1_0000;
      BranchFromNext(old(pc), offset);
      ghost var b, next := old(BusState()), pc;
      Drive1(mem.io, env, b, R(old(pc)));
      if take {
        GoTo(newPC);
        ghost var rest := [R(next)] + FixUp(next, newPC, false);
        DriveAppend(mem.io, env, b, [R(old(pc))], rest);
        assert [R(old(pc))] + rest == [R(old(pc)), R(next)] + FixUp(next, newPC, false);
      }
    }

    method OpPha()
      requires Valid()
      modifies this, mem.repr, Tracer()
      ensures Valid() && trace == old(trace) && attachedAt == old(attachedAt) && prior == old(prior)
      ensures RegState() == old(RegState()).(sp := Down(old(sp), 1))
      ensures BusState() == Drive(mem.io, env, old(BusState()), [R(old(pc)), W(Stack(old(sp)), old(a))])
    {
      hide Sound, Do, Drive, Peek;
      var _ := Read(pc);
      Push(a);
      Drive2(mem.io, env, old(BusState()), R(old(pc)), W(Stack(old(sp)), old(a)));
    }

    method OpPhp()
      requires Valid()
      modifies this, mem.repr, Tracer()
      ensures Valid() && trace == old(trace) && attachedAt == old(attachedAt) && prior == old(prior)
      ensures RegState() == old(RegState()).(sp := Down(old(sp), 1))
      ensures BusState()
        == Drive(mem.io, env, old(BusState()), [R(old(pc)), W(Stack(old(sp)), ToByte(old(p).(b := true, u := true)))])
    {
      hide Sound, Do, Drive, Peek;
      var _ := Read(pc);
      var v := ToByte(p.(b := true, u := true));
      Push(v);
      Drive2(mem.io, env, old(BusState()), R(old(pc)), W(Stack(old(sp)), v));
    }

    /** The two dummy reads before every pull: at PC, and at the stack byte below. */
    method PeekStack()
      requires Valid()
      modifies this, mem.repr, Tracer()
      ensures Valid() && trace == old(trace) && attachedAt == old(attachedAt) && prior == old(prior)
      ensures RegState() == old(RegState()) && mem.contents == old(mem.contents)
      ensures BusState() == Drive(mem.io, env, old(BusState()), [R(old(pc)), R(Stack(old(sp)))])
    {
      hide Sound, Do, Drive, Peek;
      var _ := Read(pc);
      var _ := Read(0x0100 + sp);
      Drive2(mem.io, env, old(BusState()), R(old(pc)), R(Stack(old(sp))));
    }

    method PullWord() returns (w: word)
      requires Valid()
      modifies this, mem.repr, Tracer()
      ensures Valid() && trace == old(trace) && attachedAt == old(attachedAt) && prior == old(prior)
      ensures w == Word16(mem.io, old(mem.contents), Stack(Up(old(sp), 1)), Stack(Up(old(sp), 2)))
      ensures RegState() == old(RegState()).(sp := Up(old(sp), 2)) && mem.contents == old(mem.contents)
      ensures BusState() == Drive(mem.io, env, old(BusState()), [R(Stack(Up(old(sp), 1))), R(Stack(Up(old(sp), 2)))])
    {
      var lo := Pull();
      var hi := Pull();
      w := Word(lo, hi);
      Drive2(mem.io, env, old(BusState()), R(Stack(Up(old(sp), 1))), R(Stack(Up(old(sp), 2))));
    }

    method PushPc()
      requires Valid()
      modifies this, mem.repr, Tracer()
      ensures Valid() && trace == old(trace) && attachedAt == old(attachedAt) && prior == old(prior)
      ensures RegState() == old(RegState()).(sp := Down(old(sp), 2))
      ensures mem.contents == PushedPc(mem.io, old(mem.contents), old(sp), old(pc))
      ensures BusState()
        == Drive(mem.io, env, old(BusState()),
          [W(Stack(old(sp)), Hi(old(pc))), W(Stack(Down(old(sp), 1)), Lo(old(pc)))])
    {
      Push(Hi(pc));
      Push(Lo(pc));
      Drive2(mem.io, env, old(BusState()), W(Stack(old(sp)), Hi(old(pc))), W(Stack(Down(old(sp), 1)), Lo(old(pc))));
    }

    method Jump(target: word)
      requires Valid()
      modifies this`pc
      ensures Valid() && pc == target
    {
      label mid:
      pc := target;
      assert unchanged@mid(this`log, this`trace, this`attachedAt, this`prior, mem, mem.repr, Tracer());
    }

    /** The three cycles PLA and PLP share. */
    method PullByte() returns (v: byte)
      requires Valid()
      modifies this, mem.repr, Tracer()
      ensures Valid() && trace == old(trace) && attachedAt == old(attachedAt) && prior == old(prior)
      ensures v == Peek(mem.io, old(mem.contents), Stack(Up(old(sp), 1)))
      ensures RegState() == old(RegState()).(sp := Up(old(sp), 1)) && mem.contents == old(mem.contents)
      ensures BusState()
        == Drive(mem.io, env, old(BusState()), [R(old(pc)), R(Stack(old(sp))), R(Stack(Up(old(sp), 1)))])
    {
      PeekStack();
      v := Pull();
      DriveSnoc(mem.io, env, old(BusState()), [R(old(pc)), R(Stack(old(sp)))], R(Stack(Up(old(sp), 1))));
      assert [R(old(pc)), R(Stack(old(sp)))] + [R(Stack(Up(old(sp), 1)))]
        == [R(old(pc)), R(Stack(old(sp))), R(Stack(Up(old(sp), 1)))];
    }

    method OpPla()
      requires Valid()
      modifies this, mem.repr, Tracer()
      ensures Valid() && trace == old(trace) && attachedAt == old(attachedAt) && prior == old(prior)
      ensures var v := Peek(mem.io, old(mem.contents), Stack(Up(old(sp), 1)));
              RegState() == old(RegState()).(sp := Up(old(sp), 1), a := v, p := SetNZ(old(p), v))
      ensures BusState()
        == Drive(mem.io, env, old(BusState()), [R(old(pc)), R(Stack(old(sp))), R(Stack(Up(old(sp), 1)))])
    {
      hide Sound, Do, Drive, Peek;
      var v := PullByte();
      label mid:
      LoadA(v);
      assert unchanged@mid(this`log, this`trace, this`attachedAt, this`prior, mem, mem.repr, Tracer());
    }

    method OpPlp()
      requires Valid()
      modifies this, mem.repr, Tracer()
      ensures Valid() && trace == old(trace) && attachedAt == old(attachedAt) && prior == old(prior)
      ensures RegState()
        == old(RegState()).(sp := Up(old(sp), 1), p := Pulled(Peek(mem.io, old(mem.contents), Stack(Up(old(sp), 1)))))
      ensures BusState()
        == Drive(mem.io, env, old(BusState()), [R(old(pc)), R(Stack(old(sp))), R(Stack(Up(old(sp), 1)))])
    {
      hide Sound, Do, Drive, Peek;
      var v := PullByte();
      RestoreP(v);
    }

    /** B does not exist in the live register; U is forced. */
    method RestoreP(v: byte)
      requires Valid()
      modifies this`p
      ensures Valid() && p == Pulled(v)
    {
      label mid:
      p := FromByte(v).(b := false, u := true);
      assert unchanged@mid(this`log, this`trace, this`attachedAt, this`prior, mem, mem.repr, Tracer());
    }

    method OpJmpAbs()
      requires Valid()
      modifies this, mem.repr, Tracer()
      ensures Valid() && trace == old(trace) && attachedAt == old(attachedAt) && prior == old(prior)
      ensures RegState() == old(RegState()).(pc := Word16(mem.io, old(mem.contents), old(pc), Next(old(pc))))
      ensures BusState() == Drive(mem.io, env, old(BusState()), [R(old(pc)), R(Next(old(pc)))])
    {
      hide Sound, Do, Drive, Peek;
      pc := EffAbsolute();
    }

    method OpJmpInd()
      requires Valid()
      modifies this, mem.repr, Tracer()
      ensures Valid() && trace == old(trace) && attachedAt == old(attachedAt) && prior == old(prior)
      ensures var at := Word16(mem.io, old(mem.contents), old(pc), Next(old(pc)));
              && RegState() == old(RegState()).(pc := Word16(mem.io, old(mem.contents), at, JumpPointer(at)))
              && BusState()
                == Drive(mem.io, env, old(BusState()), [R(old(pc)), R(Next(old(pc))), R(at), R(JumpPointer(at))])
    {
      hide Sound, Do, Drive, Peek;
      pc := EffIndirect();
    }

    method FetchLow() returns (lo: byte)
      requires Valid()
      modifies this, mem.repr, Tracer()
      ensures Valid() && trace == old(trace) && attachedAt == old(attachedAt) && prior == old(prior)
      ensures lo == Peek(mem.io, old(mem.contents), old(pc))
      ensures RegState() == Fetched(old(RegState())) && mem.contents == old(mem.contents)
      ensures BusState() == Drive(mem.io, env, old(BusState()), [R(old(pc)), R(Stack(old(sp)))])
    {
      lo := Fetch();
      var _ := Read(0x0100 + sp);
      Drive2(mem.io, env, old(BusState()), R(old(pc)), R(Stack(old(sp))));
    }

    /** JSR up to its second operand byte: the low byte, a dummy read, and the two pushes. */
    method CallPushes() returns (lo: byte)
      requires Valid()
      modifies this, mem.repr, Tracer()
      ensures Valid() && trace == old(trace) && attachedAt == old(attachedAt) && prior == old(prior)
      ensures lo == Peek(mem.io, old(mem.contents), old(pc))
      ensures RegState() == old(RegState()).(sp := Down(old(sp), 2), pc := Next(old(pc)))
      ensures mem.contents == PushedPc(mem.io, old(mem.contents), old(sp), Next(old(pc)))
      ensures var back := Next(old(pc));
              BusState() == Drive(mem.io, env, old(BusState()),
                [R(old(pc)), R(Stack(old(sp))), W(Stack(old(sp)), Hi(back)), W(Stack(Down(old(sp), 1)), Lo(back))])
    {
      hide Sound, Do, Drive, Peek;
      ghost var b, s, s1 := BusState(), Stack(sp), Stack(Down(sp, 1));
      lo := FetchLow();
      ghost var back := pc;
      PushPc();
      DriveAppend(mem.io, env, b, [R(old(pc)), R(s)], [W(s, Hi(back)), W(s1, Lo(back))]);
      assert [R(old(pc)), R(s)] + [W(s, Hi(back)), W(s1, Lo(back))]
        == [R(old(pc)), R(s), W(s, Hi(back)), W(s1, Lo(back))];
    }

    /** The high byte of the target is fetched after the return address is pushed. */
    method OpJsr()
      requires Valid()
      modifies this, mem.repr, Tracer()
      ensures Valid() && trace == old(trace) && attachedAt == old(attachedAt) && prior == old(prior)
      ensures var back := Next(old(pc));
              var high := Peek(mem.io, PushedPc(mem.io, old(mem.contents), old(sp), back), back);
              RegState()
                == old(RegState()).(sp := Down(old(sp), 2), pc := Word(Peek(mem.io, old(mem.contents), old(pc)), high))
      ensures var back := Next(old(pc));
              BusState()
                == Drive(mem.io, env, old(BusState()),
                  [R(old(pc)), R(Stack(old(sp))), W(Stack(old(sp)), Hi(back)), W(Stack(Down(old(sp), 1)), Lo(back)),
                    R(back)])
    {
      hide Sound, Do, Drive, Peek;
      ghost var b, s, s1 := BusState(), Stack(sp), Stack(Down(sp, 1));
      var lo := CallPushes();
      ghost var back := pc;
      ghost var four := [R(old(pc)), R(s), W(s, Hi(back)), W(s1, Lo(back))];
      var hi := Fetch();
      DriveSnoc(mem.io, env, b, four, R(back));
      assert four + [R(back)] == [R(old(pc)), R(s), W(s, Hi(back)), W(s1, Lo(back)), R(back)];
      Jump(Word(lo, hi));
    }

    method OpRts()
      requires Valid()
      modifies this, mem.repr, Tracer()
      ensures Valid() && trace == old(trace) && attachedAt == old(attachedAt) && prior == old(prior)
      ensures var target := Word16(mem.io, old(mem.contents), Stack(Up(old(sp), 1)), Stack(Up(old(sp), 2)));
              && RegState() == old(RegState()).(sp := Up(old(sp), 2), pc := Next(target))
              && BusState()
                == Drive(mem.io, env, old(BusState()),
                  [R(old(pc)), R(Stack(old(sp))), R(Stack(Up(old(sp), 1))), R(Stack(Up(old(sp), 2))), R(target)])
    {
      hide Sound, Do, Drive, Peek;
      ghost var b, s, s1, s2 := BusState(), Stack(sp), Stack(Up(sp, 1)), Stack(Up(sp, 2));
      PeekStack();
      var target := PullWord();
      DriveAppend(mem.io, env, b, [R(old(pc)), R(s)], [R(s1), R(s2)]);
      var _ := Read(target);
      ghost var four := [R(old(pc)), R(s)] + [R(s1), R(s2)];
      DriveSnoc(mem.io, env, b, four, R(target));
      assert four + [R(target)] == [R(old(pc)), R(s), R(s1), R(s2), R(target)];
      Jump(Next(target));
    }

    /** The bus cycles of RTI: P, then the low and the high byte of PC. */
    method PullFrame() returns (v: byte, target: word)
      requires Valid()
      modifies this, mem.repr, Tracer()
      ensures Valid() && trace == old(trace) && attachedAt == old(attachedAt) && prior == old(prior)
      ensures v == Peek(mem.io, old(mem.contents), Stack(Up(old(sp), 1)))
      ensures target == Word16(mem.io, old(mem.contents), Stack(Up(old(sp), 2)), Stack(Up(old(sp), 3)))
      ensures RegState() == old(RegState()).(sp := Up(old(sp), 3))
      ensures BusState() == Drive(mem.io, env, old(BusState()),
        [R(old(pc)), R(Stack(old(sp))), R(Stack(Up(old(sp), 1))), R(Stack(Up(old(sp), 2))), R(Stack(Up(old(sp), 3)))])
    {
      hide Sound, Do, Drive, Peek;
      ghost var b, s, s1, s2, s3 := BusState(), Stack(sp), Stack(Up(sp, 1)), Stack(Up(sp, 2)), Stack(Up(sp, 3));
      UpFromOne(sp);
      v := PullByte();
      target := PullWord();
      DriveAppend(mem.io, env, b, [R(old(pc)), R(s), R(s1)], [R(s2), R(s3)]);
      assert [R(old(pc)), R(s), R(s1)] + [R(s2), R(s3)] == [R(old(pc)), R(s), R(s1), R(s2), R(s3)];
    }

    method OpRti()
      requires Valid()
      modifies this, mem.repr, Tracer()
      ensures Valid() && trace == old(trace) && attachedAt == old(attachedAt) && prior == old(prior)
      ensures RegState()
        == old(RegState()).(sp := Up(old(sp), 3), p := Pulled(Peek(mem.io, old(mem.contents), Stack(Up(old(sp), 1)))),
          pc := Word16(mem.io, old(mem.contents), Stack(Up(old(sp), 2)), Stack(Up(old(sp), 3))))
      ensures BusState()
        == Drive(mem.io, env, old(BusState()),
          [R(old(pc)), R(Stack(old(sp))), R(Stack(Up(old(sp), 1))), R(Stack(Up(old(sp), 2))), R(Stack(Up(old(sp), 3)))])
    {
      hide Sound, Do, Drive, Peek;
      var v, target := PullFrame();
      RestoreP(v);
      Jump(target);
    }

    /** An undocumented byte: the hook is told where it was, and one more cycle passes. */
    method IllegalNop()
      requires fetched == Peek(mem.io, mem.contents, Previous(pc))
      requires Valid()
      modifies this, mem.repr, Tracer()
      ensures Valid() && trace == old(trace) && attachedAt == old(attachedAt) && prior == old(prior)
      ensures RegState() == old(RegState())
      ensures BusState()
        == Drive(mem.io, env, old(BusState()),
          [Trap(Previous(old(pc)), Peek(mem.io, old(mem.contents), Previous(old(pc)))), R(old(pc))])
    {
      traps := traps + [(Previous(pc), fetched)];
      ghost var act := Trap(Previous(pc), fetched);
      var _ := Read(pc);
      Drive2(mem.io, env, old(BusState()), act, R(old(pc)));
    }

    /** The handler of every instruction but BRK. */
    method ExecuteInst(inst: Inst)
      requires !inst.Brk? && Documented(inst)
      requires inst.Illegal? ==> fetched == Peek(mem.io, mem.contents, Previous(pc))
      requires Valid()
      modifies this, mem.repr, Tracer()
      ensures Valid() && trace == old(trace) && attachedAt == old(attachedAt) && prior == old(prior)
      ensures RegState() == RegsAfter(mem.io, old(RegState()), old(mem.contents), inst)
      ensures BusState()
        == Drive(mem.io, env, old(BusState()), InstActs(mem.io, old(RegState()), old(mem.contents), inst))
    {
      hide Loaded, ImpliedRegs, Ea, Base, EaActs, FixUp, Shifted, ShiftFlags, FromByte, ToByte, BranchTarget, Taken,
        SetNZ;
      hide Sound, JumpPointer, Do, Drive, Peek, Stack, Down, Up, PastOperand, Pulled, StoredReg, Word16, PushedPc;
      match inst {
        case Read(op, mode) => ReadInst(op, mode);
        case Store(op, mode) => StoreInst(op, mode);
        case Rmw(op, mode) => RmwInst(op, mode);
        case Shift(op) => ShiftInst(op);
        case Implied(op) => ImpliedInst(op);
        case Branch(op) => BranchInst(op);
        case Pha => OpPha();
        case Php => OpPhp();
        case Pla => OpPla();
        case Plp => OpPlp();
        case JmpAbs => OpJmpAbs();
        case JmpInd => OpJmpInd();
        case Jsr => OpJsr();
        case Rts => OpRts();
        case Rti => OpRti();
        case Illegal => IllegalNop();
      }
    }

    // Interrupts.

    /** The seven-cycle entry shared by RESET, IRQ, NMI and BRK; BRK's caller has spent the first two. */
    method EnterInterrupt(kind: Cause)
      requires Valid()
      modifies this, mem.repr, Tracer()
      ensures Valid() && trace == old(trace) && attachedAt == old(attachedAt) && prior == old(prior)
      ensures State() == Entry(mem.io, env, old(State()), kind)
    {
      hide Sound, Do, Drive;
      EntryCycles(kind);
      VectorTo(kind);
    }

    /** The pushes, real or fake, and the I flag. */
    method EntryCycles(kind: Cause)
      requires Valid()
      modifies this, mem.repr, Tracer()
      ensures Valid() && trace == old(trace) && attachedAt == old(attachedAt) && prior == old(prior)
      ensures RegState() == old(RegState()).(sp := Down(old(sp), 3), p := old(p).(i := true, u := true))
      ensures BusState() == Drive(mem.io, env, old(BusState()), EntryActs(old(RegState()), kind))
    {
      hide Sound, Do, Drive, Peek;
      if kind == ResetCause {
        FakePushes();
      } else {
        PushState(kind);
      }
      MaskInterrupts();
    }

    method MaskInterrupts()
      requires Valid()
      modifies this`p
      ensures Valid() && p == old(p).(i := true, u := true)
    {
      label mid:
      p := p.(i := true);
      p := p.(u := true);
      assert unchanged@mid(this`log, this`trace, this`attachedAt, this`prior, mem, mem.repr, Tracer());
    }

    /** Choosing and fetching the vector, and clearing the latch that was served. */
    method VectorTo(kind: Cause)
      requires Valid()
      modifies this, mem.repr, Tracer()
      ensures Valid() && trace == old(trace) && attachedAt == old(attachedAt) && prior == old(prior)
      ensures RegState()
        == old(RegState()).(pc := VectorTarget(mem.io, old(mem.contents), Vector(kind, old(LineState()))))
      ensures BusState() == Drive(mem.io, env, old(BusState()), VectorActs(kind, old(LineState())))
    {
      hide Sound, Do, Drive, Peek;
      ghost var b := BusState();
      var vec: word;
      match kind {
        case NmiCause =>
          vec := NMI_VECTOR;
        case ResetCause =>
          vec := RESET_VECTOR;
        case _ =>
          vec := IRQ_VECTOR;
          if nmiPending {
            vec := NMI_VECTOR;
            TakeLatch();
            Drive1(mem.io, env, b, TakeNmi);
          }
      }
      ghost var first := BusState();
      FetchVector(vec);
      if !kind.NmiCause? && !kind.ResetCause? && b.lines.nmi {
        DriveAppend(mem.io, env, b, [TakeNmi], [R(vec), R(vec + 1)]);
        assert [TakeNmi] + [R(vec), R(vec + 1)] == [TakeNmi, R(vec), R(vec + 1)];
      }
      if kind.NmiCause? {
        TakeLatch();
        DriveSnoc(mem.io, env, b, [R(vec), R(vec + 1)], TakeNmi);
        assert [R(vec), R(vec + 1)] + [TakeNmi] == [R(vec), R(vec + 1), TakeNmi];
      }
      if kind.ResetCause? {
        EndResetLatch();
        DriveSnoc(mem.io, env, b, [R(vec), R(vec + 1)], EndReset);
        assert [R(vec), R(vec + 1)] + [EndReset] == [R(vec), R(vec + 1), EndReset];
      }
    }

    method FetchVector(vec: word)
      requires vec < 0xFFFF
      requires Valid()
      modifies this, mem.repr, Tracer()
      ensures Valid() && trace == old(trace) && attachedAt == old(attachedAt) && prior == old(prior)
      ensures RegState() == old(RegState()).(pc := VectorTarget(mem.io, old(mem.contents), vec))
      ensures BusState() == Drive(mem.io, env, old(BusState()), [R(vec), R(vec + 1)])
      ensures mem.contents == old(mem.contents)
    {
      hide Sound, Do, Drive, Peek;
      var lo := Read(vec);
      var hi := Read(vec + 1);
      Drive2(mem.io, env, old(BusState()), R(vec), R(vec + 1));
      Jump(Word(lo, hi));
    }

    /** The NMI latch is cleared by a service, and by nothing else. */
    method TakeLatch()
      requires Valid()
      modifies this`nmiPending, this`taken
      ensures Valid() && BusState() == Do(mem.io, env, old(BusState()), TakeNmi)
    {
      nmiPending := false;
      taken := taken + 1;
    }

    method EndResetLatch()
      requires Valid()
      modifies this`resetPending
      ensures Valid() && BusState() == Do(mem.io, env, old(BusState()), EndReset)
    {
      resetPending := false;
    }

    /** The two dummy reads at PC that open every entry but BRK's. */
    method DummyReads()
      requires Valid()
      modifies this, mem.repr, Tracer()
      ensures Valid() && trace == old(trace) && attachedAt == old(attachedAt) && prior == old(prior)
      ensures RegState() == old(RegState())
      ensures BusState() == Drive(mem.io, env, old(BusState()), [R(old(pc)), R(old(pc))])
    {
      hide Sound, Do, Drive, Peek;
      var _ := Read(pc);
      var _ := Read(pc);
      Drive2(mem.io, env, old(BusState()), R(old(pc)), R(old(pc)));
    }

    method FakePush()
      requires Valid()
      modifies this, mem.repr, Tracer()
      ensures Valid() && trace == old(trace) && attachedAt == old(attachedAt) && prior == old(prior)
      ensures RegState() == old(RegState()).(sp := Dec8(old(sp)))
      ensures BusState() == Do(mem.io, env, old(BusState()), R(Stack(old(sp))))
    {
      hide Sound, Do, Drive, Peek;
      var _ := Read(0x0100 + sp);
      label mid:
      sp := Dec8(sp);
      assert unchanged@mid(this`log, this`trace, this`attachedAt, this`prior, mem, mem.repr, Tracer());
    }

    /** RESET only reads the stack, and still moves SP. */
    method FakePushes()
      requires Valid()
      modifies this, mem.repr, Tracer()
      ensures Valid() && trace == old(trace) && attachedAt == old(attachedAt) && prior == old(prior)
      ensures RegState() == old(RegState()).(sp := Down(old(sp), 3))
      ensures BusState() == Drive(mem.io, env, old(BusState()), EntryActs(old(RegState()), ResetCause))
    {
      hide Sound, Do, Drive, Peek;
      ghost var b, s, s1, s2 := BusState(), Stack(sp), Stack(Down(sp, 1)), Stack(Down(sp, 2));
      DummyReads();
      ghost var first := BusState();
      FakePush();
      FakePush();
      FakePush();
      Drive3(mem.io, env, first, R(s), R(s1), R(s2));
      DriveAppend(mem.io, env, b, [R(old(pc)), R(old(pc))], [R(s), R(s1), R(s2)]);
      assert [R(old(pc)), R(old(pc))] + [R(s), R(s1), R(s2)] == EntryActs(old(RegState()), ResetCause);
    }

    /** The cycles of the other entries before the vector. */
    method PushState(kind: Cause)
      requires !kind.ResetCause?
      requires Valid()
      modifies this, mem.repr, Tracer()
      ensures Valid() && trace == old(trace) && attachedAt == old(attachedAt) && prior == old(prior)
      ensures RegState() == old(RegState()).(sp := Down(old(sp), 3))
      ensures BusState() == Drive(mem.io, env, old(BusState()), EntryActs(old(RegState()), kind))
    {
      hide Sound, Do, Drive, Peek;
      ghost var b, r := BusState(), RegState();
      var pushedP := PushedP(p, kind);
      ghost var pre: seq<Act> := [];
      if kind != BrkCause {
        DummyReads();
        pre := [R(r.pc), R(r.pc)];
      }
      ghost var first := BusState();
      PushAll(pushedP);
      ghost var pushes := [W(Stack(r.sp), Hi(r.pc)), W(Stack(Down(r.sp, 1)), Lo(r.pc)),
        W(Stack(Down(r.sp, 2)), pushedP)];
      DriveAppend(mem.io, env, b, pre, pushes);
      assert pre + pushes == EntryActs(r, kind);
    }

    method PushAll(pushedP: byte)
      requires Valid()
      modifies this, mem.repr, Tracer()
      ensures Valid() && trace == old(trace) && attachedAt == old(attachedAt) && prior == old(prior)
      ensures RegState() == old(RegState()).(sp := Down(old(sp), 3))
      ensures BusState() == Drive(mem.io, env, old(BusState()),
        [W(Stack(old(sp)), Hi(old(pc))), W(Stack(Down(old(sp), 1)), Lo(old(pc))), W(Stack(Down(old(sp), 2)), pushedP)])
    {
      hide Sound, Do, Drive, Peek;
      ghost var two := [W(Stack(sp), Hi(pc)), W(Stack(Down(sp, 1)), Lo(pc))];
      PushPc();
      Push(pushedP);
      DriveSnoc(mem.io, env, old(BusState()), two, W(Stack(Down(old(sp), 2)), pushedP));
      assert two + [W(Stack(Down(old(sp), 2)), pushedP)]
        == [W(Stack(old(sp)), Hi(old(pc))), W(Stack(Down(old(sp), 1)), Lo(old(pc))),
          W(Stack(Down(old(sp), 2)), pushedP)];
    }

    method OpBrk()
      requires Valid()
      modifies this, mem.repr, Tracer()
      ensures Valid() && trace == old(trace) && attachedAt == old(attachedAt) && prior == old(prior)
      ensures State()
        == Entry(mem.io, env, Core(Fetched(old(RegState())), Drive(mem.io, env, old(BusState()), [R(old(pc))])),
          BrkCause)
    {
      hide Sound, Do, Drive, Peek;
      var _ := Fetch();
      Drive1(mem.io, env, old(BusState()), R(old(pc)));
      EnterInterrupt(BrkCause);
    }

    /** The host resets the recorder that is attached: it is empty, and sees all that comes from here on. */
    method ResetTrace()
      requires Valid() && trace != null
      modifies this`attachedAt, this`prior, trace
      ensures Valid() && trace.recorded == [] && attachedAt == |log| && prior == []
    {
      assert Sound(0);
      trace.Reset();
      attachedAt, prior := |log|, [];
      assert trace.recorded == prior + log[attachedAt..];
      assert forall key :: Sound(key);
    }

    /** What an attached recorder retains, exactly: the last events that fit of those it held when it was attached and
        all those on the bus since then; after a reset, or when it came empty, of those on the bus since then. */
    lemma TraceAgrees()
      requires Valid() && trace != null
      ensures attachedAt <= |log| && trace.head <= trace.events.Length
      ensures trace.Retained() == Last(prior + log[attachedAt..], trace.events.Length)
      ensures prior == [] ==> trace.Retained() == Last(log[attachedAt..], trace.events.Length)
    {
      assert Sound(0);
      assert [] + log[attachedAt..] == log[attachedAt..];
    }

    // Execution.

    /** One step, exactly as the interpreter's `Step` says. */
    method Step() returns (c: u64)
      requires Valid()
      modifies this, mem.repr, Tracer()
      ensures Valid() && trace == old(trace) && attachedAt == old(attachedAt) && prior == old(prior)
      ensures State() == Isa.Step(mem.io, env, old(State())) && c == cycles
    {
      if !rdy {
        return cycles;
      }
      if resetPending {
        EnterInterrupt(ResetCause);
      } else if nmiPending {
        EnterInterrupt(NmiCause);
      } else if irqLine && !p.i {
        EnterInterrupt(IrqCause);
      } else {
        Dispatch();
      }
      c := cycles;
    }

    method StepCycle() returns (c: u64)
      requires Valid()
      modifies this, mem.repr, Tracer()
      ensures Valid() && trace == old(trace) && attachedAt == old(attachedAt) && prior == old(prior)
      ensures State() == Isa.Step(mem.io, env, old(State())) && c == cycles
    {
      c := Step();
    }

    /** Whole steps until the budget is spent, or RDY is low. Only a run that comes to an end has a result. */
    method Run(budget: u64) returns (c: u64)
      requires Valid() && Returns(mem.io, env, State(), budget)
      modifies this, mem.repr, Tracer()
      ensures Valid() && trace == old(trace) && attachedAt == old(attachedAt) && prior == old(prior)
      ensures State() == RunFor(mem.io, env, old(State()), budget) && c == cycles
    {
      hide Isa.Step, RunTo;
      var deadline: u64 := (cycles + budget) % WRAP;
      ghost var start := State();
      while cycles < deadline
        invariant Valid() && trace == old(trace) && attachedAt == old(attachedAt) && prior == old(prior)
        invariant Ends(mem.io, env, State(), deadline)
        invariant RunTo(mem.io, env, State(), deadline) == RunTo(mem.io, env, start, deadline)
        decreases Length(mem.io, env, State(), deadline)
      {
        if !rdy {
          RunStops(mem.io, env, State(), deadline);
          return cycles;
        }
        RunUnfolds(mem.io, env, State(), deadline);
        var _ := Step();
      }
      RunStops(mem.io, env, State(), deadline);
      c := cycles;
    }

    // Register access.

    method Registers() returns (r: Regs, c: u64)
      ensures r == RegState() && c == cycles
    {
      r, c := Regs(a, x, y, sp, pc, p), cycles;
    }

    method LoadRegisters(r: Regs)
      modifies this`a, this`x, this`y, this`sp, this`pc, this`p
      ensures RegState() == r
    {
      a, x, y, sp, pc, p := r.a, r.x, r.y, r.sp, r.pc, r.p;
    }

    /** Overwriting the registers also drops a pending RESET. */
    method SetRegisters(r: Regs, c: u64)
      requires Valid()
      modifies this`a, this`x, this`y, this`sp, this`pc, this`p, this`cycles, this`resetPending
      ensures Valid()
      ensures RegState() == r && cycles == c && LineState() == old(LineState()).(reset := false)
    {
      hide Valid, Sound;
      LoadRegisters(r);
      cycles := c;
      resetPending := false;
    }

    method Dispatch()
      requires Valid()
      modifies this, mem.repr, Tracer()
      ensures Valid() && trace == old(trace) && attachedAt == old(attachedAt) && prior == old(prior)
      ensures State() == Executed(mem.io, env, old(State()), Table(Peek(mem.io, old(mem.contents), old(pc))).inst)
    {
      hide Sound, Do, Drive, Peek;
      var op := Fetch();
      ghost var b := old(BusState());
      Drive1(mem.io, env, b, R(old(pc)));
      var inst := Table(op).inst;
      TableDocumented(op);
      if inst.Brk? {
        OpBrk();
        DriveAppend(mem.io, env, b, [R(old(pc))], [R(Next(old(pc)))]);
        assert [R(old(pc))] + [R(Next(old(pc)))] == [R(old(pc)), R(Next(old(pc)))];
      } else {
        ExecuteInst(inst);
        DriveAppend(mem.io, env, b, [R(old(pc))], InstActs(mem.io, Fetched(old(RegState())), old(mem.contents), inst));
      }
    }
  }

  /** The four mask tests the branches make. */
  lemma {:induction false} ConditionMasks(p: Flags)
    ensures (And(ToByte(p), 0x80) != 0) == p.n && (And(ToByte(p), 0x40) != 0) == p.v
    ensures (And(ToByte(p), 0x02) != 0) == p.z && (And(ToByte(p), 0x01) != 0) == p.c
  {
    var v := ToByte(p);
    MaskTests(v);
    assert Pow2(7) == 0x80 && Pow2(6) == 0x40 && Pow2(1) == 0x02 && Pow2(0) == 0x01;
    AndOneBit(v, 7, 8);
    AndOneBit(v, 6, 8);
    AndOneBit(v, 1, 8);
    AndOneBit(v, 0, 8);
    FlagsRoundTrip(p);
    FlagMasks(v);
    hide ToByte, FromByte, Gated, Bit, Pow2;
  }
}
