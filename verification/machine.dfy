/** The BBC Model B: one processor and one memory map, and the host's calls on them. */
module Machines {
  import opened Bits
  import opened Status
  import opened Bus
  import opened Alu
  import opened Isa
  import opened Runs
  import opened BbcMemory
  import opened Devices
  import opened MappedMemory
  import opened Tracing
  import opened Processor
  import opened Snapshots
  import NmiProtocol
  import Interpreter
  import BbcLaws
  import BusLog
  import Layout
  import Timing
  import opened Bisimulation
  import StackDiscipline

  datatype Outcome = Done | Failed(error: RomError)

  /** BREAK: RAM and stubs stay, the bank latch is cleared, and the processor will restart. */
  function Rebooted(s: Core<Bbc>): Core<Bbc> {
    s.(bus := s.bus.(mem := s.bus.mem.(bank := 0), lines := Signalled(s.bus.lines, RaiseReset)))
  }

  /** Power-on memory under the loaded ROMs. The registers, the counter and the other lines are left as they are. */
  function PowerCycled(s: Core<Bbc>): Core<Bbc> {
    s.(bus := s.bus.(mem := Cleared(s.bus.mem), lines := Signalled(s.bus.lines, RaiseReset)))
  }

  function WithMemory(s: Core<Bbc>, m: Bbc): Core<Bbc> { s.(bus := s.bus.(mem := m)) }

  class Machine {
    const cpu: CPU
    const mmap: MemoryMap

    ghost predicate Valid()
      reads cpu, mmap, mmap.repr, cpu.Tracer()
    {
      cpu.mem == mmap && mmap.io == Io() && cpu.Valid()
    }

    ghost function State(): Core<Bbc>
      reads cpu, cpu.mem
    {
      cpu.State()
    }

    /** A machine with no ROM loaded and a RESET pending. */
    constructor (env: Env)
      ensures Valid() && fresh(cpu) && fresh(mmap.repr) && cpu.trace == null && cpu.env == env
      ensures State() == Fresh(Blank())
    {
      var m := new MemoryMap();
      var c := new CPU(m, env);
      mmap, cpu := m, c;
    }

    method LoadOSROM(image: seq<byte>) returns (o: Outcome)
      requires Valid()
      modifies mmap.repr
      ensures Valid()
      ensures o == if |image| == ROM_SIZE then Done else Failed(InvalidRomSize)
      ensures State() ==
        if |image| == ROM_SIZE then WithMemory(old(State()), old(State()).bus.mem.(os := image, osLoaded := true))
        else old(State())
    {
      if |image| != ROM_SIZE {
        return Failed(InvalidRomSize);
      }
      assert cpu.Sound(0);
      mmap.LoadOs(image);
      assert forall key :: cpu.Sound(key);
      return Done;
    }

    method LoadSidewaysROM(bank: int, image: seq<byte>) returns (o: Outcome)
      requires Valid()
      modifies mmap.repr
      ensures Valid()
      ensures o ==
        if !(0 <= bank < BANKS) then Failed(BankOutOfRange)
        else if |image| != ROM_SIZE then Failed(InvalidRomSize)
        else Done
      ensures State() ==
        if o.Done? then WithMemory(old(State()), WithBank(old(State()).bus.mem, bank, image)) else old(State())
    {
      if bank < 0 || bank > 3 {
        return Failed(BankOutOfRange);
      }
      if |image| != ROM_SIZE {
        return Failed(InvalidRomSize);
      }
      assert cpu.Sound(0);
      mmap.LoadBank(bank, image);
      assert forall key :: cpu.Sound(key);
      return Done;
    }

    method OsLoaded() returns (yes: bool)
      requires Valid()
      ensures yes == State().bus.mem.osLoaded
    {
      assert cpu.Sound(0) && mmap.Holds(0);
      yes := mmap.rom.osLoaded;
    }

    method Reset() returns (o: Outcome)
      requires Valid()
      modifies mmap.repr, cpu`resetPending
      ensures Valid()
      ensures o == if old(State()).bus.mem.osLoaded then Done else Failed(NoOsRom)
      ensures State() == if o.Done? then Rebooted(old(State())) else old(State())
    {
      var ready := OsLoaded();
      if !ready {
        return Failed(NoOsRom);
      }
      assert cpu.Sound(0);
      mmap.ClearBank();
      assert forall key :: cpu.Sound(key);
      cpu.AssertReset();
      return Done;
    }

    method ColdReset() returns (o: Outcome)
      requires Valid()
      modifies mmap.repr, cpu`resetPending
      ensures Valid()
      ensures o == if old(State()).bus.mem.osLoaded then Done else Failed(NoOsRom)
      ensures State() == if o.Done? then PowerCycled(old(State())) else old(State())
    {
      var ready := OsLoaded();
      if !ready {
        return Failed(NoOsRom);
      }
      assert cpu.Sound(0);
      mmap.ClearAll();
      assert forall key :: cpu.Sound(key);
      cpu.AssertReset();
      return Done;
    }

    method Tick(cycles: u64) returns (c: u64)
      requires Valid() && Returns(Io(), cpu.env, State(), cycles)
      modifies cpu, mmap.repr, cpu.Tracer()
      ensures Valid() && cpu.trace == old(cpu.trace)
      ensures cpu.attachedAt == old(cpu.attachedAt) && cpu.prior == old(cpu.prior)
      ensures State() == RunFor(Io(), cpu.env, old(State()), cycles) && c == cpu.cycles
    {
      c := cpu.Run(cycles);
    }

    method Snapshot() returns (snap: Snapshot)
      requires Valid()
      ensures snap == Captured(State())
    {
      assert cpu.Sound(0);
      var ram, bank, loaded, crtc, files, _ := mmap.Capture();
      var r, c := cpu.Registers();
      snap := Snapshots.Snapshot(r, c, ram, bank, loaded, crtc, files);
    }

    /** Refused without an OS ROM, or when the loaded banks differ; otherwise the captured state, with a pending
        RESET dropped and the other lines as they were here. */
    method Restore(snap: Snapshot) returns (o: Outcome)
      requires Valid() && Sized(snap)
      modifies mmap.repr, cpu
      ensures Valid() && cpu.trace == old(cpu.trace)
      ensures cpu.attachedAt == old(cpu.attachedAt) && cpu.prior == old(cpu.prior)
      ensures o == if !old(State()).bus.mem.osLoaded then Failed(NoOsRom)
                   else if snap.loaded != old(State()).bus.mem.loaded then Failed(RestoreMismatch)
                   else Done
      ensures State() == if o.Done? then Restored(old(State()), snap) else old(State())
    {
      hide Restored;
      assert cpu.Sound(0);
      var _, _, loaded, _, _, osLoaded := mmap.Capture();
      if !osLoaded {
        return Failed(NoOsRom);
      }
      if snap.loaded != loaded {
        return Failed(RestoreMismatch);
      }
      Overwrite(snap);
      return Done;
    }

    method Overwrite(snap: Snapshot)
      requires Valid() && Sized(snap)
      modifies mmap.repr, cpu
      ensures Valid() && State() == Restored(old(State()), snap) && cpu.trace == old(cpu.trace)
      ensures cpu.attachedAt == old(cpu.attachedAt) && cpu.prior == old(cpu.prior)
    {
      cpu.SetRegisters(snap.cpu, snap.cycles);
      assert cpu.Sound(0);
      mmap.RestoreFrom(snap.ram, snap.bank, snap.crtc, snap.files);
      assert forall key :: cpu.Sound(key);
    }
  }

  // Whole runs of the machine.

  /** A move of the processor or the host, or one of the two resets. */
  datatype MachineMove = Run(move: Move) | Break | PowerCycle

  function MachineMoved(env: Env, s: Core<Bbc>, mv: MachineMove): Core<Bbc> {
    match mv
    case Run(move) => Moved(Io(), env, s, move)
    case Break => Rebooted(s)
    case PowerCycle => PowerCycled(s)
  }

  function MachineAfter(env: Env, s: Core<Bbc>, moves: seq<MachineMove>): Core<Bbc>
    decreases |moves|
  {
    if moves == [] then s else MachineMoved(env, MachineAfter(env, s, moves[..|moves| - 1]), moves[|moves| - 1])
  }

  /** No sequence of steps, host calls and resets changes a ROM byte or a loaded flag, from any state at all; and the
      bank latch and the CRTC index are in range wherever it ends. */
  lemma {:induction false} RomsAreSafe(env: Env, s: Core<Bbc>, moves: seq<MachineMove>)
    ensures var m := MachineAfter(env, s, moves).bus.mem;
            BbcLaws.SameRoms(s.bus.mem, m) && m.bank < BANKS && m.crtc.selected < CRTC_REGS
    decreases |moves|
  {
    hide Isa.Step, BusLog.StepActs;
    if moves != [] {
      var t := MachineAfter(env, s, moves[..|moves| - 1]);
      RomsAreSafe(env, s, moves[..|moves| - 1]);
      if moves[|moves| - 1] == Run(Advance) {
        BusLog.StepIsDriven(Io(), env, t);
        var events := BusLog.DriveExplained(Io(), env, t.bus, BusLog.StepActs(Io(), env, t));
        BbcLaws.ReplayKeepsRoms(t.bus.mem, events);
      }
    }
  }

  /** BREAK moves the bank latch to 0 and raises RESET; RAM, stubs, images, registers and counter stay. */
  lemma {:induction false} BreakInNumbers(s: Core<Bbc>)
    ensures var m, t := s.bus.mem, Rebooted(s);
            && t.bus.mem.bank == 0 && t.bus.mem.ram == m.ram && t.bus.mem.crtc == m.crtc && t.bus.mem.files == m.files
            && t.bus.mem.os == m.os && t.bus.mem.side == m.side
            && t.bus.mem.osLoaded == m.osLoaded && t.bus.mem.loaded == m.loaded
            && t.bus.lines == s.bus.lines.(reset := true) && t.r == s.r && t.bus.cycles == s.bus.cycles
            && t.bus.log == s.bus.log && t.bus.hooks == s.bus.hooks && t.bus.traps == s.bus.traps
  {
  }

  /** A power cycle zeroes RAM and stubs too, and leaves images, registers and counter. */
  lemma {:induction false} PowerCycleInNumbers(s: Core<Bbc>)
    ensures var m, t := s.bus.mem, PowerCycled(s);
            && Layout.SwitchedOn(t.bus.mem)
            && t.bus.mem.os == m.os && t.bus.mem.side == m.side
            && t.bus.mem.osLoaded == m.osLoaded && t.bus.mem.loaded == m.loaded
            && t.bus.lines == s.bus.lines.(reset := true) && t.r == s.r && t.bus.cycles == s.bus.cycles
            && t.bus.log == s.bus.log && t.bus.hooks == s.bus.hooks && t.bus.traps == s.bus.traps
  {
    Layout.ClearedIsZero(s.bus.mem);
    hide Layout.SwitchedOn, Cleared;
    CoreOfPowerCycle(s);
  }

  lemma {:induction false} CoreOfPowerCycle(s: Core<Bbc>)
    ensures PowerCycled(s) == s.(bus := s.bus.(mem := Cleared(s.bus.mem), lines := s.bus.lines.(reset := true)))
  {
    hide Cleared;
  }

  /** A restore takes registers, counter, RAM and stubs as captured, the bank modulo 4 and the CRTC index modulo 18; the
      images stay, and of the lines only RESET moves. */
  lemma {:induction false} RestoreInNumbers(s: Core<Bbc>, snap: Snapshot)
    requires Sized(snap)
    ensures var m, t := s.bus.mem, Restored(s, snap);
            && t.r == snap.cpu && t.bus.cycles == snap.cycles
            && t.bus.mem.ram == snap.ram && t.bus.mem.bank == snap.bank % 4 && t.bus.mem.files == snap.files
            && t.bus.mem.crtc.selected == snap.crtc.selected % 18 && t.bus.mem.crtc.regs == snap.crtc.regs
            && t.bus.mem.os == m.os && t.bus.mem.side == m.side
            && t.bus.mem.osLoaded == m.osLoaded && t.bus.mem.loaded == m.loaded
            && t.bus.lines == s.bus.lines.(reset := false)
            && t.bus.log == s.bus.log && t.bus.hooks == s.bus.hooks && t.bus.traps == s.bus.traps
  {
  }

  /** Restoring a machine's own snapshot changes nothing but a pending RESET. */
  lemma {:induction false} RestoreUndoesNothing(s: Core<Bbc>)
    ensures Restored(s, Captured(s)) == s.(bus := s.bus.(lines := s.bus.lines.(reset := false)))
  {
    var m := s.bus.mem;
    assert m.bank % BANKS == m.bank && m.crtc.selected % CRTC_REGS == m.crtc.selected;
  }

  /** The documentation calls ColdReset equivalent to a fresh machine. Its memory is; its registers are not. */
  lemma {:induction false} ColdMemoryIsFresh(s: Core<Bbc>)
    ensures var m := s.bus.mem;
            PowerCycled(s).bus.mem == Blank().(os := m.os, osLoaded := m.osLoaded, side := m.side, loaded := m.loaded)
  {
  }

  const SAME: (Bbc, Bbc) -> bool := (m: Bbc, n: Bbc) => m == n

  /** A power-cycled machine, and a fresh one with the same images, after their first steps and the moves that follow:
      the same registers, counter, memory and lines, and the same bus cycles and hook calls from the power cycle on. */
  ghost predicate RunsLikeFresh(env: Env, s: Core<Bbc>, moves: seq<Move>) {
    var c := PowerCycled(s);
    var f := Fresh(c.bus.mem);
    InStep(SAME, c, f, After(Io(), env, Step(Io(), env, c), moves), After(Io(), env, Step(Io(), env, f), moves))
  }

  /** Nothing is left of what ColdReset does not reset. */
  predicate NothingLeft(s: Core<Bbc>) {
    && s.r.a == 0 && s.r.x == 0 && s.r.y == 0 && s.r.sp == 0 && s.r.pc == 0
    && s.r.p.(i := false, u := false) == NO_FLAGS
    && s.bus.cycles == 0
    && s.bus.lines.rdy && !s.bus.lines.irq && !s.bus.lines.nmi && !s.bus.lines.nmiPrev
  }

  /** Exactly when the promise holds: under every host, the machine does from its power cycle on what a fresh one does
      if and only if A, X, Y, SP, PC, the flags RESET does not set and the counter were zero, RDY was high, and no IRQ
      or NMI was up. */
  lemma {:induction false} ColdStartIsFreshIff(s: Core<Bbc>)
    ensures (forall env: Env, moves: seq<Move> :: RunsLikeFresh(env, s, moves)) <==> NothingLeft(s)
  {
    hide Isa.Step, Cleared, Io, After, InStep, PowerCycled;
    if NothingLeft(s) {
      forall env: Env, moves: seq<Move> ensures RunsLikeFresh(env, s, moves) {
        var c := PowerCycled(s);
        var f := Fresh(c.bus.mem);
        ColdRestart(env, s);
        SameAlike();
        RunAlike(Io(), env, SAME, c, f, Step(Io(), env, c), Step(Io(), env, f), moves);
      }
    } else {
      QuietRestart(s);
      assert !RunsLikeFresh(QUIET, s, []) by { NoMoves(s); }
    }
  }

  lemma {:induction false} NoMoves(s: Core<Bbc>)
    ensures var x := Step(Io(), QUIET, PowerCycled(s));
            var y := Step(Io(), QUIET, Fresh(PowerCycled(s).bus.mem));
            After(Io(), QUIET, x, []) == x && After(Io(), QUIET, y, []) == y
  {
    hide Isa.Step, Io, Cleared;
  }

  lemma {:induction false} SameAlike()
    ensures Alike(Io(), SAME)
  {
    hide Io;
  }

  /** The first step of the two machines, when nothing is left: the same bus cycles to the same effect. */
  lemma {:induction false} ColdRestart(env: Env, s: Core<Bbc>)
    requires NothingLeft(s)
    ensures var c := PowerCycled(s);
            var f := Fresh(c.bus.mem);
            InStep(SAME, c, f, Step(Io(), env, c), Step(Io(), env, f))
  {
    hide Executed, Entry, VectorTarget, Cleared, Io, Drive, EntryActs, Matched;
    var c := PowerCycled(s);
    var f := Fresh(c.bus.mem);
    var acts := BusLog.EntrySteps(Io(), env, f, ResetCause);
    assert acts == BusLog.EntrySteps(Io(), env, c, ResetCause) by { ResetActs(env, c, f); }
    BusLog.EntryIsDriven(Io(), env, c, ResetCause);
    BusLog.EntryIsDriven(Io(), env, f, ResetCause);
    SameAlike();
    assert Matched(SAME, c.bus, f.bus, c.bus, f.bus) by { MatchedAtStart(c.bus, f.bus); }
    DriveAlike(Io(), env, SAME, c.bus, f.bus, c.bus, f.bus, acts);
    Interpreter.EntryIsInterrupted(Io(), env, c, ResetCause);
    Interpreter.EntryIsInterrupted(Io(), env, f, ResetCause);
  }

  /** What RESET does on the bus depends on PC and SP alone. */
  lemma {:induction false} ResetActs(env: Env, c: Core<Bbc>, f: Core<Bbc>)
    requires c.r.pc == f.r.pc && c.r.sp == f.r.sp
    ensures BusLog.EntrySteps(Io(), env, c, ResetCause) == BusLog.EntrySteps(Io(), env, f, ResetCause)
  {
    hide Io, NmiProtocol.AtDecision;
  }

  lemma {:induction false} MatchedAtStart(b: Bus<Bbc>, c: Bus<Bbc>)
    requires b.mem == c.mem && b.cycles == c.cycles && SameLines(b.lines, c.lines)
    ensures Matched(SAME, b, c, b, c)
  {
  }

  /** With a quiet host, anything left shows in the first step or in the state after it. */
  lemma {:induction false} QuietRestart(s: Core<Bbc>)
    requires !NothingLeft(s)
    ensures var c := PowerCycled(s);
            var f := Fresh(c.bus.mem);
            !InStep(SAME, c, f, Step(Io(), QUIET, c), Step(Io(), QUIET, f))
  {
    hide Executed, Entry, VectorTarget, Cleared, Io;
    var c := PowerCycled(s);
    var f := Fresh(c.bus.mem);
    assert Step(Io(), QUIET, f) == Entry(Io(), QUIET, f, ResetCause);
    QuietReset(f);
    Interpreter.EntryIsInterrupted(Io(), QUIET, f, ResetCause);
    if s.bus.lines.rdy {
      assert Step(Io(), QUIET, c) == Entry(Io(), QUIET, c, ResetCause);
      QuietReset(c);
      Interpreter.EntryIsInterrupted(Io(), QUIET, c, ResetCause);
      if s.r.pc != 0 { StalePcShows(c, f); }
    }
  }

  /** RESET reads at PC before anything else. */
  lemma {:induction false} StalePcShows(c: Core<Bbc>, f: Core<Bbc>)
    requires c.bus.lines.rdy && f.bus.lines.rdy && c.bus.lines.reset && f.bus.lines.reset && c.r.pc != f.r.pc
    ensures !InStep(SAME, c, f, Step(Io(), QUIET, c), Step(Io(), QUIET, f))
  {
    hide Io, Isa.Step, BusLog.StepActs, Table;
    PlanShown(Io(), QUIET, c);
    PlanShown(Io(), QUIET, f);
    EventsShow(Io(), QUIET, c);
    EventsShow(Io(), QUIET, f);
  }

  lemma {:induction false} QuietReset(s: Core<Bbc>)
    ensures var b := Entry(Io(), QUIET, s, ResetCause).bus;
            b.lines == s.bus.lines.(reset := false) && b.cycles == (s.bus.cycles + 7) % WRAP
  {
    hide VectorTarget, Io, Drive, EntryActs;
    var mid := Drive(Io(), QUIET, s.bus, EntryActs(s.r, ResetCause));
    var fetch := [R(RESET_VECTOR), R(RESET_VECTOR + 1)];
    NmiProtocol.QuietEntry(Io(), s, ResetCause);
    NmiProtocol.QuietLines(Io(), mid, fetch);
    DriveSnoc(Io(), QUIET, mid, fetch, EndReset);
    assert fetch + [EndReset] == VectorActs(ResetCause, mid.lines);
    Timing.EntryCost(Io(), QUIET, s, ResetCause);
    Timing.LaterIsSum(s.bus.cycles, 7);
  }

  /** For instance, A survives a power cycle. */
  lemma {:induction false} ColdStartKeepsA(env: Env, s: Core<Bbc>)
    requires s.bus.lines.rdy
    ensures Step(Io(), env, PowerCycled(s)).r.a == s.r.a
  {
    hide Executed, Entry, VectorTarget, Cleared, Table;
    assert Step(Io(), env, PowerCycled(s)) == Entry(Io(), env, PowerCycled(s), ResetCause);
    Interpreter.EntryIsInterrupted(Io(), env, PowerCycled(s), ResetCause);
  }

  // The processor's laws, on this memory.

  /** On the BBC's memory map every step that executes an instruction is the simple interpreter's. */
  lemma {:induction false} MachineStepIsInterpreted(env: Env, s: Core<Bbc>)
    requires s.bus.lines.rdy && PlanOf(Io(), s).Execute? && !NmiProtocol.ServesNmi(Io(), env, s)
    ensures Interpreter.ArchOf(Step(Io(), env, s)) == Interpreter.Interpret(Io(), Interpreter.ArchOf(s))
  {
    hide Isa.Step, Interpreter.Interpret, NmiProtocol.ServesNmi, Table;
    BbcLaws.IoAbsorbs();
    Interpreter.StepIsInterpreted(Io(), env, s);
  }

  /** And its stack is a stack. */
  lemma {:induction false} MachineNestedRun(env: Env, s: Core<Bbc>, n: StackDiscipline.Nest, depth: nat)
    requires StackDiscipline.WellNested(Io(), env, s, n, depth)
    ensures StackDiscipline.SameStack(Io(), s, StackDiscipline.End(Io(), env, s, n), depth)
  {
    hide StackDiscipline.WellNested, StackDiscipline.End, StackDiscipline.SameStack;
    BbcLaws.IoAbsorbs();
    BbcLaws.IoStackIsRam();
    StackDiscipline.NestedRun(Io(), env, s, n, depth);
  }

  /** The shortest nested run: PHA and then PLA, wherever they stand, unless the push overwrites the PLA. */
  lemma {:induction false} PushPullNests(s: Core<Bbc>)
    requires var l := s.bus.lines; l.rdy && !l.reset && !l.nmi && (l.irq ==> s.r.p.i)
    requires Peek(Io(), s.bus.mem, s.r.pc) == 0x48 && Peek(Io(), s.bus.mem, Next(s.r.pc)) == 0x68
    requires Next(s.r.pc) != Stack(s.r.sp)
    ensures StackDiscipline.WellNested(Io(), QUIET, s,
      StackDiscipline.Frame(StackDiscipline.PushedA, StackDiscipline.Done, StackDiscipline.Done), 0)
  {
    hide Isa.Step, Io;
    var inside := Step(Io(), QUIET, s);
    BbcLaws.IoAbsorbs();
    BbcLaws.IoStackIsRam();
    StackDiscipline.ExecutedArch(Io(), QUIET, s, Pha);
    BusLog.StepIsDriven(Io(), QUIET, s);
    NmiProtocol.QuietLines(Io(), s.bus, BusLog.StepActs(Io(), QUIET, s));
    BbcLaws.IoIs(s.bus.mem, Stack(s.r.sp), true, s.r.a);
    BbcLaws.IoIs(s.bus.mem, Next(s.r.pc), true, 0);
    BbcLaws.IoIs(inside.bus.mem, Next(s.r.pc), true, 0);
    BbcLaws.ReadAfterWrite(s.bus.mem, Stack(s.r.sp), s.r.a, Next(s.r.pc));
    assert PlanOf(Io(), inside) == Execute(Pla);
  }
}
