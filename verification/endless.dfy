/** The end of the 64-bit counter: exactly which deadlines every run of the machine reaches. */
module Endless {
  import opened Bits
  import opened Status
  import opened Bus
  import opened Alu
  import opened Isa
  import opened NmiProtocol
  import opened Runs
  import opened Timing
  import opened BbcMemory
  import Interpreter
  import BbcLaws

  /** INC $4000,X and three NOPs and JMP $0000: sixteen cycles a lap, seven of them in one step. */
  const LOOP: seq<byte> := [0xFE, 0x00, 0x40, 0xEA, 0xEA, 0xEA, 0x4C, 0x00, 0x00]

  predicate HasLoop(m: Bbc) { m.ram[..9] == LOOP }

  /** Somewhere in the loop, so placed that its long step starts seven cycles before each multiple of sixteen. */
  predicate Looping(s: Core<Bbc>) {
    && HasLoop(s.bus.mem) && s.r.x == 0
    && s.bus.lines.rdy && !s.bus.lines.reset && !s.bus.lines.nmi && !s.bus.lines.irq
    && match s.bus.cycles % 16
       case 9 => s.r.pc == 0
       case 0 => s.r.pc == 3
       case 2 => s.r.pc == 4
       case 4 => s.r.pc == 5
       case 6 => s.r.pc == 6
       case _ => false
  }

  lemma {:induction false} LoopCode(m: Bbc, a: word)
    requires HasLoop(m) && a < 9
    ensures Peek(Io(), m, a) == LOOP[a]
  {
    assert m.ram[..9][a] == m.ram[a];
  }

  /** A write at $4000 leaves the program as it is. */
  lemma {:induction false} LoopKept(m: Bbc, v: byte)
    requires HasLoop(m)
    ensures HasLoop(Poke(Io(), m, 0x4000, v))
  {
    BbcLaws.IoIs(m, 0x4000, true, v);
    assert Write(m, 0x4000, v).ram[..9] == m.ram[..9];
  }

  function Counted(c: u64, k: nat): u64 { (c + k) % WRAP }

  /** The counter wraps at a multiple of sixteen. */
  lemma {:induction false} CountedMod16(c: u64, k: nat)
    requires k <= 7
    ensures Counted(c, k) % 16 == if c % 16 + k < 16 then c % 16 + k else c % 16 + k - 16
  {
    var n := if c + k < WRAP then c + k else c + k - WRAP;
    assert Counted(c, k) == n;
    assert c == 16 * (c / 16) + c % 16;
  }

  /** An undisturbed instruction step other than BRK. */
  lemma {:induction false} QuietStep(s: Core<Bbc>)
    requires s.bus.lines.rdy && !s.bus.lines.reset && !s.bus.lines.nmi && !s.bus.lines.irq
    requires !Table(Peek(Io(), s.bus.mem, s.r.pc)).inst.Brk? && !Table(Peek(Io(), s.bus.mem, s.r.pc)).inst.Illegal?
    ensures var row := Table(Peek(Io(), s.bus.mem, s.r.pc));
            var s' := Step(Io(), QUIET, s);
            && s'.r == RegsAfter(Io(), Fetched(s.r), s.bus.mem, row.inst)
            && s'.bus.mem == Interpreter.MemoryAfter(Io(), Fetched(s.r), s.bus.mem, row.inst)
            && s'.bus.lines == s.bus.lines
            && s'.bus.cycles == Counted(s.bus.cycles, row.cycles + Extra(Io(), Fetched(s.r), s.bus.mem, row.inst))
  {
    hide Io, Table, Isa.Step, InstActs, RegsAfter, Interpreter.MemoryAfter, Extra, Drive, EntryActs;
    BbcLaws.IoAbsorbs();
    NoHijackWhenQuiet(Io(), s);
    Interpreter.StepIsInterpreted(Io(), QUIET, s);
    StepTiming(Io(), QUIET, s);
    Interpreter.QuietStepLines(Io(), s);
  }

  lemma {:induction false} LoopTable()
    ensures Table(0xFE) == Row(Rmw(INC, AbsoluteX), AbsoluteX, 7)
    ensures Table(0xEA) == Row(Implied(NOP), Implicit, 2)
    ensures Table(0x4C) == Row(JmpAbs, Absolute, 3)
  {
  }

  /** The long step writes at $4000, and moves nothing but PC and the flags. */
  lemma {:induction false} LongStepEffect(m: Bbc, r: Regs)
    requires HasLoop(m) && r.pc == 1 && r.x == 0
    ensures Ea(Io(), m, r, AbsoluteX) == Base(Io(), m, r, AbsoluteX) == 0x4000
    ensures var r' := RegsAfter(Io(), r, m, Rmw(INC, AbsoluteX));
            r'.pc == 3 && r'.x == 0
    ensures Extra(Io(), r, m, Rmw(INC, AbsoluteX)) == 0
  {
    hide Io, HasLoop, Peek, Loaded, ImpliedRegs, Shifted, ShiftFlags, FromByte, ToByte, BranchTarget;
    LoopCode(m, 1);
    LoopCode(m, 2);
  }

  lemma {:induction false} LongStepMemory(m: Bbc, r: Regs)
    requires HasLoop(m) && Ea(Io(), m, r, AbsoluteX) == 0x4000
    ensures HasLoop(Interpreter.MemoryAfter(Io(), r, m, Rmw(INC, AbsoluteX)))
  {
    hide Io, HasLoop, Ea, Shifted;
    LoopKept(m, Shifted(INC, r.p.c, Peek(Io(), m, 0x4000)));
  }

  lemma {:induction false} LongStep(s: Core<Bbc>)
    requires Looping(s) && s.r.pc == 0
    ensures Looping(Step(Io(), QUIET, s))
  {
    hide Io, Isa.Step, HasLoop, Table, Ea, Base, RegsAfter, Interpreter.MemoryAfter, Peek, Extra, Counted;
    CountedMod16(s.bus.cycles, 7);
    LoopCode(s.bus.mem, 0);
    LoopTable();
    LongStepEffect(s.bus.mem, Fetched(s.r));
    LongStepMemory(s.bus.mem, Fetched(s.r));
    QuietStep(s);
  }

  lemma {:induction false} NopEffect(m: Bbc, r: Regs)
    ensures RegsAfter(Io(), r, m, Implied(NOP)) == r
    ensures Interpreter.MemoryAfter(Io(), r, m, Implied(NOP)) == m && Extra(Io(), r, m, Implied(NOP)) == 0
  {
    hide Io, Peek, Loaded, Shifted, ShiftFlags, FromByte, ToByte, Ea, Base, BranchTarget;
  }

  lemma {:induction false} NopStep(s: Core<Bbc>)
    requires Looping(s) && 0 < s.r.pc < 6
    ensures Looping(Step(Io(), QUIET, s))
  {
    hide Io, Isa.Step, HasLoop, Table, RegsAfter, Interpreter.MemoryAfter, Peek, Extra, Counted;
    CountedMod16(s.bus.cycles, 2);
    LoopCode(s.bus.mem, s.r.pc);
    LoopTable();
    NopEffect(s.bus.mem, Fetched(s.r));
    QuietStep(s);
  }

  lemma {:induction false} JumpEffect(m: Bbc, r: Regs)
    requires HasLoop(m) && r.pc == 7
    ensures RegsAfter(Io(), r, m, JmpAbs) == r.(pc := 0)
    ensures Interpreter.MemoryAfter(Io(), r, m, JmpAbs) == m && Extra(Io(), r, m, JmpAbs) == 0
  {
    JumpGoesToTarget(Io(), m, r);
    JumpTarget(m, r);
    hide RegsAfter, Io, HasLoop, Peek;
  }

  lemma {:induction false} JumpGoesToTarget<M>(io: Memory<M>, m: M, r: Regs)
    ensures RegsAfter(io, r, m, JmpAbs) == r.(pc := Word(Peek(io, m, r.pc), Peek(io, m, Next(r.pc))))
  {
    hide Peek, Loaded, ImpliedRegs, Shifted, ShiftFlags, FromByte, ToByte, Ea, Base, BranchTarget;
  }

  lemma {:induction false} JumpTarget(m: Bbc, r: Regs)
    requires HasLoop(m) && r.pc == 7
    ensures Peek(Io(), m, r.pc) == 0 && Peek(Io(), m, Next(r.pc)) == 0
  {
    hide Io, HasLoop, Peek;
    LoopCode(m, r.pc);
    LoopCode(m, Next(r.pc));
  }

  lemma {:induction false} JumpStep(s: Core<Bbc>)
    requires Looping(s) && s.r.pc == 6
    ensures Looping(Step(Io(), QUIET, s))
  {
    hide Io, Isa.Step, HasLoop, Table, RegsAfter, Interpreter.MemoryAfter, Peek, Extra, Counted;
    CountedMod16(s.bus.cycles, 3);
    LoopCode(s.bus.mem, 6);
    LoopTable();
    JumpEffect(s.bus.mem, Fetched(s.r));
    QuietStep(s);
  }

  /** The loop passes the end of the counter between two steps: no state of it shows a count of the last six. */
  lemma {:induction false} LoopMissesTheEnd(s: Core<Bbc>, n: nat)
    requires Looping(s)
    ensures Looping(Steps(Io(), QUIET, s, n)) && Steps(Io(), QUIET, s, n).bus.cycles <= WRAP - 7
    decreases n
  {
    hide Isa.Step, Io, HasLoop;
    if n > 0 {
      LoopMissesTheEnd(s, n - 1);
      var t := Steps(Io(), QUIET, s, n - 1);
      if t.r.pc == 0 { LongStep(t); } else if t.r.pc < 6 { NopStep(t); } else { JumpStep(t); }
    }
  }

  function LoopMemory(): Bbc {
    Blank().(ram := LOOP + Zeros(RAM_SIZE - 9))
  }

  /** The loop about to start its long step, with seven cycles left on the counter. */
  function AtTheEnd(): Core<Bbc> {
    Core(Regs(0, 0, 0, 0, 0, NO_FLAGS), Bus(LoopMemory(), POWER_ON.(reset := false), WRAP - 7, [], [], []))
  }

  /** The count of some state to come is at or past the deadline. */
  ghost predicate Reaches(env: Env, s: Core<Bbc>, deadline: nat) {
    exists n: nat :: Steps(Io(), env, s, n).bus.cycles >= deadline
  }

  /** Every ready run under a host that keeps RDY high gets to this deadline, whatever the program. */
  ghost predicate AlwaysReached(deadline: nat) {
    forall env: Env, s: Core<Bbc> :: KeepsReady(env) && s.bus.lines.rdy && s.bus.cycles < deadline
      ==> Reaches(env, s, deadline)
  }

  /** A budgeted run is sure to spend its budget exactly when its deadline is not among the last six values of the
      counter: a step of seven cycles can jump over those, and then the run need never end. */
  lemma {:induction false} AlwaysReachedIff(deadline: u64)
    ensures AlwaysReached(deadline) <==> deadline <= WRAP - 7
  {
    hide Isa.Step, Io, KeepsReady, LoopMemory;
    if deadline <= WRAP - 7 {
      forall env: Env, s: Core<Bbc> | KeepsReady(env) && s.bus.lines.rdy && s.bus.cycles < deadline
        ensures Reaches(env, s, deadline)
      {
        RunEnds(Io(), env, s, deadline);
        RunReady(Io(), env, s, deadline);
      }
    } else {
      var s := AtTheEnd();
      LoopStarts();
      QuietKeepsReady();
      forall n: nat ensures Steps(Io(), QUIET, s, n).bus.cycles < deadline {
        LoopMissesTheEnd(s, n);
      }
      assert !Reaches(QUIET, s, deadline);
    }
  }

  lemma {:induction false} LoopStarts()
    ensures Looping(AtTheEnd())
  {
    assert LoopMemory().ram[..9] == LOOP;
  }

  lemma {:induction false} QuietKeepsReady()
    ensures KeepsReady(QUIET)
  {
  }

  /** And such a run does not return: its loop finds the counter below the deadline and RDY high for ever. */
  lemma {:induction false} RunMayNeverEnd(deadline: u64)
    requires deadline > WRAP - 7
    ensures !Ends(Io(), QUIET, AtTheEnd(), deadline)
  {
    hide Isa.Step, Io, LoopMemory, AtTheEnd, HasLoop;
    LoopStarts();
    forall n: nat ensures !Stops(Steps(Io(), QUIET, AtTheEnd(), n), deadline) {
      LoopMissesTheEnd(AtTheEnd(), n);
    }
  }
}
