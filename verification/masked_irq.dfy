/** An IRQ line that is masked may show later or never: it depends on the program, so no condition on the lines and
    registers alone decides it. */
module MaskedIrq {
  import opened Bits
  import opened Status
  import opened Bus
  import opened Alu
  import opened Isa
  import opened NmiProtocol
  import opened Interpreter
  import opened Runs
  import opened BbcMemory
  import BbcLaws
  import opened BusLog
  import opened Snapshots

  /** A masked IRQ line shows, for one, when the program is about to unmask it. */
  lemma {:induction false} MaskedIrqShowsAfterCli(s: Core<Bbc>, t: Core<Bbc>)
    requires s.r == t.r && s.bus.cycles == t.bus.cycles && Indistinct(s.bus.mem, t.bus.mem)
    requires s.bus.lines == POWER_ON.(reset := false, irq := true) && t.bus.lines == s.bus.lines.(irq := false)
    requires Peek(Io(), s.bus.mem, s.r.pc) == 0x58 && s.r.p.i
    ensures !SameFuture(s, t)
  {
    hide Isa.Step, Io, Indistinct, SameFuture, After, StepActs, Drive;
    var step := [Advance];
    IndistinctAlike();
    PairAlike(s.bus.mem, t.bus.mem, s.r.pc, false, 0);
    assert Table(0x58).inst == Implied(CLI);
    CliStep(s);
    CliStep(t);
    OneMove(QUIET, s);
    OneMove(QUIET, t);
    PlansPart(After(Io(), QUIET, s, step), After(Io(), QUIET, t, step));
    StepParts(QUIET, s, t, step);
  }

  lemma {:induction false} CliStep(s: Core<Bbc>)
    requires s.bus.lines.rdy && PlanOf(Io(), s) == Execute(Implied(CLI))
    ensures var s' := Step(Io(), QUIET, s);
            s'.r == Fetched(s.r).(p := s.r.p.(i := false)) && s'.bus.lines == s.bus.lines
  {
    hide Io, Drive, Table;
    QuietLines(Io(), s.bus, [R(s.r.pc)] + [R(Next(s.r.pc))]);
  }

  // A program that never unmasks.

  /** JMP $0000 at $0000, with every vector pointing there too, and I set. */
  predicate Parked(s: Core<Bbc>) { ParkedMemory(s.bus.mem) && s.r.pc == 0 && s.r.p.i }

  predicate ParkedMemory(m: Bbc) { m.ram[..3] == [0x4C, 0x00, 0x00] && m.os == Zeros(ROM_SIZE) }

  /** The same lines but for IRQ. */
  predicate ButIrq(l: Lines, k: Lines) { k == l.(irq := k.irq) }

  lemma {:induction false} SignalledButIrq(l: Lines, k: Lines, sig: Signal)
    requires ButIrq(l, k)
    ensures ButIrq(Signalled(l, sig), Signalled(k, sig))
  {
  }

  lemma {:induction false} DeliveredButIrq(l: Lines, k: Lines, sigs: seq<Signal>)
    requires ButIrq(l, k)
    ensures ButIrq(Delivered(l, sigs), Delivered(k, sigs))
    decreases |sigs|
  {
    hide Signalled, ButIrq;
    if sigs != [] {
      var before := sigs[..|sigs| - 1];
      DeliveredButIrq(l, k, before);
      SignalledButIrq(Delivered(l, before), Delivered(k, before), sigs[|sigs| - 1]);
    }
  }

  /** Two buses that differ in the IRQ line and nothing else. */
  predicate BusButIrq(b: Bus<Bbc>, c: Bus<Bbc>) { c == b.(lines := c.lines) && ButIrq(b.lines, c.lines) }

  lemma {:induction false} DoButIrq(env: Env, b: Bus<Bbc>, c: Bus<Bbc>, act: Act)
    requires BusButIrq(b, c)
    ensures BusButIrq(Do(Io(), env, b, act), Do(Io(), env, c, act))
  {
    hide Io, Delivered, Peek, Poke, Seen, Tick;
    DeliveredButIrq(b.lines, c.lines, env(b.cycles));
  }

  lemma {:induction false} DriveButIrq(env: Env, b: Bus<Bbc>, c: Bus<Bbc>, acts: seq<Act>)
    requires BusButIrq(b, c)
    ensures BusButIrq(Drive(Io(), env, b, acts), Drive(Io(), env, c, acts))
    decreases |acts|
  {
    hide Io, Do, BusButIrq;
    if acts != [] {
      DoButIrq(env, b, c, acts[0]);
      DriveButIrq(env, Do(Io(), env, b, acts[0]), Do(Io(), env, c, acts[0]), acts[1..]);
    }
  }

  lemma {:induction false} CodeByte(m: Bbc, a: word)
    requires ParkedMemory(m) && a < 3
    ensures Peek(Io(), m, a) == if a == 0 then 0x4C else 0x00
  {
    BbcLaws.IoIs(m, a, false, 0);
    assert m.ram[..3][a] == m.ram[a];
  }

  lemma {:induction false} VectorByte(m: Bbc, a: word)
    requires ParkedMemory(m) && a >= 0xFF00
    ensures Peek(Io(), m, a) == 0
  {
    BbcLaws.IoIs(m, a, false, 0);
  }

  lemma {:induction false} ParkedReads(m: Bbc)
    requires ParkedMemory(m)
    ensures Peek(Io(), m, 0) == 0x4C && Peek(Io(), m, 1) == 0 && Peek(Io(), m, 2) == 0
    ensures VectorTarget(Io(), m, NMI_VECTOR) == 0 && VectorTarget(Io(), m, RESET_VECTOR) == 0
  {
    hide Io, ParkedMemory, Peek;
    CodeByte(m, 0);
    CodeByte(m, 1);
    CodeByte(m, 2);
    VectorByte(m, NMI_VECTOR);
    VectorByte(m, Next(NMI_VECTOR));
    VectorByte(m, RESET_VECTOR);
    VectorByte(m, Next(RESET_VECTOR));
  }

  lemma {:induction false} PushKeepsParked(m: Bbc, a: word, v: byte)
    requires ParkedMemory(m) && 0x100 <= a < 0x200
    ensures ParkedMemory(Poke(Io(), m, a, v))
  {
    BbcLaws.IoIs(m, a, true, v);
    assert Write(m, a, v).ram[..3] == m.ram[..3];
  }

  lemma {:induction false} FrameKeepsParked(m: Bbc, r: Regs, cause: Cause)
    requires ParkedMemory(m)
    ensures ParkedMemory(PushedFrame(Io(), m, r, cause))
  {
    hide Io, ParkedMemory, PushedP;
    var m1 := Poke(Io(), m, Stack(r.sp), Hi(r.pc));
    PushKeepsParked(m, Stack(r.sp), Hi(r.pc));
    PushKeepsParked(m1, Stack(Down(r.sp, 1)), Lo(r.pc));
    PushKeepsParked(PushedPc(Io(), m, r.sp, r.pc), Stack(Down(r.sp, 2)), PushedP(r.p, cause));
  }

  lemma {:induction false} ParkedEntry(env: Env, s: Core<Bbc>, t: Core<Bbc>, cause: Cause)
    requires Parked(s) && s.r == t.r && BusButIrq(s.bus, t.bus) && (cause.NmiCause? || cause.ResetCause?)
    ensures var s', t' := Entry(Io(), env, s, cause), Entry(Io(), env, t, cause);
            Parked(s') && s'.r == t'.r && BusButIrq(s'.bus, t'.bus)
  {
    hide Io, ParkedMemory, EntryActs, Drive, VectorTarget, PushedFrame;
    EntryIsInterrupted(Io(), env, s, cause);
    var p, q := Drive(Io(), env, s.bus, EntryActs(s.r, cause)), Drive(Io(), env, t.bus, EntryActs(t.r, cause));
    DriveButIrq(env, s.bus, t.bus, EntryActs(s.r, cause));
    DriveButIrq(env, p, q, VectorActs(cause, p.lines));
    ParkedReads(s.bus.mem);
    FrameKeepsParked(s.bus.mem, s.r, cause);
    ParkedReads(PushedFrame(Io(), s.bus.mem, s.r, cause));
  }

  lemma {:induction false} ParkedJump(env: Env, s: Core<Bbc>, t: Core<Bbc>)
    requires Parked(s) && s.r == t.r && BusButIrq(s.bus, t.bus)
    ensures var s', t' := Executed(Io(), env, s, JmpAbs), Executed(Io(), env, t, JmpAbs);
            Parked(s') && s'.r == t'.r && BusButIrq(s'.bus, t'.bus)
  {
    hide Io, ParkedMemory, Drive;
    var acts := [R(s.r.pc)] + InstActs(Io(), Fetched(s.r), s.bus.mem, JmpAbs);
    ParkedReads(s.bus.mem);
    DriveButIrq(env, s.bus, t.bus, acts);
    ReadsOnly(Io(), env, s.bus, acts);
  }

  lemma {:induction false} ParkedStep(env: Env, s: Core<Bbc>, t: Core<Bbc>)
    requires Parked(s) && s.r == t.r && BusButIrq(s.bus, t.bus)
    ensures var s', t' := Step(Io(), env, s), Step(Io(), env, t);
            Parked(s') && s'.r == t'.r && BusButIrq(s'.bus, t'.bus)
  {
    hide Io, ParkedMemory, Entry, Executed, Table;
    if s.bus.lines.rdy {
      ParkedReads(s.bus.mem);
      assert Table(0x4C).inst == JmpAbs by { JumpByte(); }
      var plan := PlanOf(Io(), s);
      assert PlanOf(Io(), t) == plan;
      if plan.Interrupt? { ParkedEntry(env, s, t, plan.cause); } else { ParkedJump(env, s, t); }
    }
  }

  lemma {:induction false} JumpByte()
    ensures Table(0x4C).inst == JmpAbs
  {
  }

  lemma {:induction false} ParkedRun(env: Env, s: Core<Bbc>, t: Core<Bbc>, moves: seq<Move>)
    requires Parked(s) && s.r == t.r && BusButIrq(s.bus, t.bus)
    ensures var s', t' := After(Io(), env, s, moves), After(Io(), env, t, moves);
            Parked(s') && s'.r == t'.r && BusButIrq(s'.bus, t'.bus)
    decreases |moves|
  {
    hide Io, ParkedMemory, Isa.Step, Signalled, ButIrq;
    if moves != [] {
      var before := moves[..|moves| - 1];
      ParkedRun(env, s, t, before);
      var x, y := After(Io(), env, s, before), After(Io(), env, t, before);
      match moves[|moves| - 1]
      case Host(sig) => SignalledButIrq(x.bus.lines, y.bus.lines, sig);
      case Advance => ParkedStep(env, x, y);
    }
  }

  /** And here it never shows, whatever the host does: not even NMI or RESET unmask it. */
  lemma {:induction false} MaskedIrqNeverShowsParked(s: Core<Bbc>, t: Core<Bbc>)
    requires Parked(s) && s.r == t.r && BusButIrq(s.bus, t.bus)
    ensures SameFuture(s, t)
  {
    hide Io, Parked, After;
    forall env: Env, moves: seq<Move> ensures Shown(env, s, moves) == Shown(env, t, moves) {
      ParkedRun(env, s, t, moves);
    }
  }
}
