/** Snapshot and Restore: what is captured, and when it determines the future. */
module Snapshots {
  import opened Bits
  import opened Bus
  import opened Status
  import opened Alu
  import opened Isa
  import opened NmiProtocol
  import opened Interpreter
  import opened Runs
  import opened Bisimulation
  import opened BbcMemory
  import BbcLaws
  import opened BusLog

  /** The captured state: registers, counter, RAM, bank, loaded flags and the stubs. ROM bytes and the signal lines
      are not part of it. */
  datatype Snapshot = Snapshot(
    cpu: Regs, cycles: u64,
    ram: seq<byte>, bank: nat, loaded: seq<bool>,
    crtc: CrtcState, files: seq<seq<byte>>)

  /** A snapshot of the sizes the Go arrays have. Bank and CRTC index may be any bytes. */
  predicate Sized(snap: Snapshot) {
    && |snap.ram| == RAM_SIZE && |snap.loaded| == BANKS && |snap.crtc.regs| == CRTC_REGS
    && |snap.files| == STUBS && forall i :: 0 <= i < STUBS ==> |snap.files[i]| == Size(i)
  }

  function Captured(s: Core<Bbc>): (snap: Snapshot)
    ensures Sized(snap)
  {
    var m := s.bus.mem;
    Snapshot(s.r, s.bus.cycles, m.ram, m.bank, m.loaded, m.crtc, m.files)
  }

  /** The state Restore leaves: a pending RESET is dropped, the other lines stay. */
  function Restored(s: Core<Bbc>, snap: Snapshot): Core<Bbc>
    requires Sized(snap)
  {
    var m := Refilled(s.bus.mem, snap.ram, snap.bank, snap.crtc, snap.files);
    Core(snap.cpu, s.bus.(mem := m, cycles := snap.cycles, lines := s.bus.lines.(reset := false)))
  }

  /** What no read can tell apart: bytes of banks that are not loaded, and the registers behind FDC and Econet. */
  predicate Indistinct(m: Bbc, n: Bbc) {
    && m.ram == n.ram && m.os == n.os && m.loaded == n.loaded && m.bank == n.bank && m.crtc == n.crtc
    && (forall i :: 0 <= i < BANKS && m.loaded[i] ==> m.side[i] == n.side[i])
    && (forall i :: 0 <= i < STUBS && Readable(i) ==> m.files[i] == n.files[i])
  }

  lemma {:induction false} IndistinctReads(m: Bbc, n: Bbc, a: word, w: bool, v: byte)
    requires Indistinct(m, n)
    ensures BbcMemory.Read(m, a) == BbcMemory.Read(n, a) && Observe(m, a, w, v) == Observe(n, a, w, v)
  {
  }

  lemma {:induction false} IndistinctWrites(m: Bbc, n: Bbc, a: word, v: byte)
    requires Indistinct(m, n)
    ensures Indistinct(Write(m, a, v), Write(n, a, v))
  {
  }

  const INDISTINCT: (Bbc, Bbc) -> bool := (m: Bbc, n: Bbc) => Indistinct(m, n)

  lemma {:induction false} PairAlike(m: Bbc, n: Bbc, a: word, w: bool, v: byte)
    requires INDISTINCT(m, n)
    ensures Peek(Io(), m, a) == Peek(Io(), n, a) && Seen(Io(), m, a, w, v) == Seen(Io(), n, a, w, v)
    ensures INDISTINCT(Poke(Io(), m, a, v), Poke(Io(), n, a, v))
  {
    hide Indistinct, BbcMemory.Read, Write, Observe;
    IndistinctReads(m, n, a, w, v);
    IndistinctWrites(m, n, a, v);
    BbcLaws.IoIs(m, a, w, v);
    BbcLaws.IoIs(n, a, w, v);
  }

  lemma {:induction false} IndistinctAlike()
    ensures Alike(Io(), INDISTINCT)
  {
    hide Indistinct, Io, INDISTINCT;
    forall m: Bbc, n: Bbc | INDISTINCT(m, n)
      ensures forall a: word :: Peek(Io(), m, a) == Peek(Io(), n, a)
      ensures forall a: word, v: byte :: INDISTINCT(Poke(Io(), m, a, v), Poke(Io(), n, a, v))
      ensures forall a: word, w: bool, v: byte :: Seen(Io(), m, a, w, v) == Seen(Io(), n, a, w, v)
    {
      forall a: word ensures Peek(Io(), m, a) == Peek(Io(), n, a) { PairAlike(m, n, a, true, 0); }
      forall a: word, v: byte ensures INDISTINCT(Poke(Io(), m, a, v), Poke(Io(), n, a, v)) {
        PairAlike(m, n, a, true, v);
      }
      forall a: word, w: bool, v: byte ensures Seen(Io(), m, a, w, v) == Seen(Io(), n, a, w, v) {
        PairAlike(m, n, a, w, v);
      }
    }
  }

  /** Bytes in banks that are not loaded and the FDC and Econet registers never influence a run. */
  lemma {:induction false} HiddenBytesNeverMatter(env: Env, s: Core<Bbc>, t: Core<Bbc>, moves: seq<Move>)
    requires s.r == t.r && s.bus.cycles == t.bus.cycles && SameLines(s.bus.lines, t.bus.lines)
    requires Indistinct(s.bus.mem, t.bus.mem)
    ensures InStep(INDISTINCT, s, t, After(Io(), env, s, moves), After(Io(), env, t, moves))
  {
    hide Indistinct, After;
    IndistinctAlike();
    RunAlike(Io(), env, INDISTINCT, s, t, s, t, moves);
  }

  /** The destination holds the images the source holds, in every bank that is loaded, and its lines agree. */
  predicate Prepared(a: Core<Bbc>, b: Core<Bbc>) {
    && SameImages(a.bus.mem, b.bus.mem)
    && SameLines(a.bus.lines.(reset := false), b.bus.lines.(reset := false))
  }

  /** After `b.Restore(a.Snapshot())`, with no RESET pending in `a`, both machines run alike for ever: the same
      registers, counter, RAM, bank and stubs, the same bus cycles and the same hook calls, whatever the host does. */
  lemma {:induction false} RestoreContinues(env: Env, a: Core<Bbc>, b: Core<Bbc>, moves: seq<Move>)
    requires Prepared(a, b) && !a.bus.lines.reset
    ensures var b' := Restored(b, Captured(a));
            InStep(INDISTINCT, a, b', After(Io(), env, a, moves), After(Io(), env, b', moves))
  {
    hide After;
    RestoredState(a, b);
    HiddenBytesNeverMatter(env, a, Restored(b, Captured(a)), moves);
  }

  /** And in the caller's terms: every sequence of ticks and signals, with the same budgets, keeps them alike; and what
      returns on one machine returns on the other. */
  lemma {:induction false} RestoreTicks(env: Env, a: Core<Bbc>, b: Core<Bbc>, uses: seq<Use>)
    requires Prepared(a, b) && !a.bus.lines.reset
    ensures var b' := Restored(b, Captured(a));
            && (UsesReturn(Io(), env, a, uses) <==> UsesReturn(Io(), env, b', uses))
            && (UsesReturn(Io(), env, a, uses) ==>
                  InStep(INDISTINCT, a, b', AfterUses(Io(), env, a, uses), AfterUses(Io(), env, b', uses)))
  {
    hide AfterUses, UsesReturn, Indistinct;
    RestoredState(a, b);
    IndistinctAlike();
    UsesAlike(Io(), env, INDISTINCT, a, Restored(b, Captured(a)), a, Restored(b, Captured(a)), uses);
  }

  // When RESET is pending.

  /** The addresses and directions of the accesses in a list of acts. */
  function Accesses(acts: seq<Act>): seq<(word, Kind)>
    decreases |acts|
  {
    if acts == [] then []
    else (match acts[0]
          case R(a) => [(a, BusRead)]
          case W(a, _) => [(a, BusWrite)]
          case _ => []) + Accesses(acts[1..])
  }

  function Shapes(events: seq<BusEvent>): seq<(word, Kind)> {
    seq(|events|, i requires 0 <= i < |events| => (events[i].addr, events[i].kind))
  }

  lemma {:induction false} DoShapes<M>(io: Memory<M>, env: Env, b: Bus<M>, act: Act)
    ensures var b' := Do(io, env, b, act);
            && b.log <= b'.log
            && Shapes(b'.log[|b.log|..]) == Accesses([act])
  {
    hide Peek, Poke, Seen, Delivered, Tick;
    assert Accesses([]) == [] && [act][1..] == [];
  }

  lemma {:induction false} ShapesAppend(first: seq<BusEvent>, second: seq<BusEvent>)
    ensures Shapes(first + second) == Shapes(first) + Shapes(second)
  {
  }

  lemma {:induction false} DriveShapes<M>(io: Memory<M>, env: Env, b: Bus<M>, acts: seq<Act>)
    ensures b.log <= Drive(io, env, b, acts).log
    ensures Shapes(Drive(io, env, b, acts).log[|b.log|..]) == Accesses(acts)
    decreases |acts|
  {
    hide Do, Shapes, Accesses;
    if acts == [] {
      NothingShown(b.log);
    } else {
      var b1 := Do(io, env, b, acts[0]);
      DoShapes(io, env, b, acts[0]);
      DriveShapes(io, env, b1, acts[1..]);
      var b' := Drive(io, env, b, acts);
      assert b'.log[|b.log|..] == b1.log[|b.log|..] + b'.log[|b1.log|..];
      ShapesAppend(b1.log[|b.log|..], b'.log[|b1.log|..]);
      AccessesAppend([acts[0]], acts[1..]);
      assert [acts[0]] + acts[1..] == acts;
    }
  }

  lemma {:induction false} NothingShown(log: seq<BusEvent>)
    ensures Shapes(log[|log|..]) == Accesses([])
  {
  }

  lemma {:induction false} AccessesAppend(first: seq<Act>, second: seq<Act>)
    ensures Accesses(first + second) == Accesses(first) + Accesses(second)
    decreases |first|
  {
    if first == [] {
      assert first + second == second;
    } else {
      assert (first + second)[1..] == first[1..] + second;
      AccessesAppend(first[1..], second);
    }
  }

  /** While acts are accesses, they are the accesses. */
  lemma {:induction false} AccessAt(acts: seq<Act>, k: nat)
    requires k < |acts| && forall j :: 0 <= j <= k ==> acts[j].R? || acts[j].W?
    ensures |Accesses(acts)| > k
    ensures Accesses(acts)[k] == (acts[k].addr, if acts[k].R? then BusRead else BusWrite)
    decreases k
  {
    if k > 0 { AccessAt(acts[1..], k - 1); }
  }

  lemma {:induction false} OperandFirst<M>(io: Memory<M>, m: M, r: Regs, mode: Operand, always: bool)
    ensures if mode.Immediate? then EaActs(io, m, r, mode, always) == [] && Ea(io, m, r, mode) == r.pc
            else |EaActs(io, m, r, mode, always)| > 0 && EaActs(io, m, r, mode, always)[0] == R(r.pc)
  {
  }

  /** Every instruction reads the byte after its opcode in its second cycle. */
  lemma {:induction false} SecondCycle<M>(io: Memory<M>, r: Regs, m: M, inst: Inst)
    requires !inst.Brk? && Documented(inst)
    ensures var acts := InstActs(io, r, m, inst);
            |Accesses(acts)| >= 1 && Accesses(acts)[0] == (r.pc, BusRead)
  {
    hide Base, Ea, EaActs, Shifted, Word16, BranchTarget, FixUp, ToByte;
    var acts := InstActs(io, r, m, inst);
    assert inst.Illegal? || inst.Read? || inst.Store? || inst.Rmw? || acts[0] == R(r.pc);
    match inst
    case Illegal => assert Accesses(acts[1..])[0] == (r.pc, BusRead);
    case Read(_, mode) => OperandFirst(io, m, r, mode, false); assert acts[0] == R(r.pc);
    case Store(_, mode) => OperandFirst(io, m, r, mode, true); assert acts[0] == R(r.pc);
    case Rmw(_, mode) => OperandFirst(io, m, r, mode, true); assert acts[0] == R(r.pc);
    case _ =>
  }

  /** How the accesses of a step give its plan away: an instruction by its second cycle, an interrupt by not moving PC;
      RESET by reading the stack in its third cycle, the others, if not hijacked, by their vectors. */
  lemma {:induction false} PlanShown<M>(io: Memory<M>, env: Env, s: Core<M>)
    requires s.bus.lines.rdy
    ensures var plan := PlanOf(io, s);
            var shown := Accesses(StepActs(io, env, s));
            && |shown| >= 2
            && (plan.Execute? ==> shown[1] == (Next(s.r.pc), BusRead))
            && (plan.Interrupt? ==> |shown| >= 6 && shown[1] == (s.r.pc, BusRead))
            && (plan.Interrupt? ==> (shown[2].1.BusRead? <==> plan.cause.ResetCause?))
            && (plan.Interrupt? && env == QUIET && !plan.cause.ResetCause? ==>
                  shown[5].0 == if plan.cause.NmiCause? then NMI_VECTOR else IRQ_VECTOR)
  {
    hide InstActs, Table, PushedP, Drive;
    var acts := StepActs(io, env, s);
    var plan := PlanOf(io, s);
    if plan.Interrupt? {
      if env == QUIET { QuietEntry(io, s, plan.cause); }
      InterruptShown(io, env, s, plan.cause);
    } else if plan.inst.Brk? {
      assert acts[0] == R(s.r.pc) && acts[1] == R(Next(s.r.pc));
      AccessAt(acts, 1);
    } else {
      TableDocumented(Peek(io, s.bus.mem, s.r.pc));
      SecondCycle(io, Fetched(s.r), s.bus.mem, plan.inst);
      assert [R(s.r.pc)][1..] == [];
      AccessesAppend([R(s.r.pc)], InstActs(io, Fetched(s.r), s.bus.mem, plan.inst));
    }
  }

  lemma {:induction false} InterruptShown<M>(io: Memory<M>, env: Env, s: Core<M>, cause: Cause)
    requires !cause.BrkCause?
    ensures var shown := Accesses(EntrySteps(io, env, s, cause));
            var at := AtDecision(io, env, s, cause);
            && |shown| >= 6 && shown[1] == (s.r.pc, BusRead)
            && (shown[2].1.BusRead? <==> cause.ResetCause?)
            && (!(cause.IrqCause? && at.nmi) ==> shown[5].0 == Vector(cause, at))
  {
    hide PushedP, Drive;
    var acts := EntrySteps(io, env, s, cause);
    var at := AtDecision(io, env, s, cause);
    assert acts[5] == VectorActs(cause, at)[0];
    AccessAt(acts, 1);
    AccessAt(acts, 2);
    if cause.IrqCause? && at.nmi {
      AccessesAppend(EntryActs(s.r, cause), VectorActs(cause, at));
      AccessAt(EntryActs(s.r, cause), 4);
      AccessAt(VectorActs(cause, at)[1..], 0);
    } else {
      AccessAt(acts, 5);
    }
  }

  /** What a step put on the bus. */
  function StepEvents<M>(io: Memory<M>, env: Env, s: Core<M>): seq<BusEvent> {
    var log := Step(io, env, s).bus.log;
    if |s.bus.log| <= |log| then log[|s.bus.log|..] else []
  }

  lemma {:induction false} EventsShow<M>(io: Memory<M>, env: Env, s: Core<M>)
    ensures Shapes(StepEvents(io, env, s)) == Accesses(StepActs(io, env, s))
  {
    hide Isa.Step, StepActs;
    StepIsDriven(io, env, s);
    DriveShapes(io, env, s.bus, StepActs(io, env, s));
  }

  /** The next step alone, under any host: given the images and the lines, a machine restored from a ready one shows the
      same step if and only if no RESET was pending there. Snapshot does not capture a pending RESET, and Restore drops
      one. */
  lemma {:induction false} RestoreFaithfulIff(env: Env, a: Core<Bbc>, b: Core<Bbc>)
    requires Prepared(a, b) && a.bus.lines.rdy
    ensures StepEvents(Io(), env, a) == StepEvents(Io(), env, Restored(b, Captured(a))) <==> !a.bus.lines.reset
  {
    hide Isa.Step, Prepared, Captured, Restored, Indistinct, StepActs, Table;
    var b' := Restored(b, Captured(a));
    RestoredLines(a, b);
    if a.bus.lines.reset {
      PlanShown(Io(), env, a);
      PlanShown(Io(), env, b');
      EventsShow(Io(), env, a);
      EventsShow(Io(), env, b');
    } else {
      RestoreContinues(env, a, b, [Advance]);
      OneMove(env, a);
      OneMove(env, b');
    }
  }

  /** The lines that decide the next step agree: no RESET pending at the source, the same NMI latch, and the same IRQ
      level unless an NMI or the I flag masks it. */
  predicate SameService(a: Core<Bbc>, b: Core<Bbc>) {
    && !a.bus.lines.reset && a.bus.lines.nmi == b.bus.lines.nmi
    && (a.bus.lines.nmi || a.r.p.i || a.bus.lines.irq == b.bus.lines.irq)
  }

  predicate SameImages(m: Bbc, n: Bbc) {
    && n.os == m.os && n.loaded == m.loaded && forall i :: 0 <= i < BANKS && m.loaded[i] ==> n.side[i] == m.side[i]
  }

  /** The same question for all the lines, with a host that stays out of bus cycles: given the images and ready
      machines, the next step is the same if and only if the lines that decide it agree. */
  lemma {:induction false} RestoreNextStepIff(a: Core<Bbc>, b: Core<Bbc>)
    requires SameImages(a.bus.mem, b.bus.mem) && a.bus.lines.rdy && b.bus.lines.rdy
    ensures StepEvents(Io(), QUIET, a) == StepEvents(Io(), QUIET, Restored(b, Captured(a))) <==> SameService(a, b)
  {
    hide Isa.Step, Captured, Restored, Indistinct, StepActs, Table, SameImages;
    var b' := Restored(b, Captured(a));
    RestoredState(a, b);
    if SameService(a, b) {
      var c := b'.(bus := b'.bus.(lines := a.bus.lines));
      HiddenBytesNeverMatter(QUIET, a, c, [Advance]);
      OneMove(QUIET, a);
      OneMove(QUIET, c);
      QuietStepEvents(b', c);
    } else {
      PlanShown(Io(), QUIET, a);
      PlanShown(Io(), QUIET, b');
      EventsShow(Io(), QUIET, a);
      EventsShow(Io(), QUIET, b');
    }
  }

  /** Lines that lead to the same plan lead to the same bus cycles, when nobody moves them meanwhile. */
  lemma {:induction false} QuietStepEvents(s: Core<Bbc>, t: Core<Bbc>)
    requires s.r == t.r && s.bus == t.bus.(lines := s.bus.lines)
    requires s.bus.lines.rdy && t.bus.lines.rdy && PlanOf(Io(), s) == PlanOf(Io(), t)
    requires s.bus.lines.nmi == t.bus.lines.nmi
    ensures StepEvents(Io(), QUIET, s) == StepEvents(Io(), QUIET, t)
  {
    hide Isa.Step, Io, InstActs, Table, Drive, EntryActs;
    var plan := PlanOf(Io(), s);
    if plan.Interrupt? {
      QuietEntry(Io(), s, plan.cause);
      QuietEntry(Io(), t, plan.cause);
    } else if plan.inst.Brk? {
      QuietLines(Io(), s.bus, [R(s.r.pc), R(Next(s.r.pc))]);
      QuietLines(Io(), t.bus, [R(t.r.pc), R(Next(t.r.pc))]);
      QuietEntry(Io(), BrkEntry(Io(), QUIET, s), BrkCause);
      QuietEntry(Io(), BrkEntry(Io(), QUIET, t), BrkCause);
    }
    var acts := StepActs(Io(), QUIET, s);
    assert StepActs(Io(), QUIET, t) == acts;
    StepIsDriven(Io(), QUIET, s);
    StepIsDriven(Io(), QUIET, t);
    DriveUnderSignals(Io(), QUIET, s.bus, t.bus, acts);
  }

  lemma {:induction false} RestoredState(a: Core<Bbc>, b: Core<Bbc>)
    requires SameImages(a.bus.mem, b.bus.mem)
    ensures var b' := Restored(b, Captured(a));
            && b'.r == a.r && b'.bus.cycles == a.bus.cycles && b'.bus.lines == b.bus.lines.(reset := false)
            && Indistinct(a.bus.mem, b'.bus.mem)
  {
    assert a.bus.mem.bank % BANKS == a.bus.mem.bank && a.bus.mem.crtc.selected % CRTC_REGS == a.bus.mem.crtc.selected;
  }

  lemma {:induction false} RestoredLines(a: Core<Bbc>, b: Core<Bbc>)
    requires Prepared(a, b)
    ensures var b' := Restored(b, Captured(a));
            b'.r == a.r && !b'.bus.lines.reset && b'.bus.lines.rdy == a.bus.lines.rdy
  {
  }

  lemma {:induction false} OneMove(env: Env, s: Core<Bbc>)
    ensures After(Io(), env, s, [Advance]) == Step(Io(), env, s)
  {
    hide Isa.Step;
    assert [Advance][..0] == [];
  }

  // The whole promise.

  /** What a run put on the bus. */
  function Shown(env: Env, s: Core<Bbc>, moves: seq<Move>): seq<BusEvent> {
    var log := After(Io(), env, s, moves).bus.log;
    if |s.bus.log| <= |log| then log[|s.bus.log|..] else []
  }

  /** No host can tell the two machines apart by what they do: the buses show the same under every sequence of steps and
      signals and every behaviour inside bus cycles. */
  ghost predicate SameFuture(s: Core<Bbc>, t: Core<Bbc>) {
    forall env: Env, moves: seq<Move> :: Shown(env, s, moves) == Shown(env, t, moves)
  }

  lemma {:induction false} AfterSnoc<M>(io: Memory<M>, env: Env, s: Core<M>, moves: seq<Move>, move: Move)
    ensures After(io, env, s, moves + [move]) == Moved(io, env, After(io, env, s, moves), move)
  {
    assert (moves + [move])[..|moves|] == moves;
  }

  /** A step that shows something different after the same moves parts two machines. */
  lemma {:induction false} StepParts(env: Env, s: Core<Bbc>, t: Core<Bbc>, moves: seq<Move>)
    requires StepEvents(Io(), env, After(Io(), env, s, moves)) != StepEvents(Io(), env, After(Io(), env, t, moves))
    ensures !SameFuture(s, t)
  {
    hide Isa.Step, Io, After, Replayed, Truthful, Called;
    var next := moves + [Advance];
    AfterSnoc(Io(), env, s, moves, Advance);
    AfterSnoc(Io(), env, t, moves, Advance);
    var _ := RunExplained(Io(), env, s, moves);
    var _ := RunExplained(Io(), env, t, moves);
    var _ := RunExplained(Io(), env, s, next);
    var _ := RunExplained(Io(), env, t, next);
    var _ := RunExplained(Io(), env, After(Io(), env, s, moves), [Advance]);
    var _ := RunExplained(Io(), env, After(Io(), env, t, moves), [Advance]);
    OneMove(env, After(Io(), env, s, moves));
    OneMove(env, After(Io(), env, t, moves));
    if Shown(env, s, moves) == Shown(env, t, moves) {
      assert Shown(env, s, next) == Shown(env, s, moves) + StepEvents(Io(), env, After(Io(), env, s, moves));
      assert Shown(env, t, next) == Shown(env, t, moves) + StepEvents(Io(), env, After(Io(), env, t, moves));
      assert Shown(env, s, next) != Shown(env, t, next);
    }
  }

  /** Different plans show, unless both execute. */
  lemma {:induction false} PlansPart(s: Core<Bbc>, t: Core<Bbc>)
    requires s.r == t.r && s.bus.lines.rdy && t.bus.lines.rdy
    requires PlanOf(Io(), s) != PlanOf(Io(), t) && (PlanOf(Io(), s).Interrupt? || PlanOf(Io(), t).Interrupt?)
    ensures StepEvents(Io(), QUIET, s) != StepEvents(Io(), QUIET, t)
  {
    hide Isa.Step, StepActs, Table;
    PlanShown(Io(), QUIET, s);
    PlanShown(Io(), QUIET, t);
    EventsShow(Io(), QUIET, s);
    EventsShow(Io(), QUIET, t);
  }

  /** An undisturbed NMI entry: the latch is taken, the other lines stay, and the registers and the memory are the
      interpreter's. */
  lemma {:induction false} NmiServed(s: Core<Bbc>)
    requires s.bus.lines.rdy && !s.bus.lines.reset && s.bus.lines.nmi
    ensures var s' := Step(Io(), QUIET, s);
            && s'.bus.lines == s.bus.lines.(nmi := false, taken := s.bus.lines.taken + 1)
            && ArchOf(s') == Interrupted(Io(), ArchOf(s), NmiCause, NMI_VECTOR)
  {
    hide Io, EntryActs, Executed, Drive, Interrupted, VectorTarget;
    EntryIsInterrupted(Io(), QUIET, s, NmiCause);
    var mid := Drive(Io(), QUIET, s.bus, EntryActs(s.r, NmiCause));
    var fetch := [R(NMI_VECTOR), R(NMI_VECTOR + 1)];
    QuietEntry(Io(), s, NmiCause);
    QuietLines(Io(), mid, fetch);
    DriveSnoc(Io(), QUIET, mid, fetch, TakeNmi);
    assert fetch + [TakeNmi] == VectorActs(NmiCause, mid.lines);
  }

  /** A machine whose lines are ready is one whose host has just raised RDY. */
  lemma {:induction false} ReadyMove(env: Env, s: Core<Bbc>)
    ensures After(Io(), env, s, [Host(SetReady(true))]) == s.(bus := s.bus.(lines := s.bus.lines.(rdy := true)))
  {
    AfterSnoc(Io(), env, s, [], Host(SetReady(true)));
    assert [] + [Host(SetReady(true))] == [Host(SetReady(true))];
  }

  /** The lines agree, except perhaps for an IRQ line that cannot be acted on now: masked, or behind a pending NMI. */
  predicate LinesCarried(s: Core<Bbc>, t: Core<Bbc>) {
    var l, k := s.bus.lines, t.bus.lines;
    && !l.reset && l.rdy == k.rdy && l.nmi == k.nmi && l.nmiPrev == k.nmiPrev
    && (l.irq == k.irq || s.r.p.i || l.nmi)
  }

  /** Any other difference in the lines parts machines that otherwise agree. */
  lemma {:induction false} LinesPart(s: Core<Bbc>, t: Core<Bbc>)
    requires s.r == t.r && s.bus.cycles == t.bus.cycles && Indistinct(s.bus.mem, t.bus.mem)
    requires !t.bus.lines.reset && !LinesCarried(s, t)
    ensures !SameFuture(s, t)
  {
    hide Isa.Step, Io, Indistinct, SameFuture, Table, StepActs, After;
    if s.bus.lines.rdy != t.bus.lines.rdy {
      ReadyParts(s, t);
    } else {
      var ready := [Host(SetReady(true))];
      var s1, t1 := After(Io(), QUIET, s, ready), After(Io(), QUIET, t, ready);
      ReadyMove(QUIET, s);
      ReadyMove(QUIET, t);
      if s.bus.lines.reset || s.bus.lines.nmi != t.bus.lines.nmi || s.bus.lines.nmiPrev == t.bus.lines.nmiPrev {
        PlansPart(s1, t1);
        StepParts(QUIET, s, t, ready);
      } else if s.bus.lines.nmi {
        EdgePartsLater(s, t);
      } else {
        EdgeParts(s, t, ready);
      }
    }
  }

  lemma {:induction false} ReadyParts(s: Core<Bbc>, t: Core<Bbc>)
    requires s.bus.lines.rdy != t.bus.lines.rdy
    ensures !SameFuture(s, t)
  {
    hide Isa.Step, Io, StepActs, SameFuture;
    var x := if s.bus.lines.rdy then s else t;
    PlanShown(Io(), QUIET, x);
    EventsShow(Io(), QUIET, s);
    EventsShow(Io(), QUIET, t);
    StalledActs(if s.bus.lines.rdy then t else s);
    StepParts(QUIET, s, t, []);
  }

  lemma {:induction false} StalledActs(s: Core<Bbc>)
    requires !s.bus.lines.rdy
    ensures Accesses(StepActs(Io(), QUIET, s)) == []
  {
  }

  /** An edge is seen by the machine whose line was low, and not by the other. */
  lemma {:induction false} EdgeParts(s: Core<Bbc>, t: Core<Bbc>, moves: seq<Move>)
    requires var x, y := After(Io(), QUIET, s, moves), After(Io(), QUIET, t, moves);
             && x.r == y.r && x.bus.lines.rdy && y.bus.lines.rdy && !x.bus.lines.reset && !y.bus.lines.reset
             && !x.bus.lines.nmi && !y.bus.lines.nmi && x.bus.lines.nmiPrev != y.bus.lines.nmiPrev
    ensures !SameFuture(s, t)
  {
    hide Isa.Step, Io, SameFuture, Table, After;
    AfterSnoc(Io(), QUIET, s, moves, Host(RaiseNmi));
    AfterSnoc(Io(), QUIET, t, moves, Host(RaiseNmi));
    var edge := moves + [Host(RaiseNmi)];
    PlansPart(After(Io(), QUIET, s, edge), After(Io(), QUIET, t, edge));
    StepParts(QUIET, s, t, edge);
  }

  /** The same after a pending NMI has been served. */
  lemma {:induction false} EdgePartsLater(s: Core<Bbc>, t: Core<Bbc>)
    requires s.r == t.r && s.bus.cycles == t.bus.cycles && Indistinct(s.bus.mem, t.bus.mem)
    requires !s.bus.lines.reset && !t.bus.lines.reset && s.bus.lines.nmi && t.bus.lines.nmi
    requires s.bus.lines.nmiPrev != t.bus.lines.nmiPrev
    ensures !SameFuture(s, t)
  {
    hide Isa.Step, Io, Indistinct, SameFuture, Interrupted, After;
    var ready := [Host(SetReady(true))];
    ReadyMove(QUIET, s);
    ReadyMove(QUIET, t);
    var s1, t1 := After(Io(), QUIET, s, ready), After(Io(), QUIET, t, ready);
    var c := t1.(bus := t1.bus.(lines := s1.bus.lines));
    NmiServed(s1);
    NmiServed(t1);
    NmiServed(c);
    HiddenBytesNeverMatter(QUIET, s1, c, [Advance]);
    OneMove(QUIET, s1);
    OneMove(QUIET, c);
    AfterSnoc(Io(), QUIET, s, ready, Advance);
    AfterSnoc(Io(), QUIET, t, ready, Advance);
    EdgeParts(s, t, ready + [Advance]);
  }

  lemma {:induction false} SameLinesSameFuture(s: Core<Bbc>, t: Core<Bbc>)
    requires s.r == t.r && s.bus.cycles == t.bus.cycles && Indistinct(s.bus.mem, t.bus.mem)
    requires SameLines(s.bus.lines, t.bus.lines)
    ensures SameFuture(s, t)
  {
    hide Indistinct, After, Isa.Step;
    forall env: Env, moves: seq<Move> ensures Shown(env, s, moves) == Shown(env, t, moves) {
      HiddenBytesNeverMatter(env, s, t, moves);
    }
  }

  /** The promise of Restore, over every run. Given the images, a host that cannot tell the restored machine from the
      original had no RESET pending at the source, and had RDY, NMI latch, NMI line and an actionable IRQ line the same
      at the destination. A snapshot carries none of these. Unless the IRQ lines differ and are of no effect now, that
      is also enough; whether such a difference ever shows depends on the program. */
  lemma {:induction false} RestorePromiseIff(a: Core<Bbc>, b: Core<Bbc>)
    requires SameImages(a.bus.mem, b.bus.mem)
    ensures SameFuture(a, Restored(b, Captured(a))) ==> LinesCarried(a, b)
    ensures a.bus.lines.irq == b.bus.lines.irq || !(a.r.p.i || a.bus.lines.nmi) ==>
      (SameFuture(a, Restored(b, Captured(a))) <==> LinesCarried(a, b))
  {
    hide SameImages, Indistinct, Captured, Restored, SameFuture;
    RestoredState(a, b);
    var b' := Restored(b, Captured(a));
    if !LinesCarried(a, b) {
      LinesPart(a, b');
    } else if a.bus.lines.irq == b.bus.lines.irq {
      SameLinesSameFuture(a, b');
    }
  }
}
