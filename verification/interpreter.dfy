/** The instruction set without a bus: one operand access for each instruction, and no dummy cycles. */
module Interpreter {
  import opened Bits
  import opened Status
  import opened Bus
  import opened Alu
  import opened Isa
  import opened NmiProtocol
  import opened Runs
  import BusLog

  /** What a programmer sees: the registers and the memory. */
  datatype Arch<M> = Arch(r: Regs, mem: M)

  function ArchOf<M>(s: Core<M>): Arch<M> { Arch(s.r, s.bus.mem) }

  /** The memory an instruction leaves; PC stands just past the opcode byte. */
  function MemoryAfter<M>(io: Memory<M>, r: Regs, m: M, inst: Inst): M {
    match inst
    case Store(op, mode) => Poke(io, m, Ea(io, m, r, mode), StoredReg(op, r))
    case Rmw(op, mode) =>
      var ea := Ea(io, m, r, mode);
      Poke(io, m, ea, Shifted(op, r.p.c, Peek(io, m, ea)))
    case Pha => Poke(io, m, Stack(r.sp), r.a)
    case Php => Poke(io, m, Stack(r.sp), ToByte(r.p.(b := true, u := true)))
    case Jsr => PushedPc(io, m, r.sp, Next(r.pc))
    case _ => m
  }

  /** The three bytes an interrupt pushes. */
  function PushedFrame<M>(io: Memory<M>, m: M, r: Regs, cause: Cause): M {
    Poke(io, PushedPc(io, m, r.sp, r.pc), Stack(Down(r.sp, 2)), PushedP(r.p, cause))
  }

  /** An IRQ, NMI or BRK that starts with PC at the return address. */
  function Interrupted<M>(io: Memory<M>, a: Arch<M>, cause: Cause, vector: word): Arch<M> {
    var m := PushedFrame(io, a.mem, a.r, cause);
    Arch(a.r.(sp := Down(a.r.sp, 3), p := a.r.p.(i := true, u := true), pc := VectorTarget(io, m, vector)), m)
  }

  /** One instruction. */
  function Interpret<M>(io: Memory<M>, a: Arch<M>): Arch<M> {
    var inst := Table(Peek(io, a.mem, a.r.pc)).inst;
    var r := Fetched(a.r);
    if inst.Brk? then Interrupted(io, Arch(Fetched(r), a.mem), BrkCause, IRQ_VECTOR)
    else Arch(RegsAfter(io, r, a.mem, inst), MemoryAfter(io, r, a.mem, inst))
  }

  /** A memory in which the second of two writes to an address is all that matters. */
  ghost predicate Absorbing<M(!new)>(io: Memory<M>) {
    forall m: M, a: word, v: byte, w: byte :: Poke(io, Poke(io, m, a, v), a, w) == Poke(io, m, a, w)
  }

  lemma {:induction false} StoredAppend<M>(io: Memory<M>, m: M, first: seq<Act>, second: seq<Act>)
    ensures Stored(io, m, first + second) == Stored(io, Stored(io, m, first), second)
    decreases |first|
  {
    if first == [] {
      assert first + second == second;
    } else {
      assert (first + second)[1..] == first[1..] + second;
      var m' := if first[0].W? then Poke(io, m, first[0].addr, first[0].value) else m;
      StoredAppend(io, m', first[1..], second);
    }
  }

  lemma {:induction false} StoredOne<M>(io: Memory<M>, m: M, x: Act)
    ensures Stored(io, m, [x]) == if x.W? then Poke(io, m, x.addr, x.value) else m
  {
    var m' := if x.W? then Poke(io, m, x.addr, x.value) else m;
    assert [x][1..] == [];
    assert Stored(io, m', []) == m';
  }

  lemma {:induction false} StoredTwo<M>(io: Memory<M>, m: M, x: Act, y: Act)
    ensures Stored(io, m, [x, y]) == Stored(io, Stored(io, m, [x]), [y])
  {
    assert [x, y] == [x] + [y];
    StoredAppend(io, m, [x], [y]);
  }

  /** The accesses of an instruction leave the memory that one access would. */
  lemma {:induction false} InstStores<M(!new)>(io: Memory<M>, r: Regs, m: M, inst: Inst)
    requires Absorbing(io) && !inst.Brk?
    ensures Stored(io, m, InstActs(io, r, m, inst)) == MemoryAfter(io, r, m, inst)
  {
    hide Ea, Base, EaActs, Gated, ShiftFlags, Shifted, PushedPc;
    var acts := InstActs(io, r, m, inst);
    match inst
    case Store(op, mode) =>
      ApproachReads(io, r, m, mode, true);
      StoredAppend(io, m, EaActs(io, m, r, mode, true), [W(Ea(io, m, r, mode), StoredReg(op, r))]);
      StoredOne(io, m, W(Ea(io, m, r, mode), StoredReg(op, r)));
    case Rmw(op, mode) => RmwStores(io, r, m, op, mode);
    case Pha =>
      StoredTwo(io, m, acts[0], acts[1]);
      StoredOne(io, m, acts[0]);
      StoredOne(io, m, acts[1]);
    case Php =>
      StoredTwo(io, m, acts[0], acts[1]);
      StoredOne(io, m, acts[0]);
      StoredOne(io, m, acts[1]);
    case Jsr => JsrStores(io, r, m);
    case Read(op, mode) =>
      ApproachReads(io, r, m, mode, false);
      NoWrites(io, m, acts);
    case _ => NoWrites(io, m, acts);
  }

  lemma {:induction false} ApproachReads<M>(io: Memory<M>, r: Regs, m: M, mode: Operand, always: bool)
    ensures OnlyReads(EaActs(io, m, r, mode, always))
    ensures Stored(io, m, EaActs(io, m, r, mode, always)) == m
  {
    hide Ea, Base;
    NoWrites(io, m, EaActs(io, m, r, mode, always));
  }

  /** The dummy write of a read-modify-write is invisible in the end. */
  lemma {:induction false} RmwStores<M(!new)>(io: Memory<M>, r: Regs, m: M, op: RmwOp, mode: Operand)
    requires Absorbing(io)
    ensures Stored(io, m, InstActs(io, r, m, Rmw(op, mode))) == MemoryAfter(io, r, m, Rmw(op, mode))
  {
    hide Ea, Base, EaActs, Shifted;
    var ea := Ea(io, m, r, mode);
    var v := Peek(io, m, ea);
    var w := Shifted(op, r.p.c, v);
    ApproachReads(io, r, m, mode, true);
    StoredAppend(io, m, EaActs(io, m, r, mode, true), [R(ea), W(ea, v), W(ea, w)]);
    assert [R(ea), W(ea, v), W(ea, w)] == [R(ea)] + [W(ea, v), W(ea, w)];
    StoredAppend(io, m, [R(ea)], [W(ea, v), W(ea, w)]);
    StoredOne(io, m, R(ea));
    StoredTwo(io, m, W(ea, v), W(ea, w));
    StoredOne(io, m, W(ea, v));
    StoredOne(io, Poke(io, m, ea, v), W(ea, w));
  }

  lemma {:induction false} JsrStores<M>(io: Memory<M>, r: Regs, m: M)
    ensures Stored(io, m, InstActs(io, r, m, Jsr)) == PushedPc(io, m, r.sp, Next(r.pc))
  {
    var back := Next(r.pc);
    var x, y := W(Stack(r.sp), Hi(back)), W(Stack(Down(r.sp, 1)), Lo(back));
    assert InstActs(io, r, m, Jsr) == [R(r.pc), R(Stack(r.sp))] + ([x, y] + [R(back)]);
    StoredAppend(io, m, [R(r.pc), R(Stack(r.sp))], [x, y] + [R(back)]);
    NoWrites(io, m, [R(r.pc), R(Stack(r.sp))]);
    StoredAppend(io, m, [x, y], [R(back)]);
    StoredTwo(io, m, x, y);
    StoredOne(io, m, x);
    StoredOne(io, Poke(io, m, Stack(r.sp), Hi(back)), y);
    StoredOne(io, Stored(io, m, [x, y]), R(back));
  }

  lemma {:induction false} EntryStores<M>(io: Memory<M>, r: Regs, m: M, cause: Cause)
    ensures Stored(io, m, EntryActs(r, cause)) == if cause.ResetCause? then m else PushedFrame(io, m, r, cause)
  {
    hide PushedP;
    if cause.ResetCause? {
      NoWrites(io, m, EntryActs(r, cause));
    } else {
      var pre := if cause.BrkCause? then [] else [R(r.pc), R(r.pc)];
      var x, y := W(Stack(r.sp), Hi(r.pc)), W(Stack(Down(r.sp, 1)), Lo(r.pc));
      var z := W(Stack(Down(r.sp, 2)), PushedP(r.p, cause));
      assert EntryActs(r, cause) == pre + ([x, y] + [z]);
      StoredAppend(io, m, pre, [x, y] + [z]);
      NoWrites(io, m, pre);
      StoredAppend(io, m, [x, y], [z]);
      StoredTwo(io, m, x, y);
      StoredOne(io, m, x);
      StoredOne(io, Poke(io, m, Stack(r.sp), Hi(r.pc)), y);
      StoredOne(io, PushedPc(io, m, r.sp, r.pc), z);
    }
  }

  /** A list of acts stores what it stores, whatever the host signals. */
  lemma {:induction false} DriveStores<M>(io: Memory<M>, env: Env, b: Bus<M>, acts: seq<Act>)
    ensures Drive(io, env, b, acts).mem == Stored(io, b.mem, acts)
  {
    DriveUnderSignals(io, env, b, b, acts);
  }

  /** An interrupt entry is the interpreter's, under the vector that was in force. RESET pushes nothing. */
  lemma {:induction false} EntryIsInterrupted<M>(io: Memory<M>, env: Env, s: Core<M>, cause: Cause)
    ensures var v := Vector(cause, AtDecision(io, env, s, cause));
            var s' := Entry(io, env, s, cause);
            if cause.ResetCause? then
              && s'.bus.mem == s.bus.mem
              && s'.r == s.r.(sp := Down(s.r.sp, 3), p := s.r.p.(i := true, u := true),
                pc := VectorTarget(io, s.bus.mem, RESET_VECTOR))
            else ArchOf(s') == Interrupted(io, ArchOf(s), cause, v)
  {
    hide PushedP, VectorTarget, PushedFrame;
    var acts := EntryActs(s.r, cause);
    var mid := Drive(io, env, s.bus, acts);
    DriveStores(io, env, s.bus, acts);
    EntryStores(io, s.r, s.bus.mem, cause);
    DriveStores(io, env, mid, VectorActs(cause, mid.lines));
    VectorKeepsMemory(io, mid.mem, cause, mid.lines);
  }

  /** Refinement: a step that executes an instruction leaves the registers and the memory of the simple interpreter.
      Dummy reads and the dummy write of a read-modify-write cannot be told apart from no access at all. */
  lemma {:induction false} StepIsInterpreted<M(!new)>(io: Memory<M>, env: Env, s: Core<M>)
    requires Absorbing(io)
    requires s.bus.lines.rdy && PlanOf(io, s).Execute? && !ServesNmi(io, env, s)
    ensures ArchOf(Step(io, env, s)) == Interpret(io, ArchOf(s))
  {
    hide RegsAfter, InstActs, MemoryAfter, Entry, Interrupted, EntryActs;
    var inst := PlanOf(io, s).inst;
    var r := Fetched(s.r);
    if inst.Brk? {
      var two := [R(s.r.pc), R(r.pc)];
      DriveStores(io, env, s.bus, two);
      NoWrites(io, s.bus.mem, two);
      EntryIsInterrupted(io, env, BrkEntry(io, env, s), BrkCause);
    } else {
      var acts := InstActs(io, r, s.bus.mem, inst);
      DriveStores(io, env, s.bus, [R(s.r.pc)] + acts);
      StoredAppend(io, s.bus.mem, [R(s.r.pc)], acts);
      StoredOne(io, s.bus.mem, R(s.r.pc));
      InstStores(io, r, s.bus.mem, inst);
    }
  }

  // Whole runs.

  /** What a step amounts to for the programmer. */
  datatype Deed = Wait | Instruction | Service(cause: Cause, vector: word) | HijackedBrk | Restart

  /** The lines, and what the host does to them, decide what a step amounts to; they take no other part. */
  function DeedOf<M>(io: Memory<M>, env: Env, s: Core<M>): Deed {
    if !s.bus.lines.rdy then Wait
    else
      match PlanOf(io, s)
      case Interrupt(ResetCause) => Restart
      case Interrupt(cause) => Service(cause, Vector(cause, AtDecision(io, env, s, cause)))
      case Execute(_) => if ServesNmi(io, env, s) then HijackedBrk else Instruction
  }

  function Performed<M>(io: Memory<M>, a: Arch<M>, deed: Deed): Arch<M> {
    match deed
    case Wait => a
    case Instruction => Interpret(io, a)
    case Service(cause, vector) => Interrupted(io, a, cause, vector)
    case HijackedBrk => Interrupted(io, Arch(Fetched(Fetched(a.r)), a.mem), BrkCause, NMI_VECTOR)
    case Restart =>
      a.(r := a.r.(sp := Down(a.r.sp, 3), p := a.r.p.(i := true, u := true),
        pc := VectorTarget(io, a.mem, RESET_VECTOR)))
  }

  lemma {:induction false} StepIsPerformed<M(!new)>(io: Memory<M>, env: Env, s: Core<M>)
    requires Absorbing(io)
    ensures ArchOf(Step(io, env, s)) == Performed(io, ArchOf(s), DeedOf(io, env, s))
  {
    hide RegsAfter, InstActs, Interpret, Entry, Interrupted, EntryActs, VectorTarget, Table, Drive;
    if s.bus.lines.rdy {
      var plan := PlanOf(io, s);
      if plan.Interrupt? {
        EntryIsInterrupted(io, env, s, plan.cause);
      } else if ServesNmi(io, env, s) {
        var two := [R(s.r.pc), R(Next(s.r.pc))];
        DriveStores(io, env, s.bus, two);
        NoWrites(io, s.bus.mem, two);
        EntryIsInterrupted(io, env, BrkEntry(io, env, s), BrkCause);
      } else {
        StepIsInterpreted(io, env, s);
      }
    }
  }

  /** The deeds of a run, one for each step. */
  function Deeds<M>(io: Memory<M>, env: Env, s: Core<M>, moves: seq<Move>): seq<Deed>
    decreases |moves|
  {
    if moves == [] then []
    else
      var before := moves[..|moves| - 1];
      Deeds(io, env, s, before)
      + if moves[|moves| - 1].Advance? then [DeedOf(io, env, After(io, env, s, before))] else []
  }

  function PerformedAll<M>(io: Memory<M>, a: Arch<M>, deeds: seq<Deed>): Arch<M>
    decreases |deeds|
  {
    if deeds == [] then a else Performed(io, PerformedAll(io, a, deeds[..|deeds| - 1]), deeds[|deeds| - 1])
  }

  /** Refinement over every run: the cycle-accurate processor, under any host, leaves the registers and the memory the
      interpreter leaves after the same instructions and entries. */
  lemma {:induction false} RunIsInterpreted<M(!new)>(io: Memory<M>, env: Env, s: Core<M>, moves: seq<Move>)
    requires Absorbing(io)
    ensures ArchOf(After(io, env, s, moves)) == PerformedAll(io, ArchOf(s), Deeds(io, env, s, moves))
    decreases |moves|
  {
    hide Isa.Step, Performed, DeedOf;
    if moves != [] {
      var before := moves[..|moves| - 1];
      RunIsInterpreted(io, env, s, before);
      var deeds := Deeds(io, env, s, before);
      assert deeds + [] == deeds;
      if moves[|moves| - 1].Advance? {
        var t := After(io, env, s, before);
        StepIsPerformed(io, env, t);
        assert (deeds + [DeedOf(io, env, t)])[..|deeds|] == deeds;
      }
    }
  }

  function InterpretedTimes<M>(io: Memory<M>, a: Arch<M>, n: nat): Arch<M> {
    if n == 0 then a else Interpret(io, InterpretedTimes(io, a, n - 1))
  }

  /** Nothing pending. */
  predicate Undisturbed(l: Lines) { l.rdy && !l.reset && !l.nmi && !l.irq }

  lemma {:induction false} QuietStepLines<M>(io: Memory<M>, s: Core<M>)
    requires Undisturbed(s.bus.lines)
    ensures Step(io, QUIET, s).bus.lines == s.bus.lines
  {
    hide Isa.Step, InstActs, Table, EntryActs, Drive;
    BusLog.StepIsDriven(io, QUIET, s);
    var inst := PlanOf(io, s).inst;
    if inst.Brk? {
      var q := BrkEntry(io, QUIET, s);
      QuietLines(io, s.bus, [R(s.r.pc), R(Next(s.r.pc))]);
      QuietEntry(io, q, BrkCause);
      EntryNoLatch(q.r, BrkCause);
    } else {
      InstNoLatch(io, Fetched(s.r), s.bus.mem, inst);
    }
    QuietLines(io, s.bus, BusLog.StepActs(io, QUIET, s));
  }

  /** Undisturbed, n steps are n turns of the interpreter. */
  lemma {:induction false} QuietRunIsInterpreted<M(!new)>(io: Memory<M>, s: Core<M>, n: nat)
    requires Absorbing(io) && Undisturbed(s.bus.lines)
    ensures var s' := Steps(io, QUIET, s, n);
            ArchOf(s') == InterpretedTimes(io, ArchOf(s), n) && s'.bus.lines == s.bus.lines
    decreases n
  {
    hide Isa.Step, Interpret, Table;
    if n > 0 {
      var t := Steps(io, QUIET, s, n - 1);
      QuietRunIsInterpreted(io, s, n - 1);
      NoHijackWhenQuiet(io, t);
      StepIsInterpreted(io, QUIET, t);
      QuietStepLines(io, t);
    }
  }
}
