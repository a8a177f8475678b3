/** The live P register never holds B, and holds U from the first RESET on. */
module LiveFlags {
  import opened Bits
  import opened Status
  import opened Bus
  import opened Alu
  import opened Isa
  import opened Runs

  /** B is not set, and U stays set. */
  predicate FlagsKept(p: Flags, p': Flags) { (!p.b ==> !p'.b) && (p.u ==> p'.u) }

  lemma {:induction false} LoadedKeeps(op: ReadOp, r: Regs, v: byte)
    ensures FlagsKept(r.p, Loaded(op, r, v).p)
  {
    hide Gated;
  }

  lemma {:induction false} ImpliedKeeps(op: ImpliedOp, r: Regs)
    ensures FlagsKept(r.p, ImpliedRegs(op, r).p)
  {
  }

  lemma {:induction false} InstKeeps<M>(io: Memory<M>, r: Regs, m: M, inst: Inst)
    requires !inst.Brk?
    ensures FlagsKept(r.p, RegsAfter(io, r, m, inst).p)
  {
    hide Ea, Loaded, Shifted, ShiftedOut, FromByte, ImpliedRegs, Word16, BranchTarget, PushedPc, JumpPointer;
    match inst
    case Read(op, mode) => LoadedKeeps(op, PastOperand(r, mode), Peek(io, m, Ea(io, m, r, mode)));
    case Implied(op) => ImpliedKeeps(op, r);
    case _ =>
  }

  lemma {:induction false} StepKeeps<M>(io: Memory<M>, env: Env, s: Core<M>)
    ensures var s' := Step(io, env, s);
            && FlagsKept(s.r.p, s'.r.p)
            && (s.bus.lines.rdy && s.bus.lines.reset ==> s'.r.p.u && s'.bus.log != [])
            && (!s.bus.lines.rdy ==> s' == s)
  {
    hide RegsAfter, InstActs, Drive, EntryActs, VectorActs, Table;
    if s.bus.lines.rdy {
      var plan := PlanOf(io, s);
      if plan.Execute? && !plan.inst.Brk? {
        InstKeeps(io, Fetched(s.r), s.bus.mem, plan.inst);
      }
      if s.bus.lines.reset { ResetLogs(io, env, s); }
    }
  }

  lemma {:induction false} ResetLogs<M>(io: Memory<M>, env: Env, s: Core<M>)
    ensures Entry(io, env, s, ResetCause).bus.log != []
  {
    var acts := EntryActs(s.r, ResetCause);
    var mid := Drive(io, env, s.bus, acts);
    LogGrows(io, env, Do(io, env, s.bus, acts[0]), acts[1..]);
    LogGrows(io, env, mid, VectorActs(ResetCause, mid.lines));
  }

  lemma {:induction false} LogGrows<M>(io: Memory<M>, env: Env, b: Bus<M>, acts: seq<Act>)
    ensures |Drive(io, env, b, acts).log| >= |b.log|
    decreases |acts|
  {
    if acts != [] { LogGrows(io, env, Do(io, env, b, acts[0]), acts[1..]); }
  }

  /** From any state with B clear, and with U set or a RESET pending, every run keeps B clear, and U is set once any bus
      cycle has run. */
  lemma {:induction false} LiveP<M>(io: Memory<M>, env: Env, s: Core<M>, moves: seq<Move>)
    requires !s.r.p.b && (s.r.p.u || s.bus.lines.reset)
    ensures var t := After(io, env, s, moves);
            !t.r.p.b && (t.r.p.u || (t.bus.log == s.bus.log && t.bus.lines.reset))
    decreases |moves|
  {
    hide Isa.Step;
    if moves != [] {
      var before := moves[..|moves| - 1];
      LiveP(io, env, s, before);
      StepKeeps(io, env, After(io, env, s, before));
    }
  }

  /** So from `New`. */
  lemma {:induction false} FreshLiveP<M>(io: Memory<M>, env: Env, m: M, moves: seq<Move>)
    ensures var t := After(io, env, Fresh(m), moves);
            !t.r.p.b && (t.r.p.u || (t.bus.log == [] && t.bus.lines.reset))
  {
    hide After;
    LiveP(io, env, Fresh(m), moves);
  }

  /** So a handler can tell BRK from IRQ and NMI: the pushed B says which, in every state such a run reaches. */
  lemma {:induction false} PushedBreakBit<M>(io: Memory<M>, env: Env, s: Core<M>, moves: seq<Move>, cause: Cause)
    requires !s.r.p.b && (s.r.p.u || s.bus.lines.reset)
    ensures var p := After(io, env, s, moves).r.p;
            FromByte(PushedP(p, cause)) == p.(u := true, b := cause.BrkCause?)
  {
    hide After, FromByte, ToByte;
    var p := After(io, env, s, moves).r.p;
    LiveP(io, env, s, moves);
    FlagsRoundTrip(p.(u := true, b := p.b || cause.BrkCause?));
  }
}
