/** The NMI edge latch: no edge is lost or served twice, and a hijack changes nothing but the vector. */
module NmiProtocol {
  import opened Bits
  import opened Status
  import opened Bus
  import opened Alu
  import opened Isa
  import opened Runs

  function Pending(l: Lines): nat { if l.nmi then 1 else 0 }

  /** Edges not accounted for: neither served, nor absorbed by one already pending, nor still pending. */
  function Missing(l: Lines): int { l.edges - l.taken - l.coalesced - Pending(l) }

  /** How lines may move while nobody serves them. */
  predicate Grows(l: Lines, l': Lines) {
    && Missing(l') == Missing(l)
    && l'.taken == l.taken && l.edges <= l'.edges
    && (l'.nmi <==> l.nmi || l.edges < l'.edges)
    && (l.reset ==> l'.reset)
  }

  lemma {:induction false} SignalledGrows(l: Lines, sig: Signal)
    ensures Grows(l, Signalled(l, sig))
  {
  }

  lemma {:induction false} GrowsOn(k: Lines, l: Lines, m: Lines)
    requires Grows(k, l) && Grows(l, m)
    ensures Grows(k, m)
  {
  }

  lemma {:induction false} DeliveredGrows(l: Lines, sigs: seq<Signal>)
    ensures Grows(l, Delivered(l, sigs))
    decreases |sigs|
  {
    hide Signalled;
    if sigs != [] {
      var before := Delivered(l, sigs[..|sigs| - 1]);
      DeliveredGrows(l, sigs[..|sigs| - 1]);
      SignalledGrows(before, sigs[|sigs| - 1]);
      hide Grows;
      GrowsOn(l, before, Delivered(l, sigs));
    }
  }

  /** Acts that leave both latches to the host. */
  predicate NoLatch(acts: seq<Act>) { forall k :: 0 <= k < |acts| ==> !acts[k].TakeNmi? && !acts[k].EndReset? }

  lemma {:induction false} DriveGrows<M>(io: Memory<M>, env: Env, b: Bus<M>, acts: seq<Act>)
    requires NoLatch(acts)
    ensures Grows(b.lines, Drive(io, env, b, acts).lines)
    decreases |acts|
  {
    if acts != [] {
      DeliveredGrows(b.lines, env(b.cycles));
      var b' := Do(io, env, b, acts[0]);
      DriveGrows(io, env, b', acts[1..]);
      assert Grows(b.lines, b'.lines);
    }
  }

  /** The lines when an entry chooses its vector. */
  function AtDecision<M>(io: Memory<M>, env: Env, s: Core<M>, cause: Cause): Lines {
    Drive(io, env, s.bus, EntryActs(s.r, cause)).lines
  }

  /** The state in which BRK starts its entry: two fetches done. */
  function BrkEntry<M>(io: Memory<M>, env: Env, s: Core<M>): Core<M> {
    Core(Fetched(Fetched(s.r)), Drive(io, env, s.bus, [R(s.r.pc), R(Next(s.r.pc))]))
  }

  /** The steps that serve an NMI: an NMI entry, or an IRQ or BRK that one hijacks. */
  predicate ServesNmi<M>(io: Memory<M>, env: Env, s: Core<M>) {
    && s.bus.lines.rdy
    && match PlanOf(io, s)
       case Interrupt(NmiCause) => true
       case Interrupt(IrqCause) => Hijacked(IrqCause, AtDecision(io, env, s, IrqCause))
       case Interrupt(_) => false
       case Execute(inst) => inst.Brk? && Hijacked(BrkCause, AtDecision(io, env, BrkEntry(io, env, s), BrkCause))
  }

  lemma {:induction false} EntryNoLatch(r: Regs, cause: Cause)
    ensures NoLatch(EntryActs(r, cause))
  {
    hide PushedP, Stack, Down;
  }

  /** An entry takes the latch exactly when it is an NMI's, or hijacked by one; RESET leaves it alone. */
  lemma {:induction false} EntryNmi<M>(io: Memory<M>, env: Env, s: Core<M>, cause: Cause)
    requires cause.NmiCause? ==> s.bus.lines.nmi
    ensures var l, l' := s.bus.lines, Entry(io, env, s, cause).bus.lines;
            && Missing(l') == Missing(l)
            && l'.taken == l.taken
              + (if cause.NmiCause? || Hijacked(cause, AtDecision(io, env, s, cause)) then 1 else 0)
            && (cause.ResetCause? && l.nmi ==> l'.nmi)
  {
    hide EntryActs, VectorTarget, Drive;
    var mid := Drive(io, env, s.bus, EntryActs(s.r, cause));
    EntryNoLatch(s.r, cause);
    DriveGrows(io, env, s.bus, EntryActs(s.r, cause));
    var v := Vector(cause, mid.lines);
    var hijacked := Hijacked(cause, mid.lines);
    var mid' := if hijacked then Do(io, env, mid, TakeNmi) else mid;
    DriveGrows(io, env, mid', [R(v), R(v + 1)]);
    if hijacked {
      DriveAppend(io, env, mid, [TakeNmi], [R(v), R(v + 1)]);
      Drive1(io, env, mid, TakeNmi);
      assert [TakeNmi] + [R(v), R(v + 1)] == VectorActs(cause, mid.lines);
    } else if cause.NmiCause? || cause.ResetCause? {
      var last := if cause.NmiCause? then TakeNmi else EndReset;
      DriveSnoc(io, env, mid, [R(v), R(v + 1)], last);
      assert [R(v), R(v + 1)] + [last] == VectorActs(cause, mid.lines);
    }
  }

  lemma {:induction false} InstNoLatch<M>(io: Memory<M>, r: Regs, m: M, inst: Inst)
    requires !inst.Brk?
    ensures NoLatch(InstActs(io, r, m, inst))
  {
    hide Loaded, ShiftFlags, Gated;
  }

  lemma {:induction false} ExecutedNmi<M>(io: Memory<M>, env: Env, s: Core<M>, inst: Inst)
    ensures var l, l' := s.bus.lines, Executed(io, env, s, inst).bus.lines;
            && Missing(l') == Missing(l)
            && l'.taken == l.taken
               + (if inst.Brk? && Hijacked(BrkCause, AtDecision(io, env, BrkEntry(io, env, s), BrkCause)) then 1 else 0)
  {
    hide RegsAfter, Entry, InstActs;
    if inst.Brk? {
      DriveGrows(io, env, s.bus, [R(s.r.pc), R(Next(s.r.pc))]);
      EntryNmi(io, env, BrkEntry(io, env, s), BrkCause);
    } else {
      InstNoLatch(io, Fetched(s.r), s.bus.mem, inst);
      DriveGrows(io, env, s.bus, [R(s.r.pc)] + InstActs(io, Fetched(s.r), s.bus.mem, inst));
    }
  }

  lemma {:induction false} StepNmi<M>(io: Memory<M>, env: Env, s: Core<M>)
    ensures var l, l' := s.bus.lines, Step(io, env, s).bus.lines;
            && Missing(l') == Missing(l)
            && l'.taken == l.taken + (if ServesNmi(io, env, s) then 1 else 0)
  {
    hide Entry, Executed, EntryActs, Drive;
    if s.bus.lines.rdy {
      var plan := PlanOf(io, s);
      if plan.Interrupt? {
        EntryNmi(io, env, s, plan.cause);
      } else {
        ExecutedNmi(io, env, s, plan.inst);
      }
    }
  }

  /** The number of NMI services in a run. */
  function Services<M>(io: Memory<M>, env: Env, s: Core<M>, moves: seq<Move>): nat
    decreases |moves|
  {
    if moves == [] then 0
    else
      var before := moves[..|moves| - 1];
      Services(io, env, s, before)
      + if moves[|moves| - 1].Advance? && ServesNmi(io, env, After(io, env, s, before)) then 1 else 0
  }

  /** Edge conservation, over every run of steps and host calls from any state, and with the host free to act in every
      bus cycle: of the rising edges since the start and the one pending then, each was a service, or was absorbed by
      a pending one, or is pending now. */
  lemma {:induction false} EdgeConservation<M>(io: Memory<M>, env: Env, s: Core<M>, moves: seq<Move>)
    ensures var k, l := s.bus.lines, After(io, env, s, moves).bus.lines;
            && l.edges - k.edges + Pending(k) == Services(io, env, s, moves) + (l.coalesced - k.coalesced) + Pending(l)
            && l.taken == k.taken + Services(io, env, s, moves)
    decreases |moves|
  {
    hide Isa.Step, ServesNmi, Signalled;
    if moves != [] {
      var before := moves[..|moves| - 1];
      EdgeConservation(io, env, s, before);
      var t := After(io, env, s, before);
      match moves[|moves| - 1]
      case Host(sig) => SignalledGrows(t.bus.lines, sig);
      case Advance => StepNmi(io, env, t);
    }
  }

  /** From a fresh processor: all edges ever seen. */
  lemma {:induction false} FreshEdgeConservation<M>(io: Memory<M>, env: Env, m: M, moves: seq<Move>)
    ensures var l := After(io, env, Fresh(m), moves).bus.lines;
            l.edges == Services(io, env, Fresh(m), moves) + l.coalesced + Pending(l)
  {
    hide After, Services;
    EdgeConservation(io, env, Fresh(m), moves);
  }

  // Hijack.

  /** What a list of acts does to the memory and the log does not depend on the host's signals. */
  lemma {:induction false} DriveUnderSignals<M>(io: Memory<M>, env: Env, b: Bus<M>, c: Bus<M>, acts: seq<Act>)
    requires b.mem == c.mem && b.log == c.log && b.cycles == c.cycles
    ensures var b', c' := Drive(io, env, b, acts), Drive(io, QUIET, c, acts);
            b'.mem == c'.mem == Stored(io, b.mem, acts) && b'.log == c'.log && b'.cycles == c'.cycles
    decreases |acts|
  {
    if acts != [] {
      DriveUnderSignals(io, env, Do(io, env, b, acts[0]), Do(io, QUIET, c, acts[0]), acts[1..]);
    }
  }

  /** An entry under any signals against the same entry undisturbed. */
  lemma {:induction false} EntryHijack<M>(io: Memory<M>, env: Env, s: Core<M>, q: Core<M>, cause: Cause)
    requires cause.IrqCause? || cause.BrkCause?
    requires s.r == q.r && s.bus.mem == q.bus.mem && s.bus.log == q.bus.log && s.bus.cycles == q.bus.cycles
    requires !q.bus.lines.nmi
    ensures var s', q' := Entry(io, env, s, cause), Entry(io, QUIET, q, cause);
            var at := AtDecision(io, env, s, cause);
            && s'.r == q'.r.(pc := s'.r.pc) && s'.bus.mem == q'.bus.mem
            && q'.r.pc == VectorTarget(io, q'.bus.mem, IRQ_VECTOR)
            && s'.r.pc == VectorTarget(io, q'.bus.mem, if at.nmi then NMI_VECTOR else IRQ_VECTOR)
  {
    hide VectorTarget, PushedP;
    var acts := EntryActs(s.r, cause);
    var mid, calm := Drive(io, env, s.bus, acts), Drive(io, QUIET, q.bus, acts);
    DriveUnderSignals(io, env, s.bus, q.bus, acts);
    QuietLines(io, q.bus, acts);
    DriveUnderSignals(io, env, mid, mid, VectorActs(cause, mid.lines));
    DriveUnderSignals(io, QUIET, calm, calm, VectorActs(cause, calm.lines));
    VectorKeepsMemory(io, mid.mem, cause, mid.lines);
    VectorKeepsMemory(io, mid.mem, cause, calm.lines);
  }

  lemma {:induction false} VectorKeepsMemory<M>(io: Memory<M>, m: M, cause: Cause, l: Lines)
    ensures Stored(io, m, VectorActs(cause, l)) == m
  {
    NoWrites(io, m, VectorActs(cause, l));
  }

  lemma {:induction false} NoWrites<M>(io: Memory<M>, m: M, acts: seq<Act>)
    requires forall k :: 0 <= k < |acts| ==> !acts[k].W?
    ensures Stored(io, m, acts) == m
    decreases |acts|
  {
    if acts != [] { NoWrites(io, m, acts[1..]); }
  }

  lemma {:induction false} QuietLines<M>(io: Memory<M>, b: Bus<M>, acts: seq<Act>)
    requires NoLatch(acts)
    ensures Drive(io, QUIET, b, acts).lines == b.lines
    decreases |acts|
  {
    if acts != [] {
      assert QUIET(b.cycles) == [];
      QuietLines(io, Do(io, QUIET, b, acts[0]), acts[1..]);
    }
  }

  /** The lines when a BRK or IRQ step chooses its vector. */
  function StepDecision<M>(io: Memory<M>, env: Env, s: Core<M>): Lines {
    if PlanOf(io, s) == Interrupt(IrqCause) then AtDecision(io, env, s, IrqCause)
    else AtDecision(io, env, BrkEntry(io, env, s), BrkCause)
  }

  /** A BRK or IRQ step with the host raising signals at will, against the same step undisturbed: pushed PC and P
      (with B), SP, flags and memory are the same; only PC may differ. The NMI vector is used exactly when an
      edge came in before the decision, and then the step is the service of that edge. */
  lemma {:induction false} HijackChangesOnlyTheVector<M>(io: Memory<M>, env: Env, s: Core<M>)
    requires s.bus.lines.rdy && (PlanOf(io, s) == Interrupt(IrqCause) || PlanOf(io, s) == Execute(Brk))
    ensures var s', q := Step(io, env, s), Step(io, QUIET, s);
            && s'.r == q.r.(pc := s'.r.pc) && s'.bus.mem == q.bus.mem
            && q.r.pc == VectorTarget(io, q.bus.mem, IRQ_VECTOR)
            && s'.r.pc == VectorTarget(io, q.bus.mem, if ServesNmi(io, env, s) then NMI_VECTOR else IRQ_VECTOR)
            && (ServesNmi(io, env, s) <==> StepDecision(io, env, s).edges > s.bus.lines.edges)
  {
    hide Entry, VectorTarget, RegsAfter, InstActs, EntryActs, Drive;
    if PlanOf(io, s) == Interrupt(IrqCause) {
      EntryHijack(io, env, s, s, IrqCause);
      EntryGrows(io, env, s, IrqCause);
    } else {
      var two := [R(s.r.pc), R(Next(s.r.pc))];
      DriveUnderSignals(io, env, s.bus, s.bus, two);
      QuietLines(io, s.bus, two);
      EntryHijack(io, env, BrkEntry(io, env, s), BrkEntry(io, QUIET, s), BrkCause);
      DriveGrows(io, env, s.bus, two);
      EntryGrows(io, env, BrkEntry(io, env, s), BrkCause);
    }
  }

  lemma {:induction false} EntryGrows<M>(io: Memory<M>, env: Env, s: Core<M>, cause: Cause)
    ensures Grows(s.bus.lines, AtDecision(io, env, s, cause))
  {
    DriveGrows(io, env, s.bus, EntryActs(s.r, cause));
  }

  /** With a host that never acts inside a bus cycle, no entry is ever hijacked. */
  lemma {:induction false} NoHijackWhenQuiet<M>(io: Memory<M>, s: Core<M>)
    ensures ServesNmi(io, QUIET, s) ==> PlanOf(io, s) == Interrupt(NmiCause)
  {
    hide Table, EntryActs, Drive;
    if s.bus.lines.rdy {
      var two := [R(s.r.pc), R(Next(s.r.pc))];
      QuietLines(io, s.bus, two);
      QuietEntry(io, s, IrqCause);
      QuietEntry(io, BrkEntry(io, QUIET, s), BrkCause);
    }
  }

  lemma {:induction false} QuietEntry<M>(io: Memory<M>, s: Core<M>, cause: Cause)
    ensures AtDecision(io, QUIET, s, cause) == s.bus.lines
  {
    QuietLines(io, s.bus, EntryActs(s.r, cause));
  }
}
