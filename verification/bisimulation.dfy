/** Memories that no read can tell apart make processors that no run can tell apart. */
module Bisimulation {
  import opened Bits
  import opened Status
  import opened Bus
  import opened Alu
  import opened Isa
  import opened NmiProtocol
  import opened Runs

  /** `rel` relates memories that answer alike and stay related under the same writes. */
  ghost predicate Alike<M(!new)>(io: Memory<M>, rel: (M, M) -> bool) {
    forall m: M, n: M {:trigger rel(m, n)} :: rel(m, n) ==>
      && (forall a: word :: Peek(io, m, a) == Peek(io, n, a))
      && (forall a: word, v: byte :: rel(Poke(io, m, a, v), Poke(io, n, a, v)))
      && (forall a: word, w: bool, v: byte :: Seen(io, m, a, w, v) == Seen(io, n, a, w, v))
  }

  /** The lines themselves, without the bookkeeping. */
  predicate SameLines(l: Lines, k: Lines) {
    l.irq == k.irq && l.nmi == k.nmi && l.nmiPrev == k.nmiPrev && l.reset == k.reset && l.rdy == k.rdy
  }

  /** The buses agree on everything to come, and on all that was logged since `b0` and `c0`. */
  ghost predicate Matched<M>(rel: (M, M) -> bool, b0: Bus<M>, c0: Bus<M>, b: Bus<M>, c: Bus<M>) {
    && rel(b.mem, c.mem) && SameLines(b.lines, c.lines) && b.cycles == c.cycles
    && |b0.log| <= |b.log| && |c0.log| <= |c.log| && b.log[|b0.log|..] == c.log[|c0.log|..]
    && |b0.hooks| <= |b.hooks| && |c0.hooks| <= |c.hooks| && b.hooks[|b0.hooks|..] == c.hooks[|c0.hooks|..]
  }

  ghost predicate InStep<M>(rel: (M, M) -> bool, s0: Core<M>, t0: Core<M>, s: Core<M>, t: Core<M>) {
    s.r == t.r && Matched(rel, s0.bus, t0.bus, s.bus, t.bus)
  }

  lemma {:induction false} SignalledAlike(l: Lines, k: Lines, sig: Signal)
    requires SameLines(l, k)
    ensures SameLines(Signalled(l, sig), Signalled(k, sig))
  {
  }

  lemma {:induction false} DeliveredAlike(l: Lines, k: Lines, sigs: seq<Signal>)
    requires SameLines(l, k)
    ensures SameLines(Delivered(l, sigs), Delivered(k, sigs))
    decreases |sigs|
  {
    hide Signalled, SameLines;
    if sigs != [] {
      var before := sigs[..|sigs| - 1];
      DeliveredAlike(l, k, before);
      SignalledAlike(Delivered(l, before), Delivered(k, before), sigs[|sigs| - 1]);
    }
  }

  lemma {:induction false} DoAlike<M(!new)>(io: Memory<M>, env: Env, rel: (M, M) -> bool,
                                            b0: Bus<M>, c0: Bus<M>, b: Bus<M>, c: Bus<M>, act: Act)
    requires Alike(io, rel) && Matched(rel, b0, c0, b, c)
    ensures Matched(rel, b0, c0, Do(io, env, b, act), Do(io, env, c, act))
  {
    hide Delivered;
    DeliveredAlike(b.lines, c.lines, env(b.cycles));
    var b', c' := Do(io, env, b, act), Do(io, env, c, act);
    if act.R? || act.W? {
      var e := b'.log[|b.log|];
      assert b'.log[|b0.log|..] == b.log[|b0.log|..] + [e];
      assert c'.log[|c0.log|..] == c.log[|c0.log|..] + [e];
      var v := if act.R? then Peek(io, b.mem, act.addr) else act.value;
      var calls := Seen(io, b.mem, act.addr, act.W?, v);
      assert b'.hooks[|b0.hooks|..] == b.hooks[|b0.hooks|..] + calls;
      assert c'.hooks[|c0.hooks|..] == c.hooks[|c0.hooks|..] + calls;
    }
  }

  lemma {:induction false} DriveAlike<M(!new)>(io: Memory<M>, env: Env, rel: (M, M) -> bool,
                                               b0: Bus<M>, c0: Bus<M>, b: Bus<M>, c: Bus<M>, acts: seq<Act>)
    requires Alike(io, rel) && Matched(rel, b0, c0, b, c)
    ensures Matched(rel, b0, c0, Drive(io, env, b, acts), Drive(io, env, c, acts))
    decreases |acts|
  {
    hide Do, Matched;
    if acts != [] {
      DoAlike(io, env, rel, b0, c0, b, c, acts[0]);
      DriveAlike(io, env, rel, b0, c0, Do(io, env, b, acts[0]), Do(io, env, c, acts[0]), acts[1..]);
    }
  }

  lemma {:induction false} EaAlike<M(!new)>(io: Memory<M>, m: M, n: M, r: Regs, mode: Operand, always: bool)
    requires forall a: word :: Peek(io, m, a) == Peek(io, n, a)
    ensures Base(io, m, r, mode) == Base(io, n, r, mode) && Ea(io, m, r, mode) == Ea(io, n, r, mode)
    ensures EaActs(io, m, r, mode, always) == EaActs(io, n, r, mode, always)
  {
    hide FixUp;
  }

  /** An instruction sees a memory only through what its reads return. */
  lemma {:induction false} InstAlike<M(!new)>(io: Memory<M>, rel: (M, M) -> bool, r: Regs, m: M, n: M, inst: Inst)
    requires Alike(io, rel) && rel(m, n) && !inst.Brk?
    ensures RegsAfter(io, r, m, inst) == RegsAfter(io, r, n, inst)
    ensures InstActs(io, r, m, inst) == InstActs(io, r, n, inst)
  {
    hide Loaded, Shifted, ShiftFlags, FromByte, ToByte, Base, Ea, EaActs, FixUp, BranchTarget;
    match inst
    case Read(_, mode) => EaAlike(io, m, n, r, mode, false);
    case Store(_, mode) => EaAlike(io, m, n, r, mode, true);
    case Rmw(_, mode) => EaAlike(io, m, n, r, mode, true);
    case Jsr =>
      assert rel(PushedPc(io, m, r.sp, Next(r.pc)), PushedPc(io, n, r.sp, Next(r.pc)))
        by { PushedAlike(io, rel, m, n, r.sp, Next(r.pc)); }
    case _ =>
  }

  lemma {:induction false} PushedAlike<M(!new)>(io: Memory<M>, rel: (M, M) -> bool, m: M, n: M, sp: byte, pc: word)
    requires Alike(io, rel) && rel(m, n)
    ensures rel(PushedPc(io, m, sp, pc), PushedPc(io, n, sp, pc))
  {
    var m1, n1 := Poke(io, m, Stack(sp), Hi(pc)), Poke(io, n, Stack(sp), Hi(pc));
    assert rel(m1, n1);
  }

  lemma {:induction false} EntryAlike<M(!new)>(io: Memory<M>, env: Env, rel: (M, M) -> bool,
                                               s0: Core<M>, t0: Core<M>, s: Core<M>, t: Core<M>, cause: Cause)
    requires Alike(io, rel) && InStep(rel, s0, t0, s, t)
    ensures InStep(rel, s0, t0, Entry(io, env, s, cause), Entry(io, env, t, cause))
  {
    hide EntryActs, Drive, PushedP;
    var acts := EntryActs(s.r, cause);
    var mid, nid := Drive(io, env, s.bus, acts), Drive(io, env, t.bus, acts);
    DriveAlike(io, env, rel, s0.bus, t0.bus, s.bus, t.bus, acts);
    assert VectorActs(cause, mid.lines) == VectorActs(cause, nid.lines);
    DriveAlike(io, env, rel, s0.bus, t0.bus, mid, nid, VectorActs(cause, mid.lines));
  }

  lemma {:induction false} ExecutedAlike<M(!new)>(io: Memory<M>, env: Env, rel: (M, M) -> bool,
                                                  s0: Core<M>, t0: Core<M>, s: Core<M>, t: Core<M>, inst: Inst)
    requires Alike(io, rel) && InStep(rel, s0, t0, s, t)
    ensures InStep(rel, s0, t0, Executed(io, env, s, inst), Executed(io, env, t, inst))
  {
    hide RegsAfter, InstActs, Entry, Drive, Matched;
    var r := Fetched(s.r);
    assert rel(s.bus.mem, t.bus.mem) by { MatchedNow(rel, s0.bus, t0.bus, s.bus, t.bus); }
    if inst.Brk? {
      var two := [R(s.r.pc), R(r.pc)];
      DriveAlike(io, env, rel, s0.bus, t0.bus, s.bus, t.bus, two);
      EntryAlike(io, env, rel, s0, t0, BrkEntry(io, env, s), BrkEntry(io, env, t), BrkCause);
    } else {
      InstAlike(io, rel, r, s.bus.mem, t.bus.mem, inst);
      DriveAlike(io, env, rel, s0.bus, t0.bus, s.bus, t.bus, [R(s.r.pc)] + InstActs(io, r, s.bus.mem, inst));
    }
  }

  lemma {:induction false} MatchedNow<M(!new)>(rel: (M, M) -> bool, b0: Bus<M>, c0: Bus<M>, b: Bus<M>, c: Bus<M>)
    requires Matched(rel, b0, c0, b, c)
    ensures rel(b.mem, c.mem) && SameLines(b.lines, c.lines)
  {
  }

  lemma {:induction false} StepAlike<M(!new)>(io: Memory<M>, env: Env, rel: (M, M) -> bool,
                                              s0: Core<M>, t0: Core<M>, s: Core<M>, t: Core<M>)
    requires Alike(io, rel) && InStep(rel, s0, t0, s, t)
    ensures InStep(rel, s0, t0, Step(io, env, s), Step(io, env, t))
  {
    hide Entry, Executed, Table, Matched;
    MatchedNow(rel, s0.bus, t0.bus, s.bus, t.bus);
    if s.bus.lines.rdy {
      var plan := PlanOf(io, s);
      assert PlanOf(io, t) == plan;
      if plan.Interrupt? {
        EntryAlike(io, env, rel, s0, t0, s, t, plan.cause);
      } else {
        ExecutedAlike(io, env, rel, s0, t0, s, t, plan.inst);
      }
    }
  }

  lemma {:induction false} MoveAlike<M(!new)>(io: Memory<M>, env: Env, rel: (M, M) -> bool,
                                              s0: Core<M>, t0: Core<M>, s: Core<M>, t: Core<M>, move: Move)
    requires Alike(io, rel) && InStep(rel, s0, t0, s, t)
    ensures InStep(rel, s0, t0, Moved(io, env, s, move), Moved(io, env, t, move))
  {
    hide Isa.Step, Signalled;
    match move
    case Host(sig) => SignalledAlike(s.bus.lines, t.bus.lines, sig);
    case Advance => StepAlike(io, env, rel, s0, t0, s, t);
  }

  /** Bisimulation: processors in step stay in step under every run of steps and host calls, bus cycle for bus cycle. */
  lemma {:induction false} RunAlike<M(!new)>(io: Memory<M>, env: Env, rel: (M, M) -> bool,
                                             s0: Core<M>, t0: Core<M>, s: Core<M>, t: Core<M>, moves: seq<Move>)
    requires Alike(io, rel) && InStep(rel, s0, t0, s, t)
    ensures InStep(rel, s0, t0, After(io, env, s, moves), After(io, env, t, moves))
    decreases |moves|
  {
    hide Moved, InStep, Alike;
    if moves != [] {
      var before := moves[..|moves| - 1];
      RunAlike(io, env, rel, s0, t0, s, t, before);
      MoveAlike(io, env, rel, s0, t0, After(io, env, s, before), After(io, env, t, before), moves[|moves| - 1]);
    }
  }

  lemma {:induction false} StepsAlike<M(!new)>(io: Memory<M>, env: Env, rel: (M, M) -> bool,
                                               s0: Core<M>, t0: Core<M>, s: Core<M>, t: Core<M>, n: nat)
    requires Alike(io, rel) && InStep(rel, s0, t0, s, t)
    ensures InStep(rel, s0, t0, Steps(io, env, s, n), Steps(io, env, t, n))
    decreases n
  {
    hide Isa.Step, Alike, InStep;
    if n > 0 {
      StepsAlike(io, env, rel, s0, t0, s, t, n - 1);
      StepAlike(io, env, rel, s0, t0, Steps(io, env, s, n - 1), Steps(io, env, t, n - 1));
    }
  }

  lemma {:induction false} StopsAlike<M(!new)>(rel: (M, M) -> bool, s0: Core<M>, t0: Core<M>, s: Core<M>, t: Core<M>,
    deadline: nat)
    requires InStep(rel, s0, t0, s, t)
    ensures Stops(s, deadline) == Stops(t, deadline)
  {
  }

  /** Nor do budgeted runs part them: the counters and RDY agree at every step, so both stop at the same one, or neither
      ever does. */
  lemma {:induction false} RunToAlike<M(!new)>(io: Memory<M>, env: Env, rel: (M, M) -> bool,
                                               s0: Core<M>, t0: Core<M>, s: Core<M>, t: Core<M>, deadline: nat)
    requires Alike(io, rel) && InStep(rel, s0, t0, s, t)
    ensures Ends(io, env, s, deadline) <==> Ends(io, env, t, deadline)
    ensures Ends(io, env, s, deadline) ==>
      InStep(rel, s0, t0, RunTo(io, env, s, deadline), RunTo(io, env, t, deadline))
  {
    hide Isa.Step, Alike, InStep, Stops, Steps;
    forall n: nat
      ensures InStep(rel, s0, t0, Steps(io, env, s, n), Steps(io, env, t, n))
      ensures Stops(Steps(io, env, s, n), deadline) == Stops(Steps(io, env, t, n), deadline)
    {
      StepsAlike(io, env, rel, s0, t0, s, t, n);
      StopsAlike(rel, s0, t0, Steps(io, env, s, n), Steps(io, env, t, n), deadline);
    }
    if Ends(io, env, s, deadline) {
      var k := Length(io, env, s, deadline);
      assert Stops(Steps(io, env, t, k), deadline);
      FirstToStop(io, env, t, deadline, k);
    }
  }

  /** A host's use of the machine: signals between ticks, and ticks of any budget. */
  datatype Use = Line(sig: Signal) | Budget(cycles: u64)

  /** A signal always returns; a tick does when its run comes to an end. */
  ghost predicate UseReturns<M>(io: Memory<M>, env: Env, s: Core<M>, use: Use) {
    use.Budget? ==> Returns(io, env, s, use.cycles)
  }

  ghost function Used<M>(io: Memory<M>, env: Env, s: Core<M>, use: Use): Core<M>
    requires UseReturns(io, env, s, use)
  {
    match use
    case Line(sig) => Moved(io, env, s, Host(sig))
    case Budget(cycles) => RunFor(io, env, s, cycles)
  }

  ghost predicate UsesReturn<M>(io: Memory<M>, env: Env, s: Core<M>, uses: seq<Use>)
    decreases |uses|
  {
    uses == [] || (UseReturns(io, env, s, uses[0]) && UsesReturn(io, env, Used(io, env, s, uses[0]), uses[1..]))
  }

  ghost function AfterUses<M>(io: Memory<M>, env: Env, s: Core<M>, uses: seq<Use>): Core<M>
    requires UsesReturn(io, env, s, uses)
    decreases |uses|
  {
    if uses == [] then s else AfterUses(io, env, Used(io, env, s, uses[0]), uses[1..])
  }

  lemma {:induction false} UsedAlike<M(!new)>(io: Memory<M>, env: Env, rel: (M, M) -> bool,
                                              s0: Core<M>, t0: Core<M>, s: Core<M>, t: Core<M>, use: Use)
    requires Alike(io, rel) && InStep(rel, s0, t0, s, t)
    ensures UseReturns(io, env, s, use) <==> UseReturns(io, env, t, use)
    ensures UseReturns(io, env, s, use) ==> InStep(rel, s0, t0, Used(io, env, s, use), Used(io, env, t, use))
  {
    hide Isa.Step, Signalled, Alike, RunTo, Ends;
    match use
    case Line(sig) => SignalledAlike(s.bus.lines, t.bus.lines, sig);
    case Budget(cycles) => RunToAlike(io, env, rel, s0, t0, s, t, Deadline(s.bus.cycles, cycles));
  }

  /** Processors in step stay so under every sequence of signals and ticks; where one returns, so does the other. */
  lemma {:induction false} UsesAlike<M(!new)>(io: Memory<M>, env: Env, rel: (M, M) -> bool,
                                              s0: Core<M>, t0: Core<M>, s: Core<M>, t: Core<M>, uses: seq<Use>)
    requires Alike(io, rel) && InStep(rel, s0, t0, s, t)
    ensures UsesReturn(io, env, s, uses) <==> UsesReturn(io, env, t, uses)
    ensures UsesReturn(io, env, s, uses) ==>
      InStep(rel, s0, t0, AfterUses(io, env, s, uses), AfterUses(io, env, t, uses))
    decreases |uses|
  {
    hide Used, InStep, Alike, UseReturns;
    if uses != [] {
      UsedAlike(io, env, rel, s0, t0, s, t, uses[0]);
      if UseReturns(io, env, s, uses[0]) {
        UsesAlike(io, env, rel, s0, t0, Used(io, env, s, uses[0]), Used(io, env, t, uses[0]), uses[1..]);
      }
    }
  }
}
