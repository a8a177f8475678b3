/** The bus log explains everything: memory, hook calls and cycle stamps follow from it over every run. */
module BusLog {
  import opened Bits
  import opened Status
  import opened Bus
  import opened Alu
  import opened Isa
  import opened Runs
  import opened NmiProtocol

  /** Everything a step does to the bus, in order. */
  function StepActs<M>(io: Memory<M>, env: Env, s: Core<M>): seq<Act> {
    if !s.bus.lines.rdy then []
    else
      match PlanOf(io, s)
      case Interrupt(cause) => EntrySteps(io, env, s, cause)
      case Execute(inst) =>
        if inst.Brk? then [R(s.r.pc), R(Next(s.r.pc))] + EntrySteps(io, env, BrkEntry(io, env, s), BrkCause)
        else [R(s.r.pc)] + InstActs(io, Fetched(s.r), s.bus.mem, inst)
  }

  function EntrySteps<M>(io: Memory<M>, env: Env, s: Core<M>, cause: Cause): seq<Act> {
    EntryActs(s.r, cause) + VectorActs(cause, AtDecision(io, env, s, cause))
  }

  lemma {:induction false} StepIsDriven<M>(io: Memory<M>, env: Env, s: Core<M>)
    ensures Step(io, env, s).bus == Drive(io, env, s.bus, StepActs(io, env, s))
  {
    hide EntryActs, VectorActs, InstActs, RegsAfter, Table, VectorTarget;
    if s.bus.lines.rdy {
      var plan := PlanOf(io, s);
      if plan.Interrupt? {
        EntryIsDriven(io, env, s, plan.cause);
      } else if plan.inst.Brk? {
        EntryIsDriven(io, env, BrkEntry(io, env, s), BrkCause);
        DriveAppend(io, env, s.bus, [R(s.r.pc), R(Next(s.r.pc))], EntrySteps(io, env, BrkEntry(io, env, s), BrkCause));
      }
    }
  }

  lemma {:induction false} EntryIsDriven<M>(io: Memory<M>, env: Env, s: Core<M>, cause: Cause)
    ensures Entry(io, env, s, cause).bus == Drive(io, env, s.bus, EntrySteps(io, env, s, cause))
  {
    hide EntryActs, VectorActs, VectorTarget;
    DriveAppend(io, env, s.bus, EntryActs(s.r, cause), VectorActs(cause, AtDecision(io, env, s, cause)));
  }

  // What a log says.

  /** The memory after the writes of a log. */
  function Replayed<M>(io: Memory<M>, m: M, events: seq<BusEvent>): M
    decreases |events|
  {
    if events == [] then m else Replayed(io, AfterEvent(io, m, events[0]), events[1..])
  }

  function AfterEvent<M>(io: Memory<M>, m: M, e: BusEvent): M {
    if e.kind.BusWrite? then Poke(io, m, e.addr, e.value) else m
  }

  /** Every read in the log returned what the memory held at that moment. */
  predicate Truthful<M>(io: Memory<M>, m: M, events: seq<BusEvent>)
    decreases |events|
  {
    events == []
    || ((events[0].kind.BusRead? ==> events[0].value == Peek(io, m, events[0].addr))
        && Truthful(io, AfterEvent(io, m, events[0]), events[1..]))
  }

  /** The hook calls a log should have caused, given the memory it started from. */
  function Called<M>(io: Memory<M>, m: M, events: seq<BusEvent>): seq<HookCall>
    decreases |events|
  {
    if events == [] then []
    else Seen(io, m, events[0].addr, events[0].kind.BusWrite?, events[0].value)
         + Called(io, AfterEvent(io, m, events[0]), events[1..])
  }

  /** `events` is what happened on the bus between `b` and `b'`. */
  ghost predicate Explains<M>(io: Memory<M>, b: Bus<M>, b': Bus<M>, events: seq<BusEvent>) {
    && b'.log == b.log + events
    && b'.mem == Replayed(io, b.mem, events)
    && Truthful(io, b.mem, events)
    && b'.hooks == b.hooks + Called(io, b.mem, events)
  }

  lemma {:induction false} DriveExplained<M>(io: Memory<M>, env: Env, b: Bus<M>, acts: seq<Act>)
    returns (events: seq<BusEvent>)
    ensures Explains(io, b, Drive(io, env, b, acts), events)
    decreases |acts|
  {
    events := [];
    if acts != [] {
      var b1 := Do(io, env, b, acts[0]);
      var rest := DriveExplained(io, env, b1, acts[1..]);
      if acts[0].R? || acts[0].W? {
        var e := b1.log[|b.log|];
        assert b1.log == b.log + [e];
        events := [e] + rest;
        assert events[1..] == rest;
        assert b.log + events == b1.log + rest;
        assert b.hooks + Called(io, b.mem, events) == b1.hooks + Called(io, b1.mem, rest);
      } else {
        events := rest;
      }
    }
  }

  lemma {:induction false} LogsCompose<M>(io: Memory<M>, m: M, first: seq<BusEvent>, second: seq<BusEvent>)
    ensures var m' := Replayed(io, m, first);
            && Replayed(io, m, first + second) == Replayed(io, m', second)
            && (Truthful(io, m, first) && Truthful(io, m', second) ==> Truthful(io, m, first + second))
            && Called(io, m, first + second) == Called(io, m, first) + Called(io, m', second)
    decreases |first|
  {
    if first == [] {
      assert first + second == second;
    } else {
      assert (first + second)[1..] == first[1..] + second;
      LogsCompose(io, AfterEvent(io, m, first[0]), first[1..], second);
    }
  }

  /** Over every run, from any state: the events it adds to the log, replayed on the memory it started from, give the
      memory there is now; every read among them returned what was there at the time; and the hook was called for
      exactly those that nobody answered under the memory of that moment. */
  lemma {:induction false} RunExplained<M>(io: Memory<M>, env: Env, s: Core<M>, moves: seq<Move>)
    returns (events: seq<BusEvent>)
    ensures Explains(io, s.bus, After(io, env, s, moves).bus, events)
    decreases |moves|
  {
    hide Isa.Step, StepActs;
    events := [];
    if moves != [] {
      var before := moves[..|moves| - 1];
      var first := RunExplained(io, env, s, before);
      events := first;
      if moves[|moves| - 1].Advance? {
        var t := After(io, env, s, before);
        StepIsDriven(io, env, t);
        var second := DriveExplained(io, env, t.bus, StepActs(io, env, t));
        LogsCompose(io, s.bus.mem, first, second);
        events := first + second;
      }
    }
  }

  /** From a fresh processor, the whole log explains the whole state of the bus. */
  lemma {:induction false} FreshRunExplained<M>(io: Memory<M>, env: Env, m: M, moves: seq<Move>)
    ensures var b := After(io, env, Fresh(m), moves).bus;
            && b.mem == Replayed(io, m, b.log) && Truthful(io, m, b.log) && b.hooks == Called(io, m, b.log)
  {
    hide After;
    var events := RunExplained(io, env, Fresh(m), moves);
    assert [] + events == events;
    assert [] + Called(io, m, events) == Called(io, m, events);
  }

  /** A memory whose hook is called at most once for an access calls it at most once for each bus cycle. */
  lemma {:induction false} OneCallPerCycle<M(!new)>(io: Memory<M>, m: M, events: seq<BusEvent>)
    requires forall m: M, a: word, w: bool, v: byte :: |Seen(io, m, a, w, v)| <= 1
    ensures |Called(io, m, events)| <= |events|
    decreases |events|
  {
    if events != [] { OneCallPerCycle(io, AfterEvent(io, m, events[0]), events[1..]); }
  }

  // The illegal-opcode hook.

  function TrapsOf(acts: seq<Act>): seq<(word, byte)>
    decreases |acts|
  {
    if acts == [] then [] else (if acts[0].Trap? then [(acts[0].pc, acts[0].opcode)] else []) + TrapsOf(acts[1..])
  }

  lemma {:induction false} DoTraps<M>(io: Memory<M>, env: Env, b: Bus<M>, act: Act)
    ensures Do(io, env, b, act).traps == b.traps + if act.Trap? then [(act.pc, act.opcode)] else []
  {
    hide Peek, Poke, Seen, Delivered, Tick;
  }

  lemma {:induction false} DriveTraps<M>(io: Memory<M>, env: Env, b: Bus<M>, acts: seq<Act>)
    ensures Drive(io, env, b, acts).traps == b.traps + TrapsOf(acts)
    decreases |acts|
  {
    hide Do;
    if acts != [] {
      DoTraps(io, env, b, acts[0]);
      DriveTraps(io, env, Do(io, env, b, acts[0]), acts[1..]);
    }
  }

  lemma {:induction false} NoTraps(acts: seq<Act>)
    requires forall k :: 0 <= k < |acts| ==> !acts[k].Trap?
    ensures TrapsOf(acts) == []
    decreases |acts|
  {
    if acts != [] { NoTraps(acts[1..]); }
  }

  lemma {:induction false} InstSilent<M>(io: Memory<M>, r: Regs, m: M, inst: Inst)
    requires !inst.Brk? && !inst.Illegal?
    ensures forall k :: 0 <= k < |InstActs(io, r, m, inst)| ==> !InstActs(io, r, m, inst)[k].Trap?
  {
    hide Loaded, Shifted, ShiftFlags, ToByte, FromByte, Ea, Base, BranchTarget, JumpPointer, Word16, Stack, Up, Down,
      Taken;
  }

  lemma {:induction false} InstTraps<M>(io: Memory<M>, s: Core<M>, inst: Inst)
    requires !inst.Brk?
    ensures TrapsOf([R(s.r.pc)] + InstActs(io, Fetched(s.r), s.bus.mem, inst))
         == if inst.Illegal? then [(s.r.pc, Peek(io, s.bus.mem, s.r.pc))] else []
  {
    if inst.Illegal? {
      IllegalTraps(io, s);
    } else {
      InstSilent(io, Fetched(s.r), s.bus.mem, inst);
      hide InstActs;
      NoTraps([R(s.r.pc)] + InstActs(io, Fetched(s.r), s.bus.mem, inst));
    }
  }

  lemma {:induction false} IllegalTraps<M>(io: Memory<M>, s: Core<M>)
    ensures TrapsOf([R(s.r.pc)] + InstActs(io, Fetched(s.r), s.bus.mem, Illegal))
      == [(s.r.pc, Peek(io, s.bus.mem, s.r.pc))]
  {
    var acts := InstActs(io, Fetched(s.r), s.bus.mem, Illegal);
    assert ([R(s.r.pc)] + acts)[1..] == acts;
    NoTraps(acts[1..]);
  }

  /** The illegal-opcode hook is called once for each undocumented byte executed, with its address and the byte, and
      for nothing else. */
  lemma {:induction false} TrapsAreIllegalBytes<M>(io: Memory<M>, env: Env, s: Core<M>)
    ensures Step(io, env, s).bus.traps == s.bus.traps
      + if s.bus.lines.rdy && PlanOf(io, s) == Execute(Illegal) then [(s.r.pc, Peek(io, s.bus.mem, s.r.pc))] else []
  {
    hide Isa.Step, InstActs, Table, PushedP, AtDecision;
    StepIsDriven(io, env, s);
    DriveTraps(io, env, s.bus, StepActs(io, env, s));
    if s.bus.lines.rdy {
      var plan := PlanOf(io, s);
      if plan.Execute? && !plan.inst.Brk? {
        InstTraps(io, s, plan.inst);
      } else {
        NoTraps(StepActs(io, env, s));
      }
    }
  }

  // Stamps.

  /** `events` carry the counts that follow `start`, one each. */
  predicate StampedFrom(start: u64, events: seq<BusEvent>) {
    forall k :: 0 <= k < |events| ==> events[k].cycle == (start + k + 1) % WRAP
  }

  lemma {:induction false} TickCounts(start: u64, n: nat)
    ensures Tick((start + n) % WRAP) == (start + n + 1) % WRAP
  {
  }

  lemma {:induction false} DriveStamped<M>(io: Memory<M>, env: Env, b0: Bus<M>, b: Bus<M>, acts: seq<Act>)
    requires b0.log <= b.log && StampedFrom(b0.cycles, b.log[|b0.log|..])
    requires b.cycles == (b0.cycles + |b.log| - |b0.log|) % WRAP
    ensures var b' := Drive(io, env, b, acts);
            && b0.log <= b'.log && StampedFrom(b0.cycles, b'.log[|b0.log|..])
            && b'.cycles == (b0.cycles + |b'.log| - |b0.log|) % WRAP
    decreases |acts|
  {
    if acts != [] {
      TickCounts(b0.cycles, |b.log| - |b0.log|);
      DriveStamped(io, env, b0, Do(io, env, b, acts[0]), acts[1..]);
    }
  }

  /** Over every run, from any state: each event is stamped one more than the one before, from the count the run started
      at and around the end of the counter, and the counter shows the last. */
  lemma {:induction false} RunStamped<M>(io: Memory<M>, env: Env, s: Core<M>, moves: seq<Move>)
    ensures var b := After(io, env, s, moves).bus;
            && s.bus.log <= b.log && StampedFrom(s.bus.cycles, b.log[|s.bus.log|..])
            && b.cycles == (s.bus.cycles + |b.log| - |s.bus.log|) % WRAP
    decreases |moves|
  {
    hide Isa.Step, StepActs, StampedFrom;
    if moves != [] {
      var t := After(io, env, s, moves[..|moves| - 1]);
      RunStamped(io, env, s, moves[..|moves| - 1]);
      StepIsDriven(io, env, t);
      DriveStamped(io, env, s.bus, t.bus, StepActs(io, env, t));
    } else {
      NothingStamped(s.bus.cycles, s.bus.log);
    }
  }

  lemma {:induction false} NothingStamped(start: u64, log: seq<BusEvent>)
    ensures StampedFrom(start, log[|log|..])
  {
  }

  /** From a fresh processor: consecutive from 1. */
  lemma {:induction false} FreshRunStamped<M>(io: Memory<M>, env: Env, m: M, moves: seq<Move>)
    ensures var b := After(io, env, Fresh(m), moves).bus;
            b.cycles == |b.log| % WRAP && StampedFrom(0, b.log)
  {
    hide After, StampedFrom;
    RunStamped(io, env, Fresh(m), moves);
    assert After(io, env, Fresh(m), moves).bus.log[0..] == After(io, env, Fresh(m), moves).bus.log;
  }
}
