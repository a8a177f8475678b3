/** Runs: any mix of host calls and steps, and the budgeted run. */
module Runs {
  import opened Bits
  import opened Status
  import opened Bus
  import opened Alu
  import opened Isa
  import opened Timing

  // One step at a time, with the host free to act in between.

  datatype Move = Host(sig: Signal) | Advance

  function Moved<M>(io: Memory<M>, env: Env, s: Core<M>, move: Move): Core<M> {
    match move
    case Host(sig) => s.(bus := s.bus.(lines := Signalled(s.bus.lines, sig)))
    case Advance => Step(io, env, s)
  }

  function After<M>(io: Memory<M>, env: Env, s: Core<M>, moves: seq<Move>): Core<M>
    decreases |moves|
  {
    if moves == [] then s else Moved(io, env, After(io, env, s, moves[..|moves| - 1]), moves[|moves| - 1])
  }

  /** A processor as `New` makes it. */
  function Fresh<M>(m: M): Core<M> {
    Core(Regs(0, 0, 0, 0, 0, NO_FLAGS), Bus(m, POWER_ON, 0, [], [], []))
  }

  // The budgeted run.

  function Steps<M>(io: Memory<M>, env: Env, s: Core<M>, n: nat): Core<M> {
    if n == 0 then s else Step(io, env, Steps(io, env, s, n - 1))
  }

  lemma {:induction false} FirstStep<M>(io: Memory<M>, env: Env, s: Core<M>, n: nat)
    ensures Steps(io, env, Step(io, env, s), n) == Steps(io, env, s, n + 1)
    decreases n
  {
    hide Isa.Step;
    if n > 0 { FirstStep(io, env, s, n - 1); }
  }

  /** Where a run to a deadline stops: at or past it, or where RDY is found low. */
  predicate Stops<M>(s: Core<M>, deadline: nat) { s.bus.cycles >= deadline || !s.bus.lines.rdy }

  /** Some number of steps gets there. */
  ghost predicate Ends<M>(io: Memory<M>, env: Env, s: Core<M>, deadline: nat) {
    exists n: nat :: Stops(Steps(io, env, s, n), deadline)
  }

  /** The first of the numbers up to `n` that do. */
  ghost function FirstUpTo<M>(io: Memory<M>, env: Env, s: Core<M>, deadline: nat, n: nat): (k: nat)
    requires Stops(Steps(io, env, s, n), deadline)
    ensures k <= n && Stops(Steps(io, env, s, k), deadline)
    ensures forall j :: 0 <= j < k ==> !Stops(Steps(io, env, s, j), deadline)
    decreases n
  {
    if m: nat :| m < n && Stops(Steps(io, env, s, m), deadline) then FirstUpTo(io, env, s, deadline, m) else n
  }

  /** The number of steps of a run. */
  ghost function Length<M>(io: Memory<M>, env: Env, s: Core<M>, deadline: nat): (k: nat)
    requires Ends(io, env, s, deadline)
    ensures Stops(Steps(io, env, s, k), deadline)
    ensures forall j :: 0 <= j < k ==> !Stops(Steps(io, env, s, j), deadline)
  {
    var n: nat :| Stops(Steps(io, env, s, n), deadline);
    FirstUpTo(io, env, s, deadline, n)
  }

  /** A run takes whole steps up to the first state in which it stops. A step may end past the deadline. */
  ghost function RunTo<M>(io: Memory<M>, env: Env, s: Core<M>, deadline: nat): Core<M>
    requires Ends(io, env, s, deadline)
  {
    Steps(io, env, s, Length(io, env, s, deadline))
  }

  lemma {:induction false} RunStops<M>(io: Memory<M>, env: Env, s: Core<M>, deadline: nat)
    requires Stops(s, deadline)
    ensures Ends(io, env, s, deadline) && Length(io, env, s, deadline) == 0 && RunTo(io, env, s, deadline) == s
  {
    assert Steps(io, env, s, 0) == s;
  }

  /** A run that does not stop at once is its first step and the run from there. */
  lemma {:induction false} RunUnfolds<M>(io: Memory<M>, env: Env, s: Core<M>, deadline: nat)
    requires !Stops(s, deadline)
    ensures var s' := Step(io, env, s);
            && (Ends(io, env, s, deadline) <==> Ends(io, env, s', deadline))
            && (Ends(io, env, s, deadline) ==>
                  && Length(io, env, s, deadline) == Length(io, env, s', deadline) + 1
                  && RunTo(io, env, s, deadline) == RunTo(io, env, s', deadline))
  {
    hide Isa.Step;
    var s' := Step(io, env, s);
    assert Steps(io, env, s, 0) == s;
    if Ends(io, env, s, deadline) {
      var n := Length(io, env, s, deadline);
      FirstStep(io, env, s, n - 1);
      assert Stops(Steps(io, env, s', n - 1), deadline);
    }
    if Ends(io, env, s', deadline) {
      var k := Length(io, env, s', deadline);
      FirstStep(io, env, s, k);
      assert Stops(Steps(io, env, s, k + 1), deadline);
      forall j | 0 <= j < k + 1 ensures !Stops(Steps(io, env, s, j), deadline) {
        if j > 0 { FirstStep(io, env, s, j - 1); }
      }
    }
  }

  lemma {:induction false} StepProgress<M>(io: Memory<M>, env: Env, s: Core<M>) returns (k: nat)
    requires s.bus.lines.rdy
    ensures var s' := Step(io, env, s);
            && 2 <= k <= 7 && |s'.bus.log| == |s.bus.log| + k
            && s'.bus.cycles == if s.bus.cycles + k < WRAP then s.bus.cycles + k else s.bus.cycles + k - WRAP
  {
    hide Isa.Step, StepCost;
    StepTiming(io, env, s);
    StepCostBounds(io, s);
    k := StepCost(io, s);
  }

  /** No program can keep a run from a deadline that no step can jump over. */
  lemma {:induction false} RunEnds<M>(io: Memory<M>, env: Env, s: Core<M>, deadline: nat)
    requires deadline <= WRAP - 7
    ensures Ends(io, env, s, deadline)
    decreases deadline - s.bus.cycles
  {
    hide Isa.Step;
    if Stops(s, deadline) {
      RunStops(io, env, s, deadline);
    } else {
      var _ := StepProgress(io, env, s);
      RunEnds(io, env, Step(io, env, s), deadline);
      RunUnfolds(io, env, s, deadline);
    }
  }

  /** A run that ends does so at or past its deadline by at most six cycles, or where RDY was low. */
  lemma {:induction false} RunOvershoot<M>(io: Memory<M>, env: Env, s: Core<M>, deadline: nat)
    requires Ends(io, env, s, deadline)
    ensures var s' := RunTo(io, env, s, deadline);
            && (s'.bus.cycles >= deadline || !s'.bus.lines.rdy)
            && (s.bus.cycles < deadline <= s'.bus.cycles ==> s'.bus.cycles <= deadline + 6)
            && (deadline <= WRAP - 7 ==> s.bus.cycles <= s'.bus.cycles)
    decreases Length(io, env, s, deadline)
  {
    hide Isa.Step, RunTo;
    if Stops(s, deadline) {
      RunStops(io, env, s, deadline);
    } else {
      var _ := StepProgress(io, env, s);
      RunUnfolds(io, env, s, deadline);
      var s' := Step(io, env, s);
      RunOvershoot(io, env, s', deadline);
      if Stops(s', deadline) { RunStops(io, env, s', deadline); }
    }
  }

  /** Stopping on the way changes nothing: a run to a later deadline passes through the state of the shorter run. */
  lemma {:induction false} RunSplit<M>(io: Memory<M>, env: Env, s: Core<M>, first: nat, second: nat)
    requires first <= second && Ends(io, env, s, second)
    ensures Ends(io, env, s, first) && Ends(io, env, RunTo(io, env, s, first), second)
    ensures RunTo(io, env, RunTo(io, env, s, first), second) == RunTo(io, env, s, second)
    decreases Length(io, env, s, second)
  {
    hide Isa.Step, RunTo;
    if Stops(s, first) {
      RunStops(io, env, s, first);
    } else {
      RunUnfolds(io, env, s, second);
      RunSplit(io, env, Step(io, env, s), first, second);
      RunUnfolds(io, env, s, first);
    }
  }

  /** A run is a number of whole steps, each of two to seven bus cycles, and none of them from where it could stop. */
  lemma {:induction false} RunIsSteps<M>(io: Memory<M>, env: Env, s: Core<M>, deadline: nat) returns (n: nat)
    requires Ends(io, env, s, deadline)
    ensures var s' := RunTo(io, env, s, deadline);
            && s' == Steps(io, env, s, n)
            && |s.bus.log| + 2 * n <= |s'.bus.log| <= |s.bus.log| + 7 * n
    ensures forall j :: 0 <= j < n ==> !Stops(Steps(io, env, s, j), deadline)
    decreases Length(io, env, s, deadline)
  {
    hide Isa.Step;
    n := Length(io, env, s, deadline);
    if !Stops(s, deadline) {
      var _ := StepProgress(io, env, s);
      RunUnfolds(io, env, s, deadline);
      var k := RunIsSteps(io, env, Step(io, env, s), deadline);
      FirstToStop(io, env, Step(io, env, s), deadline, k);
    } else {
      RunStops(io, env, s, deadline);
    }
  }

  lemma {:induction false} FirstToStop<M>(io: Memory<M>, env: Env, s: Core<M>, deadline: nat, n: nat)
    requires Ends(io, env, s, deadline) && Stops(Steps(io, env, s, n), deadline)
    requires forall j :: 0 <= j < n ==> !Stops(Steps(io, env, s, j), deadline)
    ensures n == Length(io, env, s, deadline)
  {
  }

  /** Steps in a row are moves in a row, so what holds after any moves holds after any runs. */
  lemma {:induction false} StepsAreMoves<M>(io: Memory<M>, env: Env, s: Core<M>, n: nat)
    ensures Steps(io, env, s, n) == After(io, env, s, seq(n, _ => Advance))
    decreases n
  {
    hide Isa.Step;
    if n > 0 {
      StepsAreMoves(io, env, s, n - 1);
      assert seq(n, _ => Advance)[..n - 1] == seq(n - 1, _ => Advance);
    }
  }

  // The 64-bit counter.

  /** The deadline the source computes; it wraps with the counter. */
  function Deadline(start: u64, budget: u64): u64 { (start + budget) % WRAP }

  /** The budgeted run comes to an end. */
  ghost predicate Returns<M>(io: Memory<M>, env: Env, s: Core<M>, budget: u64) {
    Ends(io, env, s, Deadline(s.bus.cycles, budget))
  }

  ghost function RunFor<M>(io: Memory<M>, env: Env, s: Core<M>, budget: u64): Core<M>
    requires Returns(io, env, s, budget)
  {
    RunTo(io, env, s, Deadline(s.bus.cycles, budget))
  }

  /** A host that never pulls RDY low inside a bus cycle. */
  ghost predicate KeepsReady(env: Env) {
    forall c: u64, i: nat :: i < |env(c)| ==> env(c)[i] != SetReady(false)
  }

  lemma {:induction false} DeliveredReady(l: Lines, sigs: seq<Signal>)
    requires l.rdy && forall i :: 0 <= i < |sigs| ==> sigs[i] != SetReady(false)
    ensures Delivered(l, sigs).rdy
    decreases |sigs|
  {
    if sigs != [] { DeliveredReady(l, sigs[..|sigs| - 1]); }
  }

  lemma {:induction false} DriveReady<M>(io: Memory<M>, env: Env, b: Bus<M>, acts: seq<Act>)
    requires b.lines.rdy && KeepsReady(env)
    ensures Drive(io, env, b, acts).lines.rdy
    decreases |acts|
  {
    if acts != [] {
      DeliveredReady(b.lines, env(b.cycles));
      DriveReady(io, env, Do(io, env, b, acts[0]), acts[1..]);
    }
  }

  lemma {:induction false} StepReady<M>(io: Memory<M>, env: Env, s: Core<M>)
    requires s.bus.lines.rdy && KeepsReady(env)
    ensures Step(io, env, s).bus.lines.rdy
  {
    hide KeepsReady, EntryActs, VectorActs, InstActs, RegsAfter, Drive, Table;
    var plan := PlanOf(io, s);
    if plan.Interrupt? {
      EntryReady(io, env, s, plan.cause);
    } else if plan.inst.Brk? {
      var r := Fetched(s.r);
      DriveReady(io, env, s.bus, [R(s.r.pc), R(r.pc)]);
      EntryReady(io, env, Core(Fetched(r), Drive(io, env, s.bus, [R(s.r.pc), R(r.pc)])), BrkCause);
    } else {
      DriveReady(io, env, s.bus, [R(s.r.pc)] + InstActs(io, Fetched(s.r), s.bus.mem, plan.inst));
    }
  }

  lemma {:induction false} EntryReady<M>(io: Memory<M>, env: Env, s: Core<M>, cause: Cause)
    requires s.bus.lines.rdy && KeepsReady(env)
    ensures Entry(io, env, s, cause).bus.lines.rdy
  {
    hide KeepsReady, EntryActs, VectorActs, Drive;
    var mid := Drive(io, env, s.bus, EntryActs(s.r, cause));
    DriveReady(io, env, s.bus, EntryActs(s.r, cause));
    DriveReady(io, env, mid, VectorActs(cause, mid.lines));
  }

  lemma {:induction false} RunReady<M>(io: Memory<M>, env: Env, s: Core<M>, deadline: nat)
    requires Ends(io, env, s, deadline) && s.bus.lines.rdy && KeepsReady(env)
    ensures RunTo(io, env, s, deadline).bus.lines.rdy
    decreases Length(io, env, s, deadline)
  {
    hide Isa.Step, KeepsReady, RunTo;
    if Stops(s, deadline) {
      RunStops(io, env, s, deadline);
    } else {
      RunUnfolds(io, env, s, deadline);
      StepReady(io, env, s);
      RunReady(io, env, Step(io, env, s), deadline);
    }
  }

  /** With RDY high throughout, a run that returns has spent its budget and at most six cycles more if and only if the
      deadline did not wrap. A wrapped deadline is already past, and the run returns at once. */
  lemma {:induction false} RunSpendsBudgetIff<M>(io: Memory<M>, env: Env, s: Core<M>, budget: u64)
    requires Returns(io, env, s, budget) && budget > 0 && s.bus.lines.rdy && KeepsReady(env)
    ensures var s' := RunFor(io, env, s, budget);
            && (s.bus.cycles + budget <= s'.bus.cycles <= s.bus.cycles + budget + 6 <==> s.bus.cycles + budget < WRAP)
            && (s.bus.cycles + budget >= WRAP ==> s' == s)
  {
    hide KeepsReady, RunTo, Ends;
    var deadline := Deadline(s.bus.cycles, budget);
    if s.bus.cycles + budget < WRAP {
      assert deadline == s.bus.cycles + budget;
      RunOvershoot(io, env, s, deadline);
      RunReady(io, env, s, deadline);
    } else {
      assert deadline == s.bus.cycles + budget - WRAP;
      RunStops(io, env, s, deadline);
    }
  }
}
