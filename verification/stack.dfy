/** The shared 256-byte stack behaves as a LIFO for every properly nested run, whatever SP it starts from. */
module StackDiscipline {
  import opened Bits
  import opened Status
  import opened Bus
  import opened Alu
  import opened Isa
  import opened NmiProtocol
  import opened Interpreter
  import opened Runs

  /** Page 1 is plain RAM: a byte of it changes only by a write to its own address. */
  ghost predicate StackIsRam<M(!new)>(io: Memory<M>) {
    forall m: M, a: word, v: byte, b: word :: 0x100 <= b < 0x200 ==>
      Peek(io, Poke(io, m, a, v), b) == if a == b then v else Peek(io, m, b)
  }

  /** The stack byte `i` places above SP, wrapping. */
  function Slot(sp: byte, i: nat): word { 0x100 + (sp + i) % 0x100 }

  lemma {:induction false} SlotUp(sp: byte, k: byte)
    ensures Slot(sp, k) == Stack(Up(sp, k))
  {
  }

  /** A frame opened `w` bytes lower sees every older slot `w` places further up. */
  lemma {:induction false} SlotDown(sp: byte, w: byte, i: nat)
    ensures Slot(Down(sp, w), i + w) == Slot(sp, i)
  {
    var d := Down(sp, w);
    assert d + (i + w) == sp + i || d + (i + w) == sp + i + 0x100;
    assert (sp + i + 0x100) % 0x100 == (sp + i) % 0x100;
  }

  lemma {:induction false} SlotsDistinct(sp: byte, i: nat, j: nat)
    requires i < j < i + 0x100
    ensures Slot(sp, i) != Slot(sp, j)
  {
  }

  // Nested runs.

  datatype FrameKind = Call | PushedA | PushedFlags | Interruption

  function Width(k: FrameKind): byte {
    match k
    case Call => 2
    case PushedA | PushedFlags => 1
    case Interruption => 3
  }

  /** The shape of a run: steps that leave the stack alone, host calls, and frames with a run inside. */
  datatype Nest =
    | Done
    | Plain(rest: Nest)
    | Signalling(sig: Signal, rest: Nest)
    | Frame(kind: FrameKind, body: Nest, rest: Nest)

  /** JSR, PHA, PHP, and an IRQ, NMI or BRK. */
  predicate Opens<M>(io: Memory<M>, s: Core<M>, k: FrameKind) {
    && s.bus.lines.rdy
    && match PlanOf(io, s)
       case Interrupt(cause) => k.Interruption? && !cause.ResetCause?
       case Execute(inst) =>
         match k
         case Call => inst.Jsr?
         case PushedA => inst.Pha?
         case PushedFlags => inst.Php?
         case Interruption => inst.Brk?
  }

  /** RTS, PLA, PLP and RTI. */
  predicate Closes<M>(io: Memory<M>, s: Core<M>, k: FrameKind) {
    && s.bus.lines.rdy
    && PlanOf(io, s) == Execute(match k
                                case Call => Rts
                                case PushedA => Pla
                                case PushedFlags => Plp
                                case Interruption => Rti)
  }

  /** The address an instruction other than a push writes, if it writes one. */
  function Target<M>(io: Memory<M>, r: Regs, m: M, inst: Inst): (t: int) {
    match inst
    case Store(_, mode) => Ea(io, m, r, mode)
    case Rmw(_, mode) => Ea(io, m, r, mode)
    case _ => -1
  }

  predicate UsesStack(inst: Inst) {
    || inst.Pha? || inst.Php? || inst.Pla? || inst.Plp? || inst.Jsr? || inst.Rts? || inst.Brk? || inst.Rti?
    || inst == Implied(TXS)
  }

  /** A step that neither moves SP nor writes one of the `depth` bytes in use above it. */
  ghost predicate Neutral<M>(io: Memory<M>, s: Core<M>, depth: nat) {
    || !s.bus.lines.rdy
    || (PlanOf(io, s).Execute? && !UsesStack(PlanOf(io, s).inst)
        && forall i {:trigger Slot(s.r.sp, i)} :: 1 <= i <= depth ==>
             Target(io, Fetched(s.r), s.bus.mem, PlanOf(io, s).inst) != Slot(s.r.sp, i))
  }

  function End<M>(io: Memory<M>, env: Env, s: Core<M>, n: Nest): Core<M>
    decreases n
  {
    match n
    case Done => s
    case Plain(rest) => End(io, env, Step(io, env, s), rest)
    case Signalling(sig, rest) => End(io, env, Moved(io, env, s, Host(sig)), rest)
    case Frame(_, body, rest) => End(io, env, Step(io, env, End(io, env, Step(io, env, s), body)), rest)
  }

  /** The run from `s` has this shape, and its live frames never need more than the 256 bytes there are. */
  ghost predicate WellNested<M>(io: Memory<M>, env: Env, s: Core<M>, n: Nest, depth: nat)
    decreases n
  {
    match n
    case Done => true
    case Plain(rest) => Neutral(io, s, depth) && WellNested(io, env, Step(io, env, s), rest, depth)
    case Signalling(sig, rest) => WellNested(io, env, Moved(io, env, s, Host(sig)), rest, depth)
    case Frame(k, body, rest) =>
      var inside := Step(io, env, s);
      var last := End(io, env, inside, body);
      && depth + Width(k) <= 0x100
      && Opens(io, s, k)
      && WellNested(io, env, inside, body, depth + Width(k))
      && Closes(io, last, k)
      && WellNested(io, env, Step(io, env, last), rest, depth)
  }

  /** The same SP, and the same `depth` bytes above it. */
  ghost predicate SameStack<M>(io: Memory<M>, s: Core<M>, s': Core<M>, depth: nat) {
    && s'.r.sp == s.r.sp
    && forall i {:trigger Slot(s.r.sp, i)} :: 1 <= i <= depth ==>
         Peek(io, s'.bus.mem, Slot(s.r.sp, i)) == Peek(io, s.bus.mem, Slot(s.r.sp, i))
  }

  /** A step that executes an instruction other than BRK, seen by the programmer. */
  lemma {:induction false} ExecutedArch<M(!new)>(io: Memory<M>, env: Env, s: Core<M>, inst: Inst)
    requires Absorbing(io) && s.bus.lines.rdy && PlanOf(io, s) == Execute(inst) && !inst.Brk?
    ensures ArchOf(Step(io, env, s))
         == Arch(RegsAfter(io, Fetched(s.r), s.bus.mem, inst), MemoryAfter(io, Fetched(s.r), s.bus.mem, inst))
  {
    hide RegsAfter, MemoryAfter, Isa.Step, Table, Interrupted;
    StepIsInterpreted(io, env, s);
  }

  lemma {:induction false} PlainInstStack<M>(io: Memory<M>, r: Regs, m: M, inst: Inst)
    requires !UsesStack(inst)
    ensures RegsAfter(io, r, m, inst).sp == r.sp
  {
    hide Ea, Loaded, Shifted, ShiftFlags, FromByte, ImpliedRegs, Word16, BranchTarget, PushedPc, JumpPointer;
    match inst
    case Read(op, mode) => LoadedStack(op, PastOperand(r, mode), Peek(io, m, Ea(io, m, r, mode)));
    case Implied(op) => ImpliedStack(op, r);
    case _ =>
  }

  lemma {:induction false} LoadedStack(op: ReadOp, r: Regs, v: byte)
    ensures Loaded(op, r, v).sp == r.sp
  {
    hide Gated;
  }

  lemma {:induction false} ImpliedStack(op: ImpliedOp, r: Regs)
    requires !op.TXS?
    ensures ImpliedRegs(op, r).sp == r.sp
  {
  }

  lemma {:induction false} NeutralStep<M(!new)>(io: Memory<M>, env: Env, s: Core<M>, depth: nat)
    requires Absorbing(io) && StackIsRam(io) && Neutral(io, s, depth)
    ensures SameStack(io, s, Step(io, env, s), depth)
  {
    hide RegsAfter, Entry, Executed, Table, Ea;
    if s.bus.lines.rdy {
      var inst := PlanOf(io, s).inst;
      ExecutedArch(io, env, s, inst);
      PlainInstStack(io, Fetched(s.r), s.bus.mem, inst);
    }
  }

  /** What a frame holds, lowest byte first. */
  ghost predicate Holds<M>(io: Memory<M>, m: M, sp: byte, k: FrameKind, s: Core<M>) {
    match k
    case Call =>
      var back := Next(Next(s.r.pc));
      Peek(io, m, Slot(sp, 1)) == Lo(back) && Peek(io, m, Slot(sp, 2)) == Hi(back)
    case PushedA => Peek(io, m, Slot(sp, 1)) == s.r.a
    case PushedFlags => Peek(io, m, Slot(sp, 1)) == ToByte(s.r.p.(b := true, u := true))
    case Interruption =>
      var back := Resumes(io, s);
      && FromByte(Peek(io, m, Slot(sp, 1))).(b := false) == s.r.p.(b := false, u := true)
      && Peek(io, m, Slot(sp, 2)) == Lo(back) && Peek(io, m, Slot(sp, 3)) == Hi(back)
  }

  /** Where an interrupted program goes on: at the instruction not executed, or two past a BRK. */
  function Resumes<M>(io: Memory<M>, s: Core<M>): word {
    if PlanOf(io, s).Interrupt? then s.r.pc else Next(Next(s.r.pc))
  }

  /** Bytes pushed below SP do not disturb those above. */
  lemma {:induction false} Pushed<M(!new)>(io: Memory<M>, m: M, sp: byte, k: byte, v: byte, i: nat)
    requires StackIsRam(io) && k <= 2 && 1 <= i <= 0x100 - (k + 1)
    ensures Peek(io, Poke(io, m, Stack(Down(sp, k)), v), Slot(sp, i)) == Peek(io, m, Slot(sp, i))
  {
    SlotDown(sp, k, 0);
    SlotDown(sp, k, i);
    SlotsDistinct(Down(sp, k), 0, i + k);
    SlotUp(Down(sp, k), 0);
  }

  /** What stays and what is new after pushing the bytes of a frame. */
  ghost predicate Opened<M>(io: Memory<M>, s: Core<M>, s': Core<M>, k: FrameKind, depth: nat) {
    && s'.r.sp == Down(s.r.sp, Width(k))
    && Holds(io, s'.bus.mem, s'.r.sp, k, s)
    && forall i {:trigger Slot(s.r.sp, i)} :: 1 <= i <= depth ==>
         Peek(io, s'.bus.mem, Slot(s.r.sp, i)) == Peek(io, s.bus.mem, Slot(s.r.sp, i))
  }

  lemma {:induction false} PushOpens<M(!new)>(io: Memory<M>, env: Env, s: Core<M>, k: FrameKind, depth: nat)
    requires Absorbing(io) && StackIsRam(io) && Opens(io, s, k) && depth + Width(k) <= 0x100
    requires k.PushedA? || k.PushedFlags?
    ensures Opened(io, s, Step(io, env, s), k, depth)
  {
    hide Isa.Step, Table, ToByte, FromByte;
    var inst := PlanOf(io, s).inst;
    ExecutedArch(io, env, s, inst);
    SlotDown(s.r.sp, 1, 0);
    SlotUp(s.r.sp, 0);
    var v := if k.PushedA? then s.r.a else ToByte(s.r.p.(b := true, u := true));
    forall i {:trigger Slot(s.r.sp, i)} | 1 <= i <= depth
      ensures Peek(io, Poke(io, s.bus.mem, Stack(s.r.sp), v), Slot(s.r.sp, i)) == Peek(io, s.bus.mem, Slot(s.r.sp, i))
    {
      Pushed(io, s.bus.mem, s.r.sp, 0, v, i);
    }
  }

  /** The two pushes of a return address. */
  lemma {:induction false} PcPushed<M(!new)>(io: Memory<M>, m: M, sp: byte, pc: word, depth: nat)
    requires StackIsRam(io) && depth + 2 <= 0x100
    ensures var m' := PushedPc(io, m, sp, pc);
            && Peek(io, m', Slot(Down(sp, 2), 1)) == Lo(pc) && Peek(io, m', Slot(Down(sp, 2), 2)) == Hi(pc)
            && forall i {:trigger Slot(sp, i)} :: 1 <= i <= depth ==>
                 Peek(io, m', Slot(sp, i)) == Peek(io, m, Slot(sp, i))
  {
    var m1 := Poke(io, m, Stack(sp), Hi(pc));
    SlotUp(sp, 0);
    SlotDown(sp, 2, 0);
    SlotUp(Down(sp, 2), 1);
    assert Slot(Down(sp, 2), 2) == Stack(sp);
    assert Slot(Down(sp, 2), 1) == Stack(Down(sp, 1));
    forall i {:trigger Slot(sp, i)} | 1 <= i <= depth
      ensures Peek(io, PushedPc(io, m, sp, pc), Slot(sp, i)) == Peek(io, m, Slot(sp, i))
    {
      Pushed(io, m, sp, 0, Hi(pc), i);
      Pushed(io, m1, sp, 1, Lo(pc), i);
    }
  }

  lemma {:induction false} CallOpens<M(!new)>(io: Memory<M>, env: Env, s: Core<M>, depth: nat)
    requires Absorbing(io) && StackIsRam(io) && Opens(io, s, Call) && depth + 2 <= 0x100
    ensures Opened(io, s, Step(io, env, s), Call, depth)
  {
    hide Isa.Step, Table, PushedPc, Lo, Hi, Stack, Down, Slot;
    ExecutedArch(io, env, s, Jsr);
    PcPushed(io, s.bus.mem, s.r.sp, Next(Next(s.r.pc)), depth);
  }

  /** The three bytes an interrupt pushes, in place. */
  lemma {:induction false} FramePushed<M(!new)>(io: Memory<M>, m: M, r: Regs, cause: Cause, depth: nat)
    requires StackIsRam(io) && depth + 3 <= 0x100
    ensures var m' := PushedFrame(io, m, r, cause);
            var sp := Down(r.sp, 3);
            && Peek(io, m', Slot(sp, 1)) == PushedP(r.p, cause)
            && Peek(io, m', Slot(sp, 2)) == Lo(r.pc) && Peek(io, m', Slot(sp, 3)) == Hi(r.pc)
            && forall i {:trigger Slot(r.sp, i)} :: 1 <= i <= depth ==>
                 Peek(io, m', Slot(r.sp, i)) == Peek(io, m, Slot(r.sp, i))
  {
    hide PushedP, Lo, Hi, PushedPc;
    var two := PushedPc(io, m, r.sp, r.pc);
    var sp := Down(r.sp, 3);
    PcPushed(io, m, r.sp, r.pc, depth);
    assert Down(Down(r.sp, 2), 1) == sp;
    SlotDown(Down(r.sp, 2), 1, 0);
    SlotDown(Down(r.sp, 2), 1, 1);
    SlotDown(Down(r.sp, 2), 1, 2);
    SlotUp(Down(r.sp, 2), 0);
    assert Slot(sp, 1) == Stack(Down(r.sp, 2));
    SlotsDistinct(sp, 1, 2);
    SlotsDistinct(sp, 1, 3);
    forall i {:trigger Slot(r.sp, i)} | 1 <= i <= depth
      ensures Peek(io, PushedFrame(io, m, r, cause), Slot(r.sp, i)) == Peek(io, m, Slot(r.sp, i))
    {
      Pushed(io, two, r.sp, 2, PushedP(r.p, cause), i);
    }
  }

  lemma {:induction false} InterruptOpens<M(!new)>(io: Memory<M>, env: Env, s: Core<M>, depth: nat)
    requires StackIsRam(io) && Opens(io, s, Interruption) && depth + 3 <= 0x100
    ensures Opened(io, s, Step(io, env, s), Interruption, depth)
  {
    hide Entry, Table, PushedFrame, Lo, Hi, Stack, Down, Slot, FromByte, ToByte, VectorTarget, RegsAfter, InstActs,
      AtDecision;
    var plan := PlanOf(io, s);
    var cause := if plan.Interrupt? then plan.cause else BrkCause;
    var at := if plan.Interrupt? then s else BrkEntry(io, env, s);
    if plan.Execute? {
      var two := [R(s.r.pc), R(Next(s.r.pc))];
      DriveStores(io, env, s.bus, two);
      NoWrites(io, s.bus.mem, two);
    }
    EntryIsInterrupted(io, env, at, cause);
    FramePushed(io, s.bus.mem, at.r, cause, depth);
    FlagsRoundTrip(s.r.p.(u := true, b := s.r.p.b || cause.BrkCause?));
  }

  lemma {:induction false} StepOpens<M(!new)>(io: Memory<M>, env: Env, s: Core<M>, k: FrameKind, depth: nat)
    requires Absorbing(io) && StackIsRam(io) && Opens(io, s, k) && depth + Width(k) <= 0x100
    ensures Opened(io, s, Step(io, env, s), k, depth)
  {
    hide Isa.Step, Opens, Opened;
    match k
    case Call => CallOpens(io, env, s, depth);
    case Interruption => InterruptOpens(io, env, s, depth);
    case _ => PushOpens(io, env, s, k, depth);
  }

  /** What the matching return gives back, whatever ran in between. */
  ghost predicate Returned<M>(io: Memory<M>, s: Core<M>, s': Core<M>, k: FrameKind) {
    && s'.r.sp == s.r.sp
    && match k
       case Call => s'.r.pc == Next(Next(Next(s.r.pc)))
       case PushedA => s'.r.a == s.r.a
       case PushedFlags => s'.r.p == s.r.p.(b := false, u := true)
       case Interruption => s'.r.pc == Resumes(io, s) && s'.r.p == s.r.p.(b := false, u := true)
  }

  lemma {:induction false} StepCloses<M(!new)>(io: Memory<M>, env: Env, s: Core<M>, last: Core<M>, k: FrameKind)
    requires Absorbing(io) && Closes(io, last, k)
    requires last.r.sp == Down(s.r.sp, Width(k)) && Holds(io, last.bus.mem, last.r.sp, k, s)
    ensures Returned(io, s, Step(io, env, last), k) && Step(io, env, last).bus.mem == last.bus.mem
  {
    hide Isa.Step, Table, FromByte, ToByte, Resumes;
    var inst := PlanOf(io, last).inst;
    ExecutedArch(io, env, last, inst);
    SlotUp(last.r.sp, 1);
    SlotUp(last.r.sp, 2);
    SlotUp(last.r.sp, 3);
    if k.PushedFlags? { FlagsRoundTrip(s.r.p.(b := true, u := true)); }
  }

  /** The bytes of a frame, and those of the frames around it, outlive whatever runs inside. */
  lemma {:induction false} FrameSurvives<M>(io: Memory<M>, s: Core<M>, inside: Core<M>, last: Core<M>, k: FrameKind,
    depth: nat)
    requires depth + Width(k) <= 0x100
    requires Opened(io, s, inside, k, depth) && SameStack(io, inside, last, depth + Width(k))
    ensures Opened(io, s, last, k, depth)
  {
    hide Resumes, FromByte, ToByte, Lo, Hi;
    var sp := inside.r.sp;
    forall i {:trigger Slot(s.r.sp, i)} | 1 <= i <= depth
      ensures Peek(io, last.bus.mem, Slot(s.r.sp, i)) == Peek(io, s.bus.mem, Slot(s.r.sp, i))
    {
      SlotDown(s.r.sp, Width(k), i);
      assert Slot(sp, i + Width(k)) == Slot(s.r.sp, i);
    }
    assert Slot(sp, 1) == Slot(sp, 1) && Slot(sp, 2) == Slot(sp, 2) && Slot(sp, 3) == Slot(sp, 3);
  }

  /** A properly nested run ends with the SP it began with, and with every byte in use above it untouched. */
  lemma {:induction false} NestedRun<M(!new)>(io: Memory<M>, env: Env, s: Core<M>, n: Nest, depth: nat)
    requires Absorbing(io) && StackIsRam(io) && WellNested(io, env, s, n, depth)
    ensures SameStack(io, s, End(io, env, s, n), depth)
    decreases n, 0
  {
    hide Isa.Step, Opens, Closes, Neutral, Opened, Holds, Slot;
    match n
    case Done =>
    case Plain(rest) =>
      NeutralStep(io, env, s, depth);
      NestedRun(io, env, Step(io, env, s), rest, depth);
    case Signalling(sig, rest) => NestedRun(io, env, Moved(io, env, s, Host(sig)), rest, depth);
    case Frame(k, body, rest) =>
      MatchingReturn(io, env, s, k, body, depth);
      NestedRun(io, env, Step(io, env, End(io, env, Step(io, env, s), body)), rest, depth);
  }

  /** The return that closes a frame restores SP and brings back what the frame was opened with. */
  lemma {:induction false} MatchingReturn<M(!new)>(io: Memory<M>, env: Env, s: Core<M>, k: FrameKind, body: Nest,
    depth: nat)
    requires Absorbing(io) && StackIsRam(io)
    requires depth + Width(k) <= 0x100 && Opens(io, s, k)
    requires WellNested(io, env, Step(io, env, s), body, depth + Width(k))
    requires Closes(io, End(io, env, Step(io, env, s), body), k)
    ensures var s' := Step(io, env, End(io, env, Step(io, env, s), body));
            Returned(io, s, s', k) && SameStack(io, s, s', depth)
    decreases body, 1
  {
    hide Isa.Step, Opens, Closes, Holds, Slot, WellNested, Resumes, FromByte, ToByte;
    var inside := Step(io, env, s);
    var last := End(io, env, inside, body);
    StepOpens(io, env, s, k, depth);
    NestedRun(io, env, inside, body, depth + Width(k));
    FrameSurvives(io, s, inside, last, k, depth);
    StepCloses(io, env, s, last, k);
  }
}
