/** How many bus cycles a step takes, from the opcode table's base cycles and the documented extras. */
module Timing {
  import opened Bits
  import opened Status
  import opened Bus
  import opened Alu
  import opened Isa

  /** The addressing mode the handler of an instruction uses. */
  function ModeOf(inst: Inst): AddressingMode {
    match inst
    case Read(_, mode) => mode
    case Store(_, mode) => mode
    case Rmw(_, mode) => mode
    case Shift(_) => Accumulator
    case Branch(_) => Relative
    case JmpAbs | Jsr => Absolute
    case JmpInd => Indirect
    case _ => Implicit
  }

  /** The cycles spent on an operand address, without the page-crossing extra. */
  function AddressCost(mode: Operand): nat {
    match mode
    case Immediate => 0
    case ZeroPage => 1
    case ZeroPageX | ZeroPageY | Absolute | AbsoluteX | AbsoluteY => 2
    case IndexedIndirect => 4
    case IndirectIndexed => 3
  }

  /** The cycles of an instruction that crosses no page and takes no branch, opcode fetch included. */
  function BaseCost(inst: Inst): nat {
    match inst
    case Read(_, mode) => 2 + AddressCost(mode)
    case Store(_, mode) => 2 + AddressCost(mode) + if Indexed(mode) then 1 else 0
    case Rmw(_, mode) => 4 + AddressCost(mode) + if Indexed(mode) then 1 else 0
    case Shift(_) | Implied(_) | Branch(_) | Illegal => 2
    case Pha | Php | JmpAbs => 3
    case Pla | Plp => 4
    case JmpInd => 5
    case Jsr | Rts | Rti => 6
    case Brk => 7
  }

  /** What a line of the table must satisfy: the metadata's mode and base cycles are those of the handler. */
  predicate Agrees(row: Row) {
    && row.mode == ModeOf(row.inst)
    && row.cycles == if row.inst.Illegal? then 0 else BaseCost(row.inst)
  }

  lemma {:induction false} Agree00(opcode: byte)
    ensures Agrees(Rows00(opcode))
  {
  }

  lemma {:induction false} Agree20(opcode: byte)
    ensures Agrees(Rows20(opcode))
  {
  }

  lemma {:induction false} Agree40(opcode: byte)
    ensures Agrees(Rows40(opcode))
  {
  }

  lemma {:induction false} Agree60(opcode: byte)
    ensures Agrees(Rows60(opcode))
  {
  }

  lemma {:induction false} Agree80(opcode: byte)
    ensures Agrees(Rows80(opcode))
  {
  }

  lemma {:induction false} AgreeA0(opcode: byte)
    ensures Agrees(RowsA0(opcode))
  {
  }

  lemma {:induction false} AgreeC0(opcode: byte)
    ensures Agrees(RowsC0(opcode))
  {
  }

  lemma {:induction false} AgreeE0(opcode: byte)
    ensures Agrees(RowsE0(opcode))
  {
  }

  /** The dispatch table and the metadata table agree, slot by slot. */
  lemma {:induction false} TableAgrees(opcode: byte)
    ensures Agrees(Table(opcode))
  {
    Agree00(opcode);
    Agree20(opcode);
    Agree40(opcode);
    Agree60(opcode);
    Agree80(opcode);
    AgreeA0(opcode);
    AgreeC0(opcode);
    AgreeE0(opcode);
  }

  /** The documented extras: an indexed read that crosses a page, a taken branch, and a taken branch that does. */
  function Extra<M>(io: Memory<M>, r: Regs, m: M, inst: Inst): nat {
    match inst
    case Read(_, mode) => if Indexed(mode) && Crosses(Base(io, m, r, mode), Ea(io, m, r, mode)) then 1 else 0
    case Branch(op) =>
      if !Taken(op, r.p) then 0
      else if Crosses(Next(r.pc), BranchTarget(r.pc, Peek(io, m, r.pc))) then 2
      else 1
    case _ => 0
  }

  /** The cycles of the step a processor is about to take. */
  function StepCost<M>(io: Memory<M>, s: Core<M>): nat {
    if !s.bus.lines.rdy then 0
    else
      match PlanOf(io, s)
      case Interrupt(_) => 7
      case Execute(inst) =>
        var row := Table(Peek(io, s.bus.mem, s.r.pc));
        if inst.Illegal? then 2 else row.cycles + Extra(io, Fetched(s.r), s.bus.mem, inst)
  }

  lemma {:induction false} CostOfFew(v: Act, w: Act, x: Act, y: Act, z: Act)
    ensures Cost([v]) == OneCost(v)
    ensures Cost([v, w]) == OneCost(v) + OneCost(w)
    ensures Cost([v, w, x]) == OneCost(v) + OneCost(w) + OneCost(x)
    ensures Cost([v, w, x, y]) == OneCost(v) + OneCost(w) + OneCost(x) + OneCost(y)
    ensures Cost([v, w, x, y, z]) == OneCost(v) + OneCost(w) + OneCost(x) + OneCost(y) + OneCost(z)
  {
    assert Cost([v]) == OneCost(v) + Cost([]);
    CostAppend([v], [w]);
    CostAppend([v, w], [x]);
    CostAppend([v, w, x], [y]);
    CostAppend([v, w, x, y], [z]);
    assert [v] + [w] == [v, w] && [v, w] + [x] == [v, w, x];
    assert [v, w, x] + [y] == [v, w, x, y] && [v, w, x, y] + [z] == [v, w, x, y, z];
    assert Cost([w]) == OneCost(w) + Cost([]) && Cost([x]) == OneCost(x) + Cost([]);
    assert Cost([y]) == OneCost(y) + Cost([]) && Cost([z]) == OneCost(z) + Cost([]);
  }

  function OneCost(x: Act): nat { if x.R? || x.W? then 1 else 0 }

  lemma {:induction false} FixUpCost(base: word, ea: word, always: bool)
    ensures Cost(FixUp(base, ea, always)) == if always || Crosses(base, ea) then 1 else 0
  {
    CostOfFew(R(Word(Lo(ea), Hi(base))), R(0), R(0), R(0), R(0));
  }

  lemma {:induction false} EaCost<M>(io: Memory<M>, m: M, r: Regs, mode: Operand, always: bool)
    ensures Cost(EaActs(io, m, r, mode, always))
         == AddressCost(mode) + if Indexed(mode)
           && (always || Crosses(Base(io, m, r, mode), Ea(io, m, r, mode))) then 1 else 0
  {
    hide Peek, Add8, Inc8, Add16, Word;
    var base, ea := Base(io, m, r, mode), Ea(io, m, r, mode);
    var at := Peek(io, m, r.pc);
    FixUpCost(base, ea, always);
    match mode
    case Immediate =>
    case ZeroPage => CostOfFew(R(r.pc), R(0), R(0), R(0), R(0));
    case ZeroPageX | ZeroPageY => CostOfFew(R(r.pc), R(base), R(0), R(0), R(0));
    case Absolute | AbsoluteX | AbsoluteY =>
      CostOfFew(R(r.pc), R(Next(r.pc)), R(0), R(0), R(0));
      CostAppend([R(r.pc), R(Next(r.pc))], FixUp(base, ea, always));
    case IndexedIndirect => CostOfFew(R(r.pc), R(at), R(Add8(at, r.x)), R(Inc8(Add8(at, r.x))), R(0));
    case IndirectIndexed =>
      CostOfFew(R(r.pc), R(at), R(Inc8(at)), R(0), R(0));
      CostAppend([R(r.pc), R(at), R(Inc8(at))], FixUp(base, ea, always));
  }

  lemma {:induction false} InstCost<M>(io: Memory<M>, r: Regs, m: M, inst: Inst)
    requires !inst.Brk?
    ensures 1 + Cost(InstActs(io, r, m, inst)) == BaseCost(inst) + Extra(io, r, m, inst)
  {
    match inst
    case Read(_, mode) => AddressedCost(io, r, m, mode, false, [R(Ea(io, m, r, mode))]);
    case Store(op, mode) => AddressedCost(io, r, m, mode, true, [W(Ea(io, m, r, mode), StoredReg(op, r))]);
    case Rmw(op, mode) =>
      var ea := Ea(io, m, r, mode);
      var v := Peek(io, m, ea);
      AddressedCost(io, r, m, mode, true, [R(ea), W(ea, v), W(ea, Shifted(op, r.p.c, v))]);
    case Branch(op) =>
      var next, target := Next(r.pc), BranchTarget(r.pc, Peek(io, m, r.pc));
      CostOfFew(R(r.pc), R(next), R(0), R(0), R(0));
      FixUpCost(next, target, false);
      CostAppend([R(r.pc), R(next)], FixUp(next, target, false));
    case _ => PlainCost(io, r, m, inst);
  }

  lemma {:induction false} AddressedCost<M>(io: Memory<M>, r: Regs, m: M, mode: Operand, always: bool, last: seq<Act>)
    requires 1 <= |last| <= 3 && forall k :: 0 <= k < |last| ==> OneCost(last[k]) == 1
    ensures Cost(EaActs(io, m, r, mode, always) + last)
         == |last| + AddressCost(mode) + if Indexed(mode)
           && (always || Crosses(Base(io, m, r, mode), Ea(io, m, r, mode))) then 1 else 0
  {
    CostAppend(EaActs(io, m, r, mode, always), last);
    EaCost(io, m, r, mode, always);
    var x := last[0];
    var y := if |last| > 1 then last[1] else x;
    var z := if |last| > 2 then last[2] else x;
    CostOfFew(x, y, z, x, x);
    assert last == [x] || last == [x, y] || last == [x, y, z];
  }

  lemma {:induction false} PlainCost<M>(io: Memory<M>, r: Regs, m: M, inst: Inst)
    requires !inst.Brk? && !inst.Read? && !inst.Store? && !inst.Rmw? && !inst.Branch?
    ensures 1 + Cost(InstActs(io, r, m, inst)) == BaseCost(inst)
  {
    var acts := InstActs(io, r, m, inst);
    var v := acts[0];
    var w := if |acts| > 1 then acts[1] else v;
    var x := if |acts| > 2 then acts[2] else v;
    var y := if |acts| > 3 then acts[3] else v;
    var z := if |acts| > 4 then acts[4] else v;
    CostOfFew(v, w, x, y, z);
    assert acts == [v] || acts == [v, w] || acts == [v, w, x] || acts == [v, w, x, y] || acts == [v, w, x, y, z];
  }

  /** The cycle counter after `k` cycles. */
  function Later(c: u64, k: nat): u64
    decreases k
  {
    if k == 0 then c else Later(Tick(c), k - 1)
  }

  lemma {:induction false} LaterIsSum(c: u64, k: nat)
    ensures Later(c, k) == (c + k) % WRAP
    decreases k
  {
    if k == 0 {
    } else if c + 1 < WRAP {
      LaterIsSum(c + 1, k - 1);
    } else {
      LaterIsSum(0, k - 1);
      assert (c + k) % WRAP == (k - 1) % WRAP;
    }
  }

  /** Every bus cycle is counted once and logged once. */
  lemma {:induction false} DriveCost<M>(io: Memory<M>, env: Env, b: Bus<M>, acts: seq<Act>)
    ensures var b' := Drive(io, env, b, acts);
            b'.cycles == Later(b.cycles, Cost(acts)) && |b'.log| == |b.log| + Cost(acts)
    decreases |acts|
  {
    if acts != [] { DriveCost(io, env, Do(io, env, b, acts[0]), acts[1..]); }
  }

  lemma {:induction false} LaterTwice(c: u64, j: nat, k: nat)
    ensures Later(Later(c, j), k) == Later(c, j + k)
    decreases j
  {
    if j > 0 { LaterTwice(Tick(c), j - 1, k); }
  }

  lemma {:induction false} EntryActsCost(r: Regs, cause: Cause)
    ensures Cost(EntryActs(r, cause)) == if cause.BrkCause? then 3 else 5
  {
    hide PushedP;
    var acts := EntryActs(r, cause);
    if cause.BrkCause? {
      CostOfFew(acts[0], acts[1], acts[2], acts[2], acts[2]);
    } else {
      CostOfFew(acts[0], acts[1], acts[2], acts[3], acts[4]);
    }
  }

  lemma {:induction false} VectorActsCost(cause: Cause, at: Lines)
    ensures Cost(VectorActs(cause, at)) == 2
  {
    var acts := VectorActs(cause, at);
    var last := if |acts| > 2 then acts[2] else acts[1];
    CostOfFew(acts[0], acts[1], last, last, last);
  }

  lemma {:induction false} EntryCost<M>(io: Memory<M>, env: Env, s: Core<M>, cause: Cause)
    ensures var s' := Entry(io, env, s, cause);
            var k := if cause.BrkCause? then 5 else 7;
            s'.bus.cycles == Later(s.bus.cycles, k) && |s'.bus.log| == |s.bus.log| + k
  {
    hide EntryActs, VectorActs, VectorTarget, Drive;
    var first := EntryActs(s.r, cause);
    var mid := Drive(io, env, s.bus, first);
    var second := VectorActs(cause, mid.lines);
    EntryActsCost(s.r, cause);
    VectorActsCost(cause, mid.lines);
    DriveCost(io, env, s.bus, first);
    DriveCost(io, env, mid, second);
    LaterTwice(s.bus.cycles, Cost(first), Cost(second));
  }

  lemma {:induction false} BrkTiming<M>(io: Memory<M>, env: Env, s: Core<M>)
    ensures var s' := Executed(io, env, s, Brk);
            |s'.bus.log| == |s.bus.log| + 7 && s'.bus.cycles == Later(s.bus.cycles, 7)
  {
    var r := Fetched(s.r);
    var b := Drive(io, env, s.bus, [R(s.r.pc), R(r.pc)]);
    CostOfFew(R(s.r.pc), R(r.pc), R(0), R(0), R(0));
    DriveCost(io, env, s.bus, [R(s.r.pc), R(r.pc)]);
    EntryCost(io, env, Core(Fetched(r), b), BrkCause);
    LaterTwice(s.bus.cycles, 2, 5);
  }

  lemma {:induction false} InstTiming<M>(io: Memory<M>, env: Env, s: Core<M>, inst: Inst)
    requires !inst.Brk?
    ensures var s' := Executed(io, env, s, inst);
            var k := BaseCost(inst) + Extra(io, Fetched(s.r), s.bus.mem, inst);
            |s'.bus.log| == |s.bus.log| + k && s'.bus.cycles == Later(s.bus.cycles, k)
  {
    var acts := InstActs(io, Fetched(s.r), s.bus.mem, inst);
    InstCost(io, Fetched(s.r), s.bus.mem, inst);
    CostOfFew(R(s.r.pc), R(0), R(0), R(0), R(0));
    CostAppend([R(s.r.pc)], acts);
    DriveCost(io, env, s.bus, [R(s.r.pc)] + acts);
  }

  lemma {:induction false} ExecutedTiming<M>(io: Memory<M>, env: Env, s: Core<M>, inst: Inst)
    requires s.bus.lines.rdy && PlanOf(io, s) == Execute(inst)
    ensures var s' := Executed(io, env, s, inst);
            |s'.bus.log| == |s.bus.log| + StepCost(io, s) && s'.bus.cycles == Later(s.bus.cycles, StepCost(io, s))
  {
    hide Executed;
    TableAgrees(Peek(io, s.bus.mem, s.r.pc));
    if inst.Brk? { BrkTiming(io, env, s); } else { InstTiming(io, env, s, inst); }
  }

  /** Exact timing: a step takes the table's base cycles and the documented extras, whatever D and the host do;
      an undocumented byte takes 2, an interrupt 7, and each cycle is in the log. */
  lemma {:induction false} StepTiming<M>(io: Memory<M>, env: Env, s: Core<M>)
    ensures var s' := Step(io, env, s);
            && |s'.bus.log| == |s.bus.log| + StepCost(io, s)
            && s'.bus.cycles == (s.bus.cycles + StepCost(io, s)) % WRAP
  {
    hide Executed, Entry, Table;
    LaterIsSum(s.bus.cycles, StepCost(io, s));
    if s.bus.lines.rdy {
      var plan := PlanOf(io, s);
      if plan.Interrupt? {
        EntryCost(io, env, s, plan.cause);
      } else {
        ExecutedTiming(io, env, s, plan.inst);
      }
    }
  }

  /** A ready step takes two to seven cycles. */
  lemma {:induction false} StepCostBounds<M>(io: Memory<M>, s: Core<M>)
    requires s.bus.lines.rdy
    ensures 2 <= StepCost(io, s) <= 7
  {
    var opcode := Peek(io, s.bus.mem, s.r.pc);
    TableAgrees(opcode);
    TableModest(opcode);
  }

  /** Every documented instruction has a base cost of at most 7, and one that may cost more at most 5. */
  lemma {:induction false} TableModest(opcode: byte)
    ensures var row := Table(opcode);
            row.cycles <= (if row.inst.Read? || row.inst.Branch? then 6 else 7)
              && (row.inst.Branch? ==> row.cycles == 2)
            && (row.inst.Read? && Indexed(row.inst.mode) ==> row.cycles <= 5)
  {
  }
}
