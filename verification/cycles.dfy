/** Every bus cycle of every step in numbers: which address, read or written, and in which order, dummies included. */
module Cycles {
  import opened Bits
  import opened Status
  import opened Bus
  import opened Alu
  import opened Isa
  import opened OpcodeFields
  import opened Manual
  import opened NmiProtocol
  import opened BusLog

  /** After the opcode fetch comes what the instruction spends. */
  lemma {:induction false} Spends<M>(io: Memory<M>, env: Env, s: Core<M>, opcode: byte)
    requires AboutTo(io, s, opcode) && opcode != 0
    ensures var inst, r := Decoded(opcode), s.r.(pc := (s.r.pc + 1) % 0x1_0000);
            && !inst.Brk? && r == Fetched(s.r)
            && StepActs(io, env, s) == [R(s.r.pc)] + InstActs(io, r, s.bus.mem, inst)
  {
    hide Decoded, Table, InstActs, EntryActs;
    TableIsDecoded(opcode);
    OnlyBrk(opcode);
    Wraps(s.r.pc);
  }

  /** The extra read of an indexed access, in the page the index has not been carried into. */
  function Uncarried(low: byte, high: byte, index: byte, always: bool): seq<Act> {
    if always || low + index >= 256 then [R(256 * high + (low + index) % 256)] else []
  }

  /** The reads on the way to an operand, by column of the opcode byte and the index register used. */
  function Way<M>(io: Memory<M>, s: Core<M>, column: nat, index: byte, always: bool): seq<Act> {
    var one: word, two: word := (s.r.pc + 1) % 0x1_0000, (s.r.pc + 2) % 0x1_0000;
    var first, second := First(io, s), Second(io, s);
    match column
    case 0 => [R(one), R(first), R((first + index) % 256), R((first + index + 1) % 256)]
    case 1 => [R(one)]
    case 3 => [R(one), R(two)]
    case 4 =>
      [R(one), R(first), R((first + 1) % 256)]
      + Uncarried(Peek(io, s.bus.mem, first), Peek(io, s.bus.mem, (first + 1) % 256), index, always)
    case 5 => [R(one), R(first)]
    case 6 => [R(one), R(two)] + Uncarried(first, second, index, always)
    case 7 => [R(one), R(two)] + Uncarried(first, second, index, always)
    case _ => []
  }

  lemma {:induction false} UncarriedIs(low: byte, high: byte, index: byte, always: bool)
    ensures FixUp(Word(low, high), Add16(Word(low, high), index), always) == Uncarried(low, high, index, always)
  {
    var base := Word(low, high);
    var ea := Add16(base, index);
    assert Hi(base) == high && Lo(base) == low;
    assert Lo(ea) == (low + index) % 256;
    assert Hi(ea) == if low + index < 256 then high else (high + 1) % 256;
  }

  /** The mode that a column and an index register stand for. */
  predicate WayMode(mode: Operand, column: nat, r: Regs, index: byte) {
    match mode
    case IndexedIndirect => column == 0 && index == r.x
    case ZeroPage => column == 1
    case Immediate => column == 2
    case Absolute => column == 3
    case IndirectIndexed => column == 4 && index == r.y
    case ZeroPageX => column == 5 && index == r.x
    case ZeroPageY => column == 5 && index == r.y
    case AbsoluteX => (column == 6 || column == 7) && index == r.x
    case AbsoluteY => (column == 6 || column == 7) && index == r.y
  }

  lemma {:induction false} WayIs<M>(io: Memory<M>, s: Core<M>, mode: Operand, column: nat, index: byte, always: bool)
    requires WayMode(mode, column, s.r, index)
    ensures EaActs(io, s.bus.mem, s.r.(pc := (s.r.pc + 1) % 0x1_0000), mode, always)
         == Way(io, s, column, index, always)
  {
    hide Peek, Uncarried, FixUp;
    Wraps(s.r.pc);
    var first, second := First(io, s), Second(io, s);
    SmallSums(first, index);
    SmallSums(first, 1);
    SmallSums(Add8(first, index), 1);
    TwoSteps(first, index);
    UncarriedIs(first, second, index, always);
    UncarriedIs(Peek(io, s.bus.mem, first), Peek(io, s.bus.mem, Inc8(first)), index, always);
    hide Add8, Inc8, Add16, Next, Word;
  }

  lemma {:induction false} TwoSteps(v: byte, w: byte)
    ensures ((v + w) % 256 + 1) % 256 == (v + w + 1) % 256
  {
  }

  /** The first group. */
  lemma {:induction false} FirstGroupCycles<M>(io: Memory<M>, env: Env, s: Core<M>, opcode: byte)
    requires AboutTo(io, s, opcode) && opcode % 4 == 1 && opcode != 0x89
    ensures var row, column := opcode / 32, opcode / 4 % 8;
            var index := if column == 4 || column == 6 then s.r.y else s.r.x;
            var at := Place(io, s, column);
            StepActs(io, env, s)
            == [R(s.r.pc)] + Way(io, s, column, index, row == 4) + [if row == 4 then W(at, s.r.a) else R(at)]
  {
    hide Place, Way, Ea, EaActs, InstActs, StepActs, Decoded, First, Second, Peek;
    var row, column := opcode / 32, opcode / 4 % 8;
    var index := if column == 4 || column == 6 then s.r.y else s.r.x;
    GroupOf(opcode);
    Spends(io, env, s, opcode);
    PlaceIs(io, s, column);
    WayIs(io, s, OneMode(column), column, index, row == 4);
    AddressedActs(io, s.r.(pc := (s.r.pc + 1) % 0x1_0000), s.bus.mem, Decoded(opcode));
  }

  /** The acts of an instruction with an operand in memory. */
  lemma {:induction false} AddressedActs<M>(io: Memory<M>, r: Regs, m: M, inst: Inst)
    requires inst.Read? || inst.Store? || inst.Rmw?
    ensures var at := Ea(io, m, r, inst.mode);
            var v := Peek(io, m, at);
            InstActs(io, r, m, inst) == EaActs(io, m, r, inst.mode, !inst.Read?)
              + match inst
                case Store(op, _) => [W(at, StoredReg(op, r))]
                case Rmw(op, _) => [R(at), W(at, v), W(at, Shifted(op, r.p.c, v))]
                case _ => [R(at)]
  {
    hide Ea, EaActs, Peek, Shifted;
  }

  /** LDX, LDY, CPX, CPY and BIT: only an absolute index can cost the extra read. */
  lemma {:induction false} IndexReadCycles<M>(io: Memory<M>, env: Env, s: Core<M>, opcode: byte)
    requires AboutTo(io, s, opcode)
    requires opcode in {0xA2, 0xA6, 0xAE, 0xB6, 0xBE, 0xA0, 0xA4, 0xAC, 0xB4, 0xBC}
          || opcode in {0xE0, 0xE4, 0xEC, 0xC0, 0xC4, 0xCC, 0x24, 0x2C}
    ensures var column := if opcode / 4 % 8 == 0 then 2 else opcode / 4 % 8;
            var index := if opcode == 0xB6 || opcode == 0xBE then s.r.y else s.r.x;
            StepActs(io, env, s)
            == [R(s.r.pc)] + Way(io, s, column, index, false) + [R(OtherPlace(io, s, opcode))]
  {
    hide OtherPlace, Way, Ea, EaActs, InstActs, StepActs, Decoded, OtherMode, First, Second, Peek;
    DecodedReads(opcode);
    var inst := Decoded(opcode);
    var column := if opcode / 4 % 8 == 0 then 2 else opcode / 4 % 8;
    var index := if opcode == 0xB6 || opcode == 0xBE then s.r.y else s.r.x;
    Spends(io, env, s, opcode);
    OtherPlaceIs(io, s, opcode, inst.mode);
    OtherWay(opcode, inst.mode, s.r);
    WayIs(io, s, inst.mode, column, index, false);
    AddressedActs(io, s.r.(pc := (s.r.pc + 1) % 0x1_0000), s.bus.mem, inst);
  }

  lemma {:induction false} OtherWay(opcode: byte, mode: Operand, r: Regs)
    requires OtherMode(opcode, mode)
    ensures WayMode(mode,
      if mode.Immediate? then 2 else opcode / 4 % 8,
      r,
      if opcode == 0xB6 || opcode == 0x96 || opcode == 0xBE then r.y else r.x)
    ensures mode.Immediate? <==> opcode / 4 % 8 !in {1, 3, 5, 7}
  {
  }

  /** STX and STY. */
  lemma {:induction false} IndexStoreCycles<M>(io: Memory<M>, env: Env, s: Core<M>, opcode: byte)
    requires AboutTo(io, s, opcode) && opcode in {0x86, 0x8E, 0x96, 0x84, 0x8C, 0x94}
    ensures var index := if opcode == 0x96 then s.r.y else s.r.x;
            StepActs(io, env, s)
            == [R(s.r.pc)] + Way(io, s, opcode / 4 % 8, index, true)
               + [W(OtherPlace(io, s, opcode), if opcode % 4 == 2 then s.r.x else s.r.y)]
  {
    hide OtherPlace, Way, Ea, EaActs, InstActs, StepActs, Decoded, OtherMode, First, Second, Peek;
    DecodedStores(opcode);
    var inst := Decoded(opcode);
    Spends(io, env, s, opcode);
    OtherPlaceIs(io, s, opcode, inst.mode);
    OtherWay(opcode, inst.mode, s.r);
    WayIs(io, s, inst.mode, opcode / 4 % 8, if opcode == 0x96 then s.r.y else s.r.x, true);
    AddressedActs(io, s.r.(pc := (s.r.pc + 1) % 0x1_0000), s.bus.mem, inst);
  }

  /** Shifts, DEC and INC of memory: the byte is written back before the new one. */
  lemma {:induction false} MemoryShiftCycles<M>(io: Memory<M>, env: Env, s: Core<M>, opcode: byte)
    requires AboutTo(io, s, opcode) && opcode % 8 == 6 && opcode / 32 != 4 && opcode / 32 != 5
    ensures var at := OtherPlace(io, s, opcode);
            var v := Peek(io, s.bus.mem, at);
            StepActs(io, env, s)
            == [R(s.r.pc)] + Way(io, s, opcode / 4 % 8, s.r.x, true)
               + [R(at), W(at, v), W(at, Moved8(opcode / 32, v, s.r.p.c).0)]
  {
    hide OtherPlace, Way, Ea, EaActs, InstActs, StepActs, Decoded, Moved8, Shifted, ShiftOf, First, Second, Peek;
    GroupOf(opcode);
    var mode := TwoMode(opcode / 32, opcode / 4 % 8);
    Spends(io, env, s, opcode);
    OtherPlaceIs(io, s, opcode, mode);
    WayIs(io, s, mode, opcode / 4 % 8, s.r.x, true);
    AddressedActs(io, s.r.(pc := (s.r.pc + 1) % 0x1_0000), s.bus.mem, Decoded(opcode));
    ShiftedIs(opcode / 32, s.r.p.c, Peek(io, s.bus.mem, OtherPlace(io, s, opcode)));
  }

  /** Transfers, flags, counts and shifts of A: one dummy fetch. */
  lemma {:induction false} OneByteCycles<M>(io: Memory<M>, env: Env, s: Core<M>, opcode: byte)
    requires AboutTo(io, s, opcode)
    requires opcode in {0xAA, 0xA8, 0xBA, 0x8A, 0x9A, 0x98, 0xE8, 0xC8, 0xCA, 0x88, 0xEA}
          || opcode in {0x18, 0x38, 0x58, 0x78, 0xB8, 0xD8, 0xF8, 0x0A, 0x2A, 0x4A, 0x6A}
    ensures StepActs(io, env, s) == [R(s.r.pc), R((s.r.pc + 1) % 0x1_0000)]
  {
    hide InstActs, StepActs, Decoded, Peek;
    OneByteIs(opcode);
    Spends(io, env, s, opcode);
    DummyActs(io, s.r.(pc := (s.r.pc + 1) % 0x1_0000), s.bus.mem, Decoded(opcode));
  }

  lemma {:induction false} OneByteIs(opcode: byte)
    requires opcode in {0xAA, 0xA8, 0xBA, 0x8A, 0x9A, 0x98, 0xE8, 0xC8, 0xCA, 0x88, 0xEA}
          || opcode in {0x18, 0x38, 0x58, 0x78, 0xB8, 0xD8, 0xF8, 0x0A, 0x2A, 0x4A, 0x6A}
    ensures opcode != 0 && (Decoded(opcode).Implied? || Decoded(opcode).Shift?)
  {
    hide Decoded;
    if opcode in {0x0A, 0x2A, 0x4A, 0x6A} {
      GroupOf(opcode);
    } else {
      DecodedTransfers();
      DecodedFlagInstructions();
    }
  }

  lemma {:induction false} DummyActs<M>(io: Memory<M>, r: Regs, m: M, inst: Inst)
    requires inst.Implied? || inst.Shift?
    ensures InstActs(io, r, m, inst) == [R(r.pc)]
  {
  }

  /** An undocumented byte: the hook is told where and what, and there is one dummy fetch. */
  lemma {:induction false} UndocumentedCycles<M>(io: Memory<M>, env: Env, s: Core<M>, opcode: byte)
    requires AboutTo(io, s, opcode) && Decoded(opcode) == Illegal
    ensures StepActs(io, env, s) == [R(s.r.pc), Trap(s.r.pc, opcode), R((s.r.pc + 1) % 0x1_0000)]
  {
    hide StepActs, Decoded, Peek;
    OnlyBrk(opcode);
    Spends(io, env, s, opcode);
    assert Previous(Next(s.r.pc)) == s.r.pc;
    IllegalActs(io, s.r.(pc := (s.r.pc + 1) % 0x1_0000), s.bus.mem);
    hide InstActs;
  }

  lemma {:induction false} IllegalActs<M>(io: Memory<M>, r: Regs, m: M)
    ensures InstActs(io, r, m, Illegal) == [Trap(Previous(r.pc), Peek(io, m, Previous(r.pc))), R(r.pc)]
  {
    hide Peek, Previous;
  }

  /** A branch: one read more when taken, and one more in the old page when the target is in another. */
  lemma {:induction false} BranchCycles<M>(io: Memory<M>, env: Env, s: Core<M>, opcode: byte)
    requires AboutTo(io, s, opcode) && opcode % 32 == 16
    ensures var one: word, two: word := (s.r.pc + 1) % 0x1_0000, (s.r.pc + 2) % 0x1_0000;
            var taken, offset := Goes(opcode, ToByte(s.r.p)), First(io, s);
            var target: word := (s.r.pc + 2 + if offset < 128 then offset else offset + 0x1_0000 - 256) % 0x1_0000;
            StepActs(io, env, s)
            == [R(s.r.pc), R(one)]
               + (if taken then [R(two)] else [])
               + (if taken && target / 256 != two / 256 then [R(two / 256 * 256 + target % 256)] else [])
  {
    hide Peek, ToByte, InstActs, StepActs, Decoded, BranchTarget, Goes, Taken;
    GoesIs(opcode, s.r.p);
    Spends(io, env, s, opcode);
    Wraps(s.r.pc);
    TargetInNumbers(s.r.pc, First(io, s));
    BranchActs(io, s.r.(pc := (s.r.pc + 1) % 0x1_0000), s.bus.mem, Decoded(opcode).branch);
    hide Next;
  }

  lemma {:induction false} BranchActs<M>(io: Memory<M>, r: Regs, m: M, op: BranchOp)
    ensures var next, target := Next(r.pc), BranchTarget(r.pc, Peek(io, m, r.pc));
            InstActs(io, r, m, Branch(op)) ==
              if !Taken(op, r.p) then [R(r.pc)]
              else if next / 256 != target / 256 then [R(r.pc), R(next), R(next / 256 * 256 + target % 256)]
              else [R(r.pc), R(next)]
  {
    hide Peek, BranchTarget, Taken, Next;
  }

  /** PHA, PHP, PLA, PLP, JMP, JSR, RTS and RTI. */
  lemma {:induction false} StackCycles<M>(io: Memory<M>, env: Env, s: Core<M>, opcode: byte)
    requires AboutTo(io, s, opcode)
    requires opcode in {0x48, 0x08, 0x68, 0x28, 0x60, 0x40}
    ensures var pc: word, one: word, sp: word := s.r.pc, (s.r.pc + 1) % 0x1_0000, s.r.sp;
            var up1: word, up2: word, up3: word :=
              0x100 + (sp + 1) % 256, 0x100 + (sp + 2) % 256, 0x100 + (sp + 3) % 256;
            var back: word := Peek(io, s.bus.mem, up1) + 256 * Peek(io, s.bus.mem, up2);
            var acts := StepActs(io, env, s);
            && (opcode == 0x48 ==> acts == [R(pc), R(one), W(0x100 + sp, s.r.a)])
            && (opcode == 0x08 ==> acts == [R(pc), R(one), W(0x100 + sp, ToByte(s.r.p.(b := true, u := true)))])
            && (opcode == 0x68 || opcode == 0x28 ==> acts == [R(pc), R(one), R(0x100 + sp), R(up1)])
            && (opcode == 0x60 ==> acts == [R(pc), R(one), R(0x100 + sp), R(up1), R(up2), R(back)])
            && (opcode == 0x40 ==> acts == [R(pc), R(one), R(0x100 + sp), R(up1), R(up2), R(up3)])
  {
    hide Peek, ToByte, InstActs, StepActs, Decoded;
    DecodedStackInstructions();
    DecodedJumps();
    Spends(io, env, s, opcode);
    StackMoves(s.r.sp);
    StackActs(io, s.r.(pc := (s.r.pc + 1) % 0x1_0000), s.bus.mem);
    hide Up;
  }

  lemma {:induction false} StackActs<M>(io: Memory<M>, r: Regs, m: M)
    ensures var top, up1, up2, up3 := Stack(r.sp), Stack(Up(r.sp, 1)), Stack(Up(r.sp, 2)), Stack(Up(r.sp, 3));
            && InstActs(io, r, m, Pha) == [R(r.pc), W(top, r.a)]
            && InstActs(io, r, m, Php) == [R(r.pc), W(top, ToByte(r.p.(b := true, u := true)))]
            && InstActs(io, r, m, Pla) == InstActs(io, r, m, Plp) == [R(r.pc), R(top), R(up1)]
            && InstActs(io, r, m, Rts)
               == [R(r.pc), R(top), R(up1), R(up2), R(Word(Peek(io, m, up1), Peek(io, m, up2)))]
            && InstActs(io, r, m, Rti) == [R(r.pc), R(top), R(up1), R(up2), R(up3)]
  {
    hide Peek, ToByte, Up, Stack;
  }

  lemma {:induction false} JumpCycles<M>(io: Memory<M>, env: Env, s: Core<M>, opcode: byte)
    requires AboutTo(io, s, opcode) && opcode in {0x4C, 0x6C, 0x20}
    ensures var pc: word, one: word, two: word := s.r.pc, (s.r.pc + 1) % 0x1_0000, (s.r.pc + 2) % 0x1_0000;
            var sp: word, at: word := s.r.sp, First(io, s) + 256 * Second(io, s);
            var acts := StepActs(io, env, s);
            && (opcode == 0x4C ==> acts == [R(pc), R(one), R(two)])
            && (opcode == 0x6C ==> acts == [R(pc), R(one), R(two), R(at), R(Beside(at))])
            && (opcode == 0x20 ==>
                  acts == [R(pc), R(one), R(0x100 + sp), W(0x100 + sp, two / 256),
                           W(0x100 + (sp + 255) % 256, two % 256), R(two)])
  {
    hide Peek, InstActs, StepActs, Decoded, Beside;
    DecodedJumps();
    Spends(io, env, s, opcode);
    Wraps(s.r.pc);
    StackMoves(s.r.sp);
    JumpActs(io, s.r.(pc := (s.r.pc + 1) % 0x1_0000), s.bus.mem);
    PointerInNumbers(Word(First(io, s), Second(io, s)));
    hide Down, Next, JumpPointer;
  }

  lemma {:induction false} JumpActs<M>(io: Memory<M>, r: Regs, m: M)
    ensures var back, at := Next(r.pc), Word(Peek(io, m, r.pc), Peek(io, m, Next(r.pc)));
            && InstActs(io, r, m, JmpAbs) == [R(r.pc), R(back)]
            && InstActs(io, r, m, JmpInd) == [R(r.pc), R(back), R(at), R(JumpPointer(at))]
            && InstActs(io, r, m, Jsr)
               == [R(r.pc), R(Stack(r.sp)), W(Stack(r.sp), Hi(back)), W(Stack(Down(r.sp, 1)), Lo(back)), R(back)]
  {
    hide Peek, Down, Stack, Next, JumpPointer;
  }

  // Entries.

  /** What an entry puts on the bus, and where in it the latches are cleared. */
  lemma {:induction false} EntryCycles<M>(io: Memory<M>, env: Env, s: Core<M>, cause: Cause)
    ensures var r, nmi := s.r, AtDecision(io, env, s, cause).nmi;
            var sp: word, pc: word := r.sp, r.pc;
            var high: word, low: word, flags: word :=
              0x100 + sp, 0x100 + (sp + 255) % 256, 0x100 + (sp + 254) % 256;
            var pushed := ToByte(r.p.(u := true, b := r.p.b || cause == BrkCause));
            EntrySteps(io, env, s, cause) ==
              (if cause == ResetCause then [R(pc), R(pc), R(high), R(low), R(flags)]
               else if cause == BrkCause then [W(high, pc / 256), W(low, pc % 256), W(flags, pushed)]
               else [R(pc), R(pc), W(high, pc / 256), W(low, pc % 256), W(flags, pushed)])
              + (match cause
                 case ResetCause => [R(0xFFFC), R(0xFFFD), EndReset]
                 case NmiCause => [R(0xFFFA), R(0xFFFB), TakeNmi]
                 case _ => if nmi then [TakeNmi, R(0xFFFA), R(0xFFFB)] else [R(0xFFFE), R(0xFFFF)])
  {
    hide AtDecision, ToByte;
    StackMoves(s.r.sp);
    hide Down;
  }

  /** RESET, NMI and IRQ, in this order of precedence; BRK after its two fetches. */
  lemma {:induction false} InterruptCycles<M>(io: Memory<M>, env: Env, s: Core<M>)
    requires s.bus.lines.rdy
    ensures var l := s.bus.lines;
            && (l.reset ==> StepActs(io, env, s) == EntrySteps(io, env, s, ResetCause))
            && (!l.reset && l.nmi ==> StepActs(io, env, s) == EntrySteps(io, env, s, NmiCause))
            && (!l.reset && !l.nmi && l.irq && !s.r.p.i ==> StepActs(io, env, s) == EntrySteps(io, env, s, IrqCause))
            && (AboutTo(io, s, 0) ==>
                  StepActs(io, env, s)
                  == [R(s.r.pc), R((s.r.pc + 1) % 0x1_0000)] + EntrySteps(io, env, BrkEntry(io, env, s), BrkCause))
  {
    hide EntrySteps, InstActs, BrkEntry;
    Wraps(s.r.pc);
    assert Table(0x00).inst == Brk;
  }
}
