/** RESET, NMI, IRQ and BRK in numbers: which comes first, what is pushed where, and which two bytes become PC. */
module Entries {
  import opened Bits
  import opened Status
  import opened Bus
  import opened Alu
  import opened Isa
  import opened Interpreter
  import opened Manual
  import opened NmiProtocol
  import BusLog
  import OpcodeFields

  /** PC is the word at an address, low byte first. */
  predicate GoesThrough<M>(io: Memory<M>, m: M, pc: word, vector: nat)
    requires vector + 1 < 0x1_0000
  {
    pc == Peek(io, m, vector) + 256 * Peek(io, m, vector + 1)
  }

  /** The three bytes of an entry: PC, high byte first, and a copy of P. */
  function Frame<M>(io: Memory<M>, m: M, sp: byte, pc: word, p: byte): M {
    Poke(io, PushedWord(io, m, sp, pc), 0x100 + (sp + 254) % 256, p)
  }

  lemma {:induction false} FrameIs<M>(io: Memory<M>, m: M, r: Regs, cause: Cause)
    ensures PushedFrame(io, m, r, cause)
         == Frame(io, m, r.sp, r.pc, ToByte(r.p.(u := true, b := r.p.b || cause == BrkCause)))
  {
    PushedWordIs(io, m, r.sp, r.pc);
    StackMoves(r.sp);
    hide PushedPc, PushedWord, Poke, ToByte, Down;
  }

  lemma {:induction false} TargetIs<M>(io: Memory<M>, m: M, vector: word)
    requires vector < 0xFFFF
    ensures GoesThrough(io, m, VectorTarget(io, m, vector), vector)
  {
    hide Peek;
  }

  /** An entry of any kind, with PC where the return address is. */
  lemma {:induction false} EntryInNumbers<M>(io: Memory<M>, env: Env, s: Core<M>, cause: Cause)
    ensures var r, s' := s.r, Entry(io, env, s, cause);
            var nmi := AtDecision(io, env, s, cause).nmi;
            && s'.r == r.(sp := (r.sp + 253) % 256, p := r.p.(i := true, u := true), pc := s'.r.pc)
            && s'.bus.mem
               == (if cause == ResetCause then s.bus.mem
                   else Frame(io, s.bus.mem, r.sp, r.pc, ToByte(r.p.(u := true, b := r.p.b || cause == BrkCause))))
            && (cause == ResetCause ==> GoesThrough(io, s'.bus.mem, s'.r.pc, 0xFFFC))
            && (cause == NmiCause ==> GoesThrough(io, s'.bus.mem, s'.r.pc, 0xFFFA))
            && (cause == IrqCause || cause == BrkCause ==>
                  GoesThrough(io, s'.bus.mem, s'.r.pc, if nmi then 0xFFFA else 0xFFFE))
  {
    hide EntryActs, Drive, PushedFrame, Frame, VectorTarget, ToByte, AtDecision, GoesThrough, Down, Isa.Entry;
    EntryIsInterrupted(io, env, s, cause);
    FrameIs(io, s.bus.mem, s.r, cause);
    StackMoves(s.r.sp);
    var m := Entry(io, env, s, cause).bus.mem;
    TargetIs(io, m, 0xFFFA);
    TargetIs(io, m, 0xFFFC);
    TargetIs(io, m, 0xFFFE);
  }

  /** A pending RESET comes before all else, and stores nothing. */
  lemma {:induction false} ResetStep<M>(io: Memory<M>, env: Env, s: Core<M>)
    requires s.bus.lines.rdy && s.bus.lines.reset
    ensures var r, s' := s.r, Step(io, env, s);
            && s'.r == r.(sp := (r.sp + 253) % 256, p := r.p.(i := true, u := true), pc := s'.r.pc)
            && s'.bus.mem == s.bus.mem && GoesThrough(io, s.bus.mem, s'.r.pc, 0xFFFC)
            && !s'.bus.lines.reset
  {
    hide Isa.Entry, Executed, Frame, ToByte, AtDecision, GoesThrough;
    EntryInNumbers(io, env, s, ResetCause);
    ResetIsTaken(io, env, s);
  }

  lemma {:induction false} ResetIsTaken<M>(io: Memory<M>, env: Env, s: Core<M>)
    ensures !Entry(io, env, s, ResetCause).bus.lines.reset
  {
    hide VectorTarget, Drive, EntryActs;
    var mid := Drive(io, env, s.bus, EntryActs(s.r, ResetCause));
    var fetch := [R(RESET_VECTOR), R(RESET_VECTOR + 1)];
    DriveSnoc(io, env, mid, fetch, EndReset);
    assert fetch + [EndReset] == VectorActs(ResetCause, mid.lines);
  }

  /** Then an NMI, masked or not. */
  lemma {:induction false} NmiStep<M>(io: Memory<M>, env: Env, s: Core<M>)
    requires s.bus.lines.rdy && !s.bus.lines.reset && s.bus.lines.nmi
    ensures var r, s' := s.r, Step(io, env, s);
            && s'.r == r.(sp := (r.sp + 253) % 256, p := r.p.(i := true, u := true), pc := s'.r.pc)
            && s'.bus.mem == Frame(io, s.bus.mem, r.sp, r.pc, ToByte(r.p.(u := true)))
            && GoesThrough(io, s'.bus.mem, s'.r.pc, 0xFFFA)
            && !s'.bus.lines.nmi
  {
    hide Isa.Entry, Executed, Frame, ToByte, AtDecision, GoesThrough;
    EntryInNumbers(io, env, s, NmiCause);
    assert s.r.p.(u := true, b := s.r.p.b || false) == s.r.p.(u := true);
    NmiIsTaken(io, env, s);
  }

  lemma {:induction false} NmiIsTaken<M>(io: Memory<M>, env: Env, s: Core<M>)
    ensures !Entry(io, env, s, NmiCause).bus.lines.nmi
  {
    hide VectorTarget, Drive, EntryActs;
    var mid := Drive(io, env, s.bus, EntryActs(s.r, NmiCause));
    var fetch := [R(NMI_VECTOR), R(NMI_VECTOR + 1)];
    DriveSnoc(io, env, mid, fetch, TakeNmi);
    assert fetch + [TakeNmi] == VectorActs(NmiCause, mid.lines);
  }

  /** Then an IRQ, if I is clear; an NMI that is pending once the three bytes are pushed takes it over. */
  lemma {:induction false} IrqStep<M>(io: Memory<M>, env: Env, s: Core<M>)
    requires s.bus.lines.rdy && !s.bus.lines.reset && !s.bus.lines.nmi && s.bus.lines.irq && !s.r.p.i
    ensures var r, s' := s.r, Step(io, env, s);
            && s'.r == r.(sp := (r.sp + 253) % 256, p := r.p.(i := true, u := true), pc := s'.r.pc)
            && s'.bus.mem == Frame(io, s.bus.mem, r.sp, r.pc, ToByte(r.p.(u := true)))
            && GoesThrough(io, s'.bus.mem, s'.r.pc, if ServesNmi(io, env, s) then 0xFFFA else 0xFFFE)
  {
    hide Isa.Entry, Executed, Frame, ToByte, AtDecision, GoesThrough;
    EntryInNumbers(io, env, s, IrqCause);
    assert s.r.p.(u := true, b := s.r.p.b || false) == s.r.p.(u := true);
  }

  /** BRK: the same with B set in the copy and PC two past the opcode. */
  lemma {:induction false} BrkStep<M>(io: Memory<M>, env: Env, s: Core<M>)
    requires AboutTo(io, s, 0x00)
    ensures var r, s' := s.r, Step(io, env, s);
            && s'.r == r.(sp := (r.sp + 253) % 256, p := r.p.(i := true, u := true), pc := s'.r.pc)
            && s'.bus.mem
               == Frame(io, s.bus.mem, r.sp, (r.pc + 2) % 0x1_0000, ToByte(r.p.(u := true, b := true)))
            && GoesThrough(io, s'.bus.mem, s'.r.pc, if ServesNmi(io, env, s) then 0xFFFA else 0xFFFE)
  {
    hide Isa.Entry, Frame, ToByte, AtDecision, GoesThrough, RegsAfter, InstActs;
    assert Table(0x00).inst == Brk;
    var two := [R(s.r.pc), R(Next(s.r.pc))];
    ReadsOnly(io, env, s.bus, two);
    Wraps(s.r.pc);
    EntryInNumbers(io, env, BrkEntry(io, env, s), BrkCause);
  }

  /** While RDY is low nothing happens. */
  lemma {:induction false} StalledStep<M>(io: Memory<M>, env: Env, s: Core<M>)
    requires !s.bus.lines.rdy
    ensures Step(io, env, s) == s
  {
  }

  /** When an NMI counts as served: by its own entry, or by an IRQ or BRK that finds it pending after the fifth
      cycle. */
  lemma {:induction false} ServedInNumbers<M>(io: Memory<M>, env: Env, s: Core<M>)
    requires s.bus.lines.rdy && !s.bus.lines.reset
    ensures s.bus.lines.nmi ==> ServesNmi(io, env, s)
    ensures !s.bus.lines.nmi && s.bus.lines.irq && !s.r.p.i ==>
      var sp, pc: word := s.r.sp, s.r.pc;
      var acts := [R(pc), R(pc), W(0x100 + sp, pc / 256), W(0x100 + (sp + 255) % 256, pc % 256),
                   W(0x100 + (sp + 254) % 256, ToByte(s.r.p.(u := true)))];
      ServesNmi(io, env, s) <==> Drive(io, env, s.bus, acts).lines.nmi
    ensures AboutTo(io, s, 0x00) ==>
      var sp, pc, back: word := s.r.sp, s.r.pc, (s.r.pc + 2) % 0x1_0000;
      var acts := [R(pc), R((pc + 1) % 0x1_0000), W(0x100 + sp, back / 256), W(0x100 + (sp + 255) % 256, back % 256),
                   W(0x100 + (sp + 254) % 256, ToByte(s.r.p.(u := true, b := true)))];
      ServesNmi(io, env, s) <==> Drive(io, env, s.bus, acts).lines.nmi
    ensures AboutTo(io, s, Peek(io, s.bus.mem, s.r.pc)) && Peek(io, s.bus.mem, s.r.pc) != 0 ==> !ServesNmi(io, env, s)
  {
    hide Drive, ToByte, Peek, Table;
    assert s.r.p.(u := true, b := s.r.p.b || false) == s.r.p.(u := true);
    Wraps(s.r.pc);
    StackMoves(s.r.sp);
    if !s.bus.lines.nmi && !(s.bus.lines.irq && !s.r.p.i) {
      var opcode := Peek(io, s.bus.mem, s.r.pc);
      OpcodeFields.TableIsDecoded(opcode);
      OnlyBrk(opcode);
      if opcode == 0 { BrkDecision(io, env, s); }
    }
  }

  lemma {:induction false} BrkDecision<M>(io: Memory<M>, env: Env, s: Core<M>)
    ensures var sp, pc, back: word := s.r.sp, s.r.pc, (s.r.pc + 2) % 0x1_0000;
            var acts := [R(pc), R((pc + 1) % 0x1_0000),
                         W(0x100 + sp, back / 256), W(0x100 + (sp + 255) % 256, back % 256),
                         W(0x100 + (sp + 254) % 256, ToByte(s.r.p.(u := true, b := true)))];
            AtDecision(io, env, BrkEntry(io, env, s), BrkCause) == Drive(io, env, s.bus, acts).lines
  {
    hide Drive, ToByte;
    Wraps(s.r.pc);
    StackMoves(s.r.sp);
    var two := [R(s.r.pc), R(Next(s.r.pc))];
    var three := EntryActs(Fetched(Fetched(s.r)), BrkCause);
    DriveAppend(io, env, s.bus, two, three);
    var sp: word, back: word := s.r.sp, (s.r.pc + 2) % 0x1_0000;
    assert two + three == [R(s.r.pc), R((s.r.pc + 1) % 0x1_0000),
                           W(0x100 + sp, back / 256), W(0x100 + (sp + 255) % 256, back % 256),
                           W(0x100 + (sp + 254) % 256, ToByte(s.r.p.(u := true, b := true)))];
  }
}
