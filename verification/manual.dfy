/** The instruction set as a programmer's manual states it: for each opcode byte, what an undisturbed step does to the
    registers and the memory, in numbers. The model is not built on this; it is what the model must come to. */
module Manual {
  import opened Bits
  import opened Status
  import opened Bus
  import opened Alu
  import opened Isa
  import opened Interpreter
  import opened OpcodeFields
  import StackDiscipline
  import Arithmetic

  /** The processor is about to execute this opcode byte. */
  predicate AboutTo<M>(io: Memory<M>, s: Core<M>, opcode: byte) {
    && s.bus.lines.rdy && !s.bus.lines.reset && !s.bus.lines.nmi && (s.bus.lines.irq ==> s.r.p.i)
    && Peek(io, s.bus.mem, s.r.pc) == opcode
  }

  /** The two bytes after the opcode. */
  function First<M>(io: Memory<M>, s: Core<M>): byte { Peek(io, s.bus.mem, (s.r.pc + 1) % 0x1_0000) }

  function Second<M>(io: Memory<M>, s: Core<M>): byte { Peek(io, s.bus.mem, (s.r.pc + 2) % 0x1_0000) }

  /** P with N and Z set from a byte. */
  function Judged(p: Flags, v: byte): Flags { p.(z := v == 0, n := v >= 128) }

  // How the statements below meet the model.

  lemma {:induction false} OnlyBrk(opcode: byte)
    ensures Decoded(opcode).Brk? <==> opcode == 0
  {
  }

  lemma {:induction false} Undergoes<M(!new)>(io: Memory<M>, env: Env, s: Core<M>, opcode: byte)
    requires AboutTo(io, s, opcode) && opcode != 0
    ensures var inst, r := Decoded(opcode), s.r.(pc := (s.r.pc + 1) % 0x1_0000);
            && !inst.Brk? && r == Fetched(s.r)
            && Step(io, env, s).r == RegsAfter(io, r, s.bus.mem, inst)
            && (Absorbing(io) ==> Step(io, env, s).bus.mem == MemoryAfter(io, r, s.bus.mem, inst))
  {
    hide Decoded, Table, RegsAfter, MemoryAfter, Entry, InstActs;
    TableIsDecoded(opcode);
    OnlyBrk(opcode);
    if Absorbing(io) { StackDiscipline.ExecutedArch(io, env, s, Decoded(opcode)); }
  }

  lemma {:induction false} Wraps(pc: word)
    ensures Next(pc) == (pc + 1) % 0x1_0000 && Next(Next(pc)) == (pc + 2) % 0x1_0000
    ensures Add16((pc + 1) % 0x1_0000, 0) == (pc + 1) % 0x1_0000
    ensures Add16((pc + 1) % 0x1_0000, 1) == (pc + 2) % 0x1_0000
    ensures Add16((pc + 1) % 0x1_0000, 2) == (pc + 3) % 0x1_0000
  {
  }

  // One case of the interpreter at a time.

  lemma {:induction false} ReadIs<M>(io: Memory<M>, r: Regs, m: M, op: ReadOp, mode: Operand)
    ensures RegsAfter(io, r, m, Read(op, mode)) == Loaded(op, PastOperand(r, mode), Peek(io, m, Ea(io, m, r, mode)))
    ensures MemoryAfter(io, r, m, Read(op, mode)) == m
  {
    hide Loaded, PastOperand, Peek, Ea, Shifted, ShiftFlags, ImpliedRegs, FromByte, ToByte;
  }

  lemma {:induction false} StoreIs<M>(io: Memory<M>, r: Regs, m: M, op: StoreOp, mode: Operand)
    ensures RegsAfter(io, r, m, Store(op, mode)) == PastOperand(r, mode)
    ensures MemoryAfter(io, r, m, Store(op, mode)) == Poke(io, m, Ea(io, m, r, mode), StoredReg(op, r))
  {
    hide Loaded, PastOperand, Peek, Poke, Ea, Shifted, ShiftFlags, ImpliedRegs, FromByte, ToByte;
  }

  lemma {:induction false} RmwIs<M>(io: Memory<M>, r: Regs, m: M, op: RmwOp, mode: Operand)
    ensures var v := Peek(io, m, Ea(io, m, r, mode));
            && RegsAfter(io, r, m, Rmw(op, mode)) == PastOperand(r, mode).(p := ShiftFlags(op, r.p, v))
            && MemoryAfter(io, r, m, Rmw(op, mode)) == Poke(io, m, Ea(io, m, r, mode), Shifted(op, r.p.c, v))
  {
    hide Loaded, PastOperand, Peek, Poke, Ea, Shifted, ShiftFlags, ImpliedRegs, FromByte, ToByte;
  }

  lemma {:induction false} ShiftIs<M>(io: Memory<M>, r: Regs, m: M, op: RmwOp)
    ensures RegsAfter(io, r, m, Shift(op)) == r.(a := Shifted(op, r.p.c, r.a), p := ShiftFlags(op, r.p, r.a))
    ensures MemoryAfter(io, r, m, Shift(op)) == m
  {
    hide Loaded, PastOperand, Peek, Poke, Ea, Shifted, ShiftFlags, ImpliedRegs, FromByte, ToByte;
  }

  lemma {:induction false} ImpliedIs<M>(io: Memory<M>, r: Regs, m: M, op: ImpliedOp)
    ensures RegsAfter(io, r, m, Implied(op)) == ImpliedRegs(op, r)
    ensures MemoryAfter(io, r, m, Implied(op)) == m
  {
    hide Loaded, PastOperand, Peek, Poke, Ea, Shifted, ShiftFlags, ImpliedRegs, FromByte, ToByte;
  }

  lemma {:induction false} BranchIs<M>(io: Memory<M>, r: Regs, m: M, op: BranchOp)
    ensures RegsAfter(io, r, m, Branch(op))
         == r.(pc := if Taken(op, r.p) then BranchTarget(r.pc, Peek(io, m, r.pc)) else Next(r.pc))
    ensures MemoryAfter(io, r, m, Branch(op)) == m
  {
    hide Loaded, PastOperand, Peek, Poke, Ea, Shifted, ShiftFlags, ImpliedRegs, FromByte, ToByte;
    hide Taken, BranchTarget, Next;
  }

  lemma {:induction false} PastIs(r: Regs, mode: AddressingMode)
    ensures PastOperand(r.(pc := (r.pc + 1) % 0x1_0000), mode) == r.(pc := (r.pc + ModeBytes(mode)) % 0x1_0000)
  {
    Wraps(r.pc);
  }

  lemma {:induction false} JudgedIs(p: Flags, v: byte)
    ensures SetNZ(p, v) == Judged(p, v)
  {
  }

  // Operand addresses. Every index and every pointer wraps where the processor wraps it.

  /** The first group, by column. */
  function Place<M>(io: Memory<M>, s: Core<M>, column: nat): word
    requires column < 8
  {
    var first, second := First(io, s), Second(io, s);
    match column
    case 0 => var at := (first + s.r.x) % 256; Peek(io, s.bus.mem, at) + 256 * Peek(io, s.bus.mem, (at + 1) % 256)
    case 1 => first
    case 2 => (s.r.pc + 1) % 0x1_0000
    case 3 => first + 256 * second
    case 4 => (Peek(io, s.bus.mem, first) + 256 * Peek(io, s.bus.mem, (first + 1) % 256) + s.r.y) % 0x1_0000
    case 5 => (first + s.r.x) % 256
    case 6 => (first + 256 * second + s.r.y) % 0x1_0000
    case 7 => (first + 256 * second + s.r.x) % 0x1_0000
  }

  /** The other groups: $96 and $B6 index page zero by Y, and $BE an address by Y. */
  function OtherPlace<M>(io: Memory<M>, s: Core<M>, opcode: byte): word {
    var first, second := First(io, s), Second(io, s);
    match opcode / 4 % 8
    case 1 => first
    case 3 => first + 256 * second
    case 5 => (first + if opcode == 0x96 || opcode == 0xB6 then s.r.y else s.r.x) % 256
    case 7 => (first + 256 * second + if opcode == 0xBE then s.r.y else s.r.x) % 0x1_0000
    case _ => (s.r.pc + 1) % 0x1_0000
  }

  /** Effective addresses in numbers, mode by mode. */
  lemma {:induction false} AddressesInNumbers<M>(io: Memory<M>, s: Core<M>)
    ensures var r, m := s.r.(pc := (s.r.pc + 1) % 0x1_0000), s.bus.mem;
            var first, second := First(io, s), Second(io, s);
            var at := (first + r.x) % 256;
            && Ea(io, m, r, Immediate) == (s.r.pc + 1) % 0x1_0000
            && Ea(io, m, r, ZeroPage) == first
            && Ea(io, m, r, ZeroPageX) == (first + r.x) % 256
            && Ea(io, m, r, ZeroPageY) == (first + r.y) % 256
            && Ea(io, m, r, Absolute) == first + 256 * second
            && Ea(io, m, r, AbsoluteX) == (first + 256 * second + r.x) % 0x1_0000
            && Ea(io, m, r, AbsoluteY) == (first + 256 * second + r.y) % 0x1_0000
            && Ea(io, m, r, IndexedIndirect) == Peek(io, m, at) + 256 * Peek(io, m, (at + 1) % 256)
            && Ea(io, m, r, IndirectIndexed)
               == (Peek(io, m, first) + 256 * Peek(io, m, (first + 1) % 256) + r.y) % 0x1_0000
  {
    hide Peek;
    Wraps(s.r.pc);
    var m, first := s.bus.mem, First(io, s);
    var address: word := Word(first, Second(io, s));
    var pointed: word := Word(Peek(io, m, first), Peek(io, m, Inc8(first)));
    assert Lo(first) == first;
    SmallSums(first, s.r.x);
    SmallSums(first, s.r.y);
    SmallSums(first, 1);
    SmallSums(Add8(first, s.r.x), 1);
    BigSums(address, s.r.x);
    BigSums(address, s.r.y);
    BigSums(pointed, s.r.y);
    hide Add8, Inc8, Add16, Next;
  }

  lemma {:induction false} SmallSums(v: byte, w: byte)
    ensures Add8(v, w) == (v + w) % 256 && Inc8(v) == (v + 1) % 256 && Dec8(v) == (v + 255) % 256
  {
  }

  lemma {:induction false} BigSums(w: word, v: byte)
    ensures Add16(w, v) == (w + v) % 0x1_0000
  {
  }

  lemma {:induction false} PlaceIs<M>(io: Memory<M>, s: Core<M>, column: nat)
    requires column < 8
    ensures Ea(io, s.bus.mem, s.r.(pc := (s.r.pc + 1) % 0x1_0000), OneMode(column)) == Place(io, s, column)
  {
    AddressesInNumbers(io, s);
    hide Ea;
  }

  /** The mode of a memory operand outside the first group. */
  predicate OtherMode(opcode: byte, mode: Operand) {
    match opcode / 4 % 8
    case 1 => mode == ZeroPage
    case 3 => mode == Absolute
    case 5 => mode == if opcode == 0x96 || opcode == 0xB6 then ZeroPageY else ZeroPageX
    case 7 => mode == if opcode == 0xBE then AbsoluteY else AbsoluteX
    case _ => mode == Immediate
  }

  lemma {:induction false} OtherPlaceIs<M>(io: Memory<M>, s: Core<M>, opcode: byte, mode: Operand)
    requires OtherMode(opcode, mode)
    ensures Ea(io, s.bus.mem, s.r.(pc := (s.r.pc + 1) % 0x1_0000), mode) == OtherPlace(io, s, opcode)
  {
    AddressesInNumbers(io, s);
    hide Ea, Peek;
  }

  // The first group: ORA, AND, EOR, ADC, STA, LDA, CMP and SBC, by row.

  lemma {:induction false} LoadsInNumbers(r: Regs, v: byte)
    ensures Loaded(ORA, r, v) == r.(a := Or(r.a, v), p := Judged(r.p, Or(r.a, v)))
    ensures Loaded(AND, r, v) == r.(a := And(r.a, v), p := Judged(r.p, And(r.a, v)))
    ensures Loaded(EOR, r, v) == r.(a := Xor(r.a, v), p := Judged(r.p, Xor(r.a, v)))
    ensures Loaded(LDA, r, v) == r.(a := v, p := Judged(r.p, v))
    ensures Loaded(LDX, r, v) == r.(x := v, p := Judged(r.p, v))
    ensures Loaded(LDY, r, v) == r.(y := v, p := Judged(r.p, v))
  {
    JudgedIs(r.p, Or(r.a, v));
    JudgedIs(r.p, And(r.a, v));
    JudgedIs(r.p, Xor(r.a, v));
    JudgedIs(r.p, v);
    hide And, Or, Xor, Adc, Sbc, Compared, SetNZ, Judged;
  }

  lemma {:induction false} ComparesInNumbers(r: Regs, v: byte)
    ensures Loaded(CMP, r, v) == r.(p := Judged(r.p, (r.a + 256 - v) % 256).(c := r.a >= v))
    ensures Loaded(CPX, r, v) == r.(p := Judged(r.p, (r.x + 256 - v) % 256).(c := r.x >= v))
    ensures Loaded(CPY, r, v) == r.(p := Judged(r.p, (r.y + 256 - v) % 256).(c := r.y >= v))
  {
    ComparedIs(r.p, r.a, v);
    ComparedIs(r.p, r.x, v);
    ComparedIs(r.p, r.y, v);
    hide And, Or, Xor, Adc, Sbc, Compared, SetNZ, Judged;
  }

  lemma {:induction false} ComparedIs(p: Flags, reg: byte, v: byte)
    ensures Compared(p, reg, v) == Judged(p, (reg + 256 - v) % 256).(c := reg >= v)
  {
    Apart(reg, v);
    JudgedIs(p, (reg + 256 - v) % 256);
  }

  lemma {:induction false} OthersInNumbers(r: Regs, v: byte)
    ensures Loaded(BIT, r, v) == r.(p := r.p.(z := And(r.a, v) == 0, v := v / 64 % 2 == 1, n := v >= 128))
    ensures Loaded(ADC, r, v) == Adc(r, v) && Loaded(SBC, r, v) == Sbc(r, v)
  {
    hide And, Or, Xor, Adc, Sbc, Compared, SetNZ, Judged;
  }

  lemma {:induction false} Apart(v: byte, w: byte)
    ensures (v - w) % 256 == (v + 256 - w) % 256
  {
  }

  lemma {:induction false} GroupOf(opcode: byte)
    ensures opcode % 4 == 0 ==> Decoded(opcode) == GroupNoughtInst(opcode / 32, opcode / 4 % 8)
    ensures opcode % 4 == 1 ==> Decoded(opcode) == GroupOneInst(opcode / 32, opcode / 4 % 8)
    ensures opcode % 4 == 2 ==> Decoded(opcode) == GroupTwoInst(opcode / 32, opcode / 4 % 8)
    ensures opcode % 4 == 3 ==> Decoded(opcode) == Illegal
  {
    hide GroupNoughtInst, GroupOneInst, GroupTwoInst;
  }

  /** Every byte of the first group. What ADC and SBC come to is `Arithmetic.AdcInNumbers` and its companions; what the
      gates come to, `Arithmetic.GatesInNumbers`. */
  lemma {:induction false} FirstGroup<M(!new)>(io: Memory<M>, env: Env, s: Core<M>, opcode: byte)
    requires Absorbing(io) && AboutTo(io, s, opcode) && opcode % 4 == 1 && opcode != 0x89
    ensures var row, column := opcode / 32, opcode / 4 % 8;
            var at := Place(io, s, column);
            var v := Peek(io, s.bus.mem, at);
            var length := if column == 3 || column == 6 || column == 7 then 3 else 2;
            var r, s' := s.r.(pc := (s.r.pc + length) % 0x1_0000), Step(io, env, s);
            && (row == 0 ==> s'.r == r.(a := Or(r.a, v), p := Judged(r.p, Or(r.a, v))))
            && (row == 1 ==> s'.r == r.(a := And(r.a, v), p := Judged(r.p, And(r.a, v))))
            && (row == 2 ==> s'.r == r.(a := Xor(r.a, v), p := Judged(r.p, Xor(r.a, v))))
            && (row == 3 ==> s'.r == Adc(r, v))
            && (row == 4 ==> s'.r == r)
            && (row == 5 ==> s'.r == r.(a := v, p := Judged(r.p, v)))
            && (row == 6 ==> s'.r == r.(p := Judged(r.p, (r.a + 256 - v) % 256).(c := r.a >= v)))
            && (row == 7 ==> s'.r == Sbc(r, v))
            && s'.bus.mem == if row == 4 then Poke(io, s.bus.mem, at, r.a) else s.bus.mem
  {
    hide Isa.Step, Place, Ea, Loaded, And, Or, Xor, Adc, Sbc, Judged, Peek, PastOperand;
    hide RegsAfter, MemoryAfter, Decoded;
    var row, column := opcode / 32, opcode / 4 % 8;
    var inst, mode := Decoded(opcode), OneMode(column);
    assert inst == GroupOneInst(row, column) by { GroupOf(opcode); }
    Undergoes(io, env, s, opcode);
    PlaceIs(io, s, column);
    PastIs(s.r, mode);
    var start := s.r.(pc := (s.r.pc + 1) % 0x1_0000);
    if row == 4 {
      StoreIs(io, start, s.bus.mem, STA, mode);
    } else {
      ReadIs(io, start, s.bus.mem, inst.read, mode);
      var r := s.r.(pc := (s.r.pc + ModeBytes(mode)) % 0x1_0000);
      LoadsInNumbers(r, Peek(io, s.bus.mem, Place(io, s, column)));
      ComparesInNumbers(r, Peek(io, s.bus.mem, Place(io, s, column)));
      OthersInNumbers(r, Peek(io, s.bus.mem, Place(io, s, column)));
    }
  }

  // Shifts, rotates, DEC and INC.

  /** The byte and the C that row leaves. */
  function Moved8(row: nat, v: byte, c: bool): (byte, bool) {
    var carry := if c then 1 else 0;
    match row
    case 0 => ((v + v) % 256, v >= 128)
    case 1 => ((v + v + carry) % 256, v >= 128)
    case 2 => (v / 2, v % 2 == 1)
    case 3 => (v / 2 + 128 * carry, v % 2 == 1)
    case 6 => ((v + 255) % 256, c)
    case _ => ((v + 1) % 256, c)
  }

  lemma {:induction false} ShiftedIs(row: nat, c: bool, v: byte)
    requires row < 8
    ensures Shifted(ShiftOf(row), c, v) == Moved8(row, v, c).0
    ensures ShiftedOut(ShiftOf(row), c, v) == Moved8(row, v, c).1
  {
    assert (v - 1) % 256 == (v + 255) % 256;
  }

  lemma {:induction false} Moved8Is(row: nat, p: Flags, v: byte)
    requires row < 8
    ensures var (w, c) := Moved8(row, v, p.c);
            Shifted(ShiftOf(row), p.c, v) == w && ShiftFlags(ShiftOf(row), p, v) == Judged(p, w).(c := c)
  {
    ShiftedIs(row, p.c, v);
    JudgedIs(p, Shifted(ShiftOf(row), p.c, v));
    hide Shifted, ShiftedOut, Moved8, SetNZ, Judged, ShiftOf;
  }

  /** ASL, ROL, LSR, ROR, DEC and INC of memory: rows 0 to 3, 6 and 7 of the second group, odd columns. */
  lemma {:induction false} MemoryShifts<M(!new)>(io: Memory<M>, env: Env, s: Core<M>, opcode: byte)
    requires Absorbing(io) && AboutTo(io, s, opcode) && opcode % 8 == 6
    requires opcode / 32 != 4 && opcode / 32 != 5
    ensures var at := OtherPlace(io, s, opcode);
            var (w, c) := Moved8(opcode / 32, Peek(io, s.bus.mem, at), s.r.p.c);
            var length := if opcode / 4 % 8 == 3 || opcode / 4 % 8 == 7 then 3 else 2;
            var s' := Step(io, env, s);
            && s'.r == s.r.(pc := (s.r.pc + length) % 0x1_0000, p := Judged(s.r.p, w).(c := c))
            && s'.bus.mem == Poke(io, s.bus.mem, at, w)
  {
    hide Isa.Step, Ea, Judged, Peek, Poke, PastOperand, Shifted, ShiftFlags, Moved8, RegsAfter, MemoryAfter;
    hide Decoded, ShiftOf, OtherPlace, First, Second;
    var row, column := opcode / 32, opcode / 4 % 8;
    GroupOf(opcode);
    Undergoes(io, env, s, opcode);
    var mode := TwoMode(row, column);
    OtherPlaceIs(io, s, opcode, mode);
    PastIs(s.r, mode);
    RmwIs(io, s.r.(pc := (s.r.pc + 1) % 0x1_0000), s.bus.mem, ShiftOf(row), mode);
    Moved8Is(row, s.r.p, Peek(io, s.bus.mem, OtherPlace(io, s, opcode)));
  }

  /** $0A, $2A, $4A and $6A: the same on A. */
  lemma {:induction false} AccumulatorShifts<M(!new)>(io: Memory<M>, env: Env, s: Core<M>, opcode: byte)
    requires Absorbing(io) && AboutTo(io, s, opcode)
    requires opcode == 0x0A || opcode == 0x2A || opcode == 0x4A || opcode == 0x6A
    ensures var (w, c) := Moved8(opcode / 32, s.r.a, s.r.p.c);
            var s' := Step(io, env, s);
            && s'.r == s.r.(pc := (s.r.pc + 1) % 0x1_0000, a := w, p := Judged(s.r.p, w).(c := c))
            && s'.bus.mem == s.bus.mem
  {
    hide Isa.Step, Judged, Shifted, ShiftFlags, Moved8, RegsAfter, MemoryAfter, Decoded, ShiftOf;
    GroupOf(opcode);
    Undergoes(io, env, s, opcode);
    ShiftIs(io, s.r.(pc := (s.r.pc + 1) % 0x1_0000), s.bus.mem, ShiftOf(opcode / 32));
    Moved8Is(opcode / 32, s.r.p, s.r.a);
  }

  // Loads, stores and compares of X and Y, and BIT.

  lemma {:induction false} DecodedReads(opcode: byte)
    requires opcode in {0xA2, 0xA6, 0xAE, 0xB6, 0xBE, 0xA0, 0xA4, 0xAC, 0xB4, 0xBC}
          || opcode in {0xE0, 0xE4, 0xEC, 0xC0, 0xC4, 0xCC, 0x24, 0x2C}
    ensures var inst := Decoded(opcode);
            && inst.Read? && OtherMode(opcode, inst.mode)
            && ModeBytes(inst.mode) == (if opcode / 4 % 8 == 3 || opcode / 4 % 8 == 7 then 3 else 2)
            && inst.read == if opcode in {0xA2, 0xA6, 0xAE, 0xB6, 0xBE} then LDX
                            else if opcode in {0xA0, 0xA4, 0xAC, 0xB4, 0xBC} then LDY
                            else if opcode in {0xE0, 0xE4, 0xEC} then CPX
                            else if opcode in {0xC0, 0xC4, 0xCC} then CPY
                            else BIT
  {
  }

  /** The state after any of them, from what the operation makes of the operand. */
  lemma {:induction false} OtherRead<M(!new)>(io: Memory<M>, env: Env, s: Core<M>, opcode: byte)
    requires Absorbing(io) && AboutTo(io, s, opcode)
    requires opcode in {0xA2, 0xA6, 0xAE, 0xB6, 0xBE, 0xA0, 0xA4, 0xAC, 0xB4, 0xBC}
          || opcode in {0xE0, 0xE4, 0xEC, 0xC0, 0xC4, 0xCC, 0x24, 0x2C}
    ensures var v := Peek(io, s.bus.mem, OtherPlace(io, s, opcode));
            var length := if opcode / 4 % 8 == 3 || opcode / 4 % 8 == 7 then 3 else 2;
            var r, s' := s.r.(pc := (s.r.pc + length) % 0x1_0000), Step(io, env, s);
            && Decoded(opcode).Read? && s'.bus.mem == s.bus.mem && s'.r == Loaded(Decoded(opcode).read, r, v)
  {
    hide Isa.Step, Ea, Peek, PastOperand, Loaded, RegsAfter, MemoryAfter, Decoded, OtherPlace, OtherMode;
    DecodedReads(opcode);
    Undergoes(io, env, s, opcode);
    var inst := Decoded(opcode);
    OtherPlaceIs(io, s, opcode, inst.mode);
    PastIs(s.r, inst.mode);
    ReadIs(io, s.r.(pc := (s.r.pc + 1) % 0x1_0000), s.bus.mem, inst.read, inst.mode);
  }

  /** LDX and LDY. */
  lemma {:induction false} IndexLoads<M(!new)>(io: Memory<M>, env: Env, s: Core<M>, opcode: byte)
    requires Absorbing(io) && AboutTo(io, s, opcode)
    requires opcode in {0xA2, 0xA6, 0xAE, 0xB6, 0xBE, 0xA0, 0xA4, 0xAC, 0xB4, 0xBC}
    ensures var v := Peek(io, s.bus.mem, OtherPlace(io, s, opcode));
            var length := if opcode / 4 % 8 == 3 || opcode / 4 % 8 == 7 then 3 else 2;
            var r, s' := s.r.(pc := (s.r.pc + length) % 0x1_0000), Step(io, env, s);
            && s'.bus.mem == s.bus.mem
            && s'.r == if opcode % 4 == 2 then r.(x := v, p := Judged(r.p, v)) else r.(y := v, p := Judged(r.p, v))
  {
    hide Isa.Step, Judged, Peek, Loaded, Decoded, OtherPlace, OtherMode;
    DecodedReads(opcode);
    OtherRead(io, env, s, opcode);
    LoadsInNumbers(s.r.(pc := (s.r.pc + ModeBytes(Decoded(opcode).mode)) % 0x1_0000),
                   Peek(io, s.bus.mem, OtherPlace(io, s, opcode)));
  }

  /** CPX, CPY and BIT. */
  lemma {:induction false} IndexCompares<M(!new)>(io: Memory<M>, env: Env, s: Core<M>, opcode: byte)
    requires Absorbing(io) && AboutTo(io, s, opcode)
    requires opcode in {0xE0, 0xE4, 0xEC, 0xC0, 0xC4, 0xCC, 0x24, 0x2C}
    ensures var v := Peek(io, s.bus.mem, OtherPlace(io, s, opcode));
            var r, s' := s.r.(pc := (s.r.pc + if opcode / 4 % 8 == 3 then 3 else 2) % 0x1_0000), Step(io, env, s);
            && s'.bus.mem == s.bus.mem
            && (opcode >= 0xE0 ==> s'.r == r.(p := Judged(r.p, (r.x + 256 - v) % 256).(c := r.x >= v)))
            && (0xC0 <= opcode < 0xE0 ==> s'.r == r.(p := Judged(r.p, (r.y + 256 - v) % 256).(c := r.y >= v)))
            && (opcode < 0xC0 ==> s'.r == r.(p := r.p.(z := And(r.a, v) == 0, v := v / 64 % 2 == 1, n := v >= 128)))
  {
    hide Isa.Step, Judged, Peek, Loaded, And, Decoded, OtherPlace, OtherMode;
    DecodedReads(opcode);
    OtherRead(io, env, s, opcode);
    var r := s.r.(pc := (s.r.pc + ModeBytes(Decoded(opcode).mode)) % 0x1_0000);
    var v := Peek(io, s.bus.mem, OtherPlace(io, s, opcode));
    if opcode >= 0xC0 {
      ComparesInNumbers(r, v);
      assert Decoded(opcode).read == if opcode >= 0xE0 then CPX else CPY;
    } else {
      OthersInNumbers(r, v);
      assert Decoded(opcode).read == BIT;
    }
  }

  lemma {:induction false} DecodedStores(opcode: byte)
    requires opcode in {0x86, 0x8E, 0x96, 0x84, 0x8C, 0x94}
    ensures var inst := Decoded(opcode);
            && inst.Store? && OtherMode(opcode, inst.mode)
            && ModeBytes(inst.mode) == (if opcode == 0x8E || opcode == 0x8C then 3 else 2)
            && inst.store == if opcode % 4 == 2 then STX else STY
  {
  }

  /** STX and STY. */
  lemma {:induction false} IndexStores<M(!new)>(io: Memory<M>, env: Env, s: Core<M>, opcode: byte)
    requires Absorbing(io) && AboutTo(io, s, opcode)
    requires opcode in {0x86, 0x8E, 0x96, 0x84, 0x8C, 0x94}
    ensures var s' := Step(io, env, s);
            && s'.r == s.r.(pc := (s.r.pc + if opcode == 0x8E || opcode == 0x8C then 3 else 2) % 0x1_0000)
            && s'.bus.mem
               == Poke(io, s.bus.mem, OtherPlace(io, s, opcode), if opcode % 4 == 2 then s.r.x else s.r.y)
  {
    hide Isa.Step, Ea, Peek, Poke, PastOperand, RegsAfter, MemoryAfter, Decoded, OtherPlace, OtherMode;
    DecodedStores(opcode);
    Undergoes(io, env, s, opcode);
    var inst := Decoded(opcode);
    OtherPlaceIs(io, s, opcode, inst.mode);
    PastIs(s.r, inst.mode);
    StoreIs(io, s.r.(pc := (s.r.pc + 1) % 0x1_0000), s.bus.mem, inst.store, inst.mode);
  }

  // One-byte instructions.

  lemma {:induction false} DecodedTransfers()
    ensures Decoded(0xAA) == Implied(TAX) && Decoded(0xA8) == Implied(TAY) && Decoded(0xBA) == Implied(TSX)
    ensures Decoded(0x8A) == Implied(TXA) && Decoded(0x9A) == Implied(TXS) && Decoded(0x98) == Implied(TYA)
    ensures Decoded(0xE8) == Implied(INX) && Decoded(0xC8) == Implied(INY) && Decoded(0xCA) == Implied(DEX)
    ensures Decoded(0x88) == Implied(DEY) && Decoded(0xEA) == Implied(NOP)
  {
  }

  lemma {:induction false} DecodedFlagInstructions()
    ensures Decoded(0x18) == Implied(CLC) && Decoded(0x38) == Implied(SEC) && Decoded(0x58) == Implied(CLI)
    ensures Decoded(0x78) == Implied(SEI) && Decoded(0xB8) == Implied(CLV) && Decoded(0xD8) == Implied(CLD)
    ensures Decoded(0xF8) == Implied(SED)
  {
  }

  lemma {:induction false} TransfersInNumbers(r: Regs)
    ensures ImpliedRegs(TAX, r) == r.(x := r.a, p := Judged(r.p, r.a))
    ensures ImpliedRegs(TAY, r) == r.(y := r.a, p := Judged(r.p, r.a))
    ensures ImpliedRegs(TSX, r) == r.(x := r.sp, p := Judged(r.p, r.sp))
    ensures ImpliedRegs(TXA, r) == r.(a := r.x, p := Judged(r.p, r.x))
    ensures ImpliedRegs(TXS, r) == r.(sp := r.x)
    ensures ImpliedRegs(TYA, r) == r.(a := r.y, p := Judged(r.p, r.y))
    ensures ImpliedRegs(NOP, r) == r
  {
    JudgedIs(r.p, r.a);
    JudgedIs(r.p, r.x);
    JudgedIs(r.p, r.y);
    JudgedIs(r.p, r.sp);
    hide SetNZ, Judged, Inc8, Dec8;
  }

  lemma {:induction false} CountsInNumbers(r: Regs)
    ensures ImpliedRegs(INX, r) == r.(x := (r.x + 1) % 256, p := Judged(r.p, (r.x + 1) % 256))
    ensures ImpliedRegs(DEX, r) == r.(x := (r.x + 255) % 256, p := Judged(r.p, (r.x + 255) % 256))
  {
    SmallSums(r.x, 1);
    JudgedIs(r.p, Inc8(r.x));
    JudgedIs(r.p, Dec8(r.x));
    hide SetNZ, Judged, Inc8, Dec8;
  }

  lemma {:induction false} YCountsInNumbers(r: Regs)
    ensures ImpliedRegs(INY, r) == r.(y := (r.y + 1) % 256, p := Judged(r.p, (r.y + 1) % 256))
    ensures ImpliedRegs(DEY, r) == r.(y := (r.y + 255) % 256, p := Judged(r.p, (r.y + 255) % 256))
  {
    SmallSums(r.y, 1);
    JudgedIs(r.p, Inc8(r.y));
    JudgedIs(r.p, Dec8(r.y));
    hide SetNZ, Judged, Inc8, Dec8;
  }

  /** Transfers, INX, INY, DEX, DEY and NOP. */
  lemma {:induction false} Transfers<M(!new)>(io: Memory<M>, env: Env, s: Core<M>, opcode: byte)
    requires Absorbing(io) && AboutTo(io, s, opcode)
    requires opcode in {0xAA, 0xA8, 0xBA, 0x8A, 0x9A, 0x98, 0xE8, 0xC8, 0xCA, 0x88, 0xEA}
    ensures var r, s' := s.r.(pc := (s.r.pc + 1) % 0x1_0000), Step(io, env, s);
            && s'.bus.mem == s.bus.mem
            && (opcode == 0xAA ==> s'.r == r.(x := r.a, p := Judged(r.p, r.a)))
            && (opcode == 0xA8 ==> s'.r == r.(y := r.a, p := Judged(r.p, r.a)))
            && (opcode == 0xBA ==> s'.r == r.(x := r.sp, p := Judged(r.p, r.sp)))
            && (opcode == 0x8A ==> s'.r == r.(a := r.x, p := Judged(r.p, r.x)))
            && (opcode == 0x9A ==> s'.r == r.(sp := r.x))
            && (opcode == 0x98 ==> s'.r == r.(a := r.y, p := Judged(r.p, r.y)))
            && (opcode == 0xE8 ==> s'.r == r.(x := (r.x + 1) % 256, p := Judged(r.p, (r.x + 1) % 256)))
            && (opcode == 0xC8 ==> s'.r == r.(y := (r.y + 1) % 256, p := Judged(r.p, (r.y + 1) % 256)))
            && (opcode == 0xCA ==> s'.r == r.(x := (r.x + 255) % 256, p := Judged(r.p, (r.x + 255) % 256)))
            && (opcode == 0x88 ==> s'.r == r.(y := (r.y + 255) % 256, p := Judged(r.p, (r.y + 255) % 256)))
            && (opcode == 0xEA ==> s'.r == r)
  {
    hide Isa.Step, Peek, RegsAfter, MemoryAfter, Decoded, ImpliedRegs, Judged;
    var r := s.r.(pc := (s.r.pc + 1) % 0x1_0000);
    DecodedTransfers();
    Undergoes(io, env, s, opcode);
    ImpliedIs(io, r, s.bus.mem, Decoded(opcode).implied);
    TransfersInNumbers(r);
    CountsInNumbers(r);
    YCountsInNumbers(r);
  }

  /** CLC, SEC, CLI, SEI, CLV, CLD and SED. */
  lemma {:induction false} FlagInstructions<M(!new)>(io: Memory<M>, env: Env, s: Core<M>, opcode: byte)
    requires Absorbing(io) && AboutTo(io, s, opcode)
    requires opcode in {0x18, 0x38, 0x58, 0x78, 0xB8, 0xD8, 0xF8}
    ensures var r, s' := s.r.(pc := (s.r.pc + 1) % 0x1_0000), Step(io, env, s);
            && s'.bus.mem == s.bus.mem
            && (opcode == 0x18 ==> s'.r == r.(p := r.p.(c := false)))
            && (opcode == 0x38 ==> s'.r == r.(p := r.p.(c := true)))
            && (opcode == 0x58 ==> s'.r == r.(p := r.p.(i := false)))
            && (opcode == 0x78 ==> s'.r == r.(p := r.p.(i := true)))
            && (opcode == 0xB8 ==> s'.r == r.(p := r.p.(v := false)))
            && (opcode == 0xD8 ==> s'.r == r.(p := r.p.(d := false)))
            && (opcode == 0xF8 ==> s'.r == r.(p := r.p.(d := true)))
  {
    hide Isa.Step, Peek, RegsAfter, MemoryAfter, Decoded, SetNZ;
    var r := s.r.(pc := (s.r.pc + 1) % 0x1_0000);
    DecodedFlagInstructions();
    Undergoes(io, env, s, opcode);
    ImpliedIs(io, r, s.bus.mem, Decoded(opcode).implied);
  }

  /** The 105 bytes the manual does not have. */
  lemma {:induction false} Undocumented<M(!new)>(io: Memory<M>, env: Env, s: Core<M>, opcode: byte)
    requires Absorbing(io) && AboutTo(io, s, opcode)
    requires opcode % 4 == 3 || opcode in {0x80, 0x89, 0x9E, 0x04, 0x14, 0x34, 0x44, 0x54, 0x64, 0x74, 0xD4, 0xF4}
          || opcode in {0x0C, 0x1C, 0x3C, 0x5C, 0x7C, 0x9C, 0xDC, 0xFC, 0x1A, 0x3A, 0x5A, 0x7A, 0xDA, 0xFA}
          || opcode in {0x02, 0x12, 0x22, 0x32, 0x42, 0x52, 0x62, 0x72, 0x82, 0x92, 0xB2, 0xC2, 0xD2, 0xE2, 0xF2}
    ensures var s' := Step(io, env, s);
            s'.r == s.r.(pc := (s.r.pc + 1) % 0x1_0000) && s'.bus.mem == s.bus.mem
  {
    hide Isa.Step, Peek, RegsAfter, MemoryAfter, Decoded;
    NotInTheManual(opcode);
    Undergoes(io, env, s, opcode);
    IllegalIs(io, s.r.(pc := (s.r.pc + 1) % 0x1_0000), s.bus.mem);
  }

  lemma {:induction false} IllegalIs<M>(io: Memory<M>, r: Regs, m: M)
    ensures RegsAfter(io, r, m, Illegal) == r && MemoryAfter(io, r, m, Illegal) == m
  {
  }

  lemma {:induction false} NotInTheManual(opcode: byte)
    ensures Decoded(opcode) == Illegal <==>
      || opcode % 4 == 3 || opcode in {0x80, 0x89, 0x9E, 0x04, 0x14, 0x34, 0x44, 0x54, 0x64, 0x74, 0xD4, 0xF4}
      || opcode in {0x0C, 0x1C, 0x3C, 0x5C, 0x7C, 0x9C, 0xDC, 0xFC, 0x1A, 0x3A, 0x5A, 0x7A, 0xDA, 0xFA}
      || opcode in {0x02, 0x12, 0x22, 0x32, 0x42, 0x52, 0x62, 0x72, 0x82, 0x92, 0xB2, 0xC2, 0xD2, 0xE2, 0xF2}
  {
    var row, column := opcode / 32, opcode / 4 % 8;
    assert opcode == 32 * row + 4 * column + opcode % 4;
  }

  // Branches.

  /** The eight branches by the bit of P they test: N is bit 7, V bit 6, C bit 0 and Z bit 1. */
  predicate Goes(opcode: byte, p: byte) {
    match opcode
    case 0x10 => p / 128 % 2 == 0
    case 0x30 => p / 128 % 2 == 1
    case 0x50 => p / 64 % 2 == 0
    case 0x70 => p / 64 % 2 == 1
    case 0x90 => p % 2 == 0
    case 0xB0 => p % 2 == 1
    case 0xD0 => p / 2 % 2 == 0
    case 0xF0 => p / 2 % 2 == 1
    case _ => false
  }

  lemma {:induction false} GoesIs(opcode: byte, p: Flags)
    requires opcode % 32 == 16
    ensures Decoded(opcode).Branch? && (Taken(Decoded(opcode).branch, p) <==> Goes(opcode, ToByte(p)))
  {
    DecodedBranches();
    Arithmetic.FlagBits(p);
    hide ToByte, Decoded;
  }

  lemma {:induction false} Branches<M(!new)>(io: Memory<M>, env: Env, s: Core<M>, opcode: byte)
    requires Absorbing(io) && AboutTo(io, s, opcode) && opcode % 32 == 16
    ensures var offset, s' := First(io, s), Step(io, env, s);
            var far := if offset < 128 then offset else offset + 0x1_0000 - 256;
            && s'.r == s.r.(pc := (s.r.pc + 2 + if Goes(opcode, ToByte(s.r.p)) then far else 0) % 0x1_0000)
            && s'.bus.mem == s.bus.mem
  {
    hide Isa.Step, Peek, ToByte, RegsAfter, MemoryAfter, Decoded, BranchTarget, Goes, Taken;
    GoesIs(opcode, s.r.p);
    Undergoes(io, env, s, opcode);
    BranchIs(io, s.r.(pc := (s.r.pc + 1) % 0x1_0000), s.bus.mem, Decoded(opcode).branch);
    Wraps(s.r.pc);
    TargetInNumbers(s.r.pc, First(io, s));
    hide Next;
  }

  lemma {:induction false} DecodedBranches()
    ensures Decoded(0x10) == Branch(BPL) && Decoded(0x30) == Branch(BMI)
    ensures Decoded(0x50) == Branch(BVC) && Decoded(0x70) == Branch(BVS)
    ensures Decoded(0x90) == Branch(BCC) && Decoded(0xB0) == Branch(BCS)
    ensures Decoded(0xD0) == Branch(BNE) && Decoded(0xF0) == Branch(BEQ)
  {
  }

  lemma {:induction false} TargetInNumbers(pc: word, offset: byte)
    ensures BranchTarget((pc + 1) % 0x1_0000, offset)
         == (pc + 2 + if offset < 128 then offset else offset + 0x1_0000 - 256) % 0x1_0000
  {
    var far := if offset < 128 then offset else offset - 256;
    assert pc == 0xFFFF ==> (0 + 1 + far) % 0x1_0000 == (pc + 2 + far) % 0x1_0000;
    Around(pc + 2 + far);
  }

  lemma {:induction false} Around(n: int)
    ensures (n + 0x1_0000) % 0x1_0000 == n % 0x1_0000
  {
  }

  // Jumps and the stack.

  lemma {:induction false} StackMoves(sp: byte)
    ensures Down(sp, 1) == (sp + 255) % 256 && Down(sp, 2) == (sp + 254) % 256 && Down(sp, 3) == (sp + 253) % 256
    ensures Up(sp, 1) == (sp + 1) % 256 && Up(sp, 2) == (sp + 2) % 256 && Up(sp, 3) == (sp + 3) % 256
  {
  }

  lemma {:induction false} DecodedStackInstructions()
    ensures Decoded(0x48) == Pha && Decoded(0x08) == Php && Decoded(0x68) == Pla && Decoded(0x28) == Plp
  {
  }

  lemma {:induction false} DecodedJumps()
    ensures Decoded(0x4C) == JmpAbs && Decoded(0x6C) == JmpInd
    ensures Decoded(0x20) == Jsr && Decoded(0x60) == Rts && Decoded(0x40) == Rti
  {
  }

  lemma {:induction false} PushIs<M>(io: Memory<M>, r: Regs, m: M)
    ensures RegsAfter(io, r, m, Pha) == RegsAfter(io, r, m, Php) == r.(sp := (r.sp + 255) % 256)
    ensures MemoryAfter(io, r, m, Pha) == Poke(io, m, 0x100 + r.sp, r.a)
    ensures MemoryAfter(io, r, m, Php) == Poke(io, m, 0x100 + r.sp, ToByte(r.p.(b := true, u := true)))
  {
    hide Poke, ToByte;
    StackMoves(r.sp);
  }

  lemma {:induction false} PullIs<M>(io: Memory<M>, r: Regs, m: M)
    ensures var top := Peek(io, m, 0x100 + (r.sp + 1) % 256);
            && RegsAfter(io, r, m, Pla) == r.(sp := (r.sp + 1) % 256, a := top, p := Judged(r.p, top))
            && RegsAfter(io, r, m, Plp) == r.(sp := (r.sp + 1) % 256, p := FromByte(top).(b := false, u := true))
            && MemoryAfter(io, r, m, Pla) == MemoryAfter(io, r, m, Plp) == m
  {
    hide Peek, FromByte, Judged, SetNZ;
    StackMoves(r.sp);
    JudgedIs(r.p, Peek(io, m, Stack(Up(r.sp, 1))));
    hide Up;
  }

  /** PHA and PHP. */
  lemma {:induction false} Pushes<M(!new)>(io: Memory<M>, env: Env, s: Core<M>, opcode: byte)
    requires Absorbing(io) && AboutTo(io, s, opcode) && opcode in {0x48, 0x08}
    ensures var r, s' := s.r.(pc := (s.r.pc + 1) % 0x1_0000), Step(io, env, s);
            var v := if opcode == 0x48 then r.a else ToByte(r.p.(b := true, u := true));
            s'.r == r.(sp := (r.sp + 255) % 256) && s'.bus.mem == Poke(io, s.bus.mem, 0x100 + r.sp, v)
  {
    hide Isa.Step, Peek, Poke, ToByte, RegsAfter, MemoryAfter, Decoded;
    DecodedStackInstructions();
    Undergoes(io, env, s, opcode);
    PushIs(io, s.r.(pc := (s.r.pc + 1) % 0x1_0000), s.bus.mem);
  }

  /** PLA and PLP. */
  lemma {:induction false} Pulls<M(!new)>(io: Memory<M>, env: Env, s: Core<M>, opcode: byte)
    requires Absorbing(io) && AboutTo(io, s, opcode) && opcode in {0x68, 0x28}
    ensures var r, s' := s.r.(pc := (s.r.pc + 1) % 0x1_0000, sp := (s.r.sp + 1) % 256), Step(io, env, s);
            var top := Peek(io, s.bus.mem, 0x100 + r.sp);
            && (opcode == 0x68 ==> s'.r == r.(a := top, p := Judged(r.p, top)))
            && (opcode == 0x28 ==> s'.r == r.(p := FromByte(top).(b := false, u := true)))
            && s'.bus.mem == s.bus.mem
  {
    hide Isa.Step, Peek, FromByte, Judged, RegsAfter, MemoryAfter, Decoded;
    DecodedStackInstructions();
    Undergoes(io, env, s, opcode);
    PullIs(io, s.r.(pc := (s.r.pc + 1) % 0x1_0000), s.bus.mem);
  }

  lemma {:induction false} JumpIs<M>(io: Memory<M>, r: Regs, m: M)
    ensures var at := Word(Peek(io, m, r.pc), Peek(io, m, Next(r.pc)));
            && RegsAfter(io, r, m, JmpAbs) == r.(pc := at)
            && RegsAfter(io, r, m, JmpInd) == r.(pc := Word(Peek(io, m, at), Peek(io, m, JumpPointer(at))))
            && MemoryAfter(io, r, m, JmpAbs) == MemoryAfter(io, r, m, JmpInd) == m
  {
    hide Peek, JumpPointer, Next;
  }

  lemma {:induction false} WordIs(lo: byte, hi: byte)
    ensures Word(lo, hi) == lo + 256 * hi
  {
  }

  /** The next address, within the same page. */
  function Beside(at: word): word { at / 256 * 256 + (at + 1) % 256 }

  /** JMP: to the operand, or through it, with the pointer's second byte taken from the same page. */
  lemma {:induction false} Jumps<M(!new)>(io: Memory<M>, env: Env, s: Core<M>, opcode: byte)
    requires Absorbing(io) && AboutTo(io, s, opcode) && opcode in {0x4C, 0x6C}
    ensures var m, at: word := s.bus.mem, First(io, s) + 256 * Second(io, s);
            var s' := Step(io, env, s);
            && (opcode == 0x4C ==> s'.r == s.r.(pc := at))
            && (opcode == 0x6C ==> s'.r == s.r.(pc := Peek(io, m, at) + 256 * Peek(io, m, Beside(at))))
            && s'.bus.mem == m
  {
    hide Isa.Step, Peek, RegsAfter, MemoryAfter, Decoded, Word, Beside;
    DecodedJumps();
    Undergoes(io, env, s, opcode);
    Wraps(s.r.pc);
    JumpIs(io, s.r.(pc := (s.r.pc + 1) % 0x1_0000), s.bus.mem);
    var at := Word(First(io, s), Second(io, s));
    WordIs(First(io, s), Second(io, s));
    PointerInNumbers(at);
    WordIs(Peek(io, s.bus.mem, at), Peek(io, s.bus.mem, Beside(at)));
    hide JumpPointer, Next, First, Second;
  }

  lemma {:induction false} PointerInNumbers(at: word)
    ensures JumpPointer(at) == Beside(at)
  {
    var low := at % 256;
    assert at == 256 * (at / 256) + low;
    assert (at + 1) % 256 == if low == 255 then 0 else low + 1;
  }

  /** The memory after two pushes of a word, high byte first. */
  function PushedWord<M>(io: Memory<M>, m: M, sp: byte, w: word): M {
    Poke(io, Poke(io, m, 0x100 + sp, w / 256), 0x100 + (sp + 255) % 256, w % 256)
  }

  lemma {:induction false} PushedWordIs<M>(io: Memory<M>, m: M, sp: byte, w: word)
    ensures PushedPc(io, m, sp, w) == PushedWord(io, m, sp, w)
  {
    StackMoves(sp);
    hide Poke, Down;
  }

  lemma {:induction false} CallIs<M>(io: Memory<M>, r: Regs, m: M)
    ensures var m' := PushedPc(io, m, r.sp, Next(r.pc));
            && RegsAfter(io, r, m, Jsr)
               == r.(sp := Down(r.sp, 2), pc := Word(Peek(io, m, r.pc), Peek(io, m', Next(r.pc))))
            && MemoryAfter(io, r, m, Jsr) == m'
  {
    hide Peek, Poke, PushedPc, Down, Next;
  }

  /** JSR: the address of its last byte is pushed before the high byte of the target is read there. */
  lemma {:induction false} Calls<M(!new)>(io: Memory<M>, env: Env, s: Core<M>)
    requires Absorbing(io) && AboutTo(io, s, 0x20)
    ensures var last: word := (s.r.pc + 2) % 0x1_0000;
            var m, s' := PushedWord(io, s.bus.mem, s.r.sp, last), Step(io, env, s);
            && s'.r == s.r.(sp := (s.r.sp + 254) % 256, pc := First(io, s) + 256 * Peek(io, m, last))
            && s'.bus.mem == m
  {
    hide Isa.Step, Peek, RegsAfter, MemoryAfter, Decoded, PushedPc, PushedWord, Word;
    DecodedJumps();
    Undergoes(io, env, s, 0x20);
    Wraps(s.r.pc);
    StackMoves(s.r.sp);
    CallIs(io, s.r.(pc := (s.r.pc + 1) % 0x1_0000), s.bus.mem);
    var last: word := (s.r.pc + 2) % 0x1_0000;
    PushedWordIs(io, s.bus.mem, s.r.sp, last);
    WordIs(First(io, s), Peek(io, PushedWord(io, s.bus.mem, s.r.sp, last), last));
    hide Down, Next;
  }

  lemma {:induction false} ReturnIs<M>(io: Memory<M>, r: Regs, m: M)
    ensures var one, two, three := Stack(Up(r.sp, 1)), Stack(Up(r.sp, 2)), Stack(Up(r.sp, 3));
            && RegsAfter(io, r, m, Rts) == r.(sp := Up(r.sp, 2), pc := Next(Word(Peek(io, m, one), Peek(io, m, two))))
            && RegsAfter(io, r, m, Rti)
               == r.(sp := Up(r.sp, 3), p := FromByte(Peek(io, m, one)).(b := false, u := true),
                     pc := Word(Peek(io, m, two), Peek(io, m, three)))
            && MemoryAfter(io, r, m, Rts) == MemoryAfter(io, r, m, Rti) == m
  {
    hide Peek, Up, Next, FromByte;
  }

  /** RTS and RTI: low byte first, and RTS goes to the next address. */
  lemma {:induction false} Returns<M(!new)>(io: Memory<M>, env: Env, s: Core<M>, opcode: byte)
    requires Absorbing(io) && AboutTo(io, s, opcode) && opcode in {0x60, 0x40}
    ensures var m, sp := s.bus.mem, s.r.sp;
            var one, two := Peek(io, m, 0x100 + (sp + 1) % 256), Peek(io, m, 0x100 + (sp + 2) % 256);
            var three := Peek(io, m, 0x100 + (sp + 3) % 256);
            var s' := Step(io, env, s);
            && (opcode == 0x60 ==> s'.r == s.r.(sp := (sp + 2) % 256, pc := (one + 256 * two + 1) % 0x1_0000))
            && (opcode == 0x40 ==> s'.r.sp == (sp + 3) % 256
                                   && s'.r == s.r.(sp := s'.r.sp, p := FromByte(one).(b := false, u := true),
                                                   pc := two + 256 * three))
            && s'.bus.mem == m
  {
    hide Isa.Step, Peek, FromByte, RegsAfter, MemoryAfter, Decoded;
    DecodedJumps();
    Undergoes(io, env, s, opcode);
    StackMoves(s.r.sp);
    ReturnIs(io, s.r.(pc := (s.r.pc + 1) % 0x1_0000), s.bus.mem);
    var m, sp: word := s.bus.mem, s.r.sp;
    Wraps(Word(Peek(io, m, 0x100 + (sp + 1) % 256), Peek(io, m, 0x100 + (sp + 2) % 256)));
    WordIs(Peek(io, m, 0x100 + (sp + 1) % 256), Peek(io, m, 0x100 + (sp + 2) % 256));
    WordIs(Peek(io, m, 0x100 + (sp + 2) % 256), Peek(io, m, 0x100 + (sp + 3) % 256));
    hide Up, Next, Word;
  }
}
