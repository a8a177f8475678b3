/** The instruction set as a simple interpreter sees it: a table from opcode bytes to instructions, one pure
    effective address per addressing mode, the registers an instruction leaves, and the bus cycles it spends. */
module Isa {
  import opened Bits
  import opened Status
  import opened Bus
  import opened Alu

  datatype AddressingMode =
    | Implicit | Accumulator | Immediate | ZeroPage | ZeroPageX | ZeroPageY | Relative
    | Absolute | AbsoluteX | AbsoluteY | Indirect | IndexedIndirect | IndirectIndexed

  /** The modes that name a byte of memory. */
  type Operand = m: AddressingMode | !(m.Implicit? || m.Accumulator? || m.Relative? || m.Indirect?)
    witness Immediate

  datatype ReadOp = LDA | LDX | LDY | AND | ORA | EOR | BIT | CMP | CPX | CPY | ADC | SBC
  datatype StoreOp = STA | STX | STY
  datatype ImpliedOp = TAX | TAY | TSX | TXA | TXS | TYA | CLC | SEC | CLD | SED | CLI | SEI | CLV
    | NOP | INX | INY | DEX | DEY
  datatype BranchOp = BCC | BCS | BEQ | BNE | BMI | BPL | BVC | BVS

  datatype Inst =
    | Read(read: ReadOp, mode: Operand)
    | Store(store: StoreOp, mode: Operand)
    | Rmw(rmw: RmwOp, mode: Operand)
    | Shift(shift: RmwOp)
    | Implied(implied: ImpliedOp)
    | Branch(branch: BranchOp)
    | Pha | Php | Pla | Plp | JmpAbs | JmpInd | Jsr | Rts | Brk | Rti
    | Illegal

  /** One line of the opcode table: the handler, and the metadata beside it. */
  datatype Row = Row(inst: Inst, mode: AddressingMode, cycles: nat)

  const ILLEGAL_ROW := Row(Illegal, Implicit, 0)

  function Rows00(opcode: byte): Row {
    match opcode
    case 0x00 => Row(Brk, Implicit, 7)
    case 0x01 => Row(Read(ORA, IndexedIndirect), IndexedIndirect, 6)
    case 0x05 => Row(Read(ORA, ZeroPage), ZeroPage, 3)
    case 0x06 => Row(Rmw(ASL, ZeroPage), ZeroPage, 5)
    case 0x08 => Row(Php, Implicit, 3)
    case 0x09 => Row(Read(ORA, Immediate), Immediate, 2)
    case 0x0A => Row(Shift(ASL), Accumulator, 2)
    case 0x0D => Row(Read(ORA, Absolute), Absolute, 4)
    case 0x0E => Row(Rmw(ASL, Absolute), Absolute, 6)
    case 0x10 => Row(Branch(BPL), Relative, 2)
    case 0x11 => Row(Read(ORA, IndirectIndexed), IndirectIndexed, 5)
    case 0x15 => Row(Read(ORA, ZeroPageX), ZeroPageX, 4)
    case 0x16 => Row(Rmw(ASL, ZeroPageX), ZeroPageX, 6)
    case 0x18 => Row(Implied(CLC), Implicit, 2)
    case 0x19 => Row(Read(ORA, AbsoluteY), AbsoluteY, 4)
    case 0x1D => Row(Read(ORA, AbsoluteX), AbsoluteX, 4)
    case 0x1E => Row(Rmw(ASL, AbsoluteX), AbsoluteX, 7)
    case _ => ILLEGAL_ROW
  }

  function Rows20(opcode: byte): Row {
    match opcode
    case 0x20 => Row(Jsr, Absolute, 6)
    case 0x21 => Row(Read(AND, IndexedIndirect), IndexedIndirect, 6)
    case 0x24 => Row(Read(BIT, ZeroPage), ZeroPage, 3)
    case 0x25 => Row(Read(AND, ZeroPage), ZeroPage, 3)
    case 0x26 => Row(Rmw(ROL, ZeroPage), ZeroPage, 5)
    case 0x28 => Row(Plp, Implicit, 4)
    case 0x29 => Row(Read(AND, Immediate), Immediate, 2)
    case 0x2A => Row(Shift(ROL), Accumulator, 2)
    case 0x2C => Row(Read(BIT, Absolute), Absolute, 4)
    case 0x2D => Row(Read(AND, Absolute), Absolute, 4)
    case 0x2E => Row(Rmw(ROL, Absolute), Absolute, 6)
    case 0x30 => Row(Branch(BMI), Relative, 2)
    case 0x31 => Row(Read(AND, IndirectIndexed), IndirectIndexed, 5)
    case 0x35 => Row(Read(AND, ZeroPageX), ZeroPageX, 4)
    case 0x36 => Row(Rmw(ROL, ZeroPageX), ZeroPageX, 6)
    case 0x38 => Row(Implied(SEC), Implicit, 2)
    case 0x39 => Row(Read(AND, AbsoluteY), AbsoluteY, 4)
    case 0x3D => Row(Read(AND, AbsoluteX), AbsoluteX, 4)
    case 0x3E => Row(Rmw(ROL, AbsoluteX), AbsoluteX, 7)
    case _ => ILLEGAL_ROW
  }

  function Rows40(opcode: byte): Row {
    match opcode
    case 0x40 => Row(Rti, Implicit, 6)
    case 0x41 => Row(Read(EOR, IndexedIndirect), IndexedIndirect, 6)
    case 0x45 => Row(Read(EOR, ZeroPage), ZeroPage, 3)
    case 0x46 => Row(Rmw(LSR, ZeroPage), ZeroPage, 5)
    case 0x48 => Row(Pha, Implicit, 3)
    case 0x49 => Row(Read(EOR, Immediate), Immediate, 2)
    case 0x4A => Row(Shift(LSR), Accumulator, 2)
    case 0x4C => Row(JmpAbs, Absolute, 3)
    case 0x4D => Row(Read(EOR, Absolute), Absolute, 4)
    case 0x4E => Row(Rmw(LSR, Absolute), Absolute, 6)
    case 0x50 => Row(Branch(BVC), Relative, 2)
    case 0x51 => Row(Read(EOR, IndirectIndexed), IndirectIndexed, 5)
    case 0x55 => Row(Read(EOR, ZeroPageX), ZeroPageX, 4)
    case 0x56 => Row(Rmw(LSR, ZeroPageX), ZeroPageX, 6)
    case 0x58 => Row(Implied(CLI), Implicit, 2)
    case 0x59 => Row(Read(EOR, AbsoluteY), AbsoluteY, 4)
    case 0x5D => Row(Read(EOR, AbsoluteX), AbsoluteX, 4)
    case 0x5E => Row(Rmw(LSR, AbsoluteX), AbsoluteX, 7)
    case _ => ILLEGAL_ROW
  }

  function Rows60(opcode: byte): Row {
    match opcode
    case 0x60 => Row(Rts, Implicit, 6)
    case 0x61 => Row(Read(ADC, IndexedIndirect), IndexedIndirect, 6)
    case 0x65 => Row(Read(ADC, ZeroPage), ZeroPage, 3)
    case 0x66 => Row(Rmw(ROR, ZeroPage), ZeroPage, 5)
    case 0x68 => Row(Pla, Implicit, 4)
    case 0x69 => Row(Read(ADC, Immediate), Immediate, 2)
    case 0x6A => Row(Shift(ROR), Accumulator, 2)
    case 0x6C => Row(JmpInd, Indirect, 5)
    case 0x6D => Row(Read(ADC, Absolute), Absolute, 4)
    case 0x6E => Row(Rmw(ROR, Absolute), Absolute, 6)
    case 0x70 => Row(Branch(BVS), Relative, 2)
    case 0x71 => Row(Read(ADC, IndirectIndexed), IndirectIndexed, 5)
    case 0x75 => Row(Read(ADC, ZeroPageX), ZeroPageX, 4)
    case 0x76 => Row(Rmw(ROR, ZeroPageX), ZeroPageX, 6)
    case 0x78 => Row(Implied(SEI), Implicit, 2)
    case 0x79 => Row(Read(ADC, AbsoluteY), AbsoluteY, 4)
    case 0x7D => Row(Read(ADC, AbsoluteX), AbsoluteX, 4)
    case 0x7E => Row(Rmw(ROR, AbsoluteX), AbsoluteX, 7)
    case _ => ILLEGAL_ROW
  }

  function Rows80(opcode: byte): Row {
    match opcode
    case 0x81 => Row(Store(STA, IndexedIndirect), IndexedIndirect, 6)
    case 0x84 => Row(Store(STY, ZeroPage), ZeroPage, 3)
    case 0x85 => Row(Store(STA, ZeroPage), ZeroPage, 3)
    case 0x86 => Row(Store(STX, ZeroPage), ZeroPage, 3)
    case 0x88 => Row(Implied(DEY), Implicit, 2)
    case 0x8A => Row(Implied(TXA), Implicit, 2)
    case 0x8C => Row(Store(STY, Absolute), Absolute, 4)
    case 0x8D => Row(Store(STA, Absolute), Absolute, 4)
    case 0x8E => Row(Store(STX, Absolute), Absolute, 4)
    case 0x90 => Row(Branch(BCC), Relative, 2)
    case 0x91 => Row(Store(STA, IndirectIndexed), IndirectIndexed, 6)
    case 0x94 => Row(Store(STY, ZeroPageX), ZeroPageX, 4)
    case 0x95 => Row(Store(STA, ZeroPageX), ZeroPageX, 4)
    case 0x96 => Row(Store(STX, ZeroPageY), ZeroPageY, 4)
    case 0x98 => Row(Implied(TYA), Implicit, 2)
    case 0x99 => Row(Store(STA, AbsoluteY), AbsoluteY, 5)
    case 0x9A => Row(Implied(TXS), Implicit, 2)
    case 0x9D => Row(Store(STA, AbsoluteX), AbsoluteX, 5)
    case _ => ILLEGAL_ROW
  }

  function RowsA0(opcode: byte): Row {
    match opcode
    case 0xA0 => Row(Read(LDY, Immediate), Immediate, 2)
    case 0xA1 => Row(Read(LDA, IndexedIndirect), IndexedIndirect, 6)
    case 0xA2 => Row(Read(LDX, Immediate), Immediate, 2)
    case 0xA4 => Row(Read(LDY, ZeroPage), ZeroPage, 3)
    case 0xA5 => Row(Read(LDA, ZeroPage), ZeroPage, 3)
    case 0xA6 => Row(Read(LDX, ZeroPage), ZeroPage, 3)
    case 0xA8 => Row(Implied(TAY), Implicit, 2)
    case 0xA9 => Row(Read(LDA, Immediate), Immediate, 2)
    case 0xAA => Row(Implied(TAX), Implicit, 2)
    case 0xAC => Row(Read(LDY, Absolute), Absolute, 4)
    case 0xAD => Row(Read(LDA, Absolute), Absolute, 4)
    case 0xAE => Row(Read(LDX, Absolute), Absolute, 4)
    case 0xB0 => Row(Branch(BCS), Relative, 2)
    case 0xB1 => Row(Read(LDA, IndirectIndexed), IndirectIndexed, 5)
    case 0xB4 => Row(Read(LDY, ZeroPageX), ZeroPageX, 4)
    case 0xB5 => Row(Read(LDA, ZeroPageX), ZeroPageX, 4)
    case 0xB6 => Row(Read(LDX, ZeroPageY), ZeroPageY, 4)
    case 0xB8 => Row(Implied(CLV), Implicit, 2)
    case 0xB9 => Row(Read(LDA, AbsoluteY), AbsoluteY, 4)
    case 0xBA => Row(Implied(TSX), Implicit, 2)
    case 0xBC => Row(Read(LDY, AbsoluteX), AbsoluteX, 4)
    case 0xBD => Row(Read(LDA, AbsoluteX), AbsoluteX, 4)
    case 0xBE => Row(Read(LDX, AbsoluteY), AbsoluteY, 4)
    case _ => ILLEGAL_ROW
  }

  function RowsC0(opcode: byte): Row {
    match opcode
    case 0xC0 => Row(Read(CPY, Immediate), Immediate, 2)
    case 0xC1 => Row(Read(CMP, IndexedIndirect), IndexedIndirect, 6)
    case 0xC4 => Row(Read(CPY, ZeroPage), ZeroPage, 3)
    case 0xC5 => Row(Read(CMP, ZeroPage), ZeroPage, 3)
    case 0xC6 => Row(Rmw(DEC, ZeroPage), ZeroPage, 5)
    case 0xC8 => Row(Implied(INY), Implicit, 2)
    case 0xC9 => Row(Read(CMP, Immediate), Immediate, 2)
    case 0xCA => Row(Implied(DEX), Implicit, 2)
    case 0xCC => Row(Read(CPY, Absolute), Absolute, 4)
    case 0xCD => Row(Read(CMP, Absolute), Absolute, 4)
    case 0xCE => Row(Rmw(DEC, Absolute), Absolute, 6)
    case 0xD0 => Row(Branch(BNE), Relative, 2)
    case 0xD1 => Row(Read(CMP, IndirectIndexed), IndirectIndexed, 5)
    case 0xD5 => Row(Read(CMP, ZeroPageX), ZeroPageX, 4)
    case 0xD6 => Row(Rmw(DEC, ZeroPageX), ZeroPageX, 6)
    case 0xD8 => Row(Implied(CLD), Implicit, 2)
    case 0xD9 => Row(Read(CMP, AbsoluteY), AbsoluteY, 4)
    case 0xDD => Row(Read(CMP, AbsoluteX), AbsoluteX, 4)
    case 0xDE => Row(Rmw(DEC, AbsoluteX), AbsoluteX, 7)
    case _ => ILLEGAL_ROW
  }

  function RowsE0(opcode: byte): Row {
    match opcode
    case 0xE0 => Row(Read(CPX, Immediate), Immediate, 2)
    case 0xE1 => Row(Read(SBC, IndexedIndirect), IndexedIndirect, 6)
    case 0xE4 => Row(Read(CPX, ZeroPage), ZeroPage, 3)
    case 0xE5 => Row(Read(SBC, ZeroPage), ZeroPage, 3)
    case 0xE6 => Row(Rmw(INC, ZeroPage), ZeroPage, 5)
    case 0xE8 => Row(Implied(INX), Implicit, 2)
    case 0xE9 => Row(Read(SBC, Immediate), Immediate, 2)
    case 0xEA => Row(Implied(NOP), Implicit, 2)
    case 0xEC => Row(Read(CPX, Absolute), Absolute, 4)
    case 0xED => Row(Read(SBC, Absolute), Absolute, 4)
    case 0xEE => Row(Rmw(INC, Absolute), Absolute, 6)
    case 0xF0 => Row(Branch(BEQ), Relative, 2)
    case 0xF1 => Row(Read(SBC, IndirectIndexed), IndirectIndexed, 5)
    case 0xF5 => Row(Read(SBC, ZeroPageX), ZeroPageX, 4)
    case 0xF6 => Row(Rmw(INC, ZeroPageX), ZeroPageX, 6)
    case 0xF8 => Row(Implied(SED), Implicit, 2)
    case 0xF9 => Row(Read(SBC, AbsoluteY), AbsoluteY, 4)
    case 0xFD => Row(Read(SBC, AbsoluteX), AbsoluteX, 4)
    case 0xFE => Row(Rmw(INC, AbsoluteX), AbsoluteX, 7)
    case _ => ILLEGAL_ROW
  }

  /** The opcode table. The 105 bytes without a line are illegal. */
  function Table(opcode: byte): Row {
    if opcode < 0x20 then Rows00(opcode)
    else if opcode < 0x40 then Rows20(opcode)
    else if opcode < 0x60 then Rows40(opcode)
    else if opcode < 0x80 then Rows60(opcode)
    else if opcode < 0xA0 then Rows80(opcode)
    else if opcode < 0xC0 then RowsA0(opcode)
    else if opcode < 0xE0 then RowsC0(opcode)
    else RowsE0(opcode)
  }

  /** Only reads take an immediate operand, and only shifts and rotates act on the accumulator. */
  predicate Documented(inst: Inst) {
    && (inst.Store? ==> !inst.mode.Immediate?)
    && (inst.Rmw? ==> !inst.mode.Immediate?)
    && (inst.Shift? ==> !(inst.shift.INC? || inst.shift.DEC?))
  }

  lemma {:induction false} TableDocumented(opcode: byte)
    ensures Documented(Table(opcode).inst)
  {
  }

  function ModeBytes(mode: AddressingMode): nat {
    match mode
    case Implicit | Accumulator => 1
    case Immediate | ZeroPage | ZeroPageX | ZeroPageY | Relative | IndexedIndirect | IndirectIndexed => 2
    case Absolute | AbsoluteX | AbsoluteY | Indirect => 3
  }

  // Effective addresses. PC stands just past the opcode byte.

  function Word16<M>(io: Memory<M>, m: M, at: word, next: word): word { Word(Peek(io, m, at), Peek(io, m, next)) }

  /** The address before the final index is added. */
  function Base<M>(io: Memory<M>, m: M, r: Regs, mode: Operand): word {
    match mode
    case Immediate => r.pc
    case ZeroPage | ZeroPageX | ZeroPageY => Peek(io, m, r.pc)
    case Absolute | AbsoluteX | AbsoluteY => Word16(io, m, r.pc, Next(r.pc))
    case IndexedIndirect =>
      var at := Add8(Peek(io, m, r.pc), r.x);
      Word16(io, m, at, Inc8(at))
    case IndirectIndexed =>
      var at := Peek(io, m, r.pc);
      Word16(io, m, at, Inc8(at))
  }

  /** The one address the operand of an instruction lives at. */
  function Ea<M>(io: Memory<M>, m: M, r: Regs, mode: Operand): word {
    var base := Base(io, m, r, mode);
    match mode
    case Immediate | ZeroPage | Absolute | IndexedIndirect => base
    case ZeroPageX => Add8(Lo(base), r.x)
    case ZeroPageY => Add8(Lo(base), r.y)
    case AbsoluteX => Add16(base, r.x)
    case AbsoluteY | IndirectIndexed => Add16(base, r.y)
  }

  predicate Indexed(mode: Operand) { mode.AbsoluteX? || mode.AbsoluteY? || mode.IndirectIndexed? }

  predicate Crosses(base: word, ea: word) { Hi(base) != Hi(ea) }

  function PastOperand(r: Regs, mode: AddressingMode): Regs {
    r.(pc := Add16(r.pc, ModeBytes(mode) - 1))
  }

  /** The dummy read of an indexed access whose high byte has not been carried into yet. */
  function FixUp(base: word, ea: word, always: bool): seq<Act> {
    if always || Crosses(base, ea) then [R(Word(Lo(ea), Hi(base)))] else []
  }

  /** The bus cycles that find an operand address; `always` is set for stores and read-modify-writes. */
  function EaActs<M>(io: Memory<M>, m: M, r: Regs, mode: Operand, always: bool): seq<Act> {
    var base := Base(io, m, r, mode);
    var ea := Ea(io, m, r, mode);
    match mode
    case Immediate => []
    case ZeroPage => [R(r.pc)]
    case ZeroPageX | ZeroPageY => [R(r.pc), R(base)]
    case Absolute => [R(r.pc), R(Next(r.pc))]
    case AbsoluteX | AbsoluteY => [R(r.pc), R(Next(r.pc))] + FixUp(base, ea, always)
    case IndexedIndirect =>
      var at := Peek(io, m, r.pc);
      [R(r.pc), R(at), R(Add8(at, r.x)), R(Inc8(Add8(at, r.x)))]
    case IndirectIndexed =>
      var at := Peek(io, m, r.pc);
      [R(r.pc), R(at), R(Inc8(at))] + FixUp(base, ea, always)
  }

  // Instructions.

  function Loaded(op: ReadOp, r: Regs, v: byte): Regs {
    match op
    case LDA => r.(a := v, p := SetNZ(r.p, v))
    case LDX => r.(x := v, p := SetNZ(r.p, v))
    case LDY => r.(y := v, p := SetNZ(r.p, v))
    case AND => r.(a := And(r.a, v), p := SetNZ(r.p, And(r.a, v)))
    case ORA => r.(a := Or(r.a, v), p := SetNZ(r.p, Or(r.a, v)))
    case EOR => r.(a := Xor(r.a, v), p := SetNZ(r.p, Xor(r.a, v)))
    case BIT => r.(p := r.p.(z := And(r.a, v) == 0, v := v / 0x40 % 2 == 1, n := Negative(v)))
    case CMP => r.(p := Compared(r.p, r.a, v))
    case CPX => r.(p := Compared(r.p, r.x, v))
    case CPY => r.(p := Compared(r.p, r.y, v))
    case ADC => Adc(r, v)
    case SBC => Sbc(r, v)
  }

  function StoredReg(op: StoreOp, r: Regs): byte {
    match op
    case STA => r.a
    case STX => r.x
    case STY => r.y
  }

  function ImpliedRegs(op: ImpliedOp, r: Regs): Regs {
    match op
    case TAX => r.(x := r.a, p := SetNZ(r.p, r.a))
    case TAY => r.(y := r.a, p := SetNZ(r.p, r.a))
    case TSX => r.(x := r.sp, p := SetNZ(r.p, r.sp))
    case TXA => r.(a := r.x, p := SetNZ(r.p, r.x))
    case TXS => r.(sp := r.x)
    case TYA => r.(a := r.y, p := SetNZ(r.p, r.y))
    case CLC => r.(p := r.p.(c := false))
    case SEC => r.(p := r.p.(c := true))
    case CLD => r.(p := r.p.(d := false))
    case SED => r.(p := r.p.(d := true))
    case CLI => r.(p := r.p.(i := false))
    case SEI => r.(p := r.p.(i := true))
    case CLV => r.(p := r.p.(v := false))
    case NOP => r
    case INX => var v := Inc8(r.x); r.(x := v, p := SetNZ(r.p, v))
    case INY => var v := Inc8(r.y); r.(y := v, p := SetNZ(r.p, v))
    case DEX => var v := Dec8(r.x); r.(x := v, p := SetNZ(r.p, v))
    case DEY => var v := Dec8(r.y); r.(y := v, p := SetNZ(r.p, v))
  }

  predicate Taken(op: BranchOp, p: Flags) {
    match op
    case BCC => !p.c
    case BCS => p.c
    case BEQ => p.z
    case BNE => !p.z
    case BMI => p.n
    case BPL => !p.n
    case BVC => !p.v
    case BVS => p.v
  }

  /** Where a taken branch goes: a signed offset from the byte after the branch. */
  function BranchTarget(pc: word, offset: byte): word { (pc + 1 + Signed(offset)) % 0x1_0000 }

  lemma {:induction false} BranchFromNext(pc: word, offset: byte)
    ensures (Next(pc) + Signed(offset)) % 0x1_0000 == BranchTarget(pc, offset)
  {
    assert pc == 0xFFFF ==> (pc + 1 + Signed(offset)) % 0x1_0000 == Signed(offset) % 0x1_0000;
  }

  /** The stack is page 1; SP wraps within it. */
  function Stack(sp: byte): word { 0x100 + sp }

  /** The stack pointer after `k` pushes. */
  function Down(sp: byte, k: byte): byte { if sp >= k then sp - k else sp + 0x100 - k }

  /** The stack pointer after `k` pulls. */
  function Up(sp: byte, k: byte): byte { if sp + k < 0x100 then sp + k else sp + k - 0x100 }

  lemma {:induction false} UpFromOne(sp: byte)
    ensures Up(Up(sp, 1), 1) == Up(sp, 2) && Up(Up(sp, 1), 2) == Up(sp, 3)
  {
  }

  function JumpPointer(at: word): word { Word(Inc8(Lo(at)), Hi(at)) }

  /** What PLP and RTI make of a pulled byte: B does not exist in the live register and U reads as set. */
  function Pulled(v: byte): Flags { FromByte(v).(b := false, u := true) }

  /** The memory after the two pushes of a return address. */
  function PushedPc<M>(io: Memory<M>, m: M, sp: byte, pc: word): M {
    Poke(io, Poke(io, m, Stack(sp), Hi(pc)), Stack(Down(sp, 1)), Lo(pc))
  }

  /** The registers an instruction leaves. PC stands just past the opcode byte; BRK is an interrupt entry. */
  function RegsAfter<M>(io: Memory<M>, r: Regs, m: M, inst: Inst): Regs
    requires !inst.Brk?
  {
    match inst
    case Read(op, mode) => Loaded(op, PastOperand(r, mode), Peek(io, m, Ea(io, m, r, mode)))
    case Store(op, mode) => PastOperand(r, mode)
    case Rmw(op, mode) =>
      var r' := PastOperand(r, mode);
      r'.(p := ShiftFlags(op, r.p, Peek(io, m, Ea(io, m, r, mode))))
    case Shift(op) => r.(a := Shifted(op, r.p.c, r.a), p := ShiftFlags(op, r.p, r.a))
    case Implied(op) => ImpliedRegs(op, r)
    case Branch(op) => r.(pc := if Taken(op, r.p) then BranchTarget(r.pc, Peek(io, m, r.pc)) else Next(r.pc))
    case Pha | Php => r.(sp := Down(r.sp, 1))
    case Pla =>
      var v := Peek(io, m, Stack(Up(r.sp, 1)));
      r.(sp := Up(r.sp, 1), a := v, p := SetNZ(r.p, v))
    case Plp => r.(sp := Up(r.sp, 1), p := Pulled(Peek(io, m, Stack(Up(r.sp, 1)))))
    case JmpAbs => r.(pc := Word16(io, m, r.pc, Next(r.pc)))
    case JmpInd =>
      var at := Word16(io, m, r.pc, Next(r.pc));
      r.(pc := Word16(io, m, at, JumpPointer(at)))
    case Jsr =>
      var high := Peek(io, PushedPc(io, m, r.sp, Next(r.pc)), Next(r.pc));
      r.(sp := Down(r.sp, 2), pc := Word(Peek(io, m, r.pc), high))
    case Rts => r.(sp := Up(r.sp, 2), pc := Next(Word16(io, m, Stack(Up(r.sp, 1)), Stack(Up(r.sp, 2)))))
    case Rti =>
      r.(sp := Up(r.sp, 3), p := Pulled(Peek(io, m, Stack(Up(r.sp, 1)))),
                   pc := Word16(io, m, Stack(Up(r.sp, 2)), Stack(Up(r.sp, 3))))
    case Illegal => r
  }

  /** The bus cycles an instruction spends after its opcode fetch. */
  function InstActs<M>(io: Memory<M>, r: Regs, m: M, inst: Inst): seq<Act>
    requires !inst.Brk?
  {
    match inst
    case Read(op, mode) => EaActs(io, m, r, mode, false) + [R(Ea(io, m, r, mode))]
    case Store(op, mode) => EaActs(io, m, r, mode, true) + [W(Ea(io, m, r, mode), StoredReg(op, r))]
    case Rmw(op, mode) =>
      var ea := Ea(io, m, r, mode);
      var v := Peek(io, m, ea);
      EaActs(io, m, r, mode, true) + [R(ea), W(ea, v), W(ea, Shifted(op, r.p.c, v))]
    case Shift(_) => [R(r.pc)]
    case Implied(_) => [R(r.pc)]
    case Branch(op) =>
      var next := Next(r.pc);
      var target := BranchTarget(r.pc, Peek(io, m, r.pc));
      if !Taken(op, r.p) then [R(r.pc)]
      else [R(r.pc), R(next)] + FixUp(next, target, false)
    case Pha => [R(r.pc), W(Stack(r.sp), r.a)]
    case Php => [R(r.pc), W(Stack(r.sp), ToByte(r.p.(b := true, u := true)))]
    case Pla => [R(r.pc), R(Stack(r.sp)), R(Stack(Up(r.sp, 1)))]
    case Plp => [R(r.pc), R(Stack(r.sp)), R(Stack(Up(r.sp, 1)))]
    case JmpAbs => [R(r.pc), R(Next(r.pc))]
    case JmpInd =>
      var at := Word16(io, m, r.pc, Next(r.pc));
      [R(r.pc), R(Next(r.pc)), R(at), R(JumpPointer(at))]
    case Jsr =>
      var back := Next(r.pc);
      [R(r.pc), R(Stack(r.sp)), W(Stack(r.sp), Hi(back)), W(Stack(Down(r.sp, 1)), Lo(back)), R(back)]
    case Rts =>
      [R(r.pc), R(Stack(r.sp)), R(Stack(Up(r.sp, 1))), R(Stack(Up(r.sp, 2))),
       R(Word16(io, m, Stack(Up(r.sp, 1)), Stack(Up(r.sp, 2))))]
    case Rti => [R(r.pc), R(Stack(r.sp)), R(Stack(Up(r.sp, 1))), R(Stack(Up(r.sp, 2))), R(Stack(Up(r.sp, 3)))]
    case Illegal => [Trap(Previous(r.pc), Peek(io, m, Previous(r.pc))), R(r.pc)]
  }

  // Interrupt entry and the step.

  datatype Cause = IrqCause | NmiCause | ResetCause | BrkCause

  const NMI_VECTOR: word := 0xFFFA
  const RESET_VECTOR: word := 0xFFFC
  const IRQ_VECTOR: word := 0xFFFE

  /** The pushed copy of P: U set, and B set for BRK only. */
  function PushedP(p: Flags, cause: Cause): byte {
    ToByte(p.(u := true, b := p.b || cause.BrkCause?))
  }

  /** Cycles 1 to 5 of an entry (3 to 5 for BRK): RESET reads where the others push. */
  function EntryActs(r: Regs, cause: Cause): seq<Act> {
    match cause
    case ResetCause => [R(r.pc), R(r.pc), R(Stack(r.sp)), R(Stack(Down(r.sp, 1))), R(Stack(Down(r.sp, 2)))]
    case BrkCause =>
      [W(Stack(r.sp), Hi(r.pc)), W(Stack(Down(r.sp, 1)), Lo(r.pc)), W(Stack(Down(r.sp, 2)), PushedP(r.p, cause))]
    case _ =>
      [R(r.pc), R(r.pc),
       W(Stack(r.sp), Hi(r.pc)), W(Stack(Down(r.sp, 1)), Lo(r.pc)), W(Stack(Down(r.sp, 2)), PushedP(r.p, cause))]
  }

  /** An NMI that is pending when the vector is chosen takes over an IRQ or a BRK. */
  predicate Hijacked(cause: Cause, atDecision: Lines) { (cause.IrqCause? || cause.BrkCause?) && atDecision.nmi }

  function Vector(cause: Cause, atDecision: Lines): word {
    match cause
    case NmiCause => NMI_VECTOR
    case ResetCause => RESET_VECTOR
    case _ => if atDecision.nmi then NMI_VECTOR else IRQ_VECTOR
  }

  function VectorTarget<M>(io: Memory<M>, m: M, v: word): word { Word16(io, m, v, Next(v)) }

  /** The vector fetch, and the latch it clears. */
  function VectorActs(cause: Cause, atDecision: Lines): seq<Act> {
    var v := Vector(cause, atDecision);
    match cause
    case NmiCause => [R(v), R(v + 1), TakeNmi]
    case ResetCause => [R(v), R(v + 1), EndReset]
    case _ => if atDecision.nmi then [TakeNmi, R(v), R(v + 1)] else [R(v), R(v + 1)]
  }

  /** The registers and the bus of the processor. */
  datatype Core<M> = Core(r: Regs, bus: Bus<M>)

  function Entry<M>(io: Memory<M>, env: Env, s: Core<M>, cause: Cause): Core<M> {
    var mid := Drive(io, env, s.bus, EntryActs(s.r, cause));
    var v := Vector(cause, mid.lines);
    Core(s.r.(sp := Down(s.r.sp, 3), p := s.r.p.(i := true, u := true), pc := VectorTarget(io, mid.mem, v)),
         Drive(io, env, mid, VectorActs(cause, mid.lines)))
  }

  /** What a ready step does first. */
  datatype Plan = Interrupt(cause: Cause) | Execute(inst: Inst)

  function PlanOf<M>(io: Memory<M>, s: Core<M>): Plan {
    if s.bus.lines.reset then Interrupt(ResetCause)
    else if s.bus.lines.nmi then Interrupt(NmiCause)
    else if s.bus.lines.irq && !s.r.p.i then Interrupt(IrqCause)
    else Execute(Table(Peek(io, s.bus.mem, s.r.pc)).inst)
  }

  function Fetched(r: Regs): Regs { r.(pc := Next(r.pc)) }

  function Executed<M>(io: Memory<M>, env: Env, s: Core<M>, inst: Inst): Core<M> {
    var r := Fetched(s.r);
    if inst.Brk? then
      Entry(io, env, Core(Fetched(r), Drive(io, env, s.bus, [R(s.r.pc), R(r.pc)])), BrkCause)
    else
      Core(RegsAfter(io, r, s.bus.mem, inst), Drive(io, env, s.bus, [R(s.r.pc)] + InstActs(io, r, s.bus.mem, inst)))
  }

  /** One step: an interrupt entry or one instruction; nothing while RDY is low. */
  function Step<M>(io: Memory<M>, env: Env, s: Core<M>): Core<M> {
    if !s.bus.lines.rdy then s
    else
      match PlanOf(io, s)
      case Interrupt(cause) => Entry(io, env, s, cause)
      case Execute(inst) => Executed(io, env, s, inst)
  }
}
