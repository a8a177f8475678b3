/** The disassembler: what it prints, and that nothing is lost in it. */
module Disassembler {
  import opened Bits
  import opened Status
  import opened Bus
  import opened Alu
  import opened Isa
  import opened Timing
  import opened MappedMemory
  import OpcodeFields

  function Mnemonic(inst: Inst): (s: string)
    ensures |s| == 3
  {
    match inst
    case Read(op, _) => ReadName(op)
    case Store(op, _) => StoreName(op)
    case Rmw(op, _) => RmwName(op)
    case Shift(op) => RmwName(op)
    case Implied(op) => ImpliedName(op)
    case Branch(op) => BranchName(op)
    case Pha => "PHA" case Php => "PHP" case Pla => "PLA" case Plp => "PLP"
    case JmpAbs => "JMP" case JmpInd => "JMP" case Jsr => "JSR" case Rts => "RTS"
    case Brk => "BRK" case Rti => "RTI" case Illegal => "???"
  }

  function ReadName(op: ReadOp): (s: string)
    ensures |s| == 3
  {
    match op
    case LDA => "LDA" case LDX => "LDX" case LDY => "LDY" case AND => "AND"
    case ORA => "ORA" case EOR => "EOR" case BIT => "BIT" case CMP => "CMP"
    case CPX => "CPX" case CPY => "CPY" case ADC => "ADC" case SBC => "SBC"
  }

  function StoreName(op: StoreOp): (s: string)
    ensures |s| == 3
  {
    match op
    case STA => "STA" case STX => "STX" case STY => "STY"
  }

  function RmwName(op: RmwOp): (s: string)
    ensures |s| == 3
  {
    match op
    case ASL => "ASL" case LSR => "LSR" case ROL => "ROL" case ROR => "ROR"
    case INC => "INC" case DEC => "DEC"
  }

  function ImpliedName(op: ImpliedOp): (s: string)
    ensures |s| == 3
  {
    match op
    case TAX => "TAX" case TAY => "TAY" case TSX => "TSX" case TXA => "TXA"
    case TXS => "TXS" case TYA => "TYA" case CLC => "CLC" case SEC => "SEC"
    case CLD => "CLD" case SED => "SED" case CLI => "CLI" case SEI => "SEI"
    case CLV => "CLV" case NOP => "NOP" case INX => "INX" case INY => "INY"
    case DEX => "DEX" case DEY => "DEY"
  }

  function BranchName(op: BranchOp): (s: string)
    ensures |s| == 3
  {
    match op
    case BCC => "BCC" case BCS => "BCS" case BEQ => "BEQ" case BNE => "BNE"
    case BMI => "BMI" case BPL => "BPL" case BVC => "BVC" case BVS => "BVS"
  }

  const DIGITS: string := "0123456789ABCDEF"

  function Hex2(v: byte): (s: string)
    ensures |s| == 2
  {
    [DIGITS[v / 16], DIGITS[v % 16]]
  }

  function Hex4(w: word): (s: string)
    ensures |s| == 4
  {
    Hex2(Hi(w)) + Hex2(Lo(w))
  }

  /** The address a branch at `pc` is printed with. */
  function PrintedTarget(pc: word, offset: byte): word { (pc + 2 + Signed(offset)) % 0x1_0000 }

  /** The operand as it is printed after the mnemonic. */
  function OperandText(mode: AddressingMode, pc: word, low: byte, high: byte): string {
    match mode
    case Implicit => ""
    case Accumulator => " A"
    case Immediate => " #$" + Hex2(low)
    case ZeroPage => " $" + Hex2(low)
    case ZeroPageX => " $" + Hex2(low) + ",X"
    case ZeroPageY => " $" + Hex2(low) + ",Y"
    case Relative => " $" + Hex4(PrintedTarget(pc, low))
    case Absolute => " $" + Hex4(Word(low, high))
    case AbsoluteX => " $" + Hex4(Word(low, high)) + ",X"
    case AbsoluteY => " $" + Hex4(Word(low, high)) + ",Y"
    case Indirect => " ($" + Hex4(Word(low, high)) + ")"
    case IndexedIndirect => " ($" + Hex2(low) + ",X)"
    case IndirectIndexed => " ($" + Hex2(low) + "),Y"
  }

  function Text(opcode: byte, pc: word, low: byte, high: byte): string {
    Mnemonic(Table(opcode).inst) + OperandText(Table(opcode).mode, pc, low, high)
  }

  // The program that prints it.

  class Builder {
    var text: string

    constructor ()
      ensures text == ""
    {
      text := "";
    }

    method WriteString(s: string)
      modifies this
      ensures text == old(text) + s
    {
      text := text + s;
    }

    method WriteByte(c: char)
      modifies this
      ensures text == old(text) + [c]
    {
      text := text + [c];
    }
  }

  method AppendHex2(b: Builder, v: byte)
    modifies b
    ensures b.text == old(b.text) + Hex2(v)
  {
    b.WriteByte(DIGITS[v / 16]);
    b.WriteByte(DIGITS[v % 16]);
    assert b.text == old(b.text) + Hex2(v);
  }

  lemma {:induction false} NibblesOfWord(w: word)
    ensures w / 0x1000 == Hi(w) / 16 && w / 0x100 % 16 == Hi(w) % 16 && w / 0x10 % 16 == Lo(w) / 16
      && w % 16 == Lo(w) % 16
  {
    assert w == 0x100 * Hi(w) + Lo(w);
    var l := Lo(w);
    assert w / 0x10 == 16 * Hi(w) + l / 16;
  }

  method AppendHex4(b: Builder, w: word)
    modifies b
    ensures b.text == old(b.text) + Hex4(w)
  {
    NibblesOfWord(w);
    b.WriteByte(DIGITS[w / 0x1000]);
    b.WriteByte(DIGITS[w / 0x100 % 16]);
    b.WriteByte(DIGITS[w / 0x10 % 16]);
    b.WriteByte(DIGITS[w % 16]);
    assert b.text == old(b.text) + Hex4(w);
  }

  function ZpSuffix(mode: AddressingMode): string {
    match mode
    case ZeroPageX => ",X"
    case ZeroPageY => ",Y"
    case _ => ""
  }

  function AbsPrefix(mode: AddressingMode): string { if mode.Indirect? then " ($" else " $" }

  function AbsSuffix(mode: AddressingMode): string {
    match mode
    case AbsoluteX => ",X"
    case AbsoluteY => ",Y"
    case Indirect => ")"
    case _ => ""
  }

  method AppendWrapped2(b: Builder, prefix: string, v: byte, suffix: string)
    modifies b
    ensures b.text == old(b.text) + (prefix + Hex2(v) + suffix)
  {
    b.WriteString(prefix);
    AppendHex2(b, v);
    b.WriteString(suffix);
    assert b.text == old(b.text) + (prefix + Hex2(v) + suffix);
  }

  method AppendWrapped4(b: Builder, prefix: string, w: word, suffix: string)
    modifies b
    ensures b.text == old(b.text) + (prefix + Hex4(w) + suffix)
  {
    b.WriteString(prefix);
    AppendHex4(b, w);
    b.WriteString(suffix);
    assert b.text == old(b.text) + (prefix + Hex4(w) + suffix);
  }

  /** What `n` reads from an address on report to the unmapped-access hook. */
  function Reported<M>(io: Memory<M>, m: M, at: word, n: nat): seq<HookCall>
    decreases n
  {
    if n == 0 then [] else Seen(io, m, at, false, Peek(io, m, at)) + Reported(io, m, Next(at), n - 1)
  }

  lemma {:induction false} ReportedMore<M>(io: Memory<M>, m: M, at: word, n: nat)
    ensures Reported(io, m, at, n + 1) == Reported(io, m, at, 1) + Reported(io, m, Next(at), n)
  {
    assert Reported(io, m, Next(at), 0) == [];
    assert Reported(io, m, at, 1) == Seen(io, m, at, false, Peek(io, m, at));
  }

  method ReadByte(mem: MemoryMap, at: word) returns (v: byte)
    requires mem.Valid()
    modifies mem`hookCalls
    ensures mem.Valid() && mem.contents == old(mem.contents)
    ensures v == Peek(mem.io, mem.contents, at)
    ensures mem.hookCalls == old(mem.hookCalls) + Reported(mem.io, mem.contents, at, 1)
  {
    v := mem.Read(at);
    assert Reported(mem.io, mem.contents, Next(at), 0) == [];
  }

  /** The operands that show one byte, and the branches. */
  method AppendByteOperand(b: Builder, mode: AddressingMode, pc: word, low: byte, ghost high: byte)
    requires ModeBytes(mode) == 2
    modifies b
    ensures b.text == old(b.text) + OperandText(mode, pc, low, high)
  {
    hide Hex2, Hex4, PrintedTarget;
    match mode {
      case Immediate =>
        AppendWrapped2(b, " #$", low, "");
        assert " #$" + Hex2(low) + "" == " #$" + Hex2(low);
      case ZeroPage | ZeroPageX | ZeroPageY =>
        AppendWrapped2(b, " $", low, ZpSuffix(mode));
        assert " $" + Hex2(low) + "" == " $" + Hex2(low);
      case Relative =>
        AppendWrapped4(b, " $", PrintedTarget(pc, low), "");
        assert " $" + Hex4(PrintedTarget(pc, low)) + "" == " $" + Hex4(PrintedTarget(pc, low));
      case IndexedIndirect => AppendWrapped2(b, " ($", low, ",X)");
      case IndirectIndexed => AppendWrapped2(b, " ($", low, "),Y");
    }
  }

  /** The operands that show an address of two bytes. */
  method AppendWordOperand(b: Builder, mode: AddressingMode, ghost pc: word, low: byte, high: byte)
    requires ModeBytes(mode) == 3
    modifies b
    ensures b.text == old(b.text) + OperandText(mode, pc, low, high)
  {
    hide Hex4;
    AppendWrapped4(b, AbsPrefix(mode), Word(low, high), AbsSuffix(mode));
    assert " $" + Hex4(Word(low, high)) + "" == " $" + Hex4(Word(low, high));
  }

  /** The bytes after the opcode are read as far as the mode needs them, through the memory's own read. */
  method AppendOperand(b: Builder, mem: MemoryMap, pc: word, mode: AddressingMode)
    requires mem.Valid() && b !in mem.repr
    modifies b, mem`hookCalls
    ensures mem.Valid() && mem.contents == old(mem.contents)
    ensures mem.hookCalls == old(mem.hookCalls) + Reported(mem.io, mem.contents, Next(pc), ModeBytes(mode) - 1)
    ensures b.text == old(b.text)
      + OperandText(mode, pc, Peek(mem.io, mem.contents, Next(pc)), Peek(mem.io, mem.contents, Next(Next(pc))))
  {
    if ModeBytes(mode) > 1 {
      AppendOperandBytes(b, mem, pc, mode);
      return;
    }
    assert Reported(mem.io, mem.contents, Next(pc), 0) == [];
    hide Reported, Peek;
    if mode.Accumulator? {
      b.WriteString(" A");
    }
    assert b.text == old(b.text) + OperandText(mode, pc, 0, 0);
  }

  method AppendOperandBytes(b: Builder, mem: MemoryMap, pc: word, mode: AddressingMode)
    requires ModeBytes(mode) > 1
    requires mem.Valid() && b !in mem.repr
    modifies b, mem`hookCalls
    ensures mem.Valid() && mem.contents == old(mem.contents)
    ensures mem.hookCalls == old(mem.hookCalls) + Reported(mem.io, mem.contents, Next(pc), ModeBytes(mode) - 1)
    ensures b.text == old(b.text)
      + OperandText(mode, pc, Peek(mem.io, mem.contents, Next(pc)), Peek(mem.io, mem.contents, Next(Next(pc))))
  {
    hide Reported, OperandText, Peek;
    var low := ReadByte(mem, Next(pc));
    ghost var second := Peek(mem.io, mem.contents, Next(Next(pc)));
    if ModeBytes(mode) == 2 {
      AppendByteOperand(b, mode, pc, low, second);
    } else {
      var high := ReadByte(mem, Next(Next(pc)));
      ReportedMore(mem.io, mem.contents, Next(pc), 1);
      AppendWordOperand(b, mode, pc, low, high);
    }
  }

  /** The text and the length of the instruction at `pc`. */
  method Disassemble(mem: MemoryMap, pc: word) returns (text: string, length: nat)
    requires mem.Valid()
    modifies mem`hookCalls
    ensures mem.Valid() && mem.contents == old(mem.contents)
    ensures mem.hookCalls == old(mem.hookCalls) + Reported(mem.io, mem.contents, pc, length)
    ensures text
      == Text(Peek(mem.io, mem.contents, pc), pc, Peek(mem.io, mem.contents, Next(pc)),
        Peek(mem.io, mem.contents, Next(Next(pc))))
    ensures length == ModeBytes(Table(Peek(mem.io, mem.contents, pc)).mode)
  {
    hide Reported, OperandText, Mnemonic, Table;
    var op := ReadByte(mem, pc);
    var row := Table(op);
    var b := new Builder();
    b.WriteString(Mnemonic(row.inst));
    assert b.text == Mnemonic(row.inst);
    AppendOperand(b, mem, pc, row.mode);
    text, length := b.text, ModeBytes(row.mode);
    ReportedMore(mem.io, mem.contents, pc, length - 1);
  }

  // Agreement with the processor.

  predicate Diverts(inst: Inst) {
    inst.Branch? || inst.JmpAbs? || inst.JmpInd? || inst.Jsr? || inst.Rts? || inst.Brk? || inst.Rti?
  }

  /** The printed length is how far PC moves, for every byte that is not a change of control. */
  lemma {:induction false} LengthIsAdvance<M>(io: Memory<M>, r: Regs, m: M, opcode: byte)
    requires !Diverts(Table(opcode).inst)
    ensures var row := Table(opcode);
            RegsAfter(io, Fetched(r), m, row.inst).pc == Add16(r.pc, ModeBytes(row.mode))
  {
    hide Table, Ea, Loaded, ImpliedRegs, Shifted, ShiftFlags, FromByte;
    TableAgrees(opcode);
    var inst := Table(opcode).inst;
    match inst
    case Read(op, mode) => LoadedPc(op, PastOperand(Fetched(r), mode), Peek(io, m, Ea(io, m, Fetched(r), mode)));
    case Implied(op) => ImpliedPc(op, Fetched(r));
    case _ =>
  }

  lemma {:induction false} LoadedPc(op: ReadOp, r: Regs, v: byte)
    ensures Loaded(op, r, v).pc == r.pc
  {
    hide Gated;
  }

  lemma {:induction false} ImpliedPc(op: ImpliedOp, r: Regs)
    ensures ImpliedRegs(op, r).pc == r.pc
  {
  }

  /** A branch is printed with the address it goes to when taken, around the ends of the address space too. */
  lemma {:induction false} TargetIsReached<M>(io: Memory<M>, r: Regs, m: M, op: BranchOp)
    requires Taken(op, r.p)
    ensures RegsAfter(io, Fetched(r), m, Branch(op)).pc == PrintedTarget(r.pc, Peek(io, m, Next(r.pc)))
  {
    var o := Peek(io, m, Next(r.pc));
    BranchFromNext(r.pc, o);
    assert r.pc == 0xFFFF ==> (r.pc + 2 + Signed(o)) % 0x1_0000 == (1 + Signed(o)) % 0x1_0000;
  }

  // Nothing is lost.

  function DigitValue(c: char): int {
    var k := c as int;
    if k < 58 then k - 48 else k - 55
  }

  lemma {:induction false} DigitReads(d: nat)
    requires d < 16
    ensures DigitValue(DIGITS[d]) == d && DIGITS[d] != ',' && DIGITS[d] != ')'
  {
  }

  lemma {:induction false} Hex2Injective(v: byte, w: byte)
    requires Hex2(v) == Hex2(w)
    ensures v == w
  {
    hide DIGITS, DigitValue;
    DigitReads(v / 16);
    DigitReads(w / 16);
    DigitReads(v % 16);
    DigitReads(w % 16);
    assert Hex2(v)[0] == Hex2(w)[0] && Hex2(v)[1] == Hex2(w)[1];
  }

  lemma {:induction false} Hex4Injective(v: word, w: word)
    requires Hex4(v) == Hex4(w)
    ensures v == w
  {
    hide Hex2;
    assert Hex4(v)[..2] == Hex2(Hi(v)) && Hex4(w)[..2] == Hex2(Hi(w));
    assert Hex4(v)[2..] == Hex2(Lo(v)) && Hex4(w)[2..] == Hex2(Lo(w));
    Hex2Injective(Hi(v), Hi(w));
    Hex2Injective(Lo(v), Lo(w));
    WordSplit(v);
    WordSplit(w);
  }

  /** Branch targets and absolute addresses look alike; only the mnemonic tells them apart. */
  function Look(mode: AddressingMode): AddressingMode { if mode.Relative? then Absolute else mode }

  /** The mode, read back from the shape of the operand. */
  function LookOf(s: string): AddressingMode {
    if |s| == 0 then Implicit
    else if |s| == 2 then Accumulator
    else if |s| == 5 then Immediate
    else if |s| == 4 then ZeroPage
    else if |s| == 6 then (if s[4] != ',' then Absolute else if s[5] == 'X' then ZeroPageX else ZeroPageY)
    else if |s| == 8 then
      (if s[1] == '$' then (if s[7] == 'X' then AbsoluteX else AbsoluteY)
       else if s[5] == ',' then IndexedIndirect
       else if s[5] == ')' then IndirectIndexed
       else Indirect)
    else Implicit
  }

  lemma {:induction false} NoComma(w: word)
    ensures forall k :: 0 <= k < 4 ==> Hex4(w)[k] != ',' && Hex4(w)[k] != ')'
  {
    DigitReads(Hi(w) / 16);
    DigitReads(Hi(w) % 16);
    DigitReads(Lo(w) / 16);
    DigitReads(Lo(w) % 16);
  }

  lemma {:induction false} LookRead(mode: AddressingMode, pc: word, low: byte, high: byte)
    ensures LookOf(OperandText(mode, pc, low, high)) == Look(mode)
  {
    hide Hex4, PrintedTarget;
    NoComma(if mode.Relative? then PrintedTarget(pc, low) else Word(low, high));
  }

  /** The operand bytes a mode prints. */
  predicate SameOperand(mode: AddressingMode, low: byte, high: byte, low': byte, high': byte) {
    && (ModeBytes(mode) >= 2 ==> low == low')
    && (ModeBytes(mode) >= 3 ==> high == high')
  }

  lemma {:induction false} OperandRead(mode: AddressingMode, pc: word, low: byte, high: byte, low': byte, high': byte)
    requires OperandText(mode, pc, low, high) == OperandText(mode, pc, low', high')
    ensures SameOperand(mode, low, high, low', high')
  {
    hide Hex2, Hex4, PrintedTarget;
    var s, s' := OperandText(mode, pc, low, high), OperandText(mode, pc, low', high');
    match mode
    case Implicit | Accumulator =>
    case Immediate =>
      assert s[3..5] == Hex2(low) && s'[3..5] == Hex2(low');
      Hex2Injective(low, low');
    case ZeroPage | ZeroPageX | ZeroPageY =>
      assert s[2..4] == Hex2(low) && s'[2..4] == Hex2(low');
      Hex2Injective(low, low');
    case Relative =>
      assert s[2..6] == Hex4(PrintedTarget(pc, low)) && s'[2..6] == Hex4(PrintedTarget(pc, low'));
      Hex4Injective(PrintedTarget(pc, low), PrintedTarget(pc, low'));
      TargetInjective(pc, low, low');
    case Absolute | AbsoluteX | AbsoluteY =>
      assert s[2..6] == Hex4(Word(low, high)) && s'[2..6] == Hex4(Word(low', high'));
      Hex4Injective(Word(low, high), Word(low', high'));
    case Indirect =>
      assert s[3..7] == Hex4(Word(low, high)) && s'[3..7] == Hex4(Word(low', high'));
      Hex4Injective(Word(low, high), Word(low', high'));
    case IndexedIndirect | IndirectIndexed =>
      assert s[3..5] == Hex2(low) && s'[3..5] == Hex2(low');
      Hex2Injective(low, low');
  }

  lemma {:induction false} TargetInjective(pc: word, low: byte, low': byte)
    requires PrintedTarget(pc, low) == PrintedTarget(pc, low')
    ensures low == low'
  {
    var x, y := pc + 2 + Signed(low), pc + 2 + Signed(low');
    assert -0x100 < x - y < 0x100;
    assert x == 0x1_0000 * (x / 0x1_0000) + x % 0x1_0000;
    assert y == 0x1_0000 * (y / 0x1_0000) + y % 0x1_0000;
  }

  /** Three letters as one number. */
  function Key(s: string): int
    requires |s| == 3
  {
    1024 * (s[0] as int - 65) + 32 * (s[1] as int - 65) + (s[2] as int - 65)
  }

  /** The opcode for a mnemonic and the look of its operand. The mnemonic is given by its `Key`, since numbers are
      cheaper to compare than letters; the comments spell it out. */
  function Assembled(key: int, look: AddressingMode): int {
    match key
    case 98 => // ADC
      (match look
       case IndexedIndirect => 0x61 case ZeroPage => 0x65 case Immediate => 0x69 case Absolute => 0x6D
       case IndirectIndexed => 0x71 case ZeroPageX => 0x75 case AbsoluteY => 0x79 case AbsoluteX => 0x7D
       case _ => -1)
    case 419 => // AND
      (match look
       case IndexedIndirect => 0x21 case ZeroPage => 0x25 case Immediate => 0x29 case Absolute => 0x2D
       case IndirectIndexed => 0x31 case ZeroPageX => 0x35 case AbsoluteY => 0x39 case AbsoluteX => 0x3D
       case _ => -1)
    case 587 => // ASL
      (match look
       case ZeroPage => 0x06 case Accumulator => 0x0A case Absolute => 0x0E case ZeroPageX => 0x16
       case AbsoluteX => 0x1E
       case _ => -1)
    case 1090 => 0x90 // BCC
    case 1106 => 0xB0 // BCS
    case 1168 => 0xF0 // BEQ
    case 1299 => // BIT
      (match look
       case ZeroPage => 0x24 case Absolute => 0x2C
       case _ => -1)
    case 1416 => 0x30 // BMI
    case 1444 => 0xD0 // BNE
    case 1515 => 0x10 // BPL
    case 1578 => 0x00 // BRK
    case 1698 => 0x50 // BVC
    case 1714 => 0x70 // BVS
    case 2402 => 0x18 // CLC
    case 2403 => 0xD8 // CLD
    case 2408 => 0x58 // CLI
    case 2421 => 0xB8 // CLV
    case 2447 => // CMP
      (match look
       case IndexedIndirect => 0xC1 case ZeroPage => 0xC5 case Immediate => 0xC9 case Absolute => 0xCD
       case IndirectIndexed => 0xD1 case ZeroPageX => 0xD5 case AbsoluteY => 0xD9 case AbsoluteX => 0xDD
       case _ => -1)
    case 2551 => // CPX
      (match look
       case Immediate => 0xE0 case ZeroPage => 0xE4 case Absolute => 0xEC
       case _ => -1)
    case 2552 => // CPY
      (match look
       case Immediate => 0xC0 case ZeroPage => 0xC4 case Absolute => 0xCC
       case _ => -1)
    case 3202 => // DEC
      (match look
       case ZeroPage => 0xC6 case Absolute => 0xCE case ZeroPageX => 0xD6 case AbsoluteX => 0xDE
       case _ => -1)
    case 3223 => 0xCA // DEX
    case 3224 => 0x88 // DEY
    case 4561 => // EOR
      (match look
       case IndexedIndirect => 0x41 case ZeroPage => 0x45 case Immediate => 0x49 case Absolute => 0x4D
       case IndirectIndexed => 0x51 case ZeroPageX => 0x55 case AbsoluteY => 0x59 case AbsoluteX => 0x5D
       case _ => -1)
    case 8610 => // INC
      (match look
       case ZeroPage => 0xE6 case Absolute => 0xEE case ZeroPageX => 0xF6 case AbsoluteX => 0xFE
       case _ => -1)
    case 8631 => 0xE8 // INX
    case 8632 => 0xC8 // INY
    case 9615 => // JMP
      (match look
       case Absolute => 0x4C case Indirect => 0x6C
       case _ => -1)
    case 9809 => 0x20 // JSR
    case 11360 => // LDA
      (match look
       case IndexedIndirect => 0xA1 case ZeroPage => 0xA5 case Immediate => 0xA9 case Absolute => 0xAD
       case IndirectIndexed => 0xB1 case ZeroPageX => 0xB5 case AbsoluteY => 0xB9 case AbsoluteX => 0xBD
       case _ => -1)
    case 11383 => // LDX
      (match look
       case Immediate => 0xA2 case ZeroPage => 0xA6 case Absolute => 0xAE case ZeroPageY => 0xB6
       case AbsoluteY => 0xBE
       case _ => -1)
    case 11384 => // LDY
      (match look
       case Immediate => 0xA0 case ZeroPage => 0xA4 case Absolute => 0xAC case ZeroPageX => 0xB4
       case AbsoluteX => 0xBC
       case _ => -1)
    case 11857 => // LSR
      (match look
       case ZeroPage => 0x46 case Accumulator => 0x4A case Absolute => 0x4E case ZeroPageX => 0x56
       case AbsoluteX => 0x5E
       case _ => -1)
    case 13775 => 0xEA // NOP
    case 14880 => // ORA
      (match look
       case IndexedIndirect => 0x01 case ZeroPage => 0x05 case Immediate => 0x09 case Absolute => 0x0D
       case IndirectIndexed => 0x11 case ZeroPageX => 0x15 case AbsoluteY => 0x19 case AbsoluteX => 0x1D
       case _ => -1)
    case 15584 => 0x48 // PHA
    case 15599 => 0x08 // PHP
    case 15712 => 0x68 // PLA
    case 15727 => 0x28 // PLP
    case 17867 => // ROL
      (match look
       case ZeroPage => 0x26 case Accumulator => 0x2A case Absolute => 0x2E case ZeroPageX => 0x36
       case AbsoluteX => 0x3E
       case _ => -1)
    case 17873 => // ROR
      (match look
       case ZeroPage => 0x66 case Accumulator => 0x6A case Absolute => 0x6E case ZeroPageX => 0x76
       case AbsoluteX => 0x7E
       case _ => -1)
    case 18024 => 0x40 // RTI
    case 18034 => 0x60 // RTS
    case 18466 => // SBC
      (match look
       case IndexedIndirect => 0xE1 case ZeroPage => 0xE5 case Immediate => 0xE9 case Absolute => 0xED
       case IndirectIndexed => 0xF1 case ZeroPageX => 0xF5 case AbsoluteY => 0xF9 case AbsoluteX => 0xFD
       case _ => -1)
    case 18562 => 0x38 // SEC
    case 18563 => 0xF8 // SED
    case 18568 => 0x78 // SEI
    case 19040 => // STA
      (match look
       case IndexedIndirect => 0x81 case ZeroPage => 0x85 case Absolute => 0x8D case IndirectIndexed => 0x91
       case ZeroPageX => 0x95 case AbsoluteY => 0x99 case AbsoluteX => 0x9D
       case _ => -1)
    case 19063 => // STX
      (match look
       case ZeroPage => 0x86 case Absolute => 0x8E case ZeroPageY => 0x96
       case _ => -1)
    case 19064 => // STY
      (match look
       case ZeroPage => 0x84 case Absolute => 0x8C case ZeroPageX => 0x94
       case _ => -1)
    case 19479 => 0xAA // TAX
    case 19480 => 0xA8 // TAY
    case 20055 => 0xBA // TSX
    case 20192 => 0x8A // TXA
    case 20210 => 0x9A // TXS
    case 20224 => 0x98 // TYA
    case _ => -1
  }

  lemma {:induction false} Assembles00(opcode: byte)
    requires 0x00 <= opcode < 0x20 && !Rows00(opcode).inst.Illegal?
    ensures Assembled(Key(Mnemonic(Rows00(opcode).inst)), Look(Rows00(opcode).mode)) == opcode
  {
  }

  lemma {:induction false} Assembles20(opcode: byte)
    requires 0x20 <= opcode < 0x40 && !Rows20(opcode).inst.Illegal?
    ensures Assembled(Key(Mnemonic(Rows20(opcode).inst)), Look(Rows20(opcode).mode)) == opcode
  {
  }

  lemma {:induction false} Assembles40(opcode: byte)
    requires 0x40 <= opcode < 0x60 && !Rows40(opcode).inst.Illegal?
    ensures Assembled(Key(Mnemonic(Rows40(opcode).inst)), Look(Rows40(opcode).mode)) == opcode
  {
  }

  lemma {:induction false} Assembles60(opcode: byte)
    requires 0x60 <= opcode < 0x80 && !Rows60(opcode).inst.Illegal?
    ensures Assembled(Key(Mnemonic(Rows60(opcode).inst)), Look(Rows60(opcode).mode)) == opcode
  {
  }

  lemma {:induction false} Assembles80(opcode: byte)
    requires 0x80 <= opcode < 0xA0 && !Rows80(opcode).inst.Illegal?
    ensures Assembled(Key(Mnemonic(Rows80(opcode).inst)), Look(Rows80(opcode).mode)) == opcode
  {
  }

  lemma {:induction false} AssemblesA0(opcode: byte)
    requires 0xA0 <= opcode < 0xC0 && !RowsA0(opcode).inst.Illegal?
    ensures Assembled(Key(Mnemonic(RowsA0(opcode).inst)), Look(RowsA0(opcode).mode)) == opcode
  {
  }

  lemma {:induction false} AssemblesC0(opcode: byte)
    requires 0xC0 <= opcode < 0xE0 && !RowsC0(opcode).inst.Illegal?
    ensures Assembled(Key(Mnemonic(RowsC0(opcode).inst)), Look(RowsC0(opcode).mode)) == opcode
  {
  }

  lemma {:induction false} AssemblesE0(opcode: byte)
    requires 0xE0 <= opcode < 0x100 && !RowsE0(opcode).inst.Illegal?
    ensures Assembled(Key(Mnemonic(RowsE0(opcode).inst)), Look(RowsE0(opcode).mode)) == opcode
  {
  }

  /** Mnemonic and operand shape determine the opcode. */
  lemma {:induction false} Assembles(opcode: byte)
    requires !Table(opcode).inst.Illegal?
    ensures Assembled(Key(Mnemonic(Table(opcode).inst)), Look(Table(opcode).mode)) == opcode
  {
    hide Assembled, Key, Mnemonic, Look, Rows00, Rows20, Rows40, Rows60, Rows80, RowsA0, RowsC0, RowsE0;
    if opcode < 0x20 { Assembles00(opcode); }
    else if opcode < 0x40 { Assembles20(opcode); }
    else if opcode < 0x60 { Assembles40(opcode); }
    else if opcode < 0x80 { Assembles60(opcode); }
    else if opcode < 0xA0 { Assembles80(opcode); }
    else if opcode < 0xC0 { AssemblesA0(opcode); }
    else if opcode < 0xE0 { AssemblesC0(opcode); }
    else { AssemblesE0(opcode); }
  }

  /** At one address, two documented instructions that print alike are the same bytes. */
  lemma {:induction false} TextInjective(pc: word, opcode: byte, low: byte, high: byte, opcode': byte, low': byte,
    high': byte)
    requires !Table(opcode).inst.Illegal? && !Table(opcode').inst.Illegal?
    requires Text(opcode, pc, low, high) == Text(opcode', pc, low', high')
    ensures opcode == opcode' && SameOperand(Table(opcode).mode, low, high, low', high')
  {
    hide Table, Mnemonic, OperandText, Key, Assembled, LookOf;
    var row, row' := Table(opcode), Table(opcode');
    var s, s' := Text(opcode, pc, low, high), Text(opcode', pc, low', high');
    assert s[..3] == Mnemonic(row.inst) && s'[..3] == Mnemonic(row'.inst);
    assert s[3..] == OperandText(row.mode, pc, low, high) && s'[3..] == OperandText(row'.mode, pc, low', high');
    LookRead(row.mode, pc, low, high);
    LookRead(row'.mode, pc, low', high');
    Assembles(opcode);
    Assembles(opcode');
    OperandRead(row.mode, pc, low, high, low', high');
  }

  // What is printed.

  /** Bytes and words in hexadecimal, most significant digit first. */
  lemma {:induction false} DigitsInOrder(v: byte, w: word)
    ensures var digits := "0123456789ABCDEF";
            && Hex2(v) == [digits[v / 16], digits[v % 16]]
            && Hex4(w) == [digits[w / 4096], digits[w / 256 % 16], digits[w / 16 % 16], digits[w % 16]]
  {
    NibblesOfWord(w);
  }

  /** The punctuation of each addressing mode, around the digits of the bytes after the opcode; a branch shows where it
      goes. The names in front are `Assembles`. */
  lemma {:induction false} PrintedModes(pc: word, low: byte, high: byte)
    ensures var far := if low < 128 then low else low + 0x1_0000 - 256;
            var two, four, goal := Hex2(low), Hex4(low + 256 * high), Hex4((pc + 2 + far) % 0x1_0000);
            && OperandText(Implicit, pc, low, high) == "" && OperandText(Accumulator, pc, low, high) == " A"
            && OperandText(Immediate, pc, low, high) == " #$" + two
            && OperandText(ZeroPage, pc, low, high) == " $" + two
            && OperandText(ZeroPageX, pc, low, high) == " $" + two + ",X"
            && OperandText(ZeroPageY, pc, low, high) == " $" + two + ",Y"
            && OperandText(Relative, pc, low, high) == " $" + goal
            && OperandText(Absolute, pc, low, high) == " $" + four
            && OperandText(AbsoluteX, pc, low, high) == " $" + four + ",X"
            && OperandText(AbsoluteY, pc, low, high) == " $" + four + ",Y"
            && OperandText(Indirect, pc, low, high) == " ($" + four + ")"
            && OperandText(IndexedIndirect, pc, low, high) == " ($" + two + ",X)"
            && OperandText(IndirectIndexed, pc, low, high) == " ($" + two + "),Y"
  {
    Target(pc, low);
    hide Hex2, Hex4, PrintedTarget;
  }

  lemma {:induction false} Target(pc: word, offset: byte)
    ensures PrintedTarget(pc, offset) == (pc + 2 + if offset < 128 then offset else offset + 0x1_0000 - 256) % 0x1_0000
  {
  }

  /** The lengths `LengthIsAdvance` leaves open: branches, jumps, calls and returns. */
  lemma {:induction false} LengthsOfDiversions(opcode: byte)
    ensures Diverts(Table(opcode).inst) ==>
      ModeBytes(Table(opcode).mode)
      == if opcode in {0x4C, 0x6C, 0x20} then 3 else if opcode in {0x00, 0x40, 0x60} then 1 else 2
    ensures Diverts(Table(opcode).inst) <==> opcode in {0x4C, 0x6C, 0x20, 0x00, 0x40, 0x60} || opcode % 32 == 16
  {
    TableAgrees(opcode);
    OpcodeFields.TableIsDecoded(opcode);
    hide Table;
    DecodedDiversions(opcode);
  }

  lemma {:induction false} DecodedDiversions(opcode: byte)
    ensures var inst := OpcodeFields.Decoded(opcode);
            && (Diverts(inst) <==> opcode in {0x4C, 0x6C, 0x20, 0x00, 0x40, 0x60} || opcode % 32 == 16)
            && (Diverts(inst) ==>
                  ModeBytes(ModeOf(inst))
                  == if opcode in {0x4C, 0x6C, 0x20} then 3 else if opcode in {0x00, 0x40, 0x60} then 1 else 2)
  {
    assert opcode == opcode / 32 * 32 + 4 * (opcode / 4 % 8) + opcode % 4;
  }
}
