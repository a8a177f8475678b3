/** The opcode table by the bit fields of the opcode byte, and its cycle counts as a manual prints them. */
module OpcodeFields {
  import opened Bits
  import opened Alu
  import opened Isa

  // The opcode byte: three bits of row, three of column, two of group.

  function OneMode(column: nat): Operand
    requires column < 8
  {
    match column
    case 0 => IndexedIndirect case 1 => ZeroPage case 2 => Immediate case 3 => Absolute
    case 4 => IndirectIndexed case 5 => ZeroPageX case 6 => AbsoluteY case 7 => AbsoluteX
  }

  function GroupOneInst(row: nat, column: nat): Inst
    requires row < 8 && column < 8
  {
    match row
    case 0 => Read(ORA, OneMode(column))
    case 1 => Read(AND, OneMode(column))
    case 2 => Read(EOR, OneMode(column))
    case 3 => Read(ADC, OneMode(column))
    case 4 => if column == 2 then Illegal else Store(STA, OneMode(column))
    case 5 => Read(LDA, OneMode(column))
    case 6 => Read(CMP, OneMode(column))
    case 7 => Read(SBC, OneMode(column))
  }

  function ShiftOf(row: nat): RmwOp {
    match row
    case 0 => ASL case 1 => ROL case 2 => LSR case 3 => ROR case 6 => DEC case _ => INC
  }

  /** Memory operands of the second group; the two rows about X index by Y instead. */
  function TwoMode(row: nat, column: nat): Operand {
    match column
    case 1 => ZeroPage
    case 3 => Absolute
    case 5 => if row == 4 || row == 5 then ZeroPageY else ZeroPageX
    case _ => if row == 5 then AbsoluteY else AbsoluteX
  }

  function GroupTwoInst(row: nat, column: nat): Inst
    requires row < 8 && column < 8
  {
    if column == 0 then (if row == 5 then Read(LDX, Immediate) else Illegal)
    else if column == 2 then
      (match row
       case 4 => Implied(TXA) case 5 => Implied(TAX) case 6 => Implied(DEX) case 7 => Implied(NOP)
       case _ => Shift(ShiftOf(row)))
    else if column == 4 then Illegal
    else if column == 6 then (if row == 4 then Implied(TXS) else if row == 5 then Implied(TSX) else Illegal)
    else if row == 4 then (if column == 7 then Illegal else Store(STX, TwoMode(row, column)))
    else if row == 5 then Read(LDX, TwoMode(row, column))
    else Rmw(ShiftOf(row), TwoMode(row, column))
  }

  function GroupNoughtInst(row: nat, column: nat): Inst
    requires row < 8 && column < 8
  {
    match column
    case 0 =>
      (match row
       case 0 => Brk case 1 => Jsr case 2 => Rti case 3 => Rts case 4 => Illegal
       case 5 => Read(LDY, Immediate) case 6 => Read(CPY, Immediate) case 7 => Read(CPX, Immediate))
    case 1 =>
      (match row
       case 1 => Read(BIT, ZeroPage) case 4 => Store(STY, ZeroPage) case 5 => Read(LDY, ZeroPage)
       case 6 => Read(CPY, ZeroPage) case 7 => Read(CPX, ZeroPage) case _ => Illegal)
    case 2 =>
      (match row
       case 0 => Php case 1 => Plp case 2 => Pha case 3 => Pla
       case 4 => Implied(DEY) case 5 => Implied(TAY) case 6 => Implied(INY) case 7 => Implied(INX))
    case 3 =>
      (match row
       case 0 => Illegal case 1 => Read(BIT, Absolute) case 2 => JmpAbs case 3 => JmpInd
       case 4 => Store(STY, Absolute) case 5 => Read(LDY, Absolute)
       case 6 => Read(CPY, Absolute) case 7 => Read(CPX, Absolute))
    case 4 =>
      (match row
       case 0 => Branch(BPL) case 1 => Branch(BMI) case 2 => Branch(BVC) case 3 => Branch(BVS)
       case 4 => Branch(BCC) case 5 => Branch(BCS) case 6 => Branch(BNE) case 7 => Branch(BEQ))
    case 5 => if row == 4 then Store(STY, ZeroPageX) else if row == 5 then Read(LDY, ZeroPageX) else Illegal
    case 6 =>
      (match row
       case 0 => Implied(CLC) case 1 => Implied(SEC) case 2 => Implied(CLI) case 3 => Implied(SEI)
       case 4 => Implied(TYA) case 5 => Implied(CLV) case 6 => Implied(CLD) case 7 => Implied(SED))
    case 7 => if row == 5 then Read(LDY, AbsoluteX) else Illegal
  }

  function Decoded(opcode: byte): Inst {
    var row, column := opcode / 0x20, opcode / 4 % 8;
    match opcode % 4
    case 0 => GroupNoughtInst(row, column)
    case 1 => GroupOneInst(row, column)
    case 2 => GroupTwoInst(row, column)
    case _ => Illegal
  }

  lemma {:induction false} Nought00(column: nat)
    requires column < 8
    ensures Rows00(0x00 + 4 * column).inst == GroupNoughtInst(0, column)
  {
  }

  lemma {:induction false} One00(column: nat)
    requires column < 8
    ensures Rows00(0x01 + 4 * column).inst == GroupOneInst(0, column)
  {
  }

  lemma {:induction false} Two00(column: nat)
    requires column < 8
    ensures Rows00(0x02 + 4 * column).inst == GroupTwoInst(0, column)
  {
  }

  lemma {:induction false} Three00(column: nat)
    requires column < 8
    ensures Rows00(0x03 + 4 * column).inst == Illegal
  {
  }

  lemma {:induction false} Nought20(column: nat)
    requires column < 8
    ensures Rows20(0x20 + 4 * column).inst == GroupNoughtInst(1, column)
  {
  }

  lemma {:induction false} One20(column: nat)
    requires column < 8
    ensures Rows20(0x21 + 4 * column).inst == GroupOneInst(1, column)
  {
  }

  lemma {:induction false} Two20(column: nat)
    requires column < 8
    ensures Rows20(0x22 + 4 * column).inst == GroupTwoInst(1, column)
  {
  }

  lemma {:induction false} Three20(column: nat)
    requires column < 8
    ensures Rows20(0x23 + 4 * column).inst == Illegal
  {
  }

  lemma {:induction false} Nought40(column: nat)
    requires column < 8
    ensures Rows40(0x40 + 4 * column).inst == GroupNoughtInst(2, column)
  {
  }

  lemma {:induction false} One40(column: nat)
    requires column < 8
    ensures Rows40(0x41 + 4 * column).inst == GroupOneInst(2, column)
  {
  }

  lemma {:induction false} Two40(column: nat)
    requires column < 8
    ensures Rows40(0x42 + 4 * column).inst == GroupTwoInst(2, column)
  {
  }

  lemma {:induction false} Three40(column: nat)
    requires column < 8
    ensures Rows40(0x43 + 4 * column).inst == Illegal
  {
  }

  lemma {:induction false} Nought60(column: nat)
    requires column < 8
    ensures Rows60(0x60 + 4 * column).inst == GroupNoughtInst(3, column)
  {
  }

  lemma {:induction false} One60(column: nat)
    requires column < 8
    ensures Rows60(0x61 + 4 * column).inst == GroupOneInst(3, column)
  {
  }

  lemma {:induction false} Two60(column: nat)
    requires column < 8
    ensures Rows60(0x62 + 4 * column).inst == GroupTwoInst(3, column)
  {
  }

  lemma {:induction false} Three60(column: nat)
    requires column < 8
    ensures Rows60(0x63 + 4 * column).inst == Illegal
  {
  }

  lemma {:induction false} Nought80(column: nat)
    requires column < 8
    ensures Rows80(0x80 + 4 * column).inst == GroupNoughtInst(4, column)
  {
  }

  lemma {:induction false} One80(column: nat)
    requires column < 8
    ensures Rows80(0x81 + 4 * column).inst == GroupOneInst(4, column)
  {
  }

  lemma {:induction false} Two80(column: nat)
    requires column < 8
    ensures Rows80(0x82 + 4 * column).inst == GroupTwoInst(4, column)
  {
  }

  lemma {:induction false} Three80(column: nat)
    requires column < 8
    ensures Rows80(0x83 + 4 * column).inst == Illegal
  {
  }

  lemma {:induction false} NoughtA0(column: nat)
    requires column < 8
    ensures RowsA0(0xA0 + 4 * column).inst == GroupNoughtInst(5, column)
  {
  }

  lemma {:induction false} OneA0(column: nat)
    requires column < 8
    ensures RowsA0(0xA1 + 4 * column).inst == GroupOneInst(5, column)
  {
  }

  lemma {:induction false} TwoA0(column: nat)
    requires column < 8
    ensures RowsA0(0xA2 + 4 * column).inst == GroupTwoInst(5, column)
  {
  }

  lemma {:induction false} ThreeA0(column: nat)
    requires column < 8
    ensures RowsA0(0xA3 + 4 * column).inst == Illegal
  {
  }

  lemma {:induction false} NoughtC0(column: nat)
    requires column < 8
    ensures RowsC0(0xC0 + 4 * column).inst == GroupNoughtInst(6, column)
  {
  }

  lemma {:induction false} OneC0(column: nat)
    requires column < 8
    ensures RowsC0(0xC1 + 4 * column).inst == GroupOneInst(6, column)
  {
  }

  lemma {:induction false} TwoC0(column: nat)
    requires column < 8
    ensures RowsC0(0xC2 + 4 * column).inst == GroupTwoInst(6, column)
  {
  }

  lemma {:induction false} ThreeC0(column: nat)
    requires column < 8
    ensures RowsC0(0xC3 + 4 * column).inst == Illegal
  {
  }

  lemma {:induction false} NoughtE0(column: nat)
    requires column < 8
    ensures RowsE0(0xE0 + 4 * column).inst == GroupNoughtInst(7, column)
  {
  }

  lemma {:induction false} OneE0(column: nat)
    requires column < 8
    ensures RowsE0(0xE1 + 4 * column).inst == GroupOneInst(7, column)
  {
  }

  lemma {:induction false} TwoE0(column: nat)
    requires column < 8
    ensures RowsE0(0xE2 + 4 * column).inst == GroupTwoInst(7, column)
  {
  }

  lemma {:induction false} ThreeE0(column: nat)
    requires column < 8
    ensures RowsE0(0xE3 + 4 * column).inst == Illegal
  {
  }

  lemma {:induction false} Decode00(opcode: byte)
    requires 0x00 <= opcode <= 0x1F
    ensures Rows00(opcode).inst == Decoded(opcode)
  {
    hide Rows00, GroupNoughtInst, GroupOneInst, GroupTwoInst;
    var column := opcode / 4 % 8;
    assert opcode == 0x00 + 4 * column + opcode % 4;
    Nought00(column);
    One00(column);
    Two00(column);
    Three00(column);
  }

  lemma {:induction false} Decode20(opcode: byte)
    requires 0x20 <= opcode <= 0x3F
    ensures Rows20(opcode).inst == Decoded(opcode)
  {
    hide Rows20, GroupNoughtInst, GroupOneInst, GroupTwoInst;
    var column := opcode / 4 % 8;
    assert opcode == 0x20 + 4 * column + opcode % 4;
    Nought20(column);
    One20(column);
    Two20(column);
    Three20(column);
  }

  lemma {:induction false} Decode40(opcode: byte)
    requires 0x40 <= opcode <= 0x5F
    ensures Rows40(opcode).inst == Decoded(opcode)
  {
    hide Rows40, GroupNoughtInst, GroupOneInst, GroupTwoInst;
    var column := opcode / 4 % 8;
    assert opcode == 0x40 + 4 * column + opcode % 4;
    Nought40(column);
    One40(column);
    Two40(column);
    Three40(column);
  }

  lemma {:induction false} Decode60(opcode: byte)
    requires 0x60 <= opcode <= 0x7F
    ensures Rows60(opcode).inst == Decoded(opcode)
  {
    hide Rows60, GroupNoughtInst, GroupOneInst, GroupTwoInst;
    var column := opcode / 4 % 8;
    assert opcode == 0x60 + 4 * column + opcode % 4;
    Nought60(column);
    One60(column);
    Two60(column);
    Three60(column);
  }

  lemma {:induction false} Decode80(opcode: byte)
    requires 0x80 <= opcode <= 0x9F
    ensures Rows80(opcode).inst == Decoded(opcode)
  {
    hide Rows80, GroupNoughtInst, GroupOneInst, GroupTwoInst;
    var column := opcode / 4 % 8;
    assert opcode == 0x80 + 4 * column + opcode % 4;
    Nought80(column);
    One80(column);
    Two80(column);
    Three80(column);
  }

  lemma {:induction false} DecodeA0(opcode: byte)
    requires 0xA0 <= opcode <= 0xBF
    ensures RowsA0(opcode).inst == Decoded(opcode)
  {
    hide RowsA0, GroupNoughtInst, GroupOneInst, GroupTwoInst;
    var column := opcode / 4 % 8;
    assert opcode == 0xA0 + 4 * column + opcode % 4;
    NoughtA0(column);
    OneA0(column);
    TwoA0(column);
    ThreeA0(column);
  }

  lemma {:induction false} DecodeC0(opcode: byte)
    requires 0xC0 <= opcode <= 0xDF
    ensures RowsC0(opcode).inst == Decoded(opcode)
  {
    hide RowsC0, GroupNoughtInst, GroupOneInst, GroupTwoInst;
    var column := opcode / 4 % 8;
    assert opcode == 0xC0 + 4 * column + opcode % 4;
    NoughtC0(column);
    OneC0(column);
    TwoC0(column);
    ThreeC0(column);
  }

  lemma {:induction false} DecodeE0(opcode: byte)
    requires 0xE0 <= opcode <= 0xFF
    ensures RowsE0(opcode).inst == Decoded(opcode)
  {
    hide RowsE0, GroupNoughtInst, GroupOneInst, GroupTwoInst;
    var column := opcode / 4 % 8;
    assert opcode == 0xE0 + 4 * column + opcode % 4;
    NoughtE0(column);
    OneE0(column);
    TwoE0(column);
    ThreeE0(column);
  }

  /** The opcode table, written out line by line, is the bit fields of the opcode byte. */
  lemma {:induction false} TableIsDecoded(opcode: byte)
    ensures Table(opcode).inst == Decoded(opcode)
  {
    hide Decoded, Rows00, Rows20, Rows40, Rows60, Rows80, RowsA0, RowsC0, RowsE0;
    if opcode < 0x20 { Decode00(opcode); }
    else if opcode < 0x40 { Decode20(opcode); }
    else if opcode < 0x60 { Decode40(opcode); }
    else if opcode < 0x80 { Decode60(opcode); }
    else if opcode < 0xA0 { Decode80(opcode); }
    else if opcode < 0xC0 { DecodeA0(opcode); }
    else if opcode < 0xE0 { DecodeC0(opcode); }
    else { DecodeE0(opcode); }
  }

  // The cycle counts, sixteen bytes a line; 0 marks a byte that is not documented.

  lemma {:induction false} Cycles0(column: nat)
    requires column < 16
    ensures var row := Rows00(0x00 + column);
            && row.cycles == [7, 6, 0, 0, 0, 3, 5, 0, 3, 2, 2, 0, 0, 4, 6, 0][column]
            && (row.inst.Illegal? <==> row.cycles == 0)
  {
  }

  lemma {:induction false} Cycles1(column: nat)
    requires column < 16
    ensures var row := Rows00(0x10 + column);
            && row.cycles == [2, 5, 0, 0, 0, 4, 6, 0, 2, 4, 0, 0, 0, 4, 7, 0][column]
            && (row.inst.Illegal? <==> row.cycles == 0)
  {
  }

  lemma {:induction false} Cycles2(column: nat)
    requires column < 16
    ensures var row := Rows20(0x20 + column);
            && row.cycles == [6, 6, 0, 0, 3, 3, 5, 0, 4, 2, 2, 0, 4, 4, 6, 0][column]
            && (row.inst.Illegal? <==> row.cycles == 0)
  {
  }

  lemma {:induction false} Cycles3(column: nat)
    requires column < 16
    ensures var row := Rows20(0x30 + column);
            && row.cycles == [2, 5, 0, 0, 0, 4, 6, 0, 2, 4, 0, 0, 0, 4, 7, 0][column]
            && (row.inst.Illegal? <==> row.cycles == 0)
  {
  }

  lemma {:induction false} Cycles4(column: nat)
    requires column < 16
    ensures var row := Rows40(0x40 + column);
            && row.cycles == [6, 6, 0, 0, 0, 3, 5, 0, 3, 2, 2, 0, 3, 4, 6, 0][column]
            && (row.inst.Illegal? <==> row.cycles == 0)
  {
  }

  lemma {:induction false} Cycles5(column: nat)
    requires column < 16
    ensures var row := Rows40(0x50 + column);
            && row.cycles == [2, 5, 0, 0, 0, 4, 6, 0, 2, 4, 0, 0, 0, 4, 7, 0][column]
            && (row.inst.Illegal? <==> row.cycles == 0)
  {
  }

  lemma {:induction false} Cycles6(column: nat)
    requires column < 16
    ensures var row := Rows60(0x60 + column);
            && row.cycles == [6, 6, 0, 0, 0, 3, 5, 0, 4, 2, 2, 0, 5, 4, 6, 0][column]
            && (row.inst.Illegal? <==> row.cycles == 0)
  {
  }

  lemma {:induction false} Cycles7(column: nat)
    requires column < 16
    ensures var row := Rows60(0x70 + column);
            && row.cycles == [2, 5, 0, 0, 0, 4, 6, 0, 2, 4, 0, 0, 0, 4, 7, 0][column]
            && (row.inst.Illegal? <==> row.cycles == 0)
  {
  }

  lemma {:induction false} Cycles8(column: nat)
    requires column < 16
    ensures var row := Rows80(0x80 + column);
            && row.cycles == [0, 6, 0, 0, 3, 3, 3, 0, 2, 0, 2, 0, 4, 4, 4, 0][column]
            && (row.inst.Illegal? <==> row.cycles == 0)
  {
  }

  lemma {:induction false} Cycles9(column: nat)
    requires column < 16
    ensures var row := Rows80(0x90 + column);
            && row.cycles == [2, 6, 0, 0, 4, 4, 4, 0, 2, 5, 2, 0, 0, 5, 0, 0][column]
            && (row.inst.Illegal? <==> row.cycles == 0)
  {
  }

  lemma {:induction false} CyclesA(column: nat)
    requires column < 16
    ensures var row := RowsA0(0xA0 + column);
            && row.cycles == [2, 6, 2, 0, 3, 3, 3, 0, 2, 2, 2, 0, 4, 4, 4, 0][column]
            && (row.inst.Illegal? <==> row.cycles == 0)
  {
  }

  lemma {:induction false} CyclesB(column: nat)
    requires column < 16
    ensures var row := RowsA0(0xB0 + column);
            && row.cycles == [2, 5, 0, 0, 4, 4, 4, 0, 2, 4, 2, 0, 4, 4, 4, 0][column]
            && (row.inst.Illegal? <==> row.cycles == 0)
  {
  }

  lemma {:induction false} CyclesC(column: nat)
    requires column < 16
    ensures var row := RowsC0(0xC0 + column);
            && row.cycles == [2, 6, 0, 0, 3, 3, 5, 0, 2, 2, 2, 0, 4, 4, 6, 0][column]
            && (row.inst.Illegal? <==> row.cycles == 0)
  {
  }

  lemma {:induction false} CyclesD(column: nat)
    requires column < 16
    ensures var row := RowsC0(0xD0 + column);
            && row.cycles == [2, 5, 0, 0, 0, 4, 6, 0, 2, 4, 0, 0, 0, 4, 7, 0][column]
            && (row.inst.Illegal? <==> row.cycles == 0)
  {
  }

  lemma {:induction false} CyclesE(column: nat)
    requires column < 16
    ensures var row := RowsE0(0xE0 + column);
            && row.cycles == [2, 6, 0, 0, 3, 3, 5, 0, 2, 2, 2, 0, 4, 4, 6, 0][column]
            && (row.inst.Illegal? <==> row.cycles == 0)
  {
  }

  lemma {:induction false} CyclesF(column: nat)
    requires column < 16
    ensures var row := RowsE0(0xF0 + column);
            && row.cycles == [2, 5, 0, 0, 0, 4, 6, 0, 2, 4, 0, 0, 0, 4, 7, 0][column]
            && (row.inst.Illegal? <==> row.cycles == 0)
  {
  }

  // The whole matrix, in four parts.

  lemma {:induction false} CyclesTo3F(opcode: byte)
    requires 0x00 <= opcode <= 0x3F
    ensures opcode / 16 == 0 ==> Table(opcode).cycles == [7, 6, 0, 0, 0, 3, 5, 0, 3, 2, 2, 0, 0, 4, 6, 0][opcode % 16]
    ensures opcode / 16 == 1 ==> Table(opcode).cycles == [2, 5, 0, 0, 0, 4, 6, 0, 2, 4, 0, 0, 0, 4, 7, 0][opcode % 16]
    ensures opcode / 16 == 2 ==> Table(opcode).cycles == [6, 6, 0, 0, 3, 3, 5, 0, 4, 2, 2, 0, 4, 4, 6, 0][opcode % 16]
    ensures opcode / 16 == 3 ==> Table(opcode).cycles == [2, 5, 0, 0, 0, 4, 6, 0, 2, 4, 0, 0, 0, 4, 7, 0][opcode % 16]
    ensures Table(opcode).inst.Illegal? <==> Table(opcode).cycles == 0
  {
    hide Rows00, Rows20, Rows40, Rows60, Rows80, RowsA0, RowsC0, RowsE0;
    match opcode / 16
    case 0 => Cycles0(opcode % 16);
    case 1 => Cycles1(opcode % 16);
    case 2 => Cycles2(opcode % 16);
    case 3 => Cycles3(opcode % 16);
  }

  lemma {:induction false} CyclesTo7F(opcode: byte)
    requires 0x40 <= opcode <= 0x7F
    ensures opcode / 16 == 4 ==> Table(opcode).cycles == [6, 6, 0, 0, 0, 3, 5, 0, 3, 2, 2, 0, 3, 4, 6, 0][opcode % 16]
    ensures opcode / 16 == 5 ==> Table(opcode).cycles == [2, 5, 0, 0, 0, 4, 6, 0, 2, 4, 0, 0, 0, 4, 7, 0][opcode % 16]
    ensures opcode / 16 == 6 ==> Table(opcode).cycles == [6, 6, 0, 0, 0, 3, 5, 0, 4, 2, 2, 0, 5, 4, 6, 0][opcode % 16]
    ensures opcode / 16 == 7 ==> Table(opcode).cycles == [2, 5, 0, 0, 0, 4, 6, 0, 2, 4, 0, 0, 0, 4, 7, 0][opcode % 16]
    ensures Table(opcode).inst.Illegal? <==> Table(opcode).cycles == 0
  {
    hide Rows00, Rows20, Rows40, Rows60, Rows80, RowsA0, RowsC0, RowsE0;
    match opcode / 16
    case 4 => Cycles4(opcode % 16);
    case 5 => Cycles5(opcode % 16);
    case 6 => Cycles6(opcode % 16);
    case 7 => Cycles7(opcode % 16);
  }

  lemma {:induction false} CyclesToBF(opcode: byte)
    requires 0x80 <= opcode <= 0xBF
    ensures opcode / 16 == 8 ==> Table(opcode).cycles == [0, 6, 0, 0, 3, 3, 3, 0, 2, 0, 2, 0, 4, 4, 4, 0][opcode % 16]
    ensures opcode / 16 == 9 ==> Table(opcode).cycles == [2, 6, 0, 0, 4, 4, 4, 0, 2, 5, 2, 0, 0, 5, 0, 0][opcode % 16]
    ensures opcode / 16 == 10 ==> Table(opcode).cycles == [2, 6, 2, 0, 3, 3, 3, 0, 2, 2, 2, 0, 4, 4, 4, 0][opcode % 16]
    ensures opcode / 16 == 11 ==> Table(opcode).cycles == [2, 5, 0, 0, 4, 4, 4, 0, 2, 4, 2, 0, 4, 4, 4, 0][opcode % 16]
    ensures Table(opcode).inst.Illegal? <==> Table(opcode).cycles == 0
  {
    hide Rows00, Rows20, Rows40, Rows60, Rows80, RowsA0, RowsC0, RowsE0;
    match opcode / 16
    case 8 => Cycles8(opcode % 16);
    case 9 => Cycles9(opcode % 16);
    case 10 => CyclesA(opcode % 16);
    case 11 => CyclesB(opcode % 16);
  }

  lemma {:induction false} CyclesToFF(opcode: byte)
    requires 0xC0 <= opcode <= 0xFF
    ensures opcode / 16 == 12 ==> Table(opcode).cycles == [2, 6, 0, 0, 3, 3, 5, 0, 2, 2, 2, 0, 4, 4, 6, 0][opcode % 16]
    ensures opcode / 16 == 13 ==> Table(opcode).cycles == [2, 5, 0, 0, 0, 4, 6, 0, 2, 4, 0, 0, 0, 4, 7, 0][opcode % 16]
    ensures opcode / 16 == 14 ==> Table(opcode).cycles == [2, 6, 0, 0, 3, 3, 5, 0, 2, 2, 2, 0, 4, 4, 6, 0][opcode % 16]
    ensures opcode / 16 == 15 ==> Table(opcode).cycles == [2, 5, 0, 0, 0, 4, 6, 0, 2, 4, 0, 0, 0, 4, 7, 0][opcode % 16]
    ensures Table(opcode).inst.Illegal? <==> Table(opcode).cycles == 0
  {
    hide Rows00, Rows20, Rows40, Rows60, Rows80, RowsA0, RowsC0, RowsE0;
    match opcode / 16
    case 12 => CyclesC(opcode % 16);
    case 13 => CyclesD(opcode % 16);
    case 14 => CyclesE(opcode % 16);
    case 15 => CyclesF(opcode % 16);
  }
}
