/** The instruction set: which opcode a 32-bit encoding stands for, which registers,
    immediate and control signals it carries, and where fetch goes next. */
module Isa {
  import opened Words
  import opened Alu

  datatype Op =
    | NOP | LDUR | STUR | MOVK | MOVZ | ADRP | ADD_RI | ADDS_RR | CMN_RR | SUB_RI | SUBS_RR
    | CMP_RR | MVN | ORR_RR | EOR_RR | ANDS_RR | TST_RR | LSL_RI | LSR_RI | UBFM
    | LSL_RR | LSR_RR | UBFMV | ASR | B | B_COND | BL | RET | HLT | ERROR

  datatype Format =
    | FormatError | FormatM | FormatI1 | FormatI2 | FormatRR | FormatRI
    | FormatB1 | FormatB2 | FormatB3 | FormatS

  datatype Status = BUB | AOK | STOP | ADR | INS

  /** Register numbers: 0 to 30, then the stack pointer and the zero register. */
  type Reg = r: int | 0 <= r <= 32

  const SP: Reg := 31
  const XZR: Reg := 32

  datatype DSigs = DSigs(src2Sel: bool)
  datatype XSigs = XSigs(valaSel: bool, valbSel: bool, setFlags: bool)
  datatype MSigs = MSigs(read: bool, write: bool)
  datatype WSigs = WSigs(dstSel: bool, wvalSel: bool, wEnable: bool)
  datatype Sigs = Sigs(d: DSigs, x: XSigs, m: MSigs, w: WSigs)

  datatype Operands = Operands(src1: Reg, src2: Reg, dst: Reg)

  /** The opcode table, indexed by the top 11 bits. */
  function OpTable(top11: nat): Op {
    if top11 == 0x7c2 then LDUR
    else if top11 == 0x7c0 then STUR
    else if 0x794 <= top11 <= 0x797 then MOVK
    else if 0x694 <= top11 <= 0x697 then MOVZ
    else if 0x480 <= top11 <= 0x487 || 0x580 <= top11 <= 0x587
         || 0x680 <= top11 <= 0x687 || 0x780 <= top11 <= 0x787 then ADRP
    else if 0x488 <= top11 <= 0x489 then ADD_RI
    else if top11 == 0x558 then ADDS_RR
    else if 0x688 <= top11 <= 0x689 then SUB_RI
    else if top11 == 0x758 then SUBS_RR
    else if top11 == 0x551 then MVN
    else if top11 == 0x550 then ORR_RR
    else if top11 == 0x650 then EOR_RR
    else if top11 == 0x750 then ANDS_RR
    else if 0x69a <= top11 <= 0x69b then UBFM
    else if top11 == 0x4d6 then UBFMV
    else if 0x49a <= top11 <= 0x49b then ASR
    else if 0x0a0 <= top11 <= 0x0bf then B
    else if 0x2a0 <= top11 <= 0x2a7 then B_COND
    else if 0x4a0 <= top11 <= 0x4bf then BL
    else if top11 == 0x6b2 then RET
    else if top11 == 0x6a8 then NOP
    else if top11 == 0x6a2 then HLT
    else ERROR
  }

  /** Encodings that share a table entry are told apart by further fields. */
  function FixAliases(bits: Insn, op: Op): Op {
    match op
    case UBFM => if Field(bits, 10, 6) == 63 then LSR_RI else LSL_RI
    case UBFMV => if Field(bits, 10, 2) == 0 then LSL_RR else LSR_RR
    case SUBS_RR => if Field(bits, 0, 5) == 31 then CMP_RR else op
    case ADDS_RR => if Field(bits, 0, 5) == 31 then CMN_RR else op
    case ANDS_RR => if Field(bits, 0, 5) == 31 then TST_RR else op
    case _ => op
  }

  function OpOf(bits: Insn): Op {
    FixAliases(bits, OpTable(Field(bits, 21, 11)))
  }

  function FormatOf(op: Op): Format {
    match op
    case LDUR | STUR => FormatM
    case MOVK | MOVZ => FormatI1
    case ADRP => FormatI2
    case ADD_RI | SUB_RI | LSL_RI | LSR_RI | UBFM | ASR => FormatRI
    case ADDS_RR | CMN_RR | SUBS_RR | CMP_RR | MVN | ORR_RR | EOR_RR | ANDS_RR | TST_RR
       | LSL_RR | LSR_RR | UBFMV => FormatRR
    case B | BL => FormatB1
    case B_COND => FormatB2
    case RET => FormatB3
    case NOP | HLT => FormatS
    case ERROR => FormatError
  }

  function ControlOf(op: Op): Sigs {
    var d := DSigs(op == STUR);
    var m := MSigs(op == LDUR, op == STUR);
    match op
    case LDUR => Sigs(d, XSigs(false, false, false), m, WSigs(false, true, true))
    case STUR => Sigs(d, XSigs(false, false, false), m, WSigs(false, false, false))
    case MOVZ | MOVK | ADD_RI | SUB_RI | LSL_RI | LSR_RI | ASR =>
      Sigs(d, XSigs(false, false, false), m, WSigs(false, false, true))
    case ADRP => Sigs(d, XSigs(true, false, false), m, WSigs(false, false, true))
    case ADDS_RR | SUBS_RR | ANDS_RR =>
      Sigs(d, XSigs(false, true, true), m, WSigs(false, false, true))
    case CMN_RR | CMP_RR | TST_RR =>
      Sigs(d, XSigs(false, true, true), m, WSigs(false, false, false))
    case MVN | ORR_RR | EOR_RR | LSL_RR | LSR_RR =>
      Sigs(d, XSigs(false, true, false), m, WSigs(false, false, true))
    case BL => Sigs(d, XSigs(true, false, false), m, WSigs(true, false, true))
    case _ => Sigs(d, XSigs(false, false, false), m, WSigs(false, false, false))
  }

  function AluOpOf(op: Op): AluOp {
    match op
    case LDUR | STUR | ADD_RI | ADDS_RR | CMN_RR => PLUS_OP
    case MOVZ => MOV_OP
    case MOVK => MOVK_OP
    case SUB_RI | SUBS_RR | CMP_RR => MINUS_OP
    case MVN => INV_OP
    case ORR_RR => OR_OP
    case EOR_RR => EOR_OP
    case ANDS_RR | TST_RR => AND_OP
    case LSL_RI | LSL_RR => LSL_OP
    case LSR_RI | LSR_RR => LSR_OP
    case ASR => ASR_OP
    case _ => PASS_A_OP
  }

  function ImmediateOf(bits: Insn, op: Op): Word {
    match op
    case LDUR | STUR => Wrap(SignedField(bits, 12, 9))
    case MOVZ | MOVK => Wrap(Field(bits, 5, 16))
    case ADD_RI | SUB_RI => Wrap(Field(bits, 10, 12))
    case LSL_RI => Wrap(64 - Field(bits, 16, 6))
    case LSR_RI | ASR => Wrap(Field(bits, 16, 6))
    case _ => 0
  }

  function HwOf(bits: Insn): nat {
    Field(bits, 21, 2) * 16
  }

  function CondOf(bits: Insn): Cond {
    match Field(bits, 0, 4)
    case 0 => EQ
    case 1 => NE
    case 2 => CS
    case 3 => CC
    case 4 => MI
    case 5 => PL
    case 6 => VS
    case 7 => VC
    case 8 => HI
    case 9 => LS
    case 10 => GE
    case 11 => LT
    case 12 => GT
    case 13 => LE
    case 14 => AL
    case _ => NV
  }

  function RegField(bits: Insn, from: nat): (r: Reg)
    ensures r <= 31
  {
    assert Pow2(5) == 32;
    Field(bits, from, 5)
  }

  function ExtractRegs(bits: Insn, op: Op, format: Format): Operands {
    match format
    case FormatM => Operands(RegField(bits, 5), XZR, RegField(bits, 0))
    case FormatI1 => Operands(if op == MOVK then RegField(bits, 0) else XZR, XZR, RegField(bits, 0))
    case FormatI2 => Operands(XZR, XZR, RegField(bits, 0))
    case FormatRR => Operands(RegField(bits, 5), RegField(bits, 16), RegField(bits, 0))
    case FormatRI => Operands(RegField(bits, 5), XZR, RegField(bits, 0))
    case FormatB3 => Operands(RegField(bits, 5), XZR, XZR)
    case _ => Operands(XZR, XZR, XZR)
  }

  function ZrFor31(r: Reg): Reg {
    if r == SP then XZR else r
  }

  /** Which opcodes read register number 31 as zero rather than as the stack pointer. */
  function FixRegs(op: Op, o: Operands): Operands {
    match op
    case ADDS_RR | CMN_RR | SUBS_RR | CMP_RR | MVN | ORR_RR | EOR_RR | ANDS_RR | TST_RR
       | LSL_RR | LSR_RR | LSL_RI | LSR_RI | ASR | MOVZ | MOVK =>
      Operands(ZrFor31(o.src1), ZrFor31(o.src2), ZrFor31(o.dst))
    case LDUR => Operands(o.src1, o.src2, ZrFor31(o.dst))
    case STUR => Operands(o.src1, ZrFor31(o.src2), ZrFor31(o.dst))
    case _ => o
  }

  /** The registers decode reads and writes: a store reads its data register through
      the second port, and BL writes the link register. */
  function OperandsOf(bits: Insn, op: Op, format: Format): Operands {
    var o := FixRegs(op, ExtractRegs(bits, op, format));
    var s := ControlOf(op);
    Operands(o.src1, if s.d.src2Sel then o.dst else o.src2, if s.w.dstSel then 30 else o.dst)
  }

  /** Where fetch expects to go after the instruction at `pc`; conditional branches are
      predicted taken. */
  function PredictPC(pc: Word, bits: Insn, op: Op): Word {
    match op
    case B | BL => Wrap(pc + SignedField(bits, 0, 26) * 4)
    case B_COND => Wrap(pc + SignedField(bits, 5, 19) * 4)
    case _ => Wrap(pc + 4)
  }

  /** The page-relative address ADRP computes during fetch. */
  function AdrpValue(pc: Word, bits: Insn): Word {
    var raw := Field(bits, 5, 19) * 4 + Field(bits, 29, 2);
    var imm := if raw < 0x100000 then raw else raw - 0x200000;
    Wrap(pc - pc % 4096 + imm * 4096)
  }

  /** Fetch resolves every alias, so later stages never see the shared opcodes. */
  lemma NoSharedOpcodes(bits: Insn)
    ensures OpOf(bits) != UBFM && OpOf(bits) != UBFMV
  {}
}
