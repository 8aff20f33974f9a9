/** The sequential machine, driven by control signals, does what its opcodes mean. */
module OpAgreement {
  import opened Words
  import opened Bits
  import opened Adder
  import opened Alu
  import opened Isa
  import opened FlatMemory
  import opened MemorySystem
  import opened Datapath
  import opened Sequential
  import opened ArmReference
  import opened Pipeline
  import opened OpMeaning
  import Stages

  predicate ThreeRegisters(op: Op) {
    op in {ADDS_RR, CMN_RR, SUBS_RR, CMP_RR, MVN, ORR_RR, EOR_RR, ANDS_RR, TST_RR, LSL_RR, LSR_RR}
  }

  /** The encoding at `a`, when the instruction there is legal and not HLT. */
  lemma Encoding(p: Program, a: Arch)
    requires !Halted(p, a)
    ensures a.pc != 0 && !FetchFault(p.cfg, a.pc)
    ensures var d := SeqD(p, a);
      && d.bits == p.code(a.pc) && d.op == OpOf(d.bits) && d.format == FormatOf(d.op)
      && d.op != HLT && d.op != ERROR && d.op != UBFM && d.op != UBFMV
      && d.value == (if d.op == ADRP then AdrpValue(a.pc, d.bits) else Wrap(a.pc + 4))
  {
    hide AluResult, AluFlags, Sources, Field, OpTable, FormatOf, AdrpValue, Load64;
    NoSharedOpcodes(p.code(a.pc));
  }

  lemma ReadZ(regs: Regs, r: Reg)
    requires regs.Valid() && r <= 31
    ensures regs.Read(ZrFor31(r)) == GetZ(regs, r) && regs.Read(r) == GetSP(regs, r)
    ensures forall v: Word :: regs.Write(ZrFor31(r), v) == SetZ(regs, r, v) && regs.Write(r, v) == SetSP(regs, r, v)
  {}

  /** The register numbers decode extracts for each kind of instruction. */
  lemma OperandTable(op: Op, bits: Insn)
    ensures var o := OperandsOf(bits, op, FormatOf(op));
      var d, n := RegField(bits, 0), RegField(bits, 5);
      && (op in {ADD_RI, SUB_RI} ==> o.src1 == n && o.dst == d)
      && (op in {LSL_RI, LSR_RI, ASR} ==> o.src1 == ZrFor31(n) && o.dst == ZrFor31(d))
      && (op == MOVZ ==> o.src1 == XZR && o.dst == ZrFor31(d))
      && (op == MOVK ==> o.src1 == o.dst == ZrFor31(d))
      && (op == ADRP ==> o.dst == d)
      && (op == BL ==> o.dst == 30)
      && (op == LDUR ==> o.src1 == n && o.dst == ZrFor31(d))
      && (op == STUR ==> o.src1 == n && o.src2 == ZrFor31(d))
      && (op == RET ==> o.src1 == n)
  {
    hide RegField;
  }

  lemma ThreeRegisterTable(op: Op, bits: Insn)
    requires ThreeRegisters(op)
    ensures OperandsOf(bits, op, FormatOf(op)) ==
      Operands(ZrFor31(RegField(bits, 5)), ZrFor31(RegField(bits, 16)), ZrFor31(RegField(bits, 0)))
  {
    hide RegField;
  }

  /** The register numbers decode compares with that of a load are those the instruction reads. */
  lemma SourcesAreRead(op: Op, bits: Insn, r: nat)
    requires r < 31 && op != UBFM && op != UBFMV
    ensures var o := OperandsOf(bits, op, FormatOf(op));
      Reads(op, bits, r) <==> o.src1 == r || o.src2 == r
  {
    hide RegField;
  }

  lemma LoadWrites(bits: Insn)
    ensures OperandsOf(bits, LDUR, FormatOf(LDUR)).dst == ZrFor31(RegField(bits, 0))
  {
    hide RegField;
  }

  lemma StopReadsNothing(p: Program, b: Arch)
    requires Halted(p, b)
    ensures Sources(SeqD(p, b)).src1 == XZR && Sources(SeqD(p, b)).src2 == XZR
  {
    hide OpOf, AdrpValue, FetchFault;
  }

  lemma DecodedSources(p: Program, a: Arch)
    requires a.regs.Valid() && !Halted(p, a)
    ensures var bits := p.code(a.pc);
      && SeqX(p, a).op == SeqD(p, a).op == OpOf(bits) && SeqX(p, a).dst == Sources(SeqD(p, a)).dst
      && Sources(SeqD(p, a)) == OperandsOf(bits, OpOf(bits), FormatOf(OpOf(bits)))
      && OpOf(bits) != UBFM && OpOf(bits) != UBFMV
  {
    hide OpOf, OperandsOf, FormatOf, AdrpValue, ImmediateOf, HwOf, CondOf, FetchFault, Regs.Read;
    Encoding(p, a);
  }

  lemma StopIsNoLoad(p: Program, a: Arch)
    requires a.regs.Valid() && Halted(p, a)
    ensures SeqX(p, a).op != LDUR
  {
    hide OpOf, OperandsOf, AdrpValue, FetchFault, Regs.Read;
  }

  /** The hazard unit stalls for a load exactly when the next instruction reads what it loads. */
  lemma HazardIsUse(p: Program, a: Arch, b: Arch)
    requires a.regs.Valid() && b.regs.Valid()
    ensures var o := Sources(SeqD(p, b));
      LoadUse(SeqX(p, a), o.src1, o.src2) <==> Uses(p, a, b)
  {
    hide Halted, SeqX, SeqD, Sources, OperandsOf, OpOf, RegField, Reads;
    if Halted(p, a) {
      StopIsNoLoad(p, a);
    } else if Halted(p, b) {
      StopReadsNothing(p, b);
    } else {
      var first, next := p.code(a.pc), p.code(b.pc);
      DecodedSources(p, a);
      DecodedSources(p, b);
      LoadWrites(first);
      NoRegister31(OpOf(next), next);
      if RegField(first, 0) != 31 { SourcesAreRead(OpOf(next), next, RegField(first, 0)); }
    }
  }

  lemma NoRegister31(op: Op, bits: Insn)
    ensures !Reads(op, bits, 31)
  {}

  /** What decode reads for each kind of instruction, and where the result goes. */
  lemma DecodedOperands(p: Program, a: Arch)
    requires a.regs.Valid() && Behaves(p, a) && !Halted(p, a)
    ensures var x := SeqX(p, a);
      var bits := p.code(a.pc);
      var d, n, m := RegField(bits, 0), RegField(bits, 5), RegField(bits, 16);
      && x.op == OpOf(bits)
      && (ThreeRegisters(x.op) ==>
            OperandA(x) == GetZ(a.regs, n) && OperandB(x) == GetZ(a.regs, m) && x.dst == ZrFor31(d))
      && (x.op in {ADD_RI, SUB_RI} ==> OperandA(x) == GetSP(a.regs, n) && OperandB(x) == x.imm && x.dst == d)
      && (x.op in {LSL_RI, LSR_RI, ASR} ==>
            OperandA(x) == GetZ(a.regs, n) && OperandB(x) == x.imm && x.dst == ZrFor31(d))
      && (x.op == MOVZ ==> OperandA(x) == 0 && OperandB(x) == x.imm && x.dst == ZrFor31(d))
      && (x.op == MOVK ==> OperandA(x) == GetZ(a.regs, d) && OperandB(x) == x.imm && x.dst == ZrFor31(d))
      && (x.op == ADRP ==> OperandA(x) == AdrpValue(a.pc, bits) && x.dst == d)
      && (x.op == BL ==> OperandA(x) == Wrap(a.pc + 4) && x.dst == 30)
      && (x.op == LDUR ==> OperandA(x) == GetSP(a.regs, n) && OperandB(x) == x.imm && x.dst == ZrFor31(d))
      && (x.op == STUR ==> OperandA(x) == GetSP(a.regs, n) && OperandB(x) == x.imm && x.valB == GetZ(a.regs, d))
      && (x.op == RET ==> x.valA == GetSP(a.regs, n))
      && x.imm == ImmediateOf(bits, x.op) && x.hw == HwOf(bits) && x.cond == CondOf(bits)
      && x.value == (if x.op == ADRP then AdrpValue(a.pc, bits) else Wrap(a.pc + 4))
  {
    hide AluResult, AluFlags, Field, OpTable, AdrpValue, Load64, ImmediateOf, HwOf, CondOf, SeqD, Behaves, RegField,
      OpOf, OperandsOf, FormatOf, ZrFor31, GetZ, GetSP, Regs.Read;
    Encoding(p, a);
    var bits := p.code(a.pc);
    ReadZ(a.regs, RegField(bits, 0));
    ReadZ(a.regs, RegField(bits, 5));
    ReadZ(a.regs, RegField(bits, 16));
    OperandTable(OpOf(bits), bits);
    if ThreeRegisters(OpOf(bits)) { ThreeRegisterTable(OpOf(bits), bits); }
    ReadXZR(a.regs);
  }

  lemma ReadXZR(regs: Regs)
    requires regs.Valid()
    ensures regs.Read(XZR) == 0
  {}

  lemma {:induction false} OrZero(b: nat, n: nat)
    requires b < Pow2(n)
    ensures Zip(Or, 0, b, n) == b
  {
    if n > 0 { OrZero(b / 2, n - 1); }
  }

  /** What the ALU makes of its operands, operation by operation. */
  lemma AluMeaning(a: Word, b: Word, hw: nat)
    ensures AluResult(PLUS_OP, a, b, hw) == Wrap(a + b)
    ensures AluResult(MINUS_OP, a, b, hw) == Wrap(a - b)
    ensures AluResult(MOV_OP, 0, b, hw) == ShiftLeft(b, hw)
    ensures b < 64 ==> b % 64 == b
  {
    hide WordOp, Zip, Bit, ShiftLeft, Complement;
    PlusMeaning(a, b, hw);
    MinusMeaning(a, b, hw);
    OrZeroWord(ShiftLeft(b, hw));
  }

  lemma OrZeroWord(b: Word)
    ensures WordOp(Or, 0, b) == b
  {
    Pow2Is64();
    OrZero(b, 64);
  }

  lemma FlagMeaning(a: Word, b: Word)
    ensures PlusFlags(a, b) == FlagsOfSum(a, b)
    ensures MinusFlags(a, b) == FlagsOfDifference(a, b)
    ensures LogicFlags(a) == FlagsOfBits(a)
  {
    PlusMeaning(a, b, 0);
    MinusMeaning(a, b, 0);
  }

  lemma FieldBounds(bits: Insn)
    ensures Field(bits, 10, 12) < 4096 && Field(bits, 16, 6) < 64 && Field(bits, 5, 16) < 65536
  {
    hide Field;
    Pow2Is12();
    assert Pow2(6) == 64;
    Pow2Is16();
  }

  lemma Immediates(bits: Insn)
    ensures ImmediateOf(bits, ADD_RI) == ImmediateOf(bits, SUB_RI) == Field(bits, 10, 12)
    ensures ImmediateOf(bits, MOVZ) == ImmediateOf(bits, MOVK) == Field16(bits)
    ensures ImmediateOf(bits, LSR_RI) == ImmediateOf(bits, ASR) == Field(bits, 16, 6) < 64
    ensures ImmediateOf(bits, LSL_RI) == 64 - Field(bits, 16, 6)
  {
    hide Field, SignedField, Pow2;
    FieldBounds(bits);
  }

  lemma Pow2Is12()
    ensures Pow2(12) == 4096
  {
    assert Pow2(6) == 64;
    Pow2Add(6, 6);
  }

  lemma WrapSum(x: int, y: int)
    ensures Wrap(x + Wrap(y)) == Wrap(x + y)
  {
    var q := y / TWO64;
    assert Wrap(y) == y - q * TWO64;
    assert x + Wrap(y) == (x + y) - q * TWO64;
  }

  lemma SumsAgree(op: Op, bits: Insn, a: Arch, cfg: Config, x: Word, y: Word, hw: nat)
    requires a.regs.Valid() && op in {ADD_RI, SUB_RI, ADDS_RR, SUBS_RR}
    requires if op in {ADD_RI, SUB_RI} then x == GetSP(a.regs, RegField(bits, 5)) && y == ImmediateOf(bits, op)
             else x == GetZ(a.regs, RegField(bits, 5)) && y == GetZ(a.regs, RegField(bits, 16))
    ensures Yields(ResultOf(op, bits, a, cfg), AluResult(AluOpOf(op), x, y, hw))
  {
    hide AluResult, ImmediateOf, Field, RegField, GetZ, GetSP;
    AluMeaning(x, y, hw);
    Immediates(bits);
  }

  lemma LogicAgrees(op: Op, bits: Insn, a: Arch, cfg: Config, x: Word, y: Word, hw: nat)
    requires a.regs.Valid() && op in {ANDS_RR, ORR_RR, EOR_RR, MVN, LSL_RR, LSR_RR}
    requires x == GetZ(a.regs, RegField(bits, 5)) && y == GetZ(a.regs, RegField(bits, 16))
    ensures Yields(ResultOf(op, bits, a, cfg), AluResult(AluOpOf(op), x, y, hw))
  {
    hide WordOp, ShiftLeft, ShiftRight, Complement, RegField, GetZ;
  }

  lemma ShiftsAgree(op: Op, bits: Insn, a: Arch, cfg: Config, x: Word, y: Word, hw: nat)
    requires a.regs.Valid() && op in {LSL_RI, LSR_RI, ASR}
    requires x == GetZ(a.regs, RegField(bits, 5)) && y == ImmediateOf(bits, op)
    ensures Yields(ResultOf(op, bits, a, cfg), AluResult(AluOpOf(op), x, y, hw))
  {
    hide ShiftLeft, ShiftRight, RegField, GetZ, ImmediateOf, Field, Signed, Pow2, Wrap;
    Immediates(bits);
  }

  lemma MovesAgree(op: Op, bits: Insn, a: Arch, cfg: Config, x: Word, y: Word)
    requires a.regs.Valid() && op in {MOVZ, MOVK, ADRP, BL}
    requires op == MOVZ ==> x == 0
    requires op == MOVK ==> x == GetZ(a.regs, RegField(bits, 0))
    requires op in {MOVZ, MOVK} ==> y == ImmediateOf(bits, op)
    requires op == ADRP ==> x == AdrpValue(a.pc, bits)
    requires op == BL ==> x == Wrap(a.pc + 4)
    ensures Yields(ResultOf(op, bits, a, cfg), AluResult(AluOpOf(op), x, y, HwOf(bits)))
  {
    hide ShiftLeft, WordOp, Complement, RegField, GetZ, ImmediateOf, Field, AdrpValue, Wrap, HwOf, Field16;
    Immediates(bits);
    OrZeroWord(ShiftLeft(y, HwOf(bits)));
  }

  /** Which instructions write a register, and which do so from the ALU. */
  lemma WritesResult(op: Op, bits: Insn, a: Arch, cfg: Config)
    requires a.regs.Valid()
    ensures ResultOf(op, bits, a, cfg).Write? <==> ControlOf(op).w.wEnable && op != UBFM && op != UBFMV
    ensures ControlOf(op).w.wEnable ==>
      op in {LDUR, ADD_RI, SUB_RI, ADDS_RR, SUBS_RR, ANDS_RR, ORR_RR, EOR_RR, MVN, LSL_RR, LSR_RR,
             LSL_RI, LSR_RI, ASR, MOVZ, MOVK, ADRP, BL}
  {
    hide ShiftLeft, ShiftRight, WordOp, Complement, RegField, GetZ, GetSP, Field, SignedField, AdrpValue, Wrap, HwOf,
      Field16, Load64, DataWord, Pow2, Signed;
  }

  lemma AddressIsSum(x: XReg, nzcv: Flags)
    requires x.aluOp == PLUS_OP
    ensures Execute(x, nzcv).valEx == Wrap(OperandA(x) + OperandB(x))
  {
    hide AluResult, OperandA, OperandB, Wrap, CondHolds, ExecuteFlags;
    AluMeaning(OperandA(x), OperandB(x), x.hw);
  }

  lemma AddressAgrees(p: Program, a: Arch)
    requires a.regs.Valid() && Behaves(p, a) && !Halted(p, a)
    ensures var m := SeqM(p, a);
      var bits := p.code(a.pc);
      m.op in {LDUR, STUR} ==> m.valEx == Wrap(GetSP(a.regs, RegField(bits, 5)) + SignedField(bits, 12, 9))
  {
    hide Behaves, SeqX, SeqD, Halted, OperandA, OperandB, Execute, Field, SignedField, RegField, AdrpValue, CondOf,
      HwOf, OpOf, GetZ, GetSP, Wrap, ZrFor31;
    DecodedOperands(p, a);
    Signals(p, a);
    var x := SeqX(p, a);
    ExecutedOp(x, a.nzcv);
    if x.op in {LDUR, STUR} {
      AddressIsSum(x, a.nzcv);
      WrapSum(OperandA(x), SignedField(p.code(a.pc), 12, 9));
    }
  }

  lemma ExecutedOp(x: XReg, nzcv: Flags)
    ensures Execute(x, nzcv).op == x.op
  {}

  /** The ALU result of every instruction that uses it. */
  lemma AluAgrees(p: Program, a: Arch)
    requires a.regs.Valid() && Behaves(p, a) && !Halted(p, a)
    ensures var m := SeqM(p, a);
      var bits := p.code(a.pc);
      && (m.op in {LDUR, STUR} ==> m.valEx == Wrap(GetSP(a.regs, RegField(bits, 5)) + SignedField(bits, 12, 9)))
      && (m.ws.wEnable && m.op != LDUR ==> Yields(ResultOf(m.op, bits, a, p.cfg), m.valEx))
  {
    hide AluResult, AluFlags, Behaves, SeqX, Halted, OperandA, OperandB, ResultOf, ControlOf, Field, SignedField,
      RegField, AdrpValue, CondOf, HwOf, OpOf, GetZ, GetSP, Wrap, CondHolds, ExecuteFlags;
    AddressAgrees(p, a);
    DecodedOperands(p, a);
    Signals(p, a);
    var x, bits := SeqX(p, a), p.code(a.pc);
    var u, v := OperandA(x), OperandB(x);
    WritesResult(x.op, bits, a, p.cfg);
    if x.ws.wEnable && x.op != LDUR {
      if x.op in {ADD_RI, SUB_RI, ADDS_RR, SUBS_RR} {
        SumsAgree(x.op, bits, a, p.cfg, u, v, x.hw);
      } else if x.op in {LSL_RI, LSR_RI, ASR} {
        ShiftsAgree(x.op, bits, a, p.cfg, u, v, x.hw);
      } else if x.op in {MOVZ, MOVK, ADRP, BL} {
        MovesAgree(x.op, bits, a, p.cfg, u, v);
      } else {
        LogicAgrees(x.op, bits, a, p.cfg, u, v, x.hw);
      }
    }
  }

  lemma Signals(p: Program, a: Arch)
    requires a.regs.Valid()
    ensures var x := SeqX(p, a);
      var s := ControlOf(x.op);
      x.op == SeqD(p, a).op && x.xs == s.x && x.ms == s.m && x.ws == s.w && x.aluOp == AluOpOf(x.op)
  {}

  lemma WhereResultGoes(op: Op, bits: Insn, a: Arch, cfg: Config)
    requires a.regs.Valid()
    ensures var r := ResultOf(op, bits, a, cfg);
      r.Write? ==>
        && r.dst == (if op == BL then 30 else RegField(bits, 0))
        && (r.toSP <==> op in {ADD_RI, SUB_RI, ADRP})
  {
    hide ShiftLeft, ShiftRight, WordOp, Complement, RegField, GetZ, GetSP, Field, SignedField, AdrpValue, Wrap, HwOf,
      Field16, Load64, DataWord, Pow2, Signed;
  }

  /** The word a load brings to writeback. */
  lemma LoadAgrees(p: Program, a: Arch)
    requires a.regs.Valid() && Behaves(p, a) && !Halted(p, a) && SeqD(p, a).op == LDUR
    ensures Yields(ResultOf(LDUR, p.code(a.pc), a, p.cfg), SeqW(p, a).valMem)
  {
    hide AluResult, AluFlags, Behaves, SeqX, Halted, Field, SignedField, RegField, AdrpValue, CondOf, HwOf, OpOf,
      GetZ, GetSP, Wrap, Load64, CondHolds, AddressFault, DataWord;
    Signals(p, a);
    AluAgrees(p, a);
  }

  lemma RegistersAgree(p: Program, a: Arch)
    requires a.regs.Valid() && Behaves(p, a) && !Halted(p, a)
    ensures var bits := p.code(a.pc);
      var r := ResultOf(OpOf(bits), bits, a, p.cfg);
      && (r.Write? ==> r.dst <= 31)
      && WriteRegs(a.regs, SeqW(p, a)) == RegsAfter(r, a.regs)
  {
    hide AluResult, AluFlags, Behaves, SeqX, SeqM, Halted, ResultOf, ControlOf, OperandA, OperandB, Field,
      SignedField, RegField, AdrpValue, CondOf, HwOf, OpOf, GetZ, GetSP, Wrap, CondHolds, Load64, LoadFor,
      AddressFault, Regs.Read, Regs.Write;
    Encoding(p, a);
    Signals(p, a);
    Stages.StatusOf(p, a);
    DecodedOperands(p, a);
    AluAgrees(p, a);
    SeqShape(p, a);
    var bits := p.code(a.pc);
    var op := OpOf(bits);
    WritesResult(op, bits, a, p.cfg);
    WhereResultGoes(op, bits, a, p.cfg);
    ReadZ(a.regs, RegField(bits, 0));
    LinkRegister(a.regs);
    OpSignals(op);
    if op == LDUR { LoadAgrees(p, a); }
  }

  lemma OpSignals(op: Op)
    ensures ControlOf(op).w.wvalSel <==> op == LDUR
    ensures ControlOf(op).x.setFlags <==> op in {ADDS_RR, CMN_RR, SUBS_RR, CMP_RR, ANDS_RR, TST_RR}
    ensures ControlOf(op).m.write <==> op == STUR
  {}

  lemma LinkRegister(regs: Regs)
    requires regs.Valid()
    ensures forall v: Word :: regs.Write(30, v) == SetZ(regs, 30, v)
  {}

  lemma SeqShape(p: Program, a: Arch)
    requires a.regs.Valid()
    ensures var x, m, w := SeqX(p, a), SeqM(p, a), SeqW(p, a);
      && m.op == x.op && m.ws == x.ws && m.ms == x.ms && m.dst == x.dst && m.value == x.value && m.valB == x.valB
      && w.ws == x.ws && w.dst == x.dst && w.valEx == m.valEx
  {
    hide AluResult, AluFlags, Decode;
  }

  lemma FlagsAgree(p: Program, a: Arch)
    requires a.regs.Valid() && Behaves(p, a) && !Halted(p, a)
    ensures ExecuteFlags(SeqX(p, a), a.nzcv) == FlagsFor(OpOf(p.code(a.pc)), p.code(a.pc), a)
  {
    hide PlusFlags, MinusFlags, LogicFlags, AddWithCarry, WordOp, FlagsOfSum, FlagsOfDifference, FlagsOfBits, Behaves,
      SeqX, Halted, ControlOf, OperandA, OperandB, OpOf, RegField, Field, GetZ, GetSP;
    Signals(p, a);
    DecodedOperands(p, a);
    var x := SeqX(p, a);
    OpSignals(x.op);
    FlagMeaning(OperandA(x), OperandB(x));
    FlagMeaning(AluResult(AND_OP, OperandA(x), OperandB(x), x.hw), 0);
  }

  /** The condition an encoding names is the one its four bits stand for. */
  lemma ConditionsAgree(bits: Insn, f: Flags)
    ensures Field(bits, 0, 4) < 16
    ensures CondHolds(CondOf(bits), f) <==> ConditionHolds(Field(bits, 0, 4), f)
  {
    hide Field;
    assert Pow2(4) == 16;
  }

  lemma BranchDecided(p: Program, a: Arch)
    requires a.regs.Valid() && Behaves(p, a) && !Halted(p, a)
    ensures Mispredicted(SeqM(p, a)) <==>
              SeqX(p, a).op == B_COND && !ConditionHolds(Field(p.code(a.pc), 0, 4), a.nzcv)
  {
    hide AluResult, AluFlags, Behaves, SeqX, Halted, ControlOf, OperandA, OperandB, OpOf, RegField, Field, GetZ,
      GetSP, SignedField, Wrap, CondHolds, ConditionHolds, AdrpValue, CondOf, HwOf, ImmediateOf, ExecuteFlags;
    Signals(p, a);
    DecodedOperands(p, a);
    var x := SeqX(p, a);
    OpSignals(x.op);
    Stages.FlagsKeptBy(x, a.nzcv);
    ConditionsAgree(p.code(a.pc), a.nzcv);
  }

  lemma NextAgrees(p: Program, a: Arch)
    requires a.regs.Valid() && Behaves(p, a) && !Halted(p, a)
    ensures PCAfter(p, a) == NextAddress(OpOf(p.code(a.pc)), p.code(a.pc), a)
  {
    hide Behaves, SeqX, SeqM, SeqD, Halted, OperandA, OperandB, OpOf, RegField, GetZ, GetSP, SignedField, Wrap,
      ConditionHolds, AdrpValue, CondOf, HwOf, ImmediateOf, FetchFault, Mispredicted, FormatOf, Field;
    Encoding(p, a);
    DecodedOperands(p, a);
    BranchDecided(p, a);
  }

  lemma StoreAgrees(p: Program, a: Arch)
    requires a.regs.Valid() && Behaves(p, a) && !Halted(p, a)
    ensures MemAfter(p, a) == OpStep(p, a).mem && OutputAfter(p, a) == OpStep(p, a).output
  {
    hide AluResult, AluFlags, Behaves, SeqX, SeqM, Halted, ControlOf, OperandA, OperandB, OpOf, RegField, Field, GetZ,
      GetSP, SignedField, Wrap, CondHolds, AdrpValue, CondOf, HwOf, ImmediateOf, ResultOf, RegsAfter, FlagsFor,
      NextAddress, Store64, DataWord;
    Encoding(p, a);
    Signals(p, a);
    SeqShape(p, a);
    DecodedOperands(p, a);
    AluAgrees(p, a);
    OpSignals(SeqX(p, a).op);
  }

  /** For every legal instruction in every state, the datapath and its control signals
      do exactly what the opcode means. */
  lemma SequentialIsOp(p: Program, a: Arch)
    requires a.regs.Valid() && Behaves(p, a) && !Halted(p, a)
    ensures SeqStep(p, a) == OpStep(p, a)
  {
    hide Behaves, Halted, SeqX, SeqW, OpOf, ResultOf, RegsAfter, FlagsFor, NextAddress, PCAfter, MemAfter,
      OutputAfter, ExecuteFlags, WriteRegs, Store64, DataWord;
    RegistersAgree(p, a);
    FlagsAgree(p, a);
    NextAgrees(p, a);
    StoreAgrees(p, a);
  }
}
