/** Inputs that show what the theorems are about: programs that meet their conditions, and
    encodings and programs that show their exceptions. */
module Witness {
  import opened Words
  import opened Alu
  import opened Isa
  import opened MemorySystem
  import opened Datapath
  import opened Sequential
  import opened Stages
  import opened Bits
  import opened Invariant
  import opened ArmReference
  import opened ArmExceptions
  import opened TextFetch

  const NOP_BITS: Insn := 0xD503_201F

  /** NOPs from `entry` on, and HLT after `h` of them. */
  function NopsThenHalt(cfg: Config, entry: Word, h: nat): Program {
    Program(cfg, pc => if pc < entry + 4 * h then NOP_BITS else HALT_BITS)
  }

  lemma KnownOpcodes()
    ensures OpOf(NOP_BITS) == NOP && OpOf(HALT_BITS) == HLT
  {
    hide OpOf, Field;
    OpFromTop(NOP_BITS, 0x6A8);
    OpFromTop(HALT_BITS, 0x6A2);
  }

  /** The opcode of an instruction without aliases, from its top eleven bits. */
  lemma OpFromTop(bits: Insn, top11: nat)
    requires bits / 0x20_0000 == top11 < 0x800
    requires OpTable(top11) !in {UBFM, UBFMV, SUBS_RR, ADDS_RR, ANDS_RR}
    ensures OpOf(bits) == OpTable(top11)
  {
    hide OpTable, RegField;
    TopBits(bits, top11);
  }

  lemma TopBits(bits: Insn, top11: nat)
    requires bits / 0x20_0000 == top11 < 0x800
    ensures Field(bits, 21, 11) == top11
  {
    assert Pow2(21) == 0x20_0000 && Pow2(11) == 0x800;
  }

  lemma NopSteps(p: Program, a: Arch)
    requires a.regs.Valid() && a.pc != 0 && !FetchFault(p.cfg, a.pc) && p.code(a.pc) == NOP_BITS && a.pc + 4 < TWO64
    ensures Behaves(p, a) && !Halted(p, a) && SeqStep(p, a).pc == a.pc + 4
  {
    hide OpOf, AluResult, AluFlags, ImmediateOf, AdrpValue, RegField, CondHolds;
    KnownOpcodes();
  }

  lemma HaltStays(p: Program, a: Arch)
    requires a.regs.Valid() && a.pc != 0 && !FetchFault(p.cfg, a.pc) && p.code(a.pc) == HALT_BITS
    ensures Behaves(p, a) && Halted(p, a)
  {
    hide OpOf, AluResult, AluFlags, ImmediateOf, AdrpValue, RegField, CondHolds;
    KnownOpcodes();
  }

  lemma {:induction false} NopsMarch(p: Program, a0: Arch, h: nat, i: nat)
    requires a0.regs.Valid() && p == NopsThenHalt(p.cfg, a0.pc, h) && i <= h
    requires a0.pc > 0 && a0.pc % 4 == 0 && InText(p.cfg, a0.pc) && a0.pc + 4 * h < p.cfg.dataStart
    ensures At(p, a0, i).pc == a0.pc + 4 * i
    ensures Behaves(p, At(p, a0, i)) && (Halted(p, At(p, a0, i)) <==> i == h)
  {
    hide Behaves, Halted, SeqStep;
    if i > 0 {
      NopsMarch(p, a0, h, i - 1);
      NopSteps(p, At(p, a0, i - 1));
    }
    if i < h { NopSteps(p, At(p, a0, i)); } else { HaltStays(p, At(p, a0, i)); }
  }

  /** Its text is closed, so its fetches stay below the data. */
  lemma NopsStayBelow(p: Program, a0: Arch, h: nat)
    requires a0.regs.Valid() && p == NopsThenHalt(p.cfg, a0.pc, h)
    requires a0.pc > 0 && a0.pc % 4 == 0 && InText(p.cfg, a0.pc) && a0.pc + 4 * h < p.cfg.dataStart
    ensures TextIsClosed(p) && RunsBelow(p, a0)
  {
    hide OpOf, SeqRun, Halted;
    KnownOpcodes();
    forall i: nat ensures At(p, a0, i).pc < p.cfg.dataStart {
      NopsMarch(p, a0, h, if i < h then i else h);
      if i >= h { HaltedForever(p, a0, h, i); }
    }
  }

  /** The theorems are about something: this program behaves and halts after `h` steps, not
      before, whatever the cache. */
  lemma NopsBehave(p: Program, a0: Arch, h: nat)
    requires a0.regs.Valid() && p == NopsThenHalt(p.cfg, a0.pc, h)
    requires a0.pc > 0 && a0.pc % 4 == 0 && InText(p.cfg, a0.pc) && a0.pc + 4 * h < p.cfg.dataStart
    ensures WellBehaved(p, a0)
    ensures Halted(p, At(p, a0, h)) && forall i: nat | i < h :: !Halted(p, At(p, a0, i))
  {
    hide Behaves, Halted, SeqRun, TextIsClosed, RunsBelow, PathBelow;
    NopsStayBelow(p, a0, h);
    ClosedTextIsFetched(p, a0);
    forall i: nat ensures Behaves(p, SeqRun(p, a0, i)) && (i < h ==> !Halted(p, At(p, a0, i))) {
      NopsMarch(p, a0, h, if i < h then i else h);
      if i >= h { HaltedForever(p, a0, h, i); }
    }
    NopsMarch(p, a0, h, h);
  }

  // One encoding of each family that is not run as the architecture has it.

  const ADDS_SHIFTED: Insn := 0xAB02_0C20
  const SXTW: Insn := 0x9340_7C20
  const UDIV_0: Insn := 0x9AC2_0820
  const STR_PRE: Insn := 0xF81F_0FE0
  const LDR_POST: Insn := 0xF840_8420
  const RET_31: Insn := 0xD65F_03E0
  const ADRP_31: Insn := 0x9000_001F

  /** The fields of an encoding, as plain arithmetic. */
  lemma FieldValues(bits: Insn)
    ensures Field(bits, 21, 11) == bits / 0x20_0000 && Six(bits, 10) == bits / 0x400 % 64
    ensures Six(bits, 16) == bits / 0x1_0000 % 64
    ensures Field(bits, 10, 2) == bits / 0x400 % 4 && Field(bits, 4, 1) == bits / 16 % 2
    ensures Field(bits, 0, 4) == bits % 16
  {
    SmallPowers();
    assert Pow2(21) == 0x20_0000 && Pow2(16) == 0x1_0000;
  }

  lemma RegisterValues(bits: Insn)
    ensures RegField(bits, 0) == bits % 32 && RegField(bits, 5) == bits / 32 % 32
    ensures RegField(bits, 16) == bits / 0x1_0000 % 32
  {
    SmallPowers();
    assert Pow2(16) == 0x1_0000;
  }

  lemma OffsetValue(bits: Insn)
    ensures SignedField(bits, 12, 9) == (var f := bits / 0x1000 % 512; if f < 256 then f else f - 512)
  {
    SmallPowers();
  }

  lemma BranchValue(bits: Insn)
    ensures SignedField(bits, 5, 19) == (var f := bits / 32 % 0x8_0000; if f < 0x4_0000 then f else f - 0x8_0000)
  {
    SmallPowers();
    Pow2Add(9, 9);
    Pow2Add(9, 10);
  }

  lemma SmallPowers()
    ensures Pow2(0) == 1 && Pow2(1) == 2 && Pow2(2) == 4 && Pow2(4) == 16 && Pow2(5) == 32 && Pow2(6) == 64
    ensures Pow2(8) == 256 && Pow2(9) == 512 && Pow2(10) == 1024 && Pow2(11) == 2048 && Pow2(12) == 4096
  {
    assert Pow2(10) == 1024;
    assert Pow2(12) == 4 * Pow2(10);
  }

  lemma ShiftedSum()
    ensures A64Of(ADDS_SHIFTED) == AddSubShifted(false, 3) && !AsArm(ADDS_SHIFTED)
  {
    hide Field, Six, RegField, SignedField;
    FieldValues(ADDS_SHIFTED);
    RegisterValues(ADDS_SHIFTED);
  }

  lemma SignedField31()
    ensures A64Of(SXTW) == Bitfield(true, 0, 31) && !AsArm(SXTW)
  {
    hide A64Of, RegField;
    SignedKind();
    RegisterValues(SXTW);
  }

  lemma SignedKind()
    ensures A64Of(SXTW) == Bitfield(true, 0, 31)
  {
    hide Field, Six, RegField, SignedField;
    FieldValues(SXTW);
  }

  lemma Division()
    ensures A64Of(UDIV_0) == DataTwoSource(UDIV) && !AsArm(UDIV_0)
  {
    hide Field, Six, RegField, SignedField;
    FieldValues(UDIV_0);
    RegisterValues(UDIV_0);
  }

  lemma PreIndexed()
    ensures A64Of(STR_PRE) == LoadStore(false, PreIndex) && !AsArm(STR_PRE)
  {
    hide Field, Six, RegField, SignedField;
    FieldValues(STR_PRE);
    RegisterValues(STR_PRE);
    OffsetValue(STR_PRE);
  }

  lemma PostIndexed()
    ensures A64Of(LDR_POST) == LoadStore(true, PostIndex) && !AsArm(LDR_POST)
  {
    hide Field, Six, RegField, SignedField;
    FieldValues(LDR_POST);
    RegisterValues(LDR_POST);
    OffsetValue(LDR_POST);
  }

  lemma ReturnThroughSP()
    ensures A64Of(RET_31) == Return && !AsArm(RET_31)
  {
    hide Field, Six, RegField, SignedField;
    FieldValues(RET_31);
    RegisterValues(RET_31);
  }

  lemma PageToSP()
    ensures A64Of(ADRP_31) == PageAddress && !AsArm(ADRP_31)
  {
    hide Field, Six, RegField, SignedField;
    FieldValues(ADRP_31);
    RegisterValues(ADRP_31);
  }

  /** A pre-indexed store, by its encoding: the architecture moves the base register. */
  lemma StorePreDiffers() returns (p: Program, a: Arch)
    ensures a.regs.Valid() && p.code(a.pc) == STR_PRE && Behaves(p, a) && !Halted(p, a)
    ensures SeqStep(p, a) != ArmStep(p, a)
  {
    hide A64Of, AsArm, Behaves, Halted, SeqStep, ArmStep;
    PreIndexed();
    p, a := Shown(STR_PRE);
  }

  /** RET through register 31 goes to the stack pointer instead of to 0. */
  lemma RetDiffers() returns (p: Program, a: Arch)
    ensures a.regs.Valid() && p.code(a.pc) == RET_31 && Behaves(p, a) && !Halted(p, a)
    ensures SeqStep(p, a) != ArmStep(p, a)
  {
    hide A64Of, AsArm, Behaves, Halted, SeqStep, ArmStep;
    ReturnThroughSP();
    p, a := Shown(RET_31);
  }

  /** ADRP to register 31 changes the stack pointer instead of nothing. */
  lemma AdrpDiffers() returns (p: Program, a: Arch)
    ensures a.regs.Valid() && p.code(a.pc) == ADRP_31 && Behaves(p, a) && !Halted(p, a)
    ensures SeqStep(p, a) != ArmStep(p, a)
  {
    hide A64Of, AsArm, Behaves, Halted, SeqStep, ArmStep;
    PageToSP();
    p, a := Shown(ADRP_31);
  }
}
