/** Two small programs: one that uses loads, stores and every kind of transfer and meets the
    conditions of the theorems, and one whose illegal instruction goes unreported. */
module Demos {
  import opened Words
  import opened Alu
  import opened Isa
  import opened FlatMemory
  import opened CacheModel
  import opened MemorySystem
  import opened Datapath
  import opened Sequential
  import opened Pipeline
  import opened Invariant
  import opened Refinement
  import opened Stages
  import opened PipelineTheorem
  import opened Liveness
  import opened ArmReference
  import opened OpMeaning
  import opened OpAgreement
  import opened ArmExceptions
  import opened IllegalEnd
  import opened TextFetch
  import opened Witness

  const MAP := Config(4096, 8192, 16384, NoCache)

  const LDUR_X1_X2: Insn := 0xF840_0041
  const ADDS_X3_X1_X1: Insn := 0xAB01_0023
  const BEQ_8: Insn := 0x5400_0040
  const BNE_8: Insn := 0x5400_0041
  const STUR_X3_X2: Insn := 0xF800_0043
  const RET_X30: Insn := 0xD65F_03C0
  const ADD_X3_X1: Insn := 0x9100_0023

  /** A load, its use, a branch taken, a branch not taken, a store, and the way out. */
  function Tour(pc: Word): Insn {
    match pc
    case 4096 => LDUR_X1_X2
    case 4100 => ADDS_X3_X1_X1
    case 4104 => BEQ_8
    case 4112 => BNE_8
    case 4116 => STUR_X3_X2
    case 4120 => RET_X30
    case _ => 0
  }

  /** Register 2 points to the data; everything else is zero. */
  function Start(nzcv: Flags, pc: Word, mem: Mem): (a: Arch)
    ensures a.regs.Valid()
  {
    Arch(Regs(seq(31, i => if i == 2 then 8192 else 0), 0), nzcv, pc, mem, [])
  }

  const NONE := Flags(false, false, false, false)
  const ZERO := Flags(false, true, false, false)

  lemma ZeroBytes(n: nat)
    ensures FromBytes(seq(n, _ => 0)) == 0
  {
    if n > 0 {
      var s: seq<Byte> := seq(n, _ => 0);
      assert s[1..] == seq(n - 1, _ => 0);
      ZeroBytes(n - 1);
    }
  }

  /** Memory with a program in its text segment and zeros elsewhere. */
  function Image(code: Code): Mem {
    seq(TWO64, b requires 0 <= b < TWO64 => if 4096 <= b < 8192 then ToBytes(code(b - b % 4), 4)[b % 4] else 0)
  }

  lemma ImageHolds(code: Code, pc: Word)
    requires 4096 <= pc < 8192 && pc % 4 == 0
    ensures Load32(Image(code), pc) == code(pc)
  {
    hide ToBytes, FromBytes;
    var here := Image(code)[pc..pc + 4];
    forall i | 0 <= i < 4 ensures here[i] == ToBytes(code(pc), 4)[i] {
      assert (pc + i) - (pc + i) % 4 == pc && (pc + i) % 4 == i;
    }
    assert here == ToBytes(code(pc), 4);
    FromToBytes(code(pc), 4);
    Pow256Is32();
  }

  lemma ImageData(code: Code)
    ensures Load64(Image(code), 8192) == 0
  {
    assert Image(code)[8192..8200] == seq(8, _ => 0);
    ZeroBytes(8);
  }

  /** The words of the programs. */
  lemma Opcodes()
    ensures OpOf(LDUR_X1_X2) == LDUR && OpOf(STUR_X3_X2) == STUR && OpOf(RET_X30) == RET && OpOf(ADD_X3_X1) == ADD_RI
    ensures OpOf(BEQ_8) == OpOf(BNE_8) == B_COND && OpOf(0) == ERROR
  {
    hide OpOf, Field;
    OpFromTop(LDUR_X1_X2, 0x7C2);
    OpFromTop(STUR_X3_X2, 0x7C0);
    OpFromTop(RET_X30, 0x6B2);
    OpFromTop(ADD_X3_X1, 0x488);
    OpFromTop(BEQ_8, 0x2A0);
    OpFromTop(BNE_8, 0x2A0);
    OpFromTop(0, 0);
  }

  lemma SumWord()
    ensures OpOf(ADDS_X3_X1_X1) == ADDS_RR
  {
    hide RegField;
    TopBits(ADDS_X3_X1_X1, 0x558);
    SmallPowers();
  }

  lemma StartRegisters(nzcv: Flags, pc: Word, mem: Mem, r: Reg)
    requires r < 31
    ensures var regs := Start(nzcv, pc, mem).regs;
      && GetZ(regs, r) == GetSP(regs, r) == (if r == 2 then 8192 else 0)
      && (r != 2 ==> SetZ(regs, r, 0) == SetSP(regs, r, 0) == regs)
  {
    var regs := Start(nzcv, pc, mem).regs;
    if r != 2 { assert regs.gpr[r := 0] == regs.gpr; }
  }

  lemma DataHere(cfg: Config)
    requires cfg.(cache := NoCache) == MAP
    ensures DataWord(cfg, 8192)
  {}

  /** A program with these words at these addresses. */
  predicate Holds(p: Program, pc: Word, bits: Insn) {
    p.cfg.(cache := NoCache) == MAP && p.code(pc) == bits && 4096 <= pc < 8192 && pc % 4 == 0
  }

  lemma LoadStep(p: Program, nzcv: Flags, pc: Word, mem: Mem)
    requires Holds(p, pc, LDUR_X1_X2) && Load64(mem, 8192) == 0
    ensures var a := Start(nzcv, pc, mem);
      Behaves(p, a) && !Halted(p, a) && SeqStep(p, a) == Start(nzcv, pc + 4, mem)
  {
    hide OpOf, RegField, SignedField, Behaves, Halted, SeqStep, DataWord, Load64, Store64, GetZ, GetSP, SetZ, Start;
    var a := Start(nzcv, pc, mem);
    Opcodes();
    RegisterValues(LDUR_X1_X2);
    OffsetValue(LDUR_X1_X2);
    StartRegisters(nzcv, pc, mem, 1);
    StartRegisters(nzcv, pc, mem, 2);
    DataHere(p.cfg);
    StartState(nzcv, pc, mem);
    Legal(p, a);
    AddressMeans(p, a);
    SequentialIsOp(p, a);
    StartMoves(nzcv, pc, mem, nzcv, pc + 4, mem);
  }

  lemma StartState(nzcv: Flags, pc: Word, mem: Mem)
    ensures var a := Start(nzcv, pc, mem);
      a.nzcv == nzcv && a.pc == pc && a.mem == mem && a.output == []
  {}

  lemma StartMoves(nzcv: Flags, pc: Word, mem: Mem, nzcv': Flags, pc': Word, mem': Mem)
    ensures Start(nzcv', pc', mem') == Arch(Start(nzcv, pc, mem).regs, nzcv', pc', mem', [])
  {}

  lemma Legal(p: Program, a: Arch)
    requires a.pc != 0 && !FetchFault(p.cfg, a.pc) && OpOf(p.code(a.pc)) !in {ERROR, HLT}
    ensures !Halted(p, a)
  {
    hide OpOf, AdrpValue;
  }

  lemma SumStep(p: Program, nzcv: Flags, pc: Word, mem: Mem)
    requires Holds(p, pc, ADDS_X3_X1_X1)
    ensures var a := Start(nzcv, pc, mem);
      Behaves(p, a) && !Halted(p, a) && SeqStep(p, a) == Start(ZERO, pc + 4, mem)
  {
    hide OpOf, RegField, SignedField, Behaves, Halted, SeqStep, DataWord, Load64, Store64, GetZ, GetSP, SetZ, Start;
    var a := Start(nzcv, pc, mem);
    SumWord();
    RegisterValues(ADDS_X3_X1_X1);
    StartRegisters(nzcv, pc, mem, 1);
    StartRegisters(nzcv, pc, mem, 3);
    StartState(nzcv, pc, mem);
    Legal(p, a);
    QuietBehaves(p, a);
    SequentialIsOp(p, a);
    StartMoves(nzcv, pc, mem, ZERO, pc + 4, mem);
  }

  lemma AddStep(p: Program, nzcv: Flags, pc: Word, mem: Mem)
    requires Holds(p, pc, ADD_X3_X1)
    ensures var a := Start(nzcv, pc, mem);
      Behaves(p, a) && !Halted(p, a) && SeqStep(p, a) == Start(nzcv, pc + 4, mem)
  {
    hide OpOf, RegField, SignedField, Behaves, Halted, SeqStep, DataWord, Load64, Store64, GetZ, GetSP, SetZ, Start,
      Field;
    var a := Start(nzcv, pc, mem);
    Opcodes();
    RegisterValues(ADD_X3_X1);
    assert Field(ADD_X3_X1, 10, 12) == 0 by { ImmediateZero(); }
    StartRegisters(nzcv, pc, mem, 1);
    StartRegisters(nzcv, pc, mem, 3);
    StartState(nzcv, pc, mem);
    Legal(p, a);
    QuietBehaves(p, a);
    SequentialIsOp(p, a);
    StartMoves(nzcv, pc, mem, nzcv, pc + 4, mem);
  }

  lemma ImmediateZero()
    ensures Field(ADD_X3_X1, 10, 12) == 0
  {
    SmallPowers();
  }

  /** With Z set, BEQ goes two instructions on and BNE one. */
  lemma BranchStep(p: Program, pc: Word, mem: Mem, equal: bool)
    requires Holds(p, pc, if equal then BEQ_8 else BNE_8)
    ensures var a := Start(ZERO, pc, mem);
      Behaves(p, a) && !Halted(p, a) && SeqStep(p, a) == Start(ZERO, pc + (if equal then 8 else 4), mem)
  {
    hide OpOf, RegField, SignedField, Behaves, Halted, SeqStep, DataWord, Load64, Store64, GetZ, GetSP, SetZ, Start,
      Field;
    var a := Start(ZERO, pc, mem);
    Opcodes();
    BranchValue(BEQ_8);
    BranchValue(BNE_8);
    Conditions();
    StartState(ZERO, pc, mem);
    Legal(p, a);
    QuietBehaves(p, a);
    SequentialIsOp(p, a);
    StartMoves(ZERO, pc, mem, ZERO, pc + (if equal then 8 else 4), mem);
  }

  lemma Conditions()
    ensures Field(BEQ_8, 0, 4) == 0 && Field(BNE_8, 0, 4) == 1
  {
    hide Field;
    FieldValues(BEQ_8);
    FieldValues(BNE_8);
  }

  lemma StoreStep(p: Program, nzcv: Flags, pc: Word, mem: Mem)
    requires Holds(p, pc, STUR_X3_X2)
    ensures var a := Start(nzcv, pc, mem);
      Behaves(p, a) && !Halted(p, a) && SeqStep(p, a) == Start(nzcv, pc + 4, Store64(mem, 8192, 0))
  {
    hide OpOf, RegField, SignedField, Behaves, Halted, SeqStep, DataWord, Load64, Store64, GetZ, GetSP, SetZ, Start;
    var a := Start(nzcv, pc, mem);
    Opcodes();
    RegisterValues(STUR_X3_X2);
    OffsetValue(STUR_X3_X2);
    StartRegisters(nzcv, pc, mem, 2);
    StartRegisters(nzcv, pc, mem, 3);
    DataHere(p.cfg);
    StartState(nzcv, pc, mem);
    Legal(p, a);
    AddressMeans(p, a);
    SequentialIsOp(p, a);
    StartMoves(nzcv, pc, mem, nzcv, pc + 4, Store64(mem, 8192, 0));
  }

  lemma ReturnStep(p: Program, nzcv: Flags, pc: Word, mem: Mem)
    requires Holds(p, pc, RET_X30)
    ensures var a := Start(nzcv, pc, mem);
      Behaves(p, a) && !Halted(p, a) && SeqStep(p, a) == Start(nzcv, 0, mem)
  {
    hide OpOf, RegField, SignedField, Behaves, Halted, SeqStep, DataWord, Load64, Store64, GetZ, GetSP, SetZ, Start;
    var a := Start(nzcv, pc, mem);
    Opcodes();
    RegisterValues(RET_X30);
    StartRegisters(nzcv, pc, mem, 30);
    StartState(nzcv, pc, mem);
    Legal(p, a);
    QuietBehaves(p, a);
    SequentialIsOp(p, a);
    StartMoves(nzcv, pc, mem, nzcv, 0, mem);
  }

  lemma EndsAt(p: Program, a: Arch)
    requires a.regs.Valid() && (a.pc == 0 || (!FetchFault(p.cfg, a.pc) && p.code(a.pc) == 0))
    ensures Behaves(p, a) && Halted(p, a) && (a.pc != 0 ==> Illegal(p, a))
  {
    hide OpOf, Behaves, Halted, Illegal;
    if a.pc == 0 {
      ZeroEnds(p, a);
    } else {
      Opcodes();
      QuietBehaves(p, a);
      ErrorEnds(p, a);
    }
  }

  lemma ZeroEnds(p: Program, a: Arch)
    requires a.regs.Valid() && a.pc == 0
    ensures Behaves(p, a) && Halted(p, a)
  {
    hide AluResult, AluFlags, Sources, OpOf, FormatOf, AdrpValue, CondHolds, AluOpOf, ExecuteFlags, ImmediateOf, HwOf,
      CondOf, DataWord, Regs.Read, NextPC;
    assert SeqD(p, a) == HaltReg(0);
  }

  lemma ErrorEnds(p: Program, a: Arch)
    requires a.pc != 0 && OpOf(p.code(a.pc)) == ERROR
    ensures Halted(p, a) && Illegal(p, a)
  {
    hide OpOf, AdrpValue;
  }

  lemma AlsoBehaved(q: Program, a0: Arch)
    requires a0.regs.Valid() && forall i: nat :: Behaves(q, At(q, a0, i))
    ensures DataBehaves(q, a0)
  {
    hide Behaves, SeqRun;
    forall n: nat ensures Behaves(q, SeqRun(q, a0, n)) {
      assert Behaves(q, At(q, a0, n));
    }
  }

  /** A run that behaves up to its end behaves. */
  lemma BehavesThroughout(p: Program, a0: Arch, h: nat)
    requires a0.regs.Valid() && Halted(p, At(p, a0, h)) && forall i: nat | i <= h :: Behaves(p, At(p, a0, i))
    ensures DataBehaves(p, a0)
  {
    hide Behaves, Halted, SeqRun;
    forall i: nat ensures Behaves(p, At(p, a0, i)) {
      if i > h { HaltedForever(p, a0, h, i); }
    }
    AlsoBehaved(p, a0);
  }

  lemma BelowThroughout(p: Program, a0: Arch, h: nat)
    requires a0.regs.Valid() && Halted(p, At(p, a0, h)) && forall i: nat | i <= h :: Below(p.cfg, At(p, a0, i).pc)
    ensures RunsBelow(p, a0)
  {
    hide Below, Halted, SeqRun;
    forall i: nat ensures Below(p.cfg, At(p, a0, i).pc) {
      if i > h { HaltedForever(p, a0, h, i); }
    }
  }

  /** The tour, with any cache or none. */
  function TourFor(cache: CacheConfig): Program {
    Program(MAP.(cache := cache), pc => Tour(pc))
  }

  /** The tour meets the conditions of the theorems and ends after six instructions: a load,
      its use, a branch taken, a branch not taken, a store and a RET. */
  lemma TourBehaves(cache: CacheConfig)
    ensures var p, mem := TourFor(cache), Image(TourFor(cache).code);
      var a0 := Start(NONE, 4096, mem);
      && WellBehaved(p, a0) && Halted(p, At(p, a0, 6))
      && At(p, a0, 6) == Start(ZERO, 0, Store64(mem, 8192, 0))
      && (forall i: nat | i < 6 :: !Halted(p, At(p, a0, i)))
  {
    hide Behaves, Halted, SeqStep, Start, Store64, At, Holds, Tour, Image, Load64, Below, TextIsClosed, RunsBelow;
    var p, mem := TourFor(cache), Image(TourFor(cache).code);
    var a0 := Start(NONE, 4096, mem);
    TourWords(cache);
    ImageData(p.code);
    StartState(NONE, 4096, mem);
    LoadStep(p, NONE, 4096, mem);
    SumStep(p, NONE, 4100, mem);
    BranchStep(p, 4104, mem, true);
    BranchStep(p, 4112, mem, false);
    StoreStep(p, ZERO, 4116, mem);
    ReturnStep(p, ZERO, 4120, Store64(mem, 8192, 0));
    SixSteps(p, a0);
    StartState(ZERO, 0, Store64(mem, 8192, 0));
    EndsAt(p, At(p, a0, 6));
    BehavesThroughout(p, a0, 6);
    StartState(NONE, 4100, mem);
    StartState(ZERO, 4104, mem);
    StartState(ZERO, 4112, mem);
    StartState(ZERO, 4116, mem);
    StartState(ZERO, 4120, Store64(mem, 8192, 0));
    TourBelow(cache, a0);
    ClosedTextIsFetched(p, a0);
  }

  lemma TourBelow(cache: CacheConfig, a0: Arch)
    requires a0.regs.Valid() && Halted(TourFor(cache), At(TourFor(cache), a0, 6))
    requires forall i: nat | i <= 6 :: At(TourFor(cache), a0, i).pc < 8192
    ensures TextIsClosed(TourFor(cache)) && RunsBelow(TourFor(cache), a0)
  {
    hide Halted, SeqRun, Tour, StopsFetch, After;
    BelowThroughout(TourFor(cache), a0, 6);
    forall pc: Word | !StopsFetch(TourFor(cache), pc) ensures Below(MAP, After(TourFor(cache), pc)) {
      TourGoesOn(cache, pc);
    }
  }

  /** The next address, wherever there is an instruction. */
  lemma TourGoesOn(cache: CacheConfig, pc: Word)
    requires !StopsFetch(TourFor(cache), pc)
    ensures 4096 <= pc < 8184
    ensures After(TourFor(cache), pc) == (if Tour(pc) == BEQ_8 || Tour(pc) == BNE_8 then pc + 8 else pc + 4)
  {
    hide OpOf, SignedField;
    Opcodes();
    SumWord();
    BranchValue(BEQ_8);
    BranchValue(BNE_8);
  }

  lemma TourWords(cache: CacheConfig)
    ensures var p := TourFor(cache);
      && Holds(p, 4096, LDUR_X1_X2) && Holds(p, 4100, ADDS_X3_X1_X1) && Holds(p, 4104, BEQ_8)
      && Holds(p, 4112, BNE_8) && Holds(p, 4116, STUR_X3_X2) && Holds(p, 4120, RET_X30)
  {}

  lemma SixSteps(p: Program, a0: Arch)
    requires a0.regs.Valid()
    ensures At(p, a0, 0) == a0 && At(p, a0, 1) == SeqStep(p, a0) && At(p, a0, 2) == SeqStep(p, At(p, a0, 1))
    ensures At(p, a0, 3) == SeqStep(p, At(p, a0, 2)) && At(p, a0, 4) == SeqStep(p, At(p, a0, 3))
    ensures At(p, a0, 5) == SeqStep(p, At(p, a0, 4)) && At(p, a0, 6) == SeqStep(p, At(p, a0, 5))
  {
    hide SeqStep;
  }

  // The unreported end.

  function Short(pc: Word): Insn {
    if pc == 4096 then LDUR_X1_X2 else if pc == 4100 then ADD_X3_X1 else 0
  }

  /** A load, its use, and a word that is no instruction. */
  const SHORT := Program(MAP, pc => Short(pc))
  const SHORT_MEM: Mem := Image(SHORT.code)

  lemma ShortRun()
    ensures var a0 := Start(NONE, 4096, SHORT_MEM);
      && At(SHORT, a0, 0) == a0 && At(SHORT, a0, 1) == Start(NONE, 4100, SHORT_MEM)
      && At(SHORT, a0, 2) == Start(NONE, 4104, SHORT_MEM)
      && WellBehaved(SHORT, a0) && FirstIllegal(SHORT, a0, 2)
  {
    hide Behaves, Halted, SeqStep, Start, At, Illegal, Image, Load64;
    var p, a0 := SHORT, Start(NONE, 4096, SHORT_MEM);
    StartState(NONE, 4096, SHORT_MEM);
    ImageData(p.code);
    LoadStep(p, NONE, 4096, SHORT_MEM);
    AddStep(p, NONE, 4100, SHORT_MEM);
    SixSteps(p, a0);
    StartState(NONE, 4104, SHORT_MEM);
    EndsAt(p, At(p, a0, 2));
    BehavesThroughout(p, a0, 2);
  }

  /** Register 1 is loaded and read. */
  lemma ShortUse()
    ensures LoadThenUse(LDUR_X1_X2, ADD_X3_X1)
  {
    hide OpOf, RegField;
    Opcodes();
    RegisterValues(LDUR_X1_X2);
    RegisterValues(ADD_X3_X1);
  }

  lemma AddGoesOn(p: Program, a: Arch)
    requires a.regs.Valid() && !Halted(p, a) && p.code(a.pc) == ADD_X3_X1
    ensures !Diverts(p, a)
  {
    hide OpOf, Halted, SeqD, Sources;
    Opcodes();
    ValueOf(p, a);
    DecodedSources(p, a);
  }

  lemma ShortHazard()
    ensures UseBefore(SHORT, Start(NONE, 4096, SHORT_MEM), 2)
  {
    hide Start, At, Diverts, LoadThenUse, Halted, Illegal, DataBehaves, FetchesText;
    var p, a0 := SHORT, Start(NONE, 4096, SHORT_MEM);
    ShortRun();
    StartState(NONE, 4096, SHORT_MEM);
    StartState(NONE, 4100, SHORT_MEM);
    assert !Halted(p, At(p, a0, 0)) && !Halted(p, At(p, a0, 1));
    ShortUse();
    AddGoesOn(p, At(p, a0, 1));
  }

  function Idle(mem: Mem): MemSys {
    MemSys(mem, Cache([], 0, 0, 0, 0), false, 0, 0, false, [])
  }

  /** A run, from the start, that comes to an illegal instruction and reports a normal HLT. */
  lemma GoesUnreported() returns (p: Program, a0: Arch, ms: MemSys, k: nat, n: nat)
    ensures a0.regs.Valid() && WellBehaved(p, a0) && Starts(p, a0, ms) && FirstIllegal(p, a0, k)
    ensures n > 0 && |Retired(p, BootOf(a0, ms), n - 1)| == k && Run(p, BootOf(a0, ms), n).status == STOP
  {
    hide Behaves, Halted, Start, At, Illegal, DataBehaves, FetchesText, FirstIllegal, UseBefore, Run, Retired, Cycle,
      Delay, StopBound;
    p, a0, ms, k := SHORT, Start(NONE, 4096, SHORT_MEM), Idle(SHORT_MEM), 2;
    StartState(NONE, 4096, SHORT_MEM);
    ShortRun();
    ShortHazard();
    IdleStarts(p, a0, ms);
    n := EndOfRun(p, a0, ms, k);
    ReportedWithoutCache(p, a0, ms, k, n);
  }

  /** With the program in memory and nothing in flight a run can start. */
  lemma IdleStarts(p: Program, a0: Arch, ms: MemSys)
    requires p.cfg == MAP && a0.mem == Image(p.code) && ms == Idle(a0.mem) && a0.output == []
    ensures Starts(p, a0, ms) && !ms.inflight && Delay(p.cfg) >= 1
  {
    hide Image, Load32;
    forall pc: Word | !FetchFault(p.cfg, pc) ensures Load32(ms.raw, pc) == p.code(pc) { ImageHolds(p.code, pc); }
  }
}
