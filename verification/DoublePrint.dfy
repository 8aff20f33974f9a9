/** A program that prints one word, and an emulator with a cache that prints it over and over. */
module DoublePrint {
  import opened Words
  import opened Alu
  import opened Isa
  import opened FlatMemory
  import opened CacheModel
  import opened CacheCoherence
  import opened MemorySystem
  import opened Datapath
  import opened Sequential
  import opened Pipeline
  import opened Invariant
  import opened Stages
  import opened CycleFields
  import opened OperandValues
  import opened Refinement
  import opened ReadyStep
  import opened FrontEnd
  import opened FetchPath
  import opened PipelineTheorem
  import opened Timing
  import opened DataFetch
  import opened ArmReference
  import opened OpAgreement
  import opened ArmExceptions
  import opened Witness
  import opened Demos
  import opened EndlessWait

  const STUR_X0_CONSOLE: Insn := 0xF81F_F020
  const RET_X2: Insn := 0xD65F_0040

  /** Print register 0 and return to where register 2 points, to the data. */
  function Print(pc: Word): Insn {
    if pc == 4096 then STUR_X0_CONSOLE else if pc == 4100 then RET_X2 else 0
  }

  function PrintFor(g: Geometry): Program {
    Program(MAP.(cache := WithCache(g)), pc => Print(pc))
  }

  function Printed(pc: Word, mem: Mem, output: seq<Word>): (a: Arch)
    ensures a.regs.Valid()
  {
    Start(NONE, pc, mem).(output := output)
  }

  lemma PrintWords()
    ensures OpOf(STUR_X0_CONSOLE) == STUR && RegField(STUR_X0_CONSOLE, 0) == 0 && RegField(STUR_X0_CONSOLE, 5) == 1
    ensures SignedField(STUR_X0_CONSOLE, 12, 9) == -1
    ensures OpOf(RET_X2) == RET && RegField(RET_X2, 5) == 2
  {
    hide OpOf, Field, RegField, SignedField;
    OpFromTop(STUR_X0_CONSOLE, 0x7C0);
    OpFromTop(RET_X2, 0x6B2);
    RegisterValues(STUR_X0_CONSOLE);
    RegisterValues(RET_X2);
    OffsetValue(STUR_X0_CONSOLE);
  }

  lemma PrintedState(pc: Word, mem: Mem, output: seq<Word>)
    ensures var a := Printed(pc, mem, output);
      && a.nzcv == NONE && a.pc == pc && a.mem == mem && a.output == output
      && GetZ(a.regs, 0) == GetSP(a.regs, 1) == 0 && GetSP(a.regs, 2) == 8192
  {}

  lemma PrintStep(g: Geometry, mem: Mem)
    ensures var p, a := PrintFor(g), Printed(4096, mem, []);
      Behaves(p, a) && !Halted(p, a) && SeqStep(p, a) == Printed(4100, mem, [0])
  {
    hide OpOf, RegField, SignedField, Behaves, Halted, SeqStep, DataWord, Load64, Store64, GetZ, GetSP, SetZ, Field,
      Start;
    var p, a := PrintFor(g), Printed(4096, mem, []);
    PrintWords();
    PrintedState(4096, mem, []);
    PrintedState(4100, mem, [0]);
    StartMoves(NONE, 4096, mem, NONE, 4100, mem);
    Legal(p, a);
    NoDataWord(p.cfg);
    AddressMeans(p, a);
    SequentialIsOp(p, a);
  }

  lemma NoDataWord(cfg: Config)
    ensures !DataWord(cfg, IO_CHAR_ADDR)
  {}

  lemma LeaveStep(g: Geometry, mem: Mem)
    ensures var p, a := PrintFor(g), Printed(4100, mem, [0]);
      Behaves(p, a) && !Halted(p, a) && SeqStep(p, a) == Printed(8192, mem, [0])
  {
    hide OpOf, RegField, SignedField, Behaves, Halted, SeqStep, DataWord, Load64, Store64, GetZ, GetSP, SetZ, Field,
      Start;
    var p, a := PrintFor(g), Printed(4100, mem, [0]);
    PrintWords();
    PrintedState(4100, mem, [0]);
    PrintedState(8192, mem, [0]);
    StartMoves(NONE, 4100, mem, NONE, 8192, mem);
    Legal(p, a);
    QuietBehaves(p, a);
    SequentialIsOp(p, a);
  }

  /** The sequential machine prints once, and the program is over. */
  lemma PrintRun(g: Geometry, a0: Arch)
    requires a0 == Printed(4096, Image(PrintFor(g).code), [])
    ensures var p, mem := PrintFor(g), Image(PrintFor(g).code);
      && DataBehaves(p, a0) && At(p, a0, 1) == Printed(4100, mem, [0]) && At(p, a0, 2) == Printed(8192, mem, [0])
      && !Halted(p, At(p, a0, 0)) && !Halted(p, At(p, a0, 1)) && Halted(p, At(p, a0, 2))
      && !FetchesText(p, a0)
  {
    hide Behaves, Halted, SeqStep, Illegal, Image, At, Printed, Diverts, StopsFetch, After;
    var p, mem := PrintFor(g), Image(PrintFor(g).code);
    PrintStep(g, mem);
    LeaveStep(g, mem);
    SixSteps(p, a0);
    PrintedState(8192, mem, [0]);
    FaultEnds(p, At(p, a0, 2));
    BehavesThroughout(p, a0, 2);
    assert !PathBelow(p, SeqRun(p, a0, 2)) by { SameAt(p, a0, 2); }
  }

  lemma SameAt(p: Program, a0: Arch, i: nat)
    requires a0.regs.Valid()
    ensures SeqRun(p, a0, i) == At(p, a0, i)
  {}

  /** What the two instructions are to the pipeline. */
  lemma PrintSignals(p: Program, a: Arch)
    requires a.regs.Valid() && Behaves(p, a) && !Halted(p, a) && p.code(a.pc) == STUR_X0_CONSOLE
    requires GetZ(a.regs, 0) == GetSP(a.regs, 1) == 0
    ensures var m := SeqM(p, a);
      m.op == STUR && m.ms == MSigs(false, true) && m.valEx == IO_CHAR_ADDR && m.valB == 0
  {
    hide OpOf, RegField, SignedField, Behaves, Halted, GetZ, GetSP, Field, AluResult, OperandA, OperandB, SeqX, SeqD;
    PrintWords();
    AddressAgrees(p, a);
    DecodedOperands(p, a);
    Signals(p, a);
    SeqShape(p, a);
  }

  lemma LeaveSignals(p: Program, a: Arch)
    requires a.regs.Valid() && Behaves(p, a) && !Halted(p, a) && p.code(a.pc) == RET_X2 && GetSP(a.regs, 2) == 8192
    ensures SeqX(p, a).op == RET && SeqX(p, a).valA == 8192 && SeqD(p, a).op == RET
  {
    hide OpOf, RegField, SignedField, Behaves, Halted, GetZ, GetSP, Field, AluResult, OperandA, OperandB, SeqX, SeqD;
    PrintWords();
    DecodedOperands(p, a);
    ValueOf(p, a);
  }

  // The first three cycles.

  /** A cycle with nothing in memory and no hazard moves everything on. */
  lemma MovesOn(p: Program, a0: Arch, s: Cpu)
    requires a0.regs.Valid() && DataBehaves(p, a0) && Inv(p, a0, s, 0)
    requires s.wOut.status == BUB && s.mOut.status == BUB && s.xOut.op != LDUR && s.xOut.op != B_COND
    ensures var s' := Cycle(p, s);
      && Placed(p, a0, s', 0) && s'.mem == s.mem && s'.wOut.status == BUB
      && s'.mOut.status == s.xOut.status && s'.mOut.op == s.xOut.op
      && s'.xOut.status == s.dOut.status && s'.xOut.op == s.dOut.op
      && s'.dOut == (if s.dOut.op == RET then D_BUBBLE else Fetched(p, s))
  {
    hide HoldsX, HoldsM, HoldsW, HoldsD, FetchReady, Squashed, DataAgrees, MemOk, Loaded, Quiet, DataBehaves, Cycle,
      MemNext, At, Execute, FetchStatusAfter, WriteRegs, Fetched, View, Redirected, MemoryResult, DecodeOut, LoadUse,
      Sources, NextPC, ExecuteFlags;
    NothingInM(p, a0, s);
    ReadyCycleFields(p, a0, s, 0);
    CycleKeepsInv(p, a0, s, 0);
    DecodeOutOp(p, s);
    RetIsQuiet(s.xOut, s.nzcv);
    ExecutedAs(s.xOut, s.nzcv);
    NoLoadUse(s);
  }

  lemma ExecutedAs(x: XReg, nzcv: Flags)
    ensures Execute(x, nzcv).status == x.status && Execute(x, nzcv).op == x.op
  {}

  lemma NoLoadUse(s: Cpu)
    ensures s.xOut.op != LDUR ==> !LoadUseHazard(s)
  {}

  lemma NothingInM(p: Program, a0: Arch, s: Cpu)
    requires a0.regs.Valid() && DataBehaves(p, a0) && Inv(p, a0, s, 0) && s.mOut.status == BUB
    ensures MemNext(p, s) == s.mem && !s.mem.busy
  {
    hide HoldsX, HoldsW, HoldsD, FetchReady, Squashed, DataAgrees, MemOk, Loaded, DataBehaves, At, View, FetchMem,
      DataAccess, MemShaped;
    MemoryInCycle(p, a0, s, 0);
    InertAccess(p.cfg, s.mem, s.mOut);
  }

  /** Fetch delivers instruction number 0 or 1. */
  lemma FetchesNext(p: Program, a0: Arch, s: Cpu)
    requires a0.regs.Valid() && DataBehaves(p, a0) && Inv(p, a0, s, 0) && !WrongPathF(p, a0, s, 0)
    requires !Halted(p, At(p, a0, IndexF(s, 0)))
    ensures Fetched(p, s) == SeqD(p, At(p, a0, IndexF(s, 0))) && Fetched(p, s).status == AOK
  {
    hide HoldsX, HoldsM, HoldsW, FetchReady, Squashed, DataAgrees, MemOk, Loaded, Quiet, At, Fetched, SeqD, Halted,
      WrongPathF, IndexF;
    FetchHolds(p, a0, s, 0);
  }

  lemma RightPathQuiet(p: Program, a0: Arch, s: Cpu)
    requires a0.regs.Valid() && Placed(p, a0, s, 0) && !WrongPathF(p, a0, s, 0)
    requires At(p, a0, IndexF(s, 0)).pc < p.cfg.dataStart
    ensures Quiet(p, s)
  {
    hide Placed, WrongPathF, At, IndexF, FetchHalts, SelectPC;
    if !FetchHalts(s) { RightPathBelow(p, a0, s, 0); }
  }

  /** After `i` cycles, with the cache as it was. */
  ghost predicate Begun(p: Program, a0: Arch, ms: MemSys, s: Cpu)
    requires a0.regs.Valid()
  {
    && s.Ok(p.cfg) && Inv(p, a0, s, 0) && OnTrack(p, a0, s, 0) && s.mem == ms
    && s.wOut.status == BUB && s.mOut.status == BUB
  }

  /** The facts about the program that its first cycles depend on. */
  ghost predicate PrintsThenLeaves(p: Program, a0: Arch)
    requires a0.regs.Valid()
  {
    && DataBehaves(p, a0) && !Halted(p, At(p, a0, 0)) && !Halted(p, At(p, a0, 1))
    && SeqD(p, At(p, a0, 0)).op == STUR && SeqD(p, At(p, a0, 1)).op == RET
    && 0 < At(p, a0, 0).pc < p.cfg.dataStart && 0 < At(p, a0, 1).pc < p.cfg.dataStart - 4
    && After(p, At(p, a0, 1).pc) == At(p, a0, 1).pc + 4
  }

  lemma FirstCycle(p: Program, a0: Arch, ms: MemSys)
    requires a0.regs.Valid() && PrintsThenLeaves(p, a0) && Starts(p, a0, ms)
    ensures var s := Cycle(p, BootOf(a0, ms));
      Begun(p, a0, ms, s) && s.dOut.op == STUR && s.dOut.status == AOK && s.xOut.status == BUB && s.xOut.op == NOP
  {
    hide Placed, OnTrack, MemOk, Loaded, DataBehaves, At, View, Cycle, Fetched, SeqD, Halted, After, MemShaped,
      SelectPC, FetchHalts, FetchCached, WrongPathF, IndexF;
    var s := BootOf(a0, ms);
    BootBegins(p, a0, ms);
    FetchesNext(p, a0, s);
    MovesOn(p, a0, s);
    TrackStays(p, a0, s, 0);
    NothingDiverts(p, a0, Cycle(p, s));
    RightPathQuiet(p, a0, Cycle(p, s));
  }

  lemma BootBegins(p: Program, a0: Arch, ms: MemSys)
    requires a0.regs.Valid() && PrintsThenLeaves(p, a0) && Starts(p, a0, ms)
    ensures Begun(p, a0, ms, BootOf(a0, ms)) && IndexF(BootOf(a0, ms), 0) == 0 && !WrongPathF(p, a0, BootOf(a0, ms), 0)
  {
    hide Placed, OnTrack, MemOk, Loaded, DataBehaves, At, View, SeqD, Halted, After, MemShaped, SelectPC, FetchHalts,
      InstrRead, Execute, StickyStatus;
    BootPlaced(p, a0, ms);
    BubbleIsQuiet(a0.nzcv);
    assert At(p, a0, 0) == a0 by { SixSteps(p, a0); }
    BootFetch(p, a0, ms);
  }

  lemma NothingDiverts(p: Program, a0: Arch, s: Cpu)
    requires a0.regs.Valid() && PrintsThenLeaves(p, a0)
    requires s.wOut.status == BUB && s.mOut.status == BUB && s.xOut.status == BUB
    requires s.xOut.op == NOP && s.dOut.status == AOK
    ensures IndexF(s, 0) == 1 && !WrongPathF(p, a0, s, 0)
  {
    hide Halted, SeqD, At, After, DataBehaves, Diverts, WrongPathD;
    BubbleIsNoBranch(s);
    StoreGoesOn(p, At(p, a0, 0));
  }

  lemma BubbleIsNoBranch(s: Cpu)
    requires s.xOut.op == NOP
    ensures !WrongPathD(s)
  {
    hide ExecuteFlags;
  }

  lemma StoreGoesOn(p: Program, a: Arch)
    requires a.regs.Valid() && SeqD(p, a).op == STUR
    ensures !Diverts(p, a)
  {
    hide Halted, SeqD;
    ValueOf(p, a);
  }

  lemma SecondCycle(p: Program, a0: Arch, ms: MemSys, s: Cpu)
    requires a0.regs.Valid() && PrintsThenLeaves(p, a0) && Begun(p, a0, ms, s)
    requires s.dOut.op == STUR && s.dOut.status == AOK && s.xOut.status == BUB && s.xOut.op == NOP
    ensures var s' := Cycle(p, s);
      && Begun(p, a0, ms, s') && s'.dOut.op == RET && s'.dOut.status == AOK
      && s'.xOut.status == AOK && s'.xOut.op == STUR
  {
    hide Placed, OnTrack, DataBehaves, At, Cycle, Fetched, SeqD, Halted, After, MemShaped, SelectPC, FetchHalts,
      FetchCached, WrongPathF, IndexF;
    NothingDiverts(p, a0, s);
    FetchesNext(p, a0, s);
    MovesOn(p, a0, s);
    TrackStays(p, a0, s, 0);
    AstrayQuiet(p, a0, Cycle(p, s));
  }

  /** Behind the RET fetch goes on to the next address, still in the text. */
  lemma AstrayQuiet(p: Program, a0: Arch, s: Cpu)
    requires a0.regs.Valid() && PrintsThenLeaves(p, a0) && Placed(p, a0, s, 0) && OnTrack(p, a0, s, 0)
    requires s.wOut.status == BUB && s.mOut.status == BUB && s.xOut.status == AOK && s.xOut.op == STUR
    requires s.dOut.status == AOK && s.dOut.op == RET
    ensures Quiet(p, s)
  {
    hide HoldsX, HoldsM, HoldsW, HoldsD, FetchReady, Squashed, DataAgrees, MemOk, Loaded, DataBehaves, At, View, SeqD,
      Halted, After, MemShaped, SelectPC, FetchHalts, Redirected, WrongPathD, Diverts, FurtherAstray;
    StoreIsNoBranch(s);
    ReturnDiverts(p, At(p, a0, 1));
    if Redirected(s) { RedirectedAlone(p, a0, s, 0); }
    FetchGoes(p, s);
  }

  lemma StoreIsNoBranch(s: Cpu)
    requires s.xOut.op == STUR
    ensures !WrongPathD(s)
  {
    hide ExecuteFlags;
  }

  lemma ReturnDiverts(p: Program, a: Arch)
    requires a.regs.Valid() && !Halted(p, a) && SeqD(p, a).op == RET
    ensures Diverts(p, a)
  {
    hide Halted, SeqD;
    ValueOf(p, a);
  }

  lemma ThirdCycle(p: Program, a0: Arch, ms: MemSys, s: Cpu)
    requires a0.regs.Valid() && PrintsThenLeaves(p, a0) && Begun(p, a0, ms, s)
    requires s.dOut.op == RET && s.dOut.status == AOK && s.xOut.status == AOK && s.xOut.op == STUR
    ensures var s' := Cycle(p, s);
      && s'.Ok(p.cfg) && NoFault(s') && s'.mem == ms && s'.dOut == D_BUBBLE
      && s'.mOut == SeqM(p, At(p, a0, 0)) && s'.xOut == SeqX(p, At(p, a0, 1))
  {
    hide HoldsX, HoldsM, HoldsW, HoldsD, FetchReady, Squashed, DataAgrees, MemOk, Loaded, OnTrack, DataBehaves, At,
      Cycle, Fetched, SeqD, SeqM, SeqX, Halted, After, MemShaped, SelectPC, FetchHalts, FetchCached, Quiet, View;
    MovesOn(p, a0, s);
    StopInExecute(p, At(p, a0, 1), Cycle(p, s).xOut);
    InMemory(p, At(p, a0, 0), Cycle(p, s).mOut);
  }

  lemma InMemory(p: Program, a: Arch, m: MReg)
    requires a.regs.Valid() && HoldsM(p, a, m) && !Halted(p, a) && m.status != BUB
    ensures m == SeqM(p, a)
  {
    hide Halted, SeqM;
  }

  // The run.

  lemma PrintStarts(g: Geometry, a0: Arch)
    requires g.Valid() && g.d < TWO64 && a0 == Printed(4096, Image(PrintFor(g).code), [])
    ensures Starts(PrintFor(g), a0, Fresh(g, a0.mem))
  {
    hide Image, Load32, IsPow2, Coherent, Flat, EmptyCache;
    var p, ms := PrintFor(g), Fresh(g, a0.mem);
    EmptyIsFlat(g, a0.mem);
    forall pc: Word | !FetchFault(p.cfg, pc) ensures Load32(ms.raw, pc) == p.code(pc) { ImageHolds(p.code, pc); }
  }

  lemma PrintMeets(g: Geometry, a0: Arch)
    requires a0 == Printed(4096, Image(PrintFor(g).code), [])
    ensures var p := PrintFor(g);
      && PrintsThenLeaves(p, a0)
      && SeqM(p, At(p, a0, 0)).ms == MSigs(false, true) && SeqM(p, At(p, a0, 0)).valEx == IO_CHAR_ADDR
      && SeqM(p, At(p, a0, 0)).valB == 0 && SeqM(p, At(p, a0, 0)).op == STUR
      && SeqX(p, At(p, a0, 1)).op == RET && SeqX(p, At(p, a0, 1)).valA == 8192
  {
    hide Behaves, Halted, SeqM, SeqX, SeqD, Image, At, Printed, OpOf, RegField, SignedField, FetchesText, DataBehaves;
    var p, mem := PrintFor(g), Image(PrintFor(g).code);
    PrintRun(g, a0);
    AllBehave(p, a0, 0);
    AllBehave(p, a0, 1);
    assert At(p, a0, 0) == a0 by { SixSteps(p, a0); }
    PrintedState(4096, mem, []);
    PrintedState(4100, mem, [0]);
    PrintSignals(p, At(p, a0, 0));
    LeaveSignals(p, At(p, a0, 1));
    OpsOf(p, At(p, a0, 0));
    GoesPast(p, 4100);
  }

  lemma OpsOf(p: Program, a: Arch)
    requires a.regs.Valid()
    ensures SeqD(p, a).op == SeqM(p, a).op
  {
    hide SeqD;
    ValueOf(p, a);
  }

  lemma GoesPast(p: Program, pc: Word)
    requires p.code(pc) == RET_X2 && pc < 8192
    ensures After(p, pc) == pc + 4
  {
    hide OpOf;
    PrintWords();
  }

  /** The third cycle leaves the store in memory and fetch at the data. */
  lemma StartsPrinting(g: Geometry, a0: Arch)
    requires g.Valid() && g.d < TWO64 && a0 == Printed(4096, Image(PrintFor(g).code), [])
    ensures var p, ms := PrintFor(g), Fresh(g, a0.mem);
      Starts(p, a0, ms)
      && var s := Run(p, BootOf(a0, ms), 3);
      Printing(p, g, s) && Left(g, s) == g.d && s.mOut.valB == 0 && s.mem.output == []
  {
    hide Image, Printed, PrintsThenLeaves, Begun, Cycle, At, SeqM, SeqX, Coherent, Flat, EmptyCache, IsPow2, Cached,
      NoFault, Loaded, View, Geometry.BlockBase;
    var p, ms := PrintFor(g), Fresh(g, a0.mem);
    PrintStarts(g, a0);
    PrintMeets(g, a0);
    PrintedState(4096, Image(p.code), []);
    EmptyIsFlat(g, a0.mem);
    EmptyHolds(g, 8192);
    var s0 := BootOf(a0, ms);
    FirstCycle(p, a0, ms);
    SecondCycle(p, a0, ms, Cycle(p, s0));
    ThirdCycle(p, a0, ms, Cycle(p, Cycle(p, s0)));
    ThreeCycles(p, s0);
  }

  lemma ThreeCycles(p: Program, s: Cpu)
    requires s.Ok(p.cfg)
    ensures Run(p, s, 3) == Cycle(p, Cycle(p, Cycle(p, s)))
  {
    hide Cycle;
    assert Run(p, s, 1) == Cycle(p, Run(p, s, 0));
    assert Run(p, s, 2) == Cycle(p, Run(p, s, 1));
  }

  lemma {:induction false} RunOn(p: Program, s: Cpu, m: nat, n: nat)
    requires s.Ok(p.cfg)
    ensures Run(p, s, m + n) == Run(p, Run(p, s, m), n)
  {
    hide Cycle;
    if n > 0 { RunOn(p, s, m, n - 1); }
  }

  /** The sequential machine prints one word and is done. With a cache whose misses take d
      cycles the emulator has printed it d times after d + 3 cycles. */
  lemma PrintsOften(g: Geometry)
    requires g.Valid() && g.d < TWO64
    ensures var p, a0 := PrintFor(g), Printed(4096, Image(PrintFor(g).code), []);
      && DataBehaves(p, a0) && Halted(p, At(p, a0, 2)) && At(p, a0, 2).output == [0] && !FetchesText(p, a0)
      && Starts(p, a0, Fresh(g, a0.mem))
      && Run(p, BootOf(a0, Fresh(g, a0.mem)), 3 + g.d).mem.output == seq(g.d, _ => 0)
  {
    hide Image, Printed, Run, At, Coherent, EmptyCache, IsPow2, DataBehaves, FetchesText, Halted, Printing, Left,
      View, Loaded;
    var p, a0 := PrintFor(g), Printed(4096, Image(PrintFor(g).code), []);
    PrintRun(g, a0);
    PrintedState(8192, Image(p.code), [0]);
    PrintStarts(g, a0);
    StartsPrinting(g, a0);
    var s0 := BootOf(a0, Fresh(g, a0.mem));
    RunOn(p, s0, 3, g.d);
    PrintsEachCycle(p, g, Run(p, s0, 3), g.d);
    assert [] + seq(g.d, _ => 0) == seq(g.d, _ => 0);
  }
}
