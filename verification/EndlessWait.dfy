/** A program of one branch that the emulator never finishes once it has a cache. */
module EndlessWait {
  import opened Words
  import opened Bits
  import opened Alu
  import opened Isa
  import opened FlatMemory
  import opened CacheModel
  import opened CacheCoherence
  import opened MemorySystem
  import opened Datapath
  import opened Sequential
  import opened Pipeline
  import opened Invariant
  import opened TextMemory
  import opened CycleFields
  import opened ReadyStep
  import opened FrontEnd
  import opened PipelineTheorem
  import opened IllegalEnd
  import opened DataFetch
  import opened ArmReference
  import opened OpAgreement
  import opened ArmExceptions
  import opened Witness
  import opened Demos

  const JUMP: Insn := 0x1400_0400

  /** At 4096, a branch to the first data word; nothing else. */
  function Jump(pc: Word): Insn {
    if pc == 4096 then JUMP else 0
  }

  function JumpFor(g: Geometry): Program {
    Program(MAP.(cache := WithCache(g)), pc => Jump(pc))
  }

  function Fresh(g: Geometry, mem: Mem): MemSys
    requires g.Valid()
  {
    MemSys(mem, EmptyCache(g), false, 0, 0, false, [])
  }

  lemma JumpWord()
    ensures OpOf(JUMP) == B && SignedField(JUMP, 0, 26) == 1024
  {
    hide OpOf, Field;
    OpFromTop(JUMP, 0x0A0);
    SmallPowers();
    Pow2Add(12, 12);
    assert Pow2(26) == 4 * Pow2(24) && Pow2(25) == 2 * Pow2(24);
    assert Field(JUMP, 0, 26) == 1024 by { LowField(JUMP); }
  }

  lemma LowField(bits: Insn)
    ensures Field(bits, 0, 26) == bits % Pow2(26)
  {
    assert Pow2(0) == 1;
  }

  lemma JumpStep(g: Geometry, mem: Mem)
    ensures var p, a := JumpFor(g), Start(NONE, 4096, mem);
      Behaves(p, a) && !Halted(p, a) && SeqStep(p, a) == Start(NONE, 8192, mem)
  {
    hide OpOf, RegField, SignedField, Behaves, Halted, SeqStep, DataWord, Load64, Store64, GetZ, GetSP, SetZ, Start,
      Field;
    var p, a := JumpFor(g), Start(NONE, 4096, mem);
    JumpWord();
    StartState(NONE, 4096, mem);
    Legal(p, a);
    QuietBehaves(p, a);
    SequentialIsOp(p, a);
    StartMoves(NONE, 4096, mem, NONE, 8192, mem);
  }

  /** Where there is no text the run is over. */
  lemma FaultEnds(p: Program, a: Arch)
    requires a.regs.Valid() && a.pc != 0 && FetchFault(p.cfg, a.pc)
    ensures Halted(p, a) && Illegal(p, a) && Behaves(p, a)
  {
    hide OpOf, AluResult, AluFlags, ImmediateOf, AdrpValue, RegField, CondHolds;
  }

  lemma JumpRun(g: Geometry, a0: Arch)
    requires a0 == Start(NONE, 4096, Image(JumpFor(g).code))
    ensures var p := JumpFor(g);
      DataBehaves(p, a0) && FirstIllegal(p, a0, 1) && !FetchesText(p, a0)
  {
    hide Behaves, Halted, SeqStep, Start, Illegal, Image, SeqRun, Diverts, StopsFetch, After;
    var p, mem := JumpFor(g), Image(JumpFor(g).code);
    JumpStep(g, mem);
    OneStep(p, a0);
    StartState(NONE, 4096, mem);
    StartState(NONE, 8192, mem);
    FaultEnds(p, At(p, a0, 1));
    BehavesThroughout(p, a0, 1);
    assert !PathBelow(p, SeqRun(p, a0, 1));
  }

  lemma OneStep(p: Program, a0: Arch)
    requires a0.regs.Valid()
    ensures At(p, a0, 0) == a0 && At(p, a0, 1) == SeqStep(p, a0)
  {
    hide SeqStep;
  }

  lemma FreshStarts(g: Geometry, a0: Arch)
    requires g.Valid() && g.d < TWO64 && a0 == Start(NONE, 4096, Image(JumpFor(g).code))
    ensures Starts(JumpFor(g), a0, Fresh(g, a0.mem))
  {
    hide Image, Load32, IsPow2, Coherent, Flat, EmptyCache;
    var p, ms := JumpFor(g), Fresh(g, a0.mem);
    EmptyIsFlat(g, a0.mem);
    forall pc: Word | !FetchFault(p.cfg, pc) ensures Load32(ms.raw, pc) == p.code(pc) { ImageHolds(p.code, pc); }
  }

  /** Before the first cycle fetch is about to read the branch. */
  lemma BeforeFetch(g: Geometry, a0: Arch)
    requires g.Valid() && g.d < TWO64 && a0 == Start(NONE, 4096, Image(JumpFor(g).code))
    ensures var p, ms := JumpFor(g), Fresh(g, a0.mem);
      var s := BootOf(a0, ms);
      && DataBehaves(p, a0) && Starts(p, a0, ms) && Inv(p, a0, s, 0) && MemNext(p, s) == ms
      && FetchWord(p, s) == JUMP && SelectPC(s) == 4096 && !Ends(StickyStatus(s))
  {
    hide Image, IsPow2, Coherent, Flat, EmptyCache, DataBehaves, Start, HoldsD, HoldsX, HoldsM, HoldsW, At,
      FetchesText, View, DataAgrees, FetchReady, OnPathD, WrongPathD, Squashed, Loaded, FetchWord, SelectPC,
      FetchHalts, StickyStatus, MemNext, FirstIllegal;
    var p, ms := JumpFor(g), Fresh(g, a0.mem);
    FreshStarts(g, a0);
    StartState(NONE, 4096, Image(p.code));
    BootPlaced(p, a0, ms);
    JumpRun(g, a0);
    BootFetch(p, a0, ms);
    QuietMem(p, BootOf(a0, ms));
    FetchesProgram(p, BootOf(a0, ms));
  }

  lemma BootFetch(p: Program, a0: Arch, ms: MemSys)
    requires a0.regs.Valid() && MemShaped(p.cfg, ms) && a0.pc != 0
    ensures var s := BootOf(a0, ms);
      SelectPC(s) == a0.pc && StickyStatus(s) == BUB && !FetchHalts(s) && MemNext(p, s) == FetchMem(p, s)
  {
    hide InstrRead;
  }

  /** After one cycle the branch is in decode, and fetch is about to read its target. */
  lemma AfterFetch(p: Program, a0: Arch, s: Cpu)
    requires a0.regs.Valid() && DataBehaves(p, a0) && s.Ok(p.cfg) && Inv(p, a0, s, 0) && !MemNext(p, s).busy
    requires p.cfg.(cache := NoCache) == MAP && FetchWord(p, s) == JUMP && SelectPC(s) == 4096 && !Ends(StickyStatus(s))
    requires s.dOut == D_BUBBLE && s.xOut == X_BUBBLE && s.mOut == M_BUBBLE && s.wOut == W_BUBBLE
    ensures var s' := Cycle(p, s);
      && s'.mem == MemNext(p, s) && NoFault(s') && s'.status == s'.wOut.status == BUB
      && !Redirected(s') && !s'.mOut.ms.read && !s'.mOut.ms.write && !FetchHalts(s') && SelectPC(s') == 8192
  {
    hide Cycle, Fetched, DataBehaves, Placed, MemShaped, FetchWord, DecodeOut, Execute, ExecuteFlags, MemoryResult,
      LoadUse, Sources, WriteRegs, NextPC, MemNext;
    ReadyCycleFields(p, a0, s, 0);
    JumpFetched(p, s);
    BubbleDecodes(p, s);
    BubbleIsQuiet(s.nzcv);
  }

  lemma JumpFetched(p: Program, s: Cpu)
    requires FetchWord(p, s) == JUMP && SelectPC(s) == 4096 && !FetchFault(p.cfg, 4096) && !Ends(StickyStatus(s))
    ensures Fetched(p, s).op == B && Fetched(p, s).status == AOK && !FetchHalts(s) && !FetchStops(p, s)
    ensures NextPC(p.cfg, FetchWord(p, s), SelectPC(s)) == 8192
  {
    hide OpOf, SignedField, SelectPC, StickyStatus, FetchWord;
    JumpWord();
  }

  lemma BubbleDecodes(p: Program, s: Cpu)
    requires s.Ok(p.cfg) && s.dOut == D_BUBBLE && s.xOut == X_BUBBLE
    ensures DecodeOut(p, s).op == NOP && Execute(s.xOut, s.nzcv).ms == NO_M && Execute(s.xOut, s.nzcv).op == NOP
    ensures !LoadUseHazard(s)
  {
    DecodeOutOp(p, s);
  }

  /** The program is well formed and over after one instruction, but goes to the data for the
      next. With a cache, and a miss that takes more than a cycle, the emulator runs it for
      ever, as far as its limit goes, and reports nothing. */
  lemma JumpNeverStops(g: Geometry)
    requires g.Valid() && 2 <= g.d < TWO64
    ensures var p, a0 := JumpFor(g), Start(NONE, 4096, Image(JumpFor(g).code));
      && DataBehaves(p, a0) && FirstIllegal(p, a0, 1) && !FetchesText(p, a0)
      && Starts(p, a0, Fresh(g, a0.mem))
      && forall n: nat | n > 0 :: Run(p, BootOf(a0, Fresh(g, a0.mem)), n).status == BUB
  {
    hide Image, IsPow2, Coherent, Flat, EmptyCache, Cycle, Start, SelectPC, FetchHalts, Run, DataBehaves, FetchesText,
      FirstIllegal, View, Loaded, Placed, MemNext, StickyStatus, FetchWord;
    var p, a0 := JumpFor(g), Start(NONE, 4096, Image(JumpFor(g).code));
    var ms := Fresh(g, a0.mem);
    JumpRun(g, a0);
    BeforeFetch(g, a0);
    var s0 := BootOf(a0, ms);
    AfterFetch(p, a0, s0);
    var s := Cycle(p, s0);
    FetchMisses(p, g, s, ms);
    NeverStops(p, g, s);
    forall n: nat | n > 0 ensures Run(p, s0, n).status == BUB { OneEarlier(p, s0, n - 1); }
  }

  lemma NeverStops(p: Program, g: Geometry, s: Cpu)
    requires p.cfg.cache == WithCache(g) && s.Ok(p.cfg) && NoFault(s) && CacheOk(g, s.mem) && !Redirected(s)
    requires !s.mOut.ms.read && !s.mOut.ms.write && s.status == s.wOut.status == BUB
    requires !FetchHalts(s) && FetchCached(p.cfg, SelectPC(s)) && SelectPC(s) % 4 == 0 && FetchMem(p, s).busy
    ensures forall n: nat :: Run(p, s, n).status == BUB
  {
    hide Cycle, FetchHalts, SelectPC, FetchMem, FetchCached, Coherent, NoFault, MemShaped, Redirected, IsPow2;
    StuckIffNoAccess(p, g, s);
    GetsStuck(p, s);
    forall n: nat ensures Run(p, s, n).status == BUB {
      if n == 1 { StatusAfterOne(p, s); }
    }
  }

  lemma StatusAfterOne(p: Program, s: Cpu)
    requires s.Ok(p.cfg) && NoFault(s) && MemNext(p, s).busy
    ensures Run(p, s, 1).status == s.wOut.status
  {
    hide Cycle, MemNext;
    BusyCycle(p, s);
  }

  lemma FetchMisses(p: Program, g: Geometry, s: Cpu, ms: MemSys)
    requires g.Valid() && g.d >= 2 && p == JumpFor(g) && s.mem == ms && CacheOk(g, ms)
    requires ms.cache == EmptyCache(g) && !ms.inflight && s.Ok(p.cfg) && !FetchHalts(s) && SelectPC(s) == 8192
    ensures FetchMem(p, s).busy && FetchCached(p.cfg, SelectPC(s))
  {
    hide SelectPC, FetchHalts, LookUp, Coherent, Flat, IsPow2, Cached, EmptyCache;
    EmptyHolds(g, 8192);
    LookUpWaits(g, ms, 8192);
  }

  lemma EmptyHolds(g: Geometry, a: Word)
    requires g.Valid()
    ensures !Cached(g, EmptyCache(g), a)
  {}
}
