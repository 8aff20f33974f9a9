/** A cycle in which no data access is in flight moves every instruction one stage on,
    apart from the bubbles a hazard puts in. */
module ReadyStep {
  import opened Alu
  import opened Isa
  import opened FlatMemory
  import opened MemorySystem
  import opened Datapath
  import opened Sequential
  import opened Pipeline
  import opened Invariant
  import opened Stages
  import opened OperandValues
  import opened CycleFields
  import opened Refinement

  lemma RetSources(p: Program, a: Arch)
    ensures SeqD(p, a).op == RET ==> Sources(SeqD(p, a)).src2 == XZR && !Halted(p, a)
  {
    hide OpOf, AdrpValue, RegField, FetchFault;
  }

  lemma LoadAddress(p: Program, a: Arch, x: XReg)
    requires a.regs.Valid() && Behaves(p, a) && HoldsX(p, a, x) && x.op == LDUR
    ensures x.status != BUB && x.ws.wEnable && Execute(x, a.nzcv).valEx != 0
    ensures !Mispredicted(Execute(x, a.nzcv))
  {
    hide AluResult, ExecuteFlags, ImmediateOf, Load64;
    OpShape(x.op);
  }

  lemma BubbleSources()
    ensures Sources(D_BUBBLE).src1 == XZR && Sources(D_BUBBLE).src2 == XZR
  {}

  /** A load-use hazard only arises between two instructions of the right path, and
      never together with a squash. */
  lemma LoadUseAlone(p: Program, a0: Arch, s: Cpu, k: nat)
    requires a0.regs.Valid() && DataBehaves(p, a0) && Inv(p, a0, s, k) && LoadUseHazard(s)
    ensures OnPathD(s) && !WrongPathD(s) && s.xOut.status != BUB && s.xOut.op == LDUR
    ensures !(s.dOut.op == RET && DecodeOut(p, s).valA == 0)
  {
    hide HoldsM, HoldsW, HoldsX, FetchReady, Execute, SeqD, Sources, FetchHalts, DataAccess, Fetched, Decode, Loaded,
      Quiet;
    var a := At(p, a0, IndexX(s, k));
    assert Behaves(p, a);
    LoadAddress(p, a, s.xOut);
    BubbleSources();
    RetSources(p, At(p, a0, IndexD(s, k)));
  }

  lemma MemoryStatus(p: Program, a0: Arch, s: Cpu, k: nat)
    requires a0.regs.Valid() && DataBehaves(p, a0) && Inv(p, a0, s, k) && !MemNext(p, s).busy
    ensures MemoryResult(p, s).status == s.mOut.status
    ensures s.mOut.status in {AOK, BUB} || Halted(p, At(p, a0, IndexM(s, k)))
  {
    hide HoldsX, HoldsW, HoldsD, FetchReady, SeqM, DataAccess, MemoryOut, SeqW, Halted, Loaded, Quiet;
    var a := At(p, a0, IndexM(s, k));
    assert Behaves(p, a);
    MemoryInCycle(p, a0, s, k);
    if s.mOut.status != BUB && !Halted(p, a) { StatusOf(p, a); }
  }

  /** The fields a ready cycle leaves, with the side conditions discharged. */
  predicate ReadyFields(p: Program, s: Cpu, s': Cpu)
    requires s.Ok(p.cfg)
  {
    && Common(p, s, s')
    && s'.nzcv == ExecuteFlags(s.xOut, s.nzcv)
    && s'.wOut == MemoryResult(p, s)
    && s'.wOut.status == s.mOut.status
    && s'.mOut == Execute(s.xOut, s.nzcv)
    && s'.xOut == (if LoadUseHazard(s) || WrongPathD(s) then X_BUBBLE else DecodeOut(p, s))
    && s'.dOut == (if LoadUseHazard(s) then s.dOut
                   else if WrongPathD(s) || s.dOut.op == RET then D_BUBBLE
                   else Fetched(p, s))
    && (LoadUseHazard(s) ==> OnPathD(s) && s.xOut.status != BUB && s.xOut.op == LDUR)
    && (LoadUseHazard(s) ==> s'.fOut.predPC == s.fOut.predPC)
    && (!LoadUseHazard(s) && s.dOut.op != RET && !FetchStops(p, s) && !FetchHalts(s) ==>
          s'.fOut.predPC == NextPC(p.cfg, FetchWord(p, s), SelectPC(s)))
  }

  /** Behind an instruction that stops the machine, nothing sets flags and fetch stops too. */
  lemma BehindHalt(p: Program, a0: Arch, s: Cpu, k: nat)
    requires a0.regs.Valid() && DataBehaves(p, a0) && Inv(p, a0, s, k) && Halted(p, At(p, a0, IndexM(s, k)))
    ensures !s.xOut.xs.setFlags && FetchStops(p, s)
  {
    hide HoldsW, HoldsM, HoldsD, FetchReady, Squashed, DataAgrees, MemOk, Fetched, At, DataBehaves, Halted, SeqX,
      SeqM, InertX, IndexM, Loaded, Quiet;
    HaltedForever(p, a0, IndexM(s, k), IndexX(s, k));
    HaltedForever(p, a0, IndexM(s, k), IndexD(s, k));
    HaltedForever(p, a0, IndexM(s, k), IndexF(s, k));
    StoppedX(p, At(p, a0, IndexX(s, k)), s.xOut);
    FlagsKeptBy(s.xOut, s.nzcv);
    FetchHolds(p, a0, s, k);
  }

  lemma StoppedX(p: Program, a: Arch, x: XReg)
    requires a.regs.Valid() && Halted(p, a) && HoldsX(p, a, x)
    ensures InertX(x) && !x.xs.setFlags
    ensures forall nzcv :: !Mispredicted(Execute(x, nzcv))
  {
    hide AluResult, ExecuteFlags, SeqX;
  }

  lemma ReadyCycleFields(p: Program, a0: Arch, s: Cpu, k: nat)
    requires a0.regs.Valid() && DataBehaves(p, a0) && Inv(p, a0, s, k) && !MemNext(p, s).busy
    ensures ReadyFields(p, s, Cycle(p, s))
  {
    hide HoldsX, HoldsW, HoldsM, HoldsD, FetchReady, Cycle, DecodeOut, Fetched, Execute, ExecuteFlags, MemoryOut,
      DataAccess, Sources, LoadUse, SelectPC, FetchHalts, StickyStatus, DataAgrees, Behaves, At, IndexM, Squashed,
      DataBehaves, Halted, MemOk, MemNext, LoadUseHazard, WrongPathD, Loaded, Quiet;
    MemoryStatus(p, a0, s, k);
    if LoadUseHazard(s) { LoadUseAlone(p, a0, s, k); }
    if Faults(p, s) { BehindHalt(p, a0, s, k); }
    ReadyCycle(p, s);
    FlagsKeptBy(s.xOut, s.nzcv);
  }

  // Indices after a ready cycle.

  lemma Indices(p: Program, a0: Arch, s: Cpu, s': Cpu, k: nat)
    requires a0.regs.Valid() && Inv(p, a0, s, k) && ReadyFields(p, s, s')
    ensures IndexM(s', IndexM(s, k)) == IndexX(s, k)
    ensures IndexX(s', IndexM(s, k)) == IndexD(s, k)
  {
    hide HoldsX, HoldsW, HoldsM, HoldsD, FetchReady, AluResult, ExecuteFlags, MemoryResult, DecodeOut, Fetched,
      Sources, LoadUse, Loaded, Quiet;
  }

  lemma FlagsAfter(p: Program, a: Arch, x: XReg)
    requires a.regs.Valid() && Behaves(p, a) && HoldsX(p, a, x)
    ensures ExecuteFlags(x, a.nzcv) == if x.status == BUB then a.nzcv else SeqStep(p, a).nzcv
  {
    hide SeqX, SeqW, Halted, AluResult, PlusFlags, MinusFlags, LogicFlags, WriteRegs, PCAfter, MemAfter, OutputAfter,
      SeqM;
    FlagsKeptBy(x, a.nzcv);
  }

  lemma ReadyFlags(p: Program, a0: Arch, s: Cpu, k: nat)
    requires a0.regs.Valid() && DataBehaves(p, a0) && Inv(p, a0, s, k)
    ensures ExecuteFlags(s.xOut, s.nzcv) == At(p, a0, IndexD(s, k)).nzcv
  {
    hide HoldsX, HoldsW, HoldsM, HoldsD, FetchReady, Squashed, Behaves, SeqStep, ExecuteFlags, View, Loaded, Quiet;
    assert Behaves(p, At(p, a0, IndexX(s, k)));
    FlagsAfter(p, At(p, a0, IndexX(s, k)), s.xOut);
    Unroll(p, a0, IndexX(s, k));
  }

  lemma ReadyMemory(p: Program, a0: Arch, s: Cpu, k: nat)
    requires a0.regs.Valid() && DataBehaves(p, a0) && Inv(p, a0, s, k) && !MemNext(p, s).busy
    ensures MemOk(p.cfg, MemNext(p, s)) && Loaded(p, MemNext(p, s))
    ensures View(p.cfg, MemNext(p, s)) == At(p, a0, IndexX(s, k)).mem
    ensures MemNext(p, s).output == At(p, a0, IndexX(s, k)).output
    ensures HoldsW(p, At(p, a0, IndexM(s, k)), MemoryResult(p, s))
  {
    hide HoldsX, HoldsW, HoldsM, HoldsD, FetchReady, Squashed, Behaves, View, MemOk, DataAccess, SeqW, SeqStep, SeqM,
      MemAfter, OutputAfter, MemoryOut, Halted, NoFault, WriteRegs, Loaded, Quiet;
    var i := IndexM(s, k);
    MemoryInCycle(p, a0, s, k);
    MemAfterStep(p, At(p, a0, i));
    Unroll(p, a0, i);
  }

  lemma MemAfterStep(p: Program, a: Arch)
    requires a.regs.Valid()
    ensures SeqStep(p, a).mem == (if Halted(p, a) then a.mem else MemAfter(p, a))
    ensures SeqStep(p, a).output == (if Halted(p, a) then a.output else OutputAfter(p, a))
  {}

  lemma ReadyData(p: Program, a0: Arch, s: Cpu, k: nat)
    requires a0.regs.Valid() && DataBehaves(p, a0) && Inv(p, a0, s, k) && !MemNext(p, s).busy
    requires ReadyFields(p, s, Cycle(p, s))
    ensures MemOk(p.cfg, Cycle(p, s).mem) && Loaded(p, Cycle(p, s).mem)
    ensures DataAgrees(p, a0, Cycle(p, s), IndexM(s, k))
  {
    hide HoldsX, HoldsW, HoldsM, HoldsD, FetchReady, Squashed, Behaves, View, MemOk, DataAccess, MemoryOut, Cycle,
      IndexM, IndexX, IndexD, SeqStep, ExecuteFlags, Execute, DecodeOut, Fetched, WriteRegs, Sources, LoadUse, Loaded,
      Quiet;
    RetireOne(p, a0, s, k);
    ReadyFlags(p, a0, s, k);
    ReadyMemory(p, a0, s, k);
    Indices(p, a0, s, Cycle(p, s), k);
  }

  // What each register holds after a ready cycle.

  lemma ReadyRegisters(p: Program, a0: Arch, s: Cpu, k: nat)
    requires a0.regs.Valid() && DataBehaves(p, a0) && Inv(p, a0, s, k) && !MemNext(p, s).busy
    requires ReadyFields(p, s, Cycle(p, s))
    ensures var s' := Cycle(p, s);
      && HoldsW(p, At(p, a0, IndexM(s, k)), s'.wOut)
      && HoldsM(p, At(p, a0, IndexX(s, k)), s'.mOut)
      && HoldsX(p, At(p, a0, IndexD(s, k)), s'.xOut)
  {
    hide HoldsW, HoldsM, HoldsD, FetchReady, Squashed, MemoryOut, DataAccess, Cycle, SeqStep, SeqX, SeqM, Halted,
      Execute, ExecuteFlags, DecodeOut, Fetched, View, Sources, LoadUse, FetchHalts, SelectPC, NextPC, WriteRegs,
      Behaves, Loaded, Quiet;
    ReadyMemory(p, a0, s, k);
    assert Behaves(p, At(p, a0, IndexX(s, k)));
    ExecuteHolds(p, At(p, a0, IndexX(s, k)), s.xOut);
    if !LoadUseHazard(s) && !WrongPathD(s) {
      DecodeHoldsAny(p, a0, s, k);
    }
  }

  lemma DecodeHoldsAny(p: Program, a0: Arch, s: Cpu, k: nat)
    requires a0.regs.Valid() && DataBehaves(p, a0) && Inv(p, a0, s, k) && !MemNext(p, s).busy
    requires !LoadUseHazard(s) && !WrongPathD(s)
    ensures HoldsX(p, At(p, a0, IndexD(s, k)), DecodeOut(p, s)) && DecodeOut(p, s).status == s.dOut.status
    ensures OnPathD(s) && !Halted(p, At(p, a0, IndexD(s, k))) ==> DecodeOut(p, s) == SeqX(p, At(p, a0, IndexD(s, k)))
  {
    hide HoldsW, HoldsM, HoldsD, FetchReady, MemoryOut, DataAccess, SeqStep, SeqX, SeqM, Halted, Execute,
      ExecuteFlags, Fetched, FetchHalts, ForwardOne, ControlOf, AluOpOf, ImmediateOf, OperandsOf, CondOf, HwOf, View,
      Loaded, Quiet;
    if OnPathD(s) {
      DecodeHolds(p, a0, s, k);
    } else {
      var x := DecodeOut(p, s);
      BubbleShape(x.valA, x.valB);
      assert x == Decode(D_BUBBLE, x.valA, x.valB);
    }
  }
}
