/** The PC that is left when an illegal instruction is reported is that instruction's own. */
module ReportedPC {
  import opened Words
  import opened Isa
  import opened MemorySystem
  import opened Datapath
  import opened Sequential
  import opened Pipeline
  import opened Invariant
  import opened Stages
  import opened OperandValues
  import opened CycleFields
  import opened Refinement
  import opened ReadyStep
  import opened FrontEnd
  import opened FetchPath
  import opened PipelineTheorem
  import opened Timing
  import opened IllegalEnd

  /** Where a cycle leaves the PC: at the instruction in memory if that has a fault, and else
      where fetch has left it. */
  function PCLeft(p: Program, s: Cpu): Word
    requires s.Ok(p.cfg)
  {
    if IsFault(MemoryResult(p, s).status) then Wrap(s.mOut.value - 4)
    else if FetchHalts(s) then s.fPC
    else NextPC(p.cfg, FetchWord(p, s), SelectPC(s))
  }

  lemma CyclePC(p: Program, s: Cpu)
    requires s.Ok(p.cfg)
    ensures Cycle(p, s).pc == Cycle(p, s).fPC == PCLeft(p, s)
  {
    hide DataAccess, FetchMem, Execute, ExecuteFlags, Decode, Sources, Fetched, FetchHalts, SelectPC, StickyStatus,
      NextPC, MemoryOut, ForwardOne, WriteValue, Requested, LatchOne, ControlStage, FetchWord;
  }

  // Instructions carry their address.

  /** `value` is the address of the instruction at `a`, plus 4. */
  predicate Names(a: Arch, value: Word) {
    value == Wrap(a.pc + 4)
  }

  /** What is reported as illegal carries the address it was fetched from, fetch has stopped
      behind it, and the PC is set to it when it reaches writeback. */
  predicate Named(p: Program, a0: Arch, s: Cpu, k: nat)
    requires a0.regs.Valid()
  {
    && (OnPathD(s) && Ends(s.dOut.status) ==> Ends(s.fIn.status))
    && (OnPathD(s) && s.dOut.status == INS ==> Names(At(p, a0, IndexD(s, k)), s.dOut.value))
    && (s.xOut.status == INS ==> Names(At(p, a0, IndexX(s, k)), s.xOut.value))
    && (s.mOut.status == INS ==> Names(At(p, a0, IndexM(s, k)), s.mOut.value))
    && (s.wOut.status == INS ==> s.fPC == At(p, a0, k).pc)
  }

  lemma BackFour(pc: Word)
    ensures Wrap(Wrap(pc + 4) - 4) == pc
  {}

  lemma BusyNamed(p: Program, a0: Arch, s: Cpu, k: nat)
    requires a0.regs.Valid() && DataBehaves(p, a0) && Inv(p, a0, s, k) && MemNext(p, s).busy && Named(p, a0, s, k)
    ensures Named(p, a0, Cycle(p, s), IndexM(s, k))
  {
    hide HoldsX, HoldsM, HoldsW, HoldsD, FetchReady, Squashed, DataAgrees, MemOk, Loaded, Quiet, DataBehaves, Cycle,
      MemNext, At, Execute, FetchStatusAfter, Fetched, WriteRegs, View, Names, Redirected;
    BusyCycle(p, s);
    BusyStep(p, a0, s, k);
    if OnPathD(s) {
      if Redirected(s) { RedirectedAlone(p, a0, s, k); }
      FetchGoes(p, s);
    }
  }

  lemma FetchedNames(p: Program, a0: Arch, s: Cpu, k: nat)
    requires a0.regs.Valid() && DataBehaves(p, a0) && Inv(p, a0, s, k) && !WrongPathF(p, a0, s, k)
    requires Fetched(p, s).status == INS
    ensures Names(At(p, a0, IndexF(s, k)), Fetched(p, s).value)
  {
    hide HoldsX, HoldsM, HoldsW, HoldsD, FetchReady, Squashed, DataAgrees, MemOk, Loaded, Quiet, DataBehaves, At,
      View, SelectPC, StickyStatus, FetchWord, WrongPathF, IndexF, FetchOp;
    FetchedOp(p, s);
    RightPathBelow(p, a0, s, k);
    FetchedValue(p.cfg, FetchWord(p, s), SelectPC(s));
  }

  lemma FetchedValue(cfg: Config, bits: Insn, pc: Word)
    ensures FetchAt(cfg, bits, pc).status == INS ==> FetchAt(cfg, bits, pc).value == Wrap(pc + 4)
  {
    hide OpOf, AdrpValue;
  }

  lemma KeepsValue(p: Program, s: Cpu)
    requires s.Ok(p.cfg)
    ensures DecodeOut(p, s).value == s.dOut.value && Execute(s.xOut, s.nzcv).value == s.xOut.value
    ensures DecodeOut(p, s).status == s.dOut.status && Execute(s.xOut, s.nzcv).status == s.xOut.status
  {
    hide DataAccess, FetchMem, ExecuteFlags, Fetched, FetchHalts, ForwardOne, ControlOf, AluOpOf, ImmediateOf,
      OperandsOf, CondOf, HwOf;
  }

  lemma ReadyNamed(p: Program, a0: Arch, s: Cpu, k: nat)
    requires a0.regs.Valid() && DataBehaves(p, a0) && Inv(p, a0, s, k) && !MemNext(p, s).busy && Named(p, a0, s, k)
    requires ReadyFields(p, s, Cycle(p, s))
    ensures Named(p, a0, Cycle(p, s), IndexM(s, k))
  {
    hide HoldsX, HoldsM, HoldsW, HoldsD, FetchReady, Squashed, DataAgrees, MemOk, Loaded, Quiet, DataBehaves, Cycle,
      MemNext, At, Execute, Fetched, WriteRegs, View, Names, Redirected, DecodeOut, LoadUse, Sources, NextPC,
      FetchWord, ExecuteFlags, FetchHalts, SelectPC, StickyStatus;
    var s', k' := Cycle(p, s), IndexM(s, k);
    Indices(p, a0, s, s', k);
    KeepsValue(p, s);
    SavesPC(p, a0, s, k);
    FrontNamed(p, a0, s, k);
  }

  lemma SavesPC(p: Program, a0: Arch, s: Cpu, k: nat)
    requires a0.regs.Valid() && DataBehaves(p, a0) && Inv(p, a0, s, k) && Named(p, a0, s, k)
    requires ReadyFields(p, s, Cycle(p, s))
    ensures Cycle(p, s).wOut.status == INS ==> Cycle(p, s).fPC == At(p, a0, IndexM(s, k)).pc
  {
    hide HoldsX, HoldsM, HoldsW, HoldsD, FetchReady, Squashed, DataAgrees, MemOk, Loaded, Quiet, DataBehaves, Cycle,
      MemNext, At, Execute, Fetched, WriteRegs, View, Redirected, DecodeOut, LoadUse, Sources, NextPC, FetchWord,
      ExecuteFlags, FetchHalts, SelectPC, StickyStatus, MemoryResult, OnPathD;
    CyclePC(p, s);
    if s.mOut.status == INS { BackFour(At(p, a0, IndexM(s, k)).pc); }
  }

  /** What enters decode. */
  lemma FrontNamed(p: Program, a0: Arch, s: Cpu, k: nat)
    requires a0.regs.Valid() && DataBehaves(p, a0) && Inv(p, a0, s, k) && !MemNext(p, s).busy && Named(p, a0, s, k)
    requires ReadyFields(p, s, Cycle(p, s))
    ensures var s', k' := Cycle(p, s), IndexM(s, k);
      && (OnPathD(s') && Ends(s'.dOut.status) ==> Ends(s'.fIn.status))
      && (OnPathD(s') && s'.dOut.status == INS ==> Names(At(p, a0, IndexD(s', k')), s'.dOut.value))
  {
    hide HoldsX, HoldsM, HoldsW, HoldsD, FetchReady, Squashed, DataAgrees, MemOk, Loaded, Quiet, DataBehaves, Cycle,
      MemNext, At, Execute, WriteRegs, View, Names, Redirected, DecodeOut, LoadUse, Sources, NextPC, FetchWord,
      ExecuteFlags, FetchHalts, SelectPC, StickyStatus, MemoryResult, Fetched, WrongPathF, LoadUseHazard, WrongPathD;
    var s', k' := Cycle(p, s), IndexM(s, k);
    if LoadUseHazard(s) {
      LoadUseAlone(p, a0, s, k);
      HazardAlone(p, a0, s, k);
      Indices(p, a0, s, s', k);
      FetchGoes(p, s);
    } else if !WrongPathD(s) && s.dOut.op != RET {
      AfterAdvance(p, a0, s, k);
      FetchedStatus(p, s);
      NewInD(p, a0, s, s', k, k');
      if !WrongPathF(p, a0, s, k) && Fetched(p, s).status == INS { FetchedNames(p, a0, s, k); }
    }
  }

  lemma {:induction false} RunNamed(p: Program, a0: Arch, ms: MemSys, n: nat)
    requires a0.regs.Valid() && WellBehaved(p, a0) && Starts(p, a0, ms)
    ensures Named(p, a0, Run(p, BootOf(a0, ms), n), |Retired(p, BootOf(a0, ms), n)|)
  {
    hide HoldsX, HoldsM, HoldsW, HoldsD, FetchReady, Squashed, DataAgrees, Quiet, Named, Cycle, DataBehaves,
      FetchesText, View, MemOk, MemShaped, Loaded, IndexM, MemNext, At, ReadyFields;
    if n > 0 {
      RunNamed(p, a0, ms, n - 1);
      RunInv(p, a0, ms, n - 1);
      var s, k := Run(p, BootOf(a0, ms), n - 1), |Retired(p, BootOf(a0, ms), n - 1)|;
      OneMore(p, BootOf(a0, ms), n);
      if MemNext(p, s).busy {
        BusyNamed(p, a0, s, k);
      } else {
        ReadyCycleFields(p, a0, s, k);
        ReadyNamed(p, a0, s, k);
      }
    } else {
      NothingNamed(p, a0, ms);
    }
  }

  lemma NothingNamed(p: Program, a0: Arch, ms: MemSys)
    requires a0.regs.Valid()
    ensures Named(p, a0, BootOf(a0, ms), 0)
  {
    hide At;
  }

  /** Behind an end in writeback there is nothing but ends, and fetch has stopped. */
  lemma EndInW(p: Program, a0: Arch, s: Cpu, k: nat)
    requires a0.regs.Valid() && DataBehaves(p, a0) && Inv(p, a0, s, k) && TailFull(s) && Named(p, a0, s, k)
    requires Ends(s.wOut.status)
    ensures Ends(s.mOut.status) && FetchHalts(s) && !MemNext(p, s).busy
    ensures Halted(p, At(p, a0, k)) && At(p, a0, k + 1) == At(p, a0, k) && IndexM(s, k) == k + 1
  {
    hide HoldsM, HoldsX, HoldsW, HoldsD, FetchReady, DataAgrees, MemOk, Loaded, Quiet, DataBehaves, At, View, Execute,
      Halted, FetchHalts, MemNext, Squashed, Redirected, InertX;
    HaltIndices(p, a0, s, k);
    HaltedForever(p, a0, k, k + 1);
    AllBehave(p, a0, IndexX(s, k));
    StopInX(p, At(p, a0, IndexX(s, k)), s.xOut);
    if Redirected(s) { RedirectedAlone(p, a0, s, k); }
    FetchGoes(p, s);
    NothingInTail(p, a0, s, k);
  }

  lemma NothingInTail(p: Program, a0: Arch, s: Cpu, k: nat)
    requires a0.regs.Valid() && DataBehaves(p, a0) && Inv(p, a0, s, k) && Ends(s.mOut.status)
    ensures !MemNext(p, s).busy && MemoryResult(p, s).status == s.mOut.status
  {
    hide HoldsX, HoldsW, HoldsD, FetchReady, Squashed, DataAgrees, MemOk, Loaded, DataBehaves, At, View, FetchMem,
      DataAccess, MemShaped, SeqM, Halted;
    MemoryInCycle(p, a0, s, k);
    AllBehave(p, a0, IndexM(s, k));
    if !Halted(p, At(p, a0, IndexM(s, k))) { StatusOf(p, At(p, a0, IndexM(s, k))); }
  }

  /** When the processor stops with the status of an illegal instruction, the PC is that
      instruction's address. */
  lemma PCIsReported(p: Program, a0: Arch, ms: MemSys, n: nat)
    requires a0.regs.Valid() && WellBehaved(p, a0) && Starts(p, a0, ms)
    requires n > 0 && Run(p, BootOf(a0, ms), n).status == INS
    ensures var k := |Retired(p, BootOf(a0, ms), n - 1)|;
      Illegal(p, At(p, a0, k)) && Run(p, BootOf(a0, ms), n).pc == At(p, a0, k).pc
  {
    hide Cycle, DataBehaves, FetchesText, View, MemOk, MemShaped, Placed, Loaded, Quiet, At, Illegal, Halted,
      TailFull, Names, FetchHalts, MemNext, MemoryResult, IndexX, IndexD, Squashed;
    var s0 := BootOf(a0, ms);
    var s, k := Run(p, s0, n - 1), |Retired(p, s0, n - 1)|;
    StopIsFinal(p, a0, ms, n);
    RunInv(p, a0, ms, n - 1);
    RunTail(p, a0, ms, n - 1);
    RunNamed(p, a0, ms, n - 1);
    StatusReported(p, a0, s, k);
    EndInW(p, a0, s, k);
    NothingInTail(p, a0, s, k);
    CyclePC(p, s);
    if s.mOut.status == INS { NamesBack(At(p, a0, k), s.mOut.value); }
  }

  lemma NamesBack(a: Arch, value: Word)
    requires Names(a, value)
    ensures Wrap(value - 4) == a.pc
  {
    BackFour(a.pc);
  }
}
