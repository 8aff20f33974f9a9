/** Where fetch is while it is on a wrong path, and so which addresses a run ever fetches. */
module FetchPath {
  import opened Words
  import opened Alu
  import opened Isa
  import opened MemorySystem
  import opened Datapath
  import opened Sequential
  import opened Pipeline
  import opened Invariant
  import opened TextMemory
  import opened CycleFields
  import opened Refinement
  import opened ReadyStep
  import opened FrontEnd

  /** Behind the instruction in decode or the branch in execute that fetch should not have
      gone straight on from, fetch has gone straight on. */
  predicate OnTrack(p: Program, a0: Arch, s: Cpu, k: nat)
    requires a0.regs.Valid()
  {
    && (OnPathD(s) && Diverts(p, At(p, a0, IndexD(s, k))) ==> Astray(p, At(p, a0, IndexD(s, k)).pc, s))
    && (WrongPathD(s) ==> FurtherAstray(p, At(p, a0, IndexX(s, k)).pc, s))
  }

  predicate Astray(p: Program, pc: Word, s: Cpu) {
    if Ends(s.fIn.status) then StopsFetch(p, After(p, pc)) else s.fOut.predPC == After(p, pc)
  }

  predicate FurtherAstray(p: Program, pc: Word, s: Cpu) {
    var wrong := After(p, pc);
    if Ends(s.fIn.status) then StopsFetch(p, wrong) || StopsFetch(p, After(p, wrong))
    else !StopsFetch(p, wrong) && s.fOut.predPC == After(p, wrong)
  }

  /** A redirection finds decode and execute without anything to go astray behind. */
  lemma RedirectedAlone(p: Program, a0: Arch, s: Cpu, k: nat)
    requires a0.regs.Valid() && Placed(p, a0, s, k) && Redirected(s)
    ensures !OnPathD(s) && !WrongPathD(s) && !WrongPathF(p, a0, s, k)
  {
    hide HoldsM, HoldsW, HoldsD, FetchReady, DataAgrees, Loaded, AluResult, ExecuteFlags, At;
  }

  /** Fetch, unless redirected, looks where it predicted. */
  lemma FetchGoes(p: Program, s: Cpu)
    requires MemOk(p.cfg, s.mem) && Loaded(p, s.mem) && !Redirected(s)
    ensures Ends(FetchStatusAfter(p, s)) <==> Ends(s.fIn.status) || StopsFetch(p, s.fOut.predPC)
    ensures FetchStops(p, s) <==> Ends(s.fIn.status) || StopsFetch(p, s.fOut.predPC)
    ensures !FetchStops(p, s) ==>
      !FetchHalts(s) && NextPC(p.cfg, FetchWord(p, s), SelectPC(s)) == After(p, s.fOut.predPC)
    ensures FetchHalts(s) <==> Ends(s.fIn.status) || s.fOut.predPC == 0
    ensures !FetchHalts(s) ==> SelectPC(s) == s.fOut.predPC
  {
    hide MemOk, Loaded, FetchWord, FetchOp, AdrpValue, PredictPC;
    if SelectPC(s) != 0 {
      FetchesProgram(p, s);
      NoFaultIfLegal(p.cfg, FetchWord(p, s), SelectPC(s));
    }
  }

  lemma NoFaultIfLegal(cfg: Config, bits: Insn, pc: Word)
    ensures FetchStatus(FetchOp(cfg, bits, pc)) == AOK ==> !FetchFault(cfg, pc)
  {
    hide OpOf;
  }

  lemma StayOnTrack(p: Program, pc: Word, s: Cpu, s': Cpu)
    requires MemOk(p.cfg, s.mem) && Loaded(p, s.mem) && !Redirected(s)
    requires s'.fIn.status == FetchStatusAfter(p, s) && s'.fOut.predPC == s.fOut.predPC
    ensures Astray(p, pc, s) ==> Astray(p, pc, s')
    ensures FurtherAstray(p, pc, s) ==> FurtherAstray(p, pc, s')
  {
    hide MemOk, Loaded, FetchStatusAfter, StopsFetch, After, FetchStops, FetchHalts, Redirected;
    FetchGoes(p, s);
  }

  lemma BusyTrack(p: Program, a0: Arch, s: Cpu, k: nat)
    requires a0.regs.Valid() && DataBehaves(p, a0) && Inv(p, a0, s, k) && MemNext(p, s).busy && OnTrack(p, a0, s, k)
    ensures OnTrack(p, a0, Cycle(p, s), IndexM(s, k))
  {
    hide HoldsX, HoldsM, HoldsW, HoldsD, FetchReady, Squashed, DataAgrees, MemOk, Loaded, Quiet, DataBehaves, Cycle,
      MemNext, Astray, FurtherAstray, Diverts, At, Execute, FetchStatusAfter, WriteRegs, Fetched, View, Redirected;
    BusyCycle(p, s);
    BusyStep(p, a0, s, k);
    var s', k' := Cycle(p, s), IndexM(s, k);
    if Redirected(s) {
      RedirectedAlone(p, a0, s, k);
    } else {
      if OnPathD(s) { StayOnTrack(p, At(p, a0, IndexD(s, k)).pc, s, s'); }
      if WrongPathD(s) { StayOnTrack(p, At(p, a0, IndexX(s, k)).pc, s, s'); }
    }
  }

  lemma HazardTrack(p: Program, a0: Arch, s: Cpu, k: nat)
    requires a0.regs.Valid() && DataBehaves(p, a0) && Inv(p, a0, s, k) && OnTrack(p, a0, s, k)
    requires ReadyFields(p, s, Cycle(p, s)) && LoadUseHazard(s)
    ensures OnTrack(p, a0, Cycle(p, s), IndexM(s, k))
  {
    hide HoldsX, HoldsM, HoldsW, HoldsD, FetchReady, Squashed, DataAgrees, MemOk, Loaded, Quiet, DataBehaves, Cycle,
      Astray, FurtherAstray, Diverts, At, Execute, FetchStatusAfter, WriteRegs, Fetched, View, Redirected, DecodeOut,
      MemoryResult, ExecuteFlags, FetchStops, FetchHalts, NextPC, Sources, LoadUse;
    var s', k' := Cycle(p, s), IndexM(s, k);
    BubbleIsQuiet(s'.nzcv);
    Indices(p, a0, s, s', k);
    if Redirected(s) { RedirectedAlone(p, a0, s, k); }
    StayOnTrack(p, At(p, a0, IndexD(s, k)).pc, s, s');
  }

  /** Fetch has just taken number `IndexF`, and goes straight on behind it. */
  lemma NewTrack(p: Program, a0: Arch, s: Cpu, k: nat)
    requires a0.regs.Valid() && DataBehaves(p, a0) && Inv(p, a0, s, k) && !WrongPathF(p, a0, s, k)
    requires ReadyFields(p, s, Cycle(p, s)) && !LoadUseHazard(s) && s.dOut.op != RET
    requires Diverts(p, At(p, a0, IndexF(s, k)))
    ensures Astray(p, At(p, a0, IndexF(s, k)).pc, Cycle(p, s))
  {
    hide HoldsX, HoldsM, HoldsW, HoldsD, FetchReady, Squashed, DataAgrees, MemOk, Loaded, Quiet, DataBehaves, Cycle,
      At, Execute, WriteRegs, View, Redirected, DecodeOut, MemoryResult, ExecuteFlags, NextPC, Sources, LoadUse, SeqX,
      SeqM, Halted, SelectPC, IndexF, WrongPathF, WrongPathD, Fetched, FetchWord;
    FetchHolds(p, a0, s, k);
  }

  lemma AdvanceTrack(p: Program, a0: Arch, s: Cpu, k: nat)
    requires a0.regs.Valid() && DataBehaves(p, a0) && Inv(p, a0, s, k) && !MemNext(p, s).busy && OnTrack(p, a0, s, k)
    requires ReadyFields(p, s, Cycle(p, s)) && !LoadUseHazard(s) && !WrongPathD(s) && s.dOut.op != RET
    ensures OnTrack(p, a0, Cycle(p, s), IndexM(s, k))
  {
    hide HoldsX, HoldsM, HoldsW, HoldsD, FetchReady, Squashed, DataAgrees, MemOk, Loaded, Quiet, DataBehaves, Cycle,
      Diverts, At, Execute, FetchStatusAfter, WriteRegs, Fetched, View, Redirected, DecodeOut, MemoryResult,
      ExecuteFlags, FetchStops, FetchHalts, NextPC, Sources, LoadUse, StopsFetch, After, WrongPathD;
    var s', k' := Cycle(p, s), IndexM(s, k);
    AfterAdvance(p, a0, s, k);
    Indices(p, a0, s, s', k);
    FetchedStatus(p, s);
    if WrongPathF(p, a0, s, k) {
      if Redirected(s) { RedirectedAlone(p, a0, s, k); }
      FetchGoes(p, s);
    } else if Diverts(p, At(p, a0, IndexF(s, k))) {
      NewTrack(p, a0, s, k);
    }
  }

  lemma TrackStays(p: Program, a0: Arch, s: Cpu, k: nat)
    requires a0.regs.Valid() && DataBehaves(p, a0) && Inv(p, a0, s, k) && OnTrack(p, a0, s, k)
    ensures OnTrack(p, a0, Cycle(p, s), IndexM(s, k))
  {
    hide HoldsX, HoldsM, HoldsW, HoldsD, FetchReady, Squashed, DataAgrees, MemOk, Loaded, Quiet, DataBehaves, Cycle,
      At, Execute, WriteRegs, View, DecodeOut, MemNext, LoadUseHazard, Diverts, MemoryResult, ExecuteFlags,
      FetchStops, FetchHalts, NextPC, Fetched, Astray, FurtherAstray;
    if MemNext(p, s).busy {
      BusyTrack(p, a0, s, k);
    } else {
      ReadyCycleFields(p, a0, s, k);
      var s' := Cycle(p, s);
      if LoadUseHazard(s) {
        HazardTrack(p, a0, s, k);
      } else if WrongPathD(s) || s.dOut.op == RET {
        BubbleIsQuiet(s'.nzcv);
        DecodeOutOp(p, s);
        RetIsQuiet(s'.xOut, s'.nzcv);
      } else {
        AdvanceTrack(p, a0, s, k);
      }
    }
  }

  // A program whose fetches stay in the text.

  /** Where a redirection or the right path leads is where the sequential machine is. */
  lemma RightPathBelow(p: Program, a0: Arch, s: Cpu, k: nat)
    requires a0.regs.Valid() && Placed(p, a0, s, k) && !WrongPathF(p, a0, s, k) && !FetchHalts(s)
    ensures SelectPC(s) == At(p, a0, IndexF(s, k)).pc
  {
    hide HoldsX, HoldsM, HoldsW, HoldsD, Squashed, DataAgrees, MemOk, Loaded, At, Execute, SelectPC, IndexF, Diverts,
      Redirected;
    if Redirected(s) {
      RedirectTarget(p, a0, s, k);
    } else {
      FetchGoes(p, s);
    }
  }

  lemma StrayBelow(p: Program, a0: Arch, s: Cpu, k: nat)
    requires a0.regs.Valid() && Placed(p, a0, s, k) && OnTrack(p, a0, s, k) && WrongPathF(p, a0, s, k) && !FetchHalts(s)
    requires WrongPathD(s) ==> PathBelow(p, At(p, a0, IndexX(s, k)))
    requires !WrongPathD(s) ==> PathBelow(p, At(p, a0, IndexD(s, k)))
    ensures Below(p.cfg, SelectPC(s))
  {
    hide HoldsM, HoldsW, HoldsD, Squashed, DataAgrees, MemOk, Loaded, SeqX, SeqM, Execute, At, Diverts, FetchReady,
      FetchHalts, Redirected, SelectPC, HoldsX, IndexD, IndexX, Below, PathBelow, Astray, FurtherAstray, View;
    if Redirected(s) { RedirectedAlone(p, a0, s, k); }
    FetchGoes(p, s);
    if WrongPathD(s) {
      BranchInX(p, a0, s, k);
      StrayAddress(p, At(p, a0, IndexX(s, k)), s);
    } else {
      StrayAddress(p, At(p, a0, IndexD(s, k)), s);
    }
  }

  lemma StrayAddress(p: Program, a: Arch, s: Cpu)
    requires a.regs.Valid() && PathBelow(p, a) && Diverts(p, a) && !Ends(s.fIn.status)
    ensures Astray(p, a.pc, s) ==> Below(p.cfg, s.fOut.predPC)
    ensures SeqX(p, a).op != RET && FurtherAstray(p, a.pc, s) ==> Below(p.cfg, s.fOut.predPC)
  {
    hide SeqX, SeqM, Halted, StopsFetch, After, Below;
  }

  lemma BranchInX(p: Program, a0: Arch, s: Cpu, k: nat)
    requires a0.regs.Valid() && Placed(p, a0, s, k) && WrongPathD(s)
    ensures var a := At(p, a0, IndexX(s, k));
      Diverts(p, a) && SeqX(p, a).op == B_COND
  {
    hide HoldsX, HoldsM, HoldsW, HoldsD, Squashed, FetchReady, MemOk, Loaded, View, Execute, Diverts, SeqX, At;
    WrongBranch(p, At(p, a0, IndexX(s, k)), s.xOut);
  }

  /** If the sequential run and the wrong paths it touches stay below the data, fetch leaves
      the data cache alone. */
  lemma StaysQuiet(p: Program, a0: Arch, s: Cpu, k: nat)
    requires a0.regs.Valid() && WellBehaved(p, a0) && Placed(p, a0, s, k) && OnTrack(p, a0, s, k)
    ensures Quiet(p, s)
  {
    hide Placed, OnTrack, PathBelow, WrongPathF, WrongPathD, FetchHalts, SelectPC, IndexF, IndexD, IndexX,
      DataBehaves;
    if p.cfg.cache.WithCache? && !FetchHalts(s) {
      AllBelow(p, a0, IndexF(s, k));
      AllBelow(p, a0, IndexD(s, k));
      AllBelow(p, a0, IndexX(s, k));
      if WrongPathF(p, a0, s, k) { StrayBelow(p, a0, s, k); } else { RightPathBelow(p, a0, s, k); }
    }
  }

  lemma AllBelow(p: Program, a0: Arch, i: nat)
    requires a0.regs.Valid() && FetchesText(p, a0)
    ensures PathBelow(p, At(p, a0, i)) && Below(p.cfg, At(p, a0, i).pc)
  {
    hide Diverts, SeqX, StopsFetch, After, Below;
    assert PathBelow(p, SeqRun(p, a0, i));
  }

  /** The branch in execute is wrongly predicted, in the sequential run too. */
  lemma WrongBranch(p: Program, a: Arch, x: XReg)
    requires a.regs.Valid() && HoldsX(p, a, x) && Mispredicted(Execute(x, a.nzcv))
    ensures Diverts(p, a) && SeqX(p, a).op == B_COND
  {
    hide AluResult, ExecuteFlags, Decode, SeqD;
  }
}
