/** How a run ends that comes to an illegal instruction: all state is right, and the status
    says so unless decode was held up when the instruction was fetched. */
module IllegalEnd {
  import opened Alu
  import opened Isa
  import opened MemorySystem
  import opened Datapath
  import opened Sequential
  import opened OpMeaning
  import opened Pipeline
  import opened Invariant
  import opened Stages
  import opened OperandValues
  import opened CycleFields
  import opened Refinement
  import opened ReadyStep
  import opened TextMemory
  import opened FrontEnd
  import opened FetchPath
  import opened PipelineTheorem
  import opened Timing
  import opened Liveness

  /** Instruction number `k` is illegal, and nothing ends the run before it. */
  ghost predicate FirstIllegal(p: Program, a0: Arch, k: nat)
    requires a0.regs.Valid()
  {
    Illegal(p, At(p, a0, k)) && forall i: nat | i < k :: !Halted(p, At(p, a0, i))
  }

  /** Decode cannot take what fetch delivers in this cycle. */
  predicate HeldUp(p: Program, s: Cpu)
    requires s.Ok(p.cfg)
  {
    MemNext(p, s).busy || LoadUseHazard(s)
  }

  /** In any state: an illegal instruction enters decode exactly when nothing holds decode
      up or empties it in the cycle that fetches it. If decode is held up, the next cycle
      fetches HLT instead. */
  lemma IllegalMustNotWait(p: Program, s: Cpu)
    requires s.Ok(p.cfg) && NoFault(s) && Fetched(p, s).status == INS && s.dOut.status != INS
    ensures var s' := Cycle(p, s);
      && (s'.dOut.status == INS <==> !HeldUp(p, s) && !WrongPathD(s) && s.dOut.op != RET)
      && (HeldUp(p, s) && !Redirected(s) && s.dOut.op != RET ==>
            Fetched(p, s').op == HLT && Fetched(p, s').status == STOP)
  {
    hide DataAccess, AluResult, CondHolds, ExecuteFlags, Decode, Sources, FetchAt, NextPC, MemoryOut, ForwardOne,
      WriteValue, FetchOp, SelectPC, FetchMem, FetchWord;
    FetchedOp(p, s);
  }

  lemma FetchedOp(p: Program, s: Cpu)
    ensures Fetched(p, s).status == INS <==> !FetchHalts(s) && Fetched(p, s).op == ERROR
  {
    hide FetchOp, AdrpValue, SelectPC, StickyStatus;
  }

  /** Fetch follows the right path, from where it looks by itself. */
  predicate OwnPath(p: Program, a0: Arch, s: Cpu, kk: nat)
    requires a0.regs.Valid()
  {
    !WrongPathF(p, a0, s, kk) && !Redirected(s)
  }

  /** Fetch delivers instruction `k`, illegal, and has to let go of it. */
  predicate LetGo(p: Program, a0: Arch, s: Cpu, kk: nat, k: nat)
    requires a0.regs.Valid() && s.Ok(p.cfg)
  {
    IndexF(s, kk) == k && OwnPath(p, a0, s, kk) && Fetched(p, s).status == INS && HeldUp(p, s)
  }

  /** Wherever instruction `k` is, it is there as a HLT. */
  predicate Lost(p: Program, a0: Arch, s: Cpu, kk: nat, k: nat)
    requires a0.regs.Valid()
  {
    || (kk == k && s.wOut.status == STOP)
    || (IndexM(s, kk) == k && s.mOut.status == STOP)
    || (IndexX(s, kk) == k && s.xOut.status == STOP)
    || (IndexD(s, kk) == k && OnPathD(s) && s.dOut.status == STOP)
    || (IndexF(s, kk) == k && OwnPath(p, a0, s, kk) && Ends(s.fIn.status))
  }

  lemma IllegalPC(p: Program, a: Arch)
    requires Illegal(p, a)
    ensures a.pc != 0 && FetchOp(p.cfg, p.code(a.pc), a.pc) == ERROR && Halted(p, a)
  {
    hide OpOf;
  }

  /** On the right path the illegal instruction is fetched as such, unless fetch has seen it before. */
  lemma FetchesIllegal(p: Program, a0: Arch, s: Cpu, kk: nat, k: nat)
    requires a0.regs.Valid() && DataBehaves(p, a0) && Inv(p, a0, s, kk) && FirstIllegal(p, a0, k)
    requires IndexF(s, kk) == k && !WrongPathF(p, a0, s, kk)
    ensures Fetched(p, s).status == (if !Redirected(s) && Ends(s.fIn.status) then STOP else INS)
  {
    hide HoldsW, HoldsM, HoldsX, HoldsD, SeqX, SeqM, Behaves, SeqStep, DataBehaves, DataAgrees, MemOk, MemShaped,
      Illegal, Halted, FetchOp, AdrpValue, WrongPathF, Squashed, IndexF, Loaded, Quiet, FetchWord, FetchHalts,
      SelectPC, StickyStatus, Redirected, View;
    IllegalPC(p, At(p, a0, k));
    if Redirected(s) {
      RedirectedAlone(p, a0, s, kk);
      RedirectTarget(p, a0, s, kk);
      RedirectedGoes(s);
    } else {
      FetchGoes(p, s);
    }
    if !FetchHalts(s) {
      RightPathBelow(p, a0, s, kk);
      FetchesProgram(p, s);
    }
  }

  lemma RedirectedGoes(s: Cpu)
    requires Redirected(s)
    ensures FetchHalts(s) <==> SelectPC(s) == 0
  {}

  lemma BeforeEnd(p: Program, a0: Arch, s: Cpu, kk: nat, k: nat)
    requires a0.regs.Valid() && DataBehaves(p, a0) && Inv(p, a0, s, kk) && FirstIllegal(p, a0, k)
    requires IndexF(s, kk) < k && !WrongPathF(p, a0, s, kk)
    ensures Fetched(p, s).status == AOK && (OwnPath(p, a0, s, kk) ==> !Ends(s.fIn.status))
  {
    hide HoldsW, HoldsM, HoldsX, HoldsD, DataAgrees, MemOk, DataBehaves, Fetched, At, Halted, Illegal, WrongPathF,
      Squashed, IndexF, Redirected, Loaded;
    FetchHolds(p, a0, s, kk);
  }

  lemma StopSources(p: Program, a: Arch, d: DReg)
    requires Halted(p, a) && HoldsD(p, a, d)
    ensures Sources(d).src1 == XZR && Sources(d).src2 == XZR && d.op != RET
  {
    hide RegField, OpOf;
  }

  /** Waiting: nothing moves, and fetch lets go of what it delivers. */
  lemma BusyLost(p: Program, a0: Arch, s: Cpu, kk: nat, k: nat)
    requires a0.regs.Valid() && DataBehaves(p, a0) && Inv(p, a0, s, kk) && FirstIllegal(p, a0, k)
    requires MemNext(p, s).busy && IndexM(s, kk) <= k
    ensures Lost(p, a0, Cycle(p, s), IndexM(s, kk), k) <==> Lost(p, a0, s, kk, k) || LetGo(p, a0, s, kk, k)
  {
    hide HoldsW, HoldsM, HoldsX, HoldsD, FetchReady, Squashed, DataAgrees, MemOk, DataBehaves, Cycle, MemNext,
      Fetched, LoadUseHazard, Execute, Diverts, At, WriteRegs, StickyStatus, FirstIllegal, Loaded;
    BusyCycle(p, s);
    BusyStep(p, a0, s, kk);
    var s', kk' := Cycle(p, s), IndexM(s, kk);
    if IndexF(s, kk) == k && OwnPath(p, a0, s, kk) {
      FetchesIllegal(p, a0, s, kk, k);
    }
    StickyAlone(s);
  }

  lemma StickyAlone(s: Cpu)
    ensures !Redirected(s) ==> StickyStatus(s) == s.fIn.status
  {}

  /** The part of `Lost` behind fetch moves on with its instruction. */
  predicate LostBehind(p: Program, a0: Arch, s: Cpu, kk: nat, k: nat)
    requires a0.regs.Valid()
  {
    || (kk == k && s.wOut.status == STOP)
    || (IndexM(s, kk) == k && s.mOut.status == STOP)
    || (IndexX(s, kk) == k && s.xOut.status == STOP)
  }

  predicate LostInD(s: Cpu, kk: nat, k: nat) {
    IndexD(s, kk) == k && OnPathD(s) && s.dOut.status == STOP
  }

  predicate LostInF(p: Program, a0: Arch, s: Cpu, kk: nat, k: nat)
    requires a0.regs.Valid()
  {
    IndexF(s, kk) == k && OwnPath(p, a0, s, kk) && Ends(s.fIn.status)
  }

  /** Under a load-use hazard decode does not hold the end of the run, and fetch is not redirected. */
  lemma HazardAlone(p: Program, a0: Arch, s: Cpu, kk: nat)
    requires a0.regs.Valid() && DataBehaves(p, a0) && Inv(p, a0, s, kk) && LoadUseHazard(s)
    ensures s.dOut.status != STOP && !Redirected(s) && OnPathD(s)
  {
    hide HoldsW, HoldsM, HoldsX, HoldsD, FetchReady, DataAgrees, MemOk, DataBehaves, Sources, Execute, At, Halted,
      IndexD, DecodeOut, Loaded;
    LoadUseAlone(p, a0, s, kk);
    var a := At(p, a0, IndexD(s, kk));
    AllBehave(p, a0, IndexD(s, kk));
    if s.dOut.status == STOP { StopInDecode(p, a, s.dOut); }
  }

  lemma StillOwnPath(p: Program, a0: Arch, s: Cpu, s': Cpu, kk: nat, kk': nat)
    requires a0.regs.Valid() && !Redirected(s) && !Redirected(s') && OnPathD(s) && OnPathD(s')
    requires IndexD(s', kk') == IndexD(s, kk)
    ensures OwnPath(p, a0, s', kk') <==> OwnPath(p, a0, s, kk)
  {
    hide Diverts;
  }

  lemma LoadUseLost(p: Program, a0: Arch, s: Cpu, kk: nat, k: nat)
    requires a0.regs.Valid() && DataBehaves(p, a0) && Inv(p, a0, s, kk) && FirstIllegal(p, a0, k)
    requires ReadyFields(p, s, Cycle(p, s)) && LoadUseHazard(s)
    ensures !LostInD(Cycle(p, s), IndexM(s, kk), k) && !LostInD(s, kk, k)
    ensures LostInF(p, a0, Cycle(p, s), IndexM(s, kk), k) <==> LostInF(p, a0, s, kk, k) || LetGo(p, a0, s, kk, k)
  {
    hide HoldsW, HoldsM, HoldsX, HoldsD, FetchReady, DataAgrees, MemOk, DataBehaves, Cycle, MemNext, Fetched, Sources,
      Execute, Diverts, At, WriteRegs, StickyStatus, FirstIllegal, MemoryResult, DecodeOut, ExecuteFlags, NextPC,
      SelectPC, FetchHalts, Halted, LoadUseHazard, OwnPath, IndexF, Squashed, Loaded;
    HazardAlone(p, a0, s, kk);
    AfterLoadUse(p, a0, s, kk);
    var s', kk' := Cycle(p, s), IndexM(s, kk);
    Indices(p, a0, s, s', kk);
    QuietAfterHazard(p, s, s');
    StillOwnPath(p, a0, s, s', kk, kk');
    if IndexF(s, kk) == k && OwnPath(p, a0, s, kk) {
      PathIsRight(p, a0, s, kk);
      FetchesIllegal(p, a0, s, kk, k);
    }
    StickyAlone(s);
  }

  lemma PathIsRight(p: Program, a0: Arch, s: Cpu, kk: nat)
    requires a0.regs.Valid()
    ensures OwnPath(p, a0, s, kk) <==> !WrongPathF(p, a0, s, kk) && !Redirected(s)
  {}

  lemma QuietAfterHazard(p: Program, s: Cpu, s': Cpu)
    requires s.Ok(p.cfg) && ReadyFields(p, s, s') && LoadUseHazard(s)
    ensures !Redirected(s') && !WrongPathD(s') && s'.xOut.status == BUB && OnPathD(s') == (s.dOut.status != BUB)
  {
    hide Execute, Sources, DecodeOut, Fetched, MemoryResult, ExecuteFlags;
    BubbleIsQuiet(s'.nzcv);
    ExecuteOp(s.xOut, s.nzcv);
  }

  lemma ExecuteOp(x: XReg, nzcv: Flags)
    ensures Execute(x, nzcv).op == x.op
  {}

  lemma StopInDecode(p: Program, a: Arch, d: DReg)
    requires a.regs.Valid() && Behaves(p, a) && HoldsD(p, a, d) && d.status == STOP
    ensures Halted(p, a) && Sources(d).src1 == XZR && Sources(d).src2 == XZR && d.op != RET
  {
    hide RegField, OpOf, SeqX, SeqM, Behaves;
    if !Halted(p, a) { StatusOf(p, a); }
    StopSources(p, a, d);
  }

  /** A squash: fetch was on the wrong path, and is redirected next. */
  lemma SquashLost(p: Program, a0: Arch, s: Cpu, kk: nat, k: nat)
    requires a0.regs.Valid() && DataBehaves(p, a0) && Inv(p, a0, s, kk) && !MemNext(p, s).busy
    requires ReadyFields(p, s, Cycle(p, s)) && !LoadUseHazard(s) && (WrongPathD(s) || s.dOut.op == RET)
    ensures WrongPathF(p, a0, s, kk) && !LostInD(s, kk, k)
    ensures !LostInD(Cycle(p, s), IndexM(s, kk), k) && !LostInF(p, a0, Cycle(p, s), IndexM(s, kk), k)
  {
    hide HoldsW, HoldsM, HoldsX, HoldsD, FetchReady, DataAgrees, MemOk, DataBehaves, Cycle, MemNext, Fetched, Sources,
      Execute, At, WriteRegs, StickyStatus, MemoryResult, DecodeOut, ExecuteFlags, NextPC, SelectPC, FetchHalts,
      LoadUse, Diverts, Squashed, Loaded;
    if WrongPathD(s) {
      AfterMisprediction(p, a0, s, kk);
    } else {
      AfterRet(p, a0, s, kk);
      var a := At(p, a0, IndexD(s, kk));
      AllBehave(p, a0, IndexD(s, kk));
      RetDiverts(p, a0, s, kk);
    }
  }

  lemma RetDiverts(p: Program, a0: Arch, s: Cpu, kk: nat)
    requires a0.regs.Valid() && DataBehaves(p, a0) && Inv(p, a0, s, kk) && !WrongPathD(s) && s.dOut.op == RET
    ensures OnPathD(s) && Diverts(p, At(p, a0, IndexD(s, kk))) && s.dOut.status != STOP
  {
    hide HoldsW, HoldsM, HoldsX, HoldsD, FetchReady, DataAgrees, MemOk, DataBehaves, WrongPathD, At, IndexD, Diverts,
      Behaves, Loaded;
    AllBehave(p, a0, IndexD(s, kk));
    RetHeld(p, At(p, a0, IndexD(s, kk)), s.dOut);
  }

  lemma RetHeld(p: Program, a: Arch, d: DReg)
    requires a.regs.Valid() && Behaves(p, a) && HoldsD(p, a, d) && d.op == RET
    ensures Diverts(p, a) && d.status != STOP
  {
    hide SeqX, SeqM, Behaves, SeqD;
    StatusOf(p, a);
    ValueOf(p, a);
  }

  /** No hazard: decode takes what fetch delivers. */
  lemma AdvanceLost(p: Program, a0: Arch, s: Cpu, kk: nat, k: nat)
    requires a0.regs.Valid() && DataBehaves(p, a0) && Inv(p, a0, s, kk) && FirstIllegal(p, a0, k)
    requires !MemNext(p, s).busy && ReadyFields(p, s, Cycle(p, s))
    requires !LoadUseHazard(s) && !WrongPathD(s) && s.dOut.op != RET && IndexM(s, kk) <= k
    ensures LostInD(Cycle(p, s), IndexM(s, kk), k) <==> LostInF(p, a0, s, kk, k)
    ensures !LostInF(p, a0, Cycle(p, s), IndexM(s, kk), k)
  {
    hide HoldsW, HoldsM, HoldsX, HoldsD, FetchReady, DataAgrees, MemOk, DataBehaves, Cycle, MemNext, Fetched, Sources,
      Execute, At, WriteRegs, StickyStatus, MemoryResult, DecodeOut, ExecuteFlags, NextPC, SelectPC, FetchHalts,
      LoadUse, Diverts, Squashed, WrongPathF, FirstIllegal, IndexF, Redirected, LoadUseHazard, Loaded;
    AfterAdvance(p, a0, s, kk);
    var s', kk' := Cycle(p, s), IndexM(s, kk);
    Indices(p, a0, s, s', kk);
    FetchedStatus(p, s);
    NewInD(p, a0, s, s', kk, kk');
    if !WrongPathF(p, a0, s, kk) {
      if IndexF(s, kk) == k {
        FetchesIllegal(p, a0, s, kk, k);
      } else if IndexF(s, kk) < k {
        BeforeEnd(p, a0, s, kk, k);
        StickyAlone(s);
        StickyCleared(p, a0, s, kk);
      }
    } else {
      WrongInD(p, a0, s', kk');
    }
  }

  /** What a ready cycle without hazard puts into decode is number `IndexF`. */
  lemma NewInD(p: Program, a0: Arch, s: Cpu, s': Cpu, kk: nat, kk': nat)
    requires a0.regs.Valid() && s.Ok(p.cfg) && ReadyFields(p, s, s') && s'.dOut.status != BUB
    requires IndexF(s', kk') == IndexF(s, kk) + One(!WrongPathD(s'))
    ensures OnPathD(s') ==> IndexD(s', kk') == IndexF(s, kk)
    ensures OnPathD(s') <==> !WrongPathD(s')
  {
    hide WrongPathD, IndexD, Execute, Fetched, DecodeOut, MemoryResult;
  }

  lemma WrongInD(p: Program, a0: Arch, s: Cpu, kk: nat)
    requires a0.regs.Valid() && WrongPathD(s)
    ensures WrongPathF(p, a0, s, kk) && !OnPathD(s)
  {}

  /** A redirected fetch starts with a clean status. */
  lemma StickyCleared(p: Program, a0: Arch, s: Cpu, kk: nat)
    requires a0.regs.Valid() && DataBehaves(p, a0) && Inv(p, a0, s, kk) && !WrongPathF(p, a0, s, kk)
    ensures Redirected(s) && Fetched(p, s).status == AOK ==> StickyStatus(s) == AOK
  {
    hide HoldsW, HoldsM, HoldsX, HoldsD, FetchReady, DataAgrees, MemOk, Redirected, FetchAt, WrongPathF, Squashed,
      Loaded;
  }

  lemma LostSplits(p: Program, a0: Arch, s: Cpu, kk: nat, k: nat)
    requires a0.regs.Valid()
    ensures Lost(p, a0, s, kk, k) <==> LostBehind(p, a0, s, kk, k) || LostInD(s, kk, k) || LostInF(p, a0, s, kk, k)
  {}

  /** Behind fetch an instruction keeps its status from stage to stage. */
  lemma BehindMoves(p: Program, a0: Arch, s: Cpu, kk: nat, k: nat)
    requires a0.regs.Valid() && DataBehaves(p, a0) && Inv(p, a0, s, kk) && !MemNext(p, s).busy
    requires ReadyFields(p, s, Cycle(p, s)) && IndexM(s, kk) <= k
    ensures LostBehind(p, a0, Cycle(p, s), IndexM(s, kk), k) <==> LostBehind(p, a0, s, kk, k) || LostInD(s, kk, k)
  {
    hide HoldsW, HoldsM, HoldsX, HoldsD, FetchReady, DataAgrees, MemOk, DataBehaves, Cycle, MemNext, Fetched, Sources,
      Execute, At, WriteRegs, StickyStatus, ExecuteFlags, NextPC, SelectPC, FetchHalts, LoadUse, Diverts, Squashed,
      LoadUseHazard, MemoryResult, DecodeOut, WrongPathD, Loaded;
    Indices(p, a0, s, Cycle(p, s), kk);
    ExecuteKeepsStatus(s.xOut, s.nzcv);
    DecodeOutOp(p, s);
    if LoadUseHazard(s) { HazardAlone(p, a0, s, kk); }
  }

  lemma ExecuteKeepsStatus(x: XReg, nzcv: Flags)
    ensures Execute(x, nzcv).status == x.status
  {}

  lemma ReadyLost(p: Program, a0: Arch, s: Cpu, kk: nat, k: nat)
    requires a0.regs.Valid() && DataBehaves(p, a0) && Inv(p, a0, s, kk) && FirstIllegal(p, a0, k)
    requires !MemNext(p, s).busy && IndexM(s, kk) <= k
    ensures Lost(p, a0, Cycle(p, s), IndexM(s, kk), k) <==> Lost(p, a0, s, kk, k) || LetGo(p, a0, s, kk, k)
  {
    hide HoldsW, HoldsM, HoldsX, HoldsD, FetchReady, DataAgrees, MemOk, DataBehaves, Cycle, MemNext, Fetched, Execute,
      At, Squashed, LoadUseHazard, WrongPathD, FirstIllegal, ReadyFields, Lost, LostBehind, LostInD, LostInF, IndexM,
      IndexF, WrongPathF, Redirected, Loaded;
    ReadyCycleFields(p, a0, s, kk);
    LostSplits(p, a0, s, kk, k);
    LostSplits(p, a0, Cycle(p, s), IndexM(s, kk), k);
    BehindMoves(p, a0, s, kk, k);
    if LoadUseHazard(s) {
      LoadUseLost(p, a0, s, kk, k);
    } else if WrongPathD(s) || s.dOut.op == RET {
      SquashLost(p, a0, s, kk, k);
      PathLost(p, a0, s, kk, k);
    } else {
      AdvanceLost(p, a0, s, kk, k);
    }
  }

  lemma PathLost(p: Program, a0: Arch, s: Cpu, kk: nat, k: nat)
    requires a0.regs.Valid() && WrongPathF(p, a0, s, kk)
    ensures !LostInF(p, a0, s, kk, k)
  {}

  /** What has happened by cycle `n` shows in where instruction `k` is, or in how it retired. */
  ghost predicate WasLetGo(p: Program, a0: Arch, s0: Cpu, k: nat, n: nat)
    requires a0.regs.Valid() && s0.Ok(p.cfg)
  {
    exists j | 0 <= j < n :: LetGo(p, a0, Run(p, s0, j), |Retired(p, s0, j)|, k)
  }

  ghost predicate LostBy(p: Program, a0: Arch, s0: Cpu, k: nat, n: nat)
    requires a0.regs.Valid() && s0.Ok(p.cfg)
  {
    var log := Retired(p, s0, n);
    if |log| <= k then Lost(p, a0, Run(p, s0, n), |log|, k) else log[k].status == STOP
  }

  lemma OneMoreCycle(p: Program, a0: Arch, s0: Cpu, k: nat, n: nat)
    requires a0.regs.Valid() && s0.Ok(p.cfg)
    ensures WasLetGo(p, a0, s0, k, n + 1) <==>
      WasLetGo(p, a0, s0, k, n) || LetGo(p, a0, Run(p, s0, n), |Retired(p, s0, n)|, k)
  {
    hide LetGo, Cycle;
  }

  lemma {:induction false} LostIffLetGo(p: Program, a0: Arch, ms: MemSys, k: nat, n: nat)
    requires a0.regs.Valid() && WellBehaved(p, a0) && Starts(p, a0, ms) && FirstIllegal(p, a0, k)
    ensures LostBy(p, a0, BootOf(a0, ms), k, n) <==> WasLetGo(p, a0, BootOf(a0, ms), k, n)
  {
    hide Cycle, Inv, DataBehaves, FetchesText, View, MemOk, MemShaped, Lost, LetGo, FirstIllegal, WasLetGo, LostBy,
      IndexM, Loaded;
    var s0 := BootOf(a0, ms);
    if n == 0 {
      NothingLost(p, a0, ms, k);
    } else {
      LostIffLetGo(p, a0, ms, k, n - 1);
      RunInv(p, a0, ms, n - 1);
      var s, kk := Run(p, s0, n - 1), |Retired(p, s0, n - 1)|;
      OneMoreCycle(p, a0, s0, k, n - 1);
      LostStep(p, a0, s0, k, n);
    }
  }

  lemma NothingLost(p: Program, a0: Arch, ms: MemSys, k: nat)
    requires a0.regs.Valid() && Starts(p, a0, ms)
    ensures !LostBy(p, a0, BootOf(a0, ms), k, 0) && !WasLetGo(p, a0, BootOf(a0, ms), k, 0)
  {
    hide View, MemOk, MemShaped, Execute, Loaded;
  }

  lemma LostStep(p: Program, a0: Arch, s0: Cpu, k: nat, n: nat)
    requires a0.regs.Valid() && DataBehaves(p, a0) && s0.Ok(p.cfg) && FirstIllegal(p, a0, k) && n > 0
    requires Inv(p, a0, Run(p, s0, n - 1), |Retired(p, s0, n - 1)|)
    ensures LostBy(p, a0, s0, k, n) <==>
      LostBy(p, a0, s0, k, n - 1) || LetGo(p, a0, Run(p, s0, n - 1), |Retired(p, s0, n - 1)|, k)
  {
    hide Cycle, Inv, DataBehaves, Lost, LetGo, FirstIllegal, IndexM, MemNext;
    var s, kk := Run(p, s0, n - 1), |Retired(p, s0, n - 1)|;
    assert |Retired(p, s0, n)| == IndexM(s, kk) by { NextLength(p, s0, n); }
    if IndexM(s, kk) <= k {
      KeepsUp(s, kk);
      if MemNext(p, s).busy { BusyLost(p, a0, s, kk, k); } else { ReadyLost(p, a0, s, kk, k); }
    } else {
      Gone(p, a0, s, kk, k);
      assert kk <= k ==> Retired(p, s0, n)[k] == s.wOut by { NextLength(p, s0, n); }
    }
  }

  lemma KeepsUp(s: Cpu, kk: nat)
    ensures kk <= IndexM(s, kk)
  {}

  /** Once past writeback, nothing of the instruction is left in the pipeline. */
  lemma Gone(p: Program, a0: Arch, s: Cpu, kk: nat, k: nat)
    requires a0.regs.Valid() && s.Ok(p.cfg) && IndexM(s, kk) > k
    ensures !LetGo(p, a0, s, kk, k)
    ensures kk <= k ==> kk == k && s.wOut.status != BUB && (Lost(p, a0, s, kk, k) <==> s.wOut.status == STOP)
  {
    hide Execute, MemNext, OwnPath, Fetched, HeldUp;
  }

  /** The processor that comes to an illegal instruction, number `k`, stops with exactly
      the state the `k` instructions before it leave. It reports the illegal instruction
      if and only if decode was never held up in a cycle in which fetch delivered it on
      its own path; else it reports a normal HLT. */
  lemma IllegalIsReported(p: Program, a0: Arch, ms: MemSys, k: nat, n: nat)
    requires a0.regs.Valid() && WellBehaved(p, a0) && Starts(p, a0, ms) && FirstIllegal(p, a0, k)
    requires n > 0 && |Retired(p, BootOf(a0, ms), n - 1)| == k < |Retired(p, BootOf(a0, ms), n)|
    ensures var s, a := Run(p, BootOf(a0, ms), n), At(p, a0, k);
      && s.regs == a.regs && s.nzcv == a.nzcv
      && MemOk(p.cfg, s.mem) && View(p.cfg, s.mem) == a.mem && s.mem.output == a.output
      && s.status == (if WasLetGo(p, a0, BootOf(a0, ms), k, n) then STOP else INS)
  {
    hide Cycle, DataBehaves, FetchesText, View, MemOk, Inv, MemShaped, At, WasLetGo, Halted, Illegal, HoldsM, HoldsX,
      HoldsW, Loaded;
    var s0 := BootOf(a0, ms);
    StopIsFinal(p, a0, ms, n);
    LostIffLetGo(p, a0, ms, k, n);
    RunInv(p, a0, ms, n - 1);
    NextLength(p, s0, n);
    StatusReported(p, a0, Run(p, s0, n - 1), k);
    IllegalPC(p, At(p, a0, k));
    HaltedForever(p, a0, k, |Retired(p, s0, n)| - 1);
  }

  /** The cycle that ends a run which comes to instruction number `k` and no further. */
  lemma EndOfRun(p: Program, a0: Arch, ms: MemSys, k: nat) returns (n: nat)
    requires a0.regs.Valid() && WellBehaved(p, a0) && Starts(p, a0, ms) && !ms.inflight && Delay(p.cfg) >= 1
    requires FirstIllegal(p, a0, k)
    ensures n > 0 && |Retired(p, BootOf(a0, ms), n - 1)| == k < |Retired(p, BootOf(a0, ms), n)|
  {
    hide At, DataBehaves, FetchesText, Cycle, Delay, StopBound, Illegal, Inv, HoldsW, View, MemOk, MemShaped, Run,
      Retired, Loaded;
    IllegalPC(p, At(p, a0, k));
    var s0 := BootOf(a0, ms);
    var m := PipelineStops(p, a0, ms, k);
    StopIsFinal(p, a0, ms, m);
    RunInv(p, a0, ms, m);
    var j := FindCycle(p, s0, m, k);
    n := j + 1;
    NextLength(p, s0, n);
  }

  // Without a cache nothing waits, and the condition is one on the program alone.

  /** The two instructions before number `k` are a load and the use of what it loads, and
      the second does not transfer control. */
  predicate UseBefore(p: Program, a0: Arch, k: nat)
    requires a0.regs.Valid()
  {
    k >= 2 && !Diverts(p, At(p, a0, k - 1)) && Uses(p, At(p, a0, k - 2), At(p, a0, k - 1))
  }

  lemma NeverBusy(p: Program, a0: Arch, s: Cpu, kk: nat)
    requires a0.regs.Valid() && DataBehaves(p, a0) && Inv(p, a0, s, kk) && p.cfg.cache.NoCache?
    ensures !MemNext(p, s).busy
  {
    hide HoldsW, HoldsM, HoldsX, HoldsD, FetchReady, Squashed, DataAgrees, DataBehaves, DataAccess, View, At, Loaded;
    MemoryInCycle(p, a0, s, kk);
  }

  /** The registers at a load-use hazard, in terms of the sequential run. */
  lemma HazardInPlace(p: Program, a0: Arch, s: Cpu, kk: nat, k: nat)
    requires a0.regs.Valid() && DataBehaves(p, a0) && Inv(p, a0, s, kk) && FirstIllegal(p, a0, k)
    requires LetGo(p, a0, s, kk, k) && !MemNext(p, s).busy
    ensures UseBefore(p, a0, k)
  {
    hide HoldsW, HoldsM, HoldsX, HoldsD, FetchReady, Squashed, DataAgrees, MemOk, DataBehaves, MemNext, Fetched,
      Execute, At, Halted, Illegal, Sources, SeqX, SeqD, Diverts, LoadUse, Loaded, Uses;
    LoadUseAlone(p, a0, s, kk);
    HeldUse(p, At(p, a0, k - 2), At(p, a0, k - 1), s.xOut, s.dOut);
  }

  /** When the load moves on, its use is behind it, and fetch was at the illegal instruction. */
  lemma LoadMovesOn(p: Program, a0: Arch, s: Cpu, kk: nat, k: nat)
    requires a0.regs.Valid() && DataBehaves(p, a0) && Inv(p, a0, s, kk) && FirstIllegal(p, a0, k)
    requires UseBefore(p, a0, k) && IndexX(s, kk) == k - 2 && s.xOut.status != BUB
    ensures LetGo(p, a0, s, kk, k) || LostInF(p, a0, s, kk, k)
  {
    hide HoldsW, HoldsM, HoldsX, HoldsD, FetchReady, DataAgrees, MemOk, DataBehaves, MemNext, Fetched, Execute, At,
      Halted, Illegal, Sources, SeqX, SeqD, Diverts, Loaded, Uses, LoadUse, View;
    UseIsLoad(p, At(p, a0, k - 2), At(p, a0, k - 1), s.xOut);
    ExecuteOp(s.xOut, s.nzcv);
    assert OnPathD(s) && IndexD(s, kk) == k - 1;
    HeldUse(p, At(p, a0, k - 2), At(p, a0, k - 1), s.xOut, s.dOut);
    assert LoadUseHazard(s);
    HazardAlone(p, a0, s, kk);
    FetchesIllegal(p, a0, s, kk, k);
  }

  lemma PassOne(p: Program, a0: Arch, s: Cpu, kk: nat, k: nat)
    requires a0.regs.Valid() && DataBehaves(p, a0) && Inv(p, a0, s, kk) && FirstIllegal(p, a0, k) && UseBefore(p, a0, k)
    requires IndexX(Cycle(p, s), IndexM(s, kk)) >= k - 1 && IndexX(s, kk) < k - 1
    ensures LetGo(p, a0, s, kk, k) || LostInF(p, a0, s, kk, k)
  {
    hide HoldsW, HoldsM, HoldsX, HoldsD, FetchReady, Squashed, DataAgrees, MemOk, DataBehaves, FirstIllegal,
      UseBefore, Cycle, IndexX, IndexM, LetGo, LostInF, Loaded;
    ExecuteMoves(p, a0, s, kk);
    LoadMovesOn(p, a0, s, kk, k);
  }

  lemma {:induction false} PassedMeansLetGo(p: Program, a0: Arch, ms: MemSys, k: nat, n: nat)
    requires a0.regs.Valid() && WellBehaved(p, a0) && Starts(p, a0, ms) && FirstIllegal(p, a0, k) && UseBefore(p, a0, k)
    ensures IndexX(Run(p, BootOf(a0, ms), n), |Retired(p, BootOf(a0, ms), n)|) >= k - 1 ==>
      WasLetGo(p, a0, BootOf(a0, ms), k, n)
  {
    hide Cycle, Inv, DataBehaves, FetchesText, View, MemOk, MemShaped, LetGo, FirstIllegal, WasLetGo, LostBy,
      UseBefore, IndexX, LostInF, IndexM, Run, Retired, Loaded;
    var s0 := BootOf(a0, ms);
    if n == 0 {
      UseNeedsTwo(p, a0, k);
      NothingPassed(p, a0, ms);
    } else {
      PassedMeansLetGo(p, a0, ms, k, n - 1);
      RunInv(p, a0, ms, n - 1);
      NextLength(p, s0, n);
      OneMoreCycle(p, a0, s0, k, n - 1);
      var s, kk := Run(p, s0, n - 1), |Retired(p, s0, n - 1)|;
      if IndexX(s, kk) < k - 1 <= IndexX(Run(p, s0, n), |Retired(p, s0, n)|) {
        PassOne(p, a0, s, kk, k);
        LostIffLetGo(p, a0, ms, k, n - 1);
        if LostInF(p, a0, s, kk, k) { InFetchIsLost(p, a0, s0, k, n - 1); }
      }
    }
  }

  lemma NothingPassed(p: Program, a0: Arch, ms: MemSys)
    requires a0.regs.Valid() && Starts(p, a0, ms)
    ensures IndexX(Run(p, BootOf(a0, ms), 0), |Retired(p, BootOf(a0, ms), 0)|) == 0
  {
    hide View, MemOk, Loaded;
  }

  lemma UseNeedsTwo(p: Program, a0: Arch, k: nat)
    requires a0.regs.Valid() && UseBefore(p, a0, k)
    ensures k >= 2
  {}

  lemma InFetchIsLost(p: Program, a0: Arch, s0: Cpu, k: nat, n: nat)
    requires a0.regs.Valid() && s0.Ok(p.cfg)
    requires LostInF(p, a0, Run(p, s0, n), |Retired(p, s0, n)|, k)
    ensures LostBy(p, a0, s0, k, n)
  {
    hide OwnPath, Cycle, Execute;
  }

  /** Execute moves on by at most one instruction, and only if it holds one. */
  lemma ExecuteMoves(p: Program, a0: Arch, s: Cpu, kk: nat)
    requires a0.regs.Valid() && DataBehaves(p, a0) && Inv(p, a0, s, kk)
    ensures var x, x' := IndexX(s, kk), IndexX(Cycle(p, s), IndexM(s, kk));
      x' == x || (x' == x + 1 && s.xOut.status != BUB)
  {
    hide HoldsW, HoldsM, HoldsX, HoldsD, FetchReady, Squashed, DataAgrees, MemOk, DataBehaves, MemNext, Cycle, IndexX,
      IndexM, ReadyFields, Loaded;
    if MemNext(p, s).busy {
      BusyStep(p, a0, s, kk);
    } else {
      ReadyCycleFields(p, a0, s, kk);
      Indices(p, a0, s, Cycle(p, s), kk);
      assert IndexD(s, kk) == IndexX(s, kk) + One(s.xOut.status != BUB);
    }
  }

  /** Without a cache, the illegal instruction is reported if and only if it does not come
      right behind a load and the use of what it loads. */
  lemma ReportedWithoutCache(p: Program, a0: Arch, ms: MemSys, k: nat, n: nat)
    requires a0.regs.Valid() && WellBehaved(p, a0) && Starts(p, a0, ms) && FirstIllegal(p, a0, k)
    requires p.cfg.cache.NoCache?
    requires n > 0 && |Retired(p, BootOf(a0, ms), n - 1)| == k < |Retired(p, BootOf(a0, ms), n)|
    ensures Run(p, BootOf(a0, ms), n).status == (if UseBefore(p, a0, k) then STOP else INS)
  {
    hide Cycle, DataBehaves, FetchesText, View, MemOk, Inv, MemShaped, At, Halted, Illegal, LetGo, UseBefore, MemNext,
      IndexX, Loaded;
    var s0 := BootOf(a0, ms);
    IllegalIsReported(p, a0, ms, k, n);
    if UseBefore(p, a0, k) {
      PassedMeansLetGo(p, a0, ms, k, n);
      assert IndexX(Run(p, s0, n), |Retired(p, s0, n)|) >= k by {
        PastExecute(Run(p, s0, n), |Retired(p, s0, n)|);
      }
    } else if WasLetGo(p, a0, s0, k, n) {
      var j :| 0 <= j < n && LetGo(p, a0, Run(p, s0, j), |Retired(p, s0, j)|, k);
      RunInv(p, a0, ms, j);
      NeverBusy(p, a0, Run(p, s0, j), |Retired(p, s0, j)|);
      HazardInPlace(p, a0, Run(p, s0, j), |Retired(p, s0, j)|, k);
    }
  }

  lemma PastExecute(s: Cpu, kk: nat)
    ensures IndexX(s, kk) >= kk
  {}
}
