/** What the invariant says about every reachable state: what the hazard unit asks for, what
    is squashed, which operands are latched, when the flags are written. */
module PipelineFacts {
  import opened Alu
  import opened Isa
  import opened MemorySystem
  import opened Datapath
  import opened Sequential
  import opened Pipeline
  import opened Invariant
  import opened Stages
  import opened CycleFields
  import opened Refinement
  import opened ReadyStep
  import opened PipelineTheorem
  import opened OpMeaning
  import opened Timing
  import opened IllegalEnd

  /** What the hazard unit asks for is consistent and drops nothing: no register is to be
      emptied and kept at once, what is dropped is not on the right path, whatever waits is
      waited for, and flags are only withheld where none are to be set. */
  lemma NothingIsDropped(p: Program, a0: Arch, ms: MemSys, n: nat)
    requires a0.regs.Valid() && WellBehaved(p, a0) && Starts(p, a0, ms)
    ensures var s := Run(p, BootOf(a0, ms), n);
      var k, r := |Retired(p, BootOf(a0, ms), n)|, Requested(Forward(RunStages(p, s)));
      && !(r.f.bubble && r.f.stall) && !(r.d.bubble && r.d.stall) && !(r.x.bubble && r.x.stall)
      && !r.m.bubble && !r.w.stall
      && (r.f.bubble || r.d.bubble ==> WrongPathF(p, a0, s, k))
      && (r.x.bubble ==> r.d.stall || !OnPathD(s))
      && (r.d.stall ==> r.f.stall) && (r.x.stall ==> r.d.stall && r.m.stall) && (r.m.stall <==> r.w.bubble)
      && (r.noFlags ==> r.x.stall || !s.xOut.xs.setFlags)
  {
    hide HoldsM, HoldsW, HoldsX, HoldsD, FetchReady, Squashed, DataAgrees, MemOk, DataBehaves, FetchesText, Cycle, At,
      Retired, Run, WrongPathF, Requested, RunStages, Forward, OnPathD, Loaded;
    RunInv(p, a0, ms, n);
    RequestsFit(p, a0, Run(p, BootOf(a0, ms), n), |Retired(p, BootOf(a0, ms), n)|);
  }

  /** The requests, in terms of the state between two cycles. */
  lemma RequestsOf(p: Program, s: Cpu)
    requires s.Ok(p.cfg)
    ensures var r := Requested(Forward(RunStages(p, s)));
      if MemNext(p, s).busy then
        r == Requests(true, Request(false, true), Request(false, true), Request(false, true), Request(false, true),
                      Request(true, false))
      else
        && r.noFlags == Faults(p, s)
        && (r.f.bubble ==> s.dOut.op == RET && DecodeOut(p, s).valA == 0 && !FetchStops(p, s))
        && (r.f.stall ==> FetchStops(p, s) || LoadUseHazard(s) || !(s.dOut.op == RET && DecodeOut(p, s).valA == 0))
        && r.d.stall == LoadUseHazard(s) && (LoadUseHazard(s) ==> r.f.stall)
        && (r.d.bubble ==> WrongPathD(s) || (s.dOut.op == RET && (!LoadUseHazard(s) || DecodeOut(p, s).valA == 0)))
        && r.x == Request(LoadUseHazard(s) || WrongPathD(s), false)
        && r.m == r.w == Request(false, false)
  {
    hide DataAccess, Execute, ExecuteFlags, Decode, Sources, Fetched, SelectPC, StickyStatus, NextPC, MemoryOut,
      ForwardOne, WriteValue, LoadUse, FetchHalts;
    ExecutedBranch(s.xOut, s.nzcv);
  }

  lemma ExecutedBranch(x: XReg, nzcv: Flags)
    ensures Mispredicted(Execute(x, nzcv)) <==> x.op == B_COND && !Execute(x, nzcv).condHolds
  {}

  lemma RequestsFit(p: Program, a0: Arch, s: Cpu, k: nat)
    requires a0.regs.Valid() && DataBehaves(p, a0) && Inv(p, a0, s, k)
    ensures var r := Requested(Forward(RunStages(p, s)));
      && !(r.f.bubble && r.f.stall) && !(r.d.bubble && r.d.stall) && !(r.x.bubble && r.x.stall)
      && !r.m.bubble && !r.w.stall
      && (r.f.bubble || r.d.bubble ==> WrongPathF(p, a0, s, k))
      && (r.x.bubble ==> r.d.stall || !OnPathD(s))
      && (r.d.stall ==> r.f.stall) && (r.x.stall ==> r.d.stall && r.m.stall) && (r.m.stall <==> r.w.bubble)
      && (r.noFlags ==> r.x.stall || !s.xOut.xs.setFlags)
  {
    hide HoldsM, HoldsW, HoldsX, HoldsD, FetchReady, Squashed, DataAgrees, MemOk, DataBehaves, Cycle, At, Requested,
      RunStages, Forward, DecodeOut, MemNext, MemoryResult, LoadUseHazard, WrongPathD, FetchStops, Diverts, Halted,
      IndexD, Loaded;
    RequestsOf(p, s);
    if !MemNext(p, s).busy {
      if LoadUseHazard(s) { LoadUseAlone(p, a0, s, k); }
      if s.dOut.op == RET && !WrongPathD(s) { RetDiverts(p, a0, s, k); }
      MemoryStatus(p, a0, s, k);
      if Faults(p, s) { BehindHalt(p, a0, s, k); }
    }
  }

  /** Decode is made to wait exactly while an access is in flight, and for the instruction
      right behind a load that reads what is loaded. */
  lemma DecodeWaitsFor(p: Program, a0: Arch, ms: MemSys, n: nat)
    requires a0.regs.Valid() && WellBehaved(p, a0) && Starts(p, a0, ms)
    ensures var s, k := Run(p, BootOf(a0, ms), n), |Retired(p, BootOf(a0, ms), n)|;
      Requested(Forward(RunStages(p, s))).d.stall <==>
        || MemNext(p, s).busy
        || (s.xOut.status != BUB && OnPathD(s) && Uses(p, At(p, a0, IndexX(s, k)), At(p, a0, IndexD(s, k))))
  {
    hide HoldsM, HoldsW, HoldsX, HoldsD, FetchReady, Squashed, DataAgrees, MemOk, DataBehaves, FetchesText, Cycle, At,
      Retired, Run, Requested, RunStages, Forward, MemNext, LoadUseHazard, Uses, Loaded, Quiet, OnPathD, View, IndexX;
    RunInv(p, a0, ms, n);
    var s, k := Run(p, BootOf(a0, ms), n), |Retired(p, BootOf(a0, ms), n)|;
    RequestsOf(p, s);
    HazardHeld(p, a0, s, k);
  }

  lemma HazardHeld(p: Program, a0: Arch, s: Cpu, k: nat)
    requires a0.regs.Valid() && DataBehaves(p, a0) && Inv(p, a0, s, k)
    ensures LoadUseHazard(s) <==>
      s.xOut.status != BUB && OnPathD(s) && Uses(p, At(p, a0, IndexX(s, k)), At(p, a0, IndexD(s, k)))
  {
    hide HoldsM, HoldsW, HoldsX, HoldsD, FetchReady, Squashed, DataAgrees, MemOk, DataBehaves, At, LoadUse, Sources,
      Uses, Loaded, Quiet, OnPathD, View;
    if LoadUseHazard(s) { LoadUseAlone(p, a0, s, k); }
    if s.xOut.status != BUB && OnPathD(s) {
      HeldUse(p, At(p, a0, IndexX(s, k)), At(p, a0, IndexD(s, k)), s.xOut, s.dOut);
    }
  }

  /** No wrong-path instruction ever reaches execute, none leaves a status behind for fetch
      to trip over, and no register is ever told to bubble and to stall. */
  lemma WrongPathIsSquashed(p: Program, a0: Arch, ms: MemSys, n: nat)
    requires a0.regs.Valid() && WellBehaved(p, a0) && Starts(p, a0, ms)
    ensures var s := Run(p, BootOf(a0, ms), n);
      var k := |Retired(p, BootOf(a0, ms), n)|;
      var here, next := At(p, a0, IndexX(s, k)), At(p, a0, IndexF(s, k));
      && NoFault(s)
      && (Mispredicted(s.mOut) ==> s.xOut.status == BUB && s.dOut == D_BUBBLE)
      && (s.xOut.op == RET ==> s.dOut == D_BUBBLE)
      && (s.xOut == SeqX(p, here) || (InertX(s.xOut) && (s.xOut.status == BUB || Halted(p, here))))
      && (WrongPathF(p, a0, s, k) || Redirected(s)
          || (Ends(s.fIn.status) ==> Halted(p, next) && StopStatus(p, next, s.fIn.status)))
  {
    hide HoldsM, HoldsW, HoldsD, DataAgrees, MemOk, DataBehaves, FetchesText, Cycle, At, Starts, Retired, WrongPathF,
      Halted, SeqX, Redirected, InertX, Loaded;
    RunInv(p, a0, ms, n);
  }

  /** The operands latched for execute are the sequential register values, whatever was
      forwarded or stalled for them. */
  lemma OperandsAreSequential(p: Program, a0: Arch, ms: MemSys, n: nat)
    requires a0.regs.Valid() && WellBehaved(p, a0) && Starts(p, a0, ms)
    requires Run(p, BootOf(a0, ms), n).xOut.status == AOK
    ensures var s := Run(p, BootOf(a0, ms), n);
      var a := At(p, a0, IndexX(s, |Retired(p, BootOf(a0, ms), n)|));
      var o := Sources(FetchAt(p.cfg, p.code(a.pc), a.pc));
      && a.pc != 0 && s.xOut.op == OpOf(p.code(a.pc))
      && s.xOut.valA == a.regs.Read(o.src1) && s.xOut.valB == a.regs.Read(o.src2)
  {
    hide HoldsX, HoldsM, HoldsW, HoldsD, DataAgrees, MemOk, DataBehaves, FetchesText, Cycle, At, Retired, FetchReady,
      Squashed, Behaves, Sources, FetchAt, View, OpOf, Run, Loaded;
    RunInv(p, a0, ms, n);
    var s := Run(p, BootOf(a0, ms), n);
    var i := IndexX(s, |Retired(p, BootOf(a0, ms), n)|);
    AllBehave(p, a0, i);
    HeldOperands(p, At(p, a0, i), s.xOut);
  }

  lemma HeldOperands(p: Program, a: Arch, x: XReg)
    requires a.regs.Valid() && Behaves(p, a) && HoldsX(p, a, x) && x.status == AOK
    ensures var o := Sources(FetchAt(p.cfg, p.code(a.pc), a.pc));
      && a.pc != 0 && x.op == OpOf(p.code(a.pc))
      && x.valA == a.regs.Read(o.src1) && x.valB == a.regs.Read(o.src2)
  {
    hide Behaves, Sources, ControlOf, AluOpOf, ImmediateOf, OpOf, CondOf, HwOf, InertX, FetchOp, AdrpValue;
    if !Halted(p, a) { LegalFetch(p, a); }
  }

  lemma LegalFetch(p: Program, a: Arch)
    requires a.regs.Valid() && !Illegal(p, a)
    ensures a.pc != 0 ==> FetchOp(p.cfg, p.code(a.pc), a.pc) == OpOf(p.code(a.pc))
    ensures a.pc == 0 ==> Halted(p, a)
  {
    hide OpOf, SeqM;
  }

  /** The flags change only in the cycle in which an instruction leaves execute, and then
      become what that instruction makes of its predecessor's: one write each, in order. */
  lemma FlagsCommitOnce(p: Program, a0: Arch, ms: MemSys, n: nat)
    requires a0.regs.Valid() && WellBehaved(p, a0) && Starts(p, a0, ms)
    ensures var s0 := BootOf(a0, ms);
      var s, s' := Run(p, s0, n), Run(p, s0, n + 1);
      var i, i' := IndexX(s, |Retired(p, s0, n)|), IndexX(s', |Retired(p, s0, n + 1)|);
      && i <= i' <= i + 1
      && s'.nzcv == (if i' == i || Halted(p, At(p, a0, i)) then s.nzcv else ExecuteFlags(SeqX(p, At(p, a0, i)), s.nzcv))
      && (MemNext(p, s).busy ==> i' == i && s'.xOut == s.xOut)
      && (s.xOut.status == AOK && s.xOut.op == B_COND ==>
            (Execute(s.xOut, s.nzcv).condHolds <==> CondHolds(s.xOut.cond, At(p, a0, i).nzcv)))
  {
    hide HoldsX, HoldsM, HoldsW, HoldsD, MemOk, DataBehaves, FetchesText, Cycle, Retired, FetchReady, Squashed, SeqX,
      Halted, ExecuteFlags, View, CondHolds, AluResult, At, MemNext, InertX, IndexX, Loaded;
    RunInv(p, a0, ms, n);
    RunInv(p, a0, ms, n + 1);
    var s0 := BootOf(a0, ms);
    var s, k := Run(p, s0, n), |Retired(p, s0, n)|;
    XMoves(p, a0, s, k);
    NextRetired(p, s0, n);
    FlagsOfNext(p, a0, IndexX(s, k));
    BranchFlags(p, a0, s, k);
  }

  lemma NextRetired(p: Program, s: Cpu, n: nat)
    requires s.Ok(p.cfg)
    ensures Run(p, s, n + 1) == Cycle(p, Run(p, s, n))
    ensures |Retired(p, s, n + 1)| == IndexM(Run(p, s, n), |Retired(p, s, n)|)
  {
    hide Cycle;
  }

  lemma XMoves(p: Program, a0: Arch, s: Cpu, k: nat)
    requires a0.regs.Valid() && DataBehaves(p, a0) && Inv(p, a0, s, k)
    ensures IndexX(s, k) <= IndexX(Cycle(p, s), IndexM(s, k)) <= IndexX(s, k) + 1
    ensures MemNext(p, s).busy ==> IndexX(Cycle(p, s), IndexM(s, k)) == IndexX(s, k) && Cycle(p, s).xOut == s.xOut
  {
    hide HoldsX, HoldsM, HoldsW, HoldsD, FetchReady, Squashed, DataAgrees, MemOk, DataBehaves, MemNext, Cycle, IndexX,
      IndexM, Loaded;
    ExecuteMoves(p, a0, s, k);
    if MemNext(p, s).busy { BusyStep(p, a0, s, k); }
  }

  lemma FlagsOfNext(p: Program, a0: Arch, i: nat)
    requires a0.regs.Valid()
    ensures var a := At(p, a0, i);
      At(p, a0, i + 1).nzcv == if Halted(p, a) then a.nzcv else ExecuteFlags(SeqX(p, a), a.nzcv)
  {
    hide Halted, SeqX, SeqW, ExecuteFlags, MemAfter, OutputAfter, PCAfter;
    Unroll(p, a0, i);
  }

  /** A conditional branch tests the flags of the youngest older flag setter. */
  lemma BranchFlags(p: Program, a0: Arch, s: Cpu, k: nat)
    requires a0.regs.Valid() && Inv(p, a0, s, k)
    ensures s.xOut.status == AOK && s.xOut.op == B_COND ==>
              (Execute(s.xOut, s.nzcv).condHolds <==> CondHolds(s.xOut.cond, At(p, a0, IndexX(s, k)).nzcv))
  {
    hide HoldsM, HoldsW, HoldsD, FetchReady, Squashed, CondHolds, AluResult, AluFlags, Halted, SeqD, Sources, Loaded;
    if s.xOut.status == AOK && s.xOut.op == B_COND {
      OpShape(B_COND);
      FlagsKeptBy(s.xOut, s.nzcv);
    }
  }
}
