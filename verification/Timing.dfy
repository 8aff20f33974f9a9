/** Exactly how many cycles a run takes: one per instruction, plus two for each wrongly
    predicted branch, one for each RET, one for each load whose result the very next
    instruction uses, plus the cycles spent waiting for the cache. */
module Timing {
  import opened Alu
  import opened Isa
  import opened MemorySystem
  import opened Datapath
  import opened Sequential
  import opened OpMeaning
  import opened OpAgreement
  import opened Pipeline
  import opened Invariant
  import opened Stages
  import opened CycleFields
  import opened Refinement
  import opened ReadyStep
  import opened FrontEnd
  import opened PipelineTheorem

  /** The cycles lost after the instruction at `a`, when `b` is the next one. */
  function Penalty(p: Program, a: Arch, b: Arch): nat
    requires a.regs.Valid()
  {
    if Halted(p, a) then 0
    else if Mispredicted(SeqM(p, a)) then 2
    else if SeqX(p, a).op == RET then 1
    else One(Uses(p, a, b))
  }

  lemma PenaltyAtMostTwo(p: Program, a: Arch, b: Arch)
    requires a.regs.Valid()
    ensures Penalty(p, a, b) <= 2
  {
    hide SeqM, SeqX, SeqD, Sources, LoadUse, Halted;
  }

  function PenaltySum(p: Program, a0: Arch, n: nat): nat
    requires a0.regs.Valid()
  {
    if n == 0 then 0 else PenaltySum(p, a0, n - 1) + Penalty(p, At(p, a0, n - 1), At(p, a0, n))
  }

  /** The part of the penalty of the instruction in execute that is already paid. */
  function Pending(s: Cpu): nat {
    One(WrongPathD(s) || s.xOut.op == RET)
  }

  /** The cycles among the first `n` in which a data access stayed in flight. */
  function Waits(p: Program, s: Cpu, n: nat): nat
    requires s.Ok(p.cfg)
  {
    if n == 0 then 0 else Waits(p, s, n - 1) + One(MemNext(p, Run(p, s, n - 1)).busy)
  }

  /** Instructions fetched and penalties paid so far. */
  function Progress(p: Program, a0: Arch, s: Cpu, k: nat): nat
    requires a0.regs.Valid()
  {
    IndexF(s, k) + PenaltySum(p, a0, IndexX(s, k)) + Pending(s)
  }

  lemma HaltSources(p: Program, b: Arch, d: DReg)
    requires HoldsD(p, b, d) && Halted(p, b)
    ensures Sources(d).src1 == XZR && Sources(d).src2 == XZR
  {
    hide OpOf, AdrpValue, FetchFault;
  }

  lemma StopInExecute(p: Program, a: Arch, x: XReg)
    requires a.regs.Valid() && HoldsX(p, a, x) && x.status != BUB
    ensures if Halted(p, a) then x.op != LDUR else x == SeqX(p, a)
  {
    hide SeqX, Halted;
  }

  lemma RunsInDecode(p: Program, b: Arch, d: DReg)
    requires HoldsD(p, b, d) && !Halted(p, b)
    ensures d == SeqD(p, b)
  {
    hide SeqD, Halted;
  }

  /** Between the instructions in execute and in decode there is a hazard exactly when the one
      reads what the other loads. */
  lemma HeldUse(p: Program, a: Arch, b: Arch, x: XReg, d: DReg)
    requires a.regs.Valid() && b.regs.Valid() && HoldsX(p, a, x) && x.status != BUB && HoldsD(p, b, d)
    ensures LoadUse(x, Sources(d).src1, Sources(d).src2) <==> Uses(p, a, b)
  {
    hide HoldsX, HoldsD, SeqX, SeqD, Sources, LoadThenUse, Halted;
    StopInExecute(p, a, x);
    if Halted(p, b) {
      HaltSources(p, b, d);
    } else if !Halted(p, a) {
      RunsInDecode(p, b, d);
      HazardIsUse(p, a, b);
    }
  }

  lemma UseIsLoad(p: Program, a: Arch, b: Arch, x: XReg)
    requires a.regs.Valid() && HoldsX(p, a, x) && x.status != BUB && Uses(p, a, b)
    ensures x.op == LDUR
  {
    hide HoldsX, SeqX, SeqD, Sources, Reads, Halted, OpOf, OperandsOf;
    StopInExecute(p, a, x);
    DecodedSources(p, a);
  }

  lemma PenaltyInX(p: Program, a: Arch, b: Arch, x: XReg)
    requires a.regs.Valid() && HoldsX(p, a, x) && x.status != BUB
    ensures Mispredicted(Execute(x, a.nzcv)) ==> Penalty(p, a, b) == 2
    ensures x.op == RET ==> Penalty(p, a, b) == 1
  {
    hide AluResult, ExecuteFlags, Decode, SeqD, Sources, LoadUse;
  }

  lemma PenaltyBehindX(p: Program, a: Arch, b: Arch, x: XReg, d: DReg)
    requires a.regs.Valid() && b.regs.Valid() && HoldsX(p, a, x) && x.status != BUB && HoldsD(p, b, d)
    requires !Mispredicted(Execute(x, a.nzcv)) && x.op != RET
    ensures Penalty(p, a, b) == One(LoadUse(x, Sources(d).src1, Sources(d).src2))
  {
    hide HoldsX, HoldsD, AluResult, ExecuteFlags, Decode, SeqD, SeqX, Sources, LoadUse, LoadThenUse, Halted;
    HeldUse(p, a, b, x, d);
    StopInExecute(p, a, x);
  }

  /** What leaving execute costs, in terms of the hazards of this cycle. */
  lemma PenaltyPaid(p: Program, a0: Arch, s: Cpu, k: nat)
    requires a0.regs.Valid() && Inv(p, a0, s, k)
    requires LoadUseHazard(s) ==> OnPathD(s) && s.xOut.status != BUB && s.xOut.op == LDUR
    ensures PenaltySum(p, a0, IndexD(s, k)) == PenaltySum(p, a0, IndexX(s, k)) +
      if s.xOut.status == BUB then 0
      else if WrongPathD(s) then 2
      else if s.xOut.op == RET then 1
      else One(LoadUseHazard(s))
  {
    hide HoldsX, HoldsM, HoldsW, HoldsD, FetchReady, Penalty, At, LoadUse, Sources, Execute, Loaded, Quiet;
    if s.xOut.status != BUB {
      var i := IndexX(s, k);
      PenaltyInX(p, At(p, a0, i), At(p, a0, i + 1), s.xOut);
      if !WrongPathD(s) && s.xOut.op != RET {
        PenaltyBehindX(p, At(p, a0, i), At(p, a0, i + 1), s.xOut, s.dOut);
      }
    }
  }

  lemma RealX(p: Program, a0: Arch, s: Cpu, k: nat)
    requires a0.regs.Valid() && Inv(p, a0, s, k)
    ensures WrongPathD(s) || s.xOut.op == RET || s.xOut.op == LDUR ==> s.xOut.status != BUB
    ensures s.xOut.op == RET ==> !WrongPathD(s) && s.dOut.op != RET && !LoadUseHazard(s)
    ensures LoadUseHazard(s) ==> !WrongPathD(s)
    ensures !WrongPathD(s) && s.dOut.op == RET ==> OnPathD(s)
  {
    hide HoldsM, HoldsW, HoldsD, FetchReady, At, Sources, AluResult, ExecuteFlags, Loaded, Quiet;
  }

  /** Every cycle fetches one more instruction, pays one cycle of penalty, or waits. */
  lemma CycleCounts(p: Program, a0: Arch, s: Cpu, k: nat)
    requires a0.regs.Valid() && DataBehaves(p, a0) && Inv(p, a0, s, k)
    ensures Progress(p, a0, Cycle(p, s), IndexM(s, k)) + One(MemNext(p, s).busy) == Progress(p, a0, s, k) + 1
  {
    hide Cycle, HoldsX, HoldsM, HoldsW, HoldsD, FetchReady, Squashed, DataAgrees, MemOk, ReadyFields, LoadUseHazard,
      PenaltySum, IndexF, IndexX, IndexD, IndexM, DataBehaves, Execute, FrontOk, MemNext, WrongPathF, WrongPathD,
      OnPathD, Loaded, Quiet;
    if MemNext(p, s).busy {
      BusyCounts(p, a0, s, k);
    } else {
      ReadyCounts(p, a0, s, k);
    }
  }

  lemma BusyCounts(p: Program, a0: Arch, s: Cpu, k: nat)
    requires a0.regs.Valid() && DataBehaves(p, a0) && Inv(p, a0, s, k) && MemNext(p, s).busy
    ensures Progress(p, a0, Cycle(p, s), IndexM(s, k)) == Progress(p, a0, s, k)
  {
    hide Cycle, PenaltySum, IndexF, IndexX, IndexM, DataBehaves, Execute, MemNext, HoldsX, HoldsM, HoldsW, HoldsD,
      FetchReady, Squashed, MemOk, FetchStatusAfter, DataAccess, Fetched, WriteRegs, Loaded, Quiet;
    BusyStep(p, a0, s, k);
    BusyCycle(p, s);
  }

  lemma ReadyCounts(p: Program, a0: Arch, s: Cpu, k: nat)
    requires a0.regs.Valid() && DataBehaves(p, a0) && Inv(p, a0, s, k) && !MemNext(p, s).busy
    ensures Progress(p, a0, Cycle(p, s), IndexM(s, k)) == Progress(p, a0, s, k) + 1
  {
    hide Cycle, PenaltySum, IndexF, IndexX, IndexM, IndexD, DataBehaves, Execute, MemNext, HoldsX, HoldsM, HoldsW,
      HoldsD, FetchReady, Squashed, MemOk, FetchStatusAfter, Fetched, WriteRegs, DataAgrees, WrongPathF, LoadUse,
      Sources, MemoryResult, DecodeOut, ExecuteFlags, NextPC, SelectPC, FetchHalts, FetchStops, StickyStatus, Loaded,
      Quiet;
    ReadyCycleFields(p, a0, s, k);
    Indices(p, a0, s, Cycle(p, s), k);
    PenaltyPaid(p, a0, s, k);
    RealX(p, a0, s, k);
    var s' := Cycle(p, s);
    BubbleIsQuiet(s'.nzcv);
    if WrongPathD(s) {
      AfterMisprediction(p, a0, s, k);
    } else if LoadUseHazard(s) {
      AfterLoadUse(p, a0, s, k);
    } else if s.dOut.op == RET {
      AfterRet(p, a0, s, k);
    } else {
      AfterAdvance(p, a0, s, k);
    }
  }

  /** The cycle count at any moment of a run. */
  lemma {:induction false} CyclesSpent(p: Program, a0: Arch, ms: MemSys, n: nat)
    requires a0.regs.Valid() && DataBehaves(p, a0) && Starts(p, a0, ms) && QuietUntil(p, BootOf(a0, ms), n + 1)
    ensures var s0 := BootOf(a0, ms);
      n == Waits(p, s0, n) + Progress(p, a0, Run(p, s0, n), |Retired(p, s0, n)|)
  {
    hide Cycle, Inv, Progress, DataBehaves, FetchesText, MemNext, IndexM, View, MemOk, MemShaped, Loaded;
    var s0 := BootOf(a0, ms);
    QuietInv(p, a0, ms, n);
    if n == 0 {
      NothingYet(p, a0, ms);
    } else {
      CyclesSpent(p, a0, ms, n - 1);
      QuietInv(p, a0, ms, n - 1);
      var s, k := Run(p, s0, n - 1), |Retired(p, s0, n - 1)|;
      CycleCounts(p, a0, s, k);
      assert IndexM(s, k) == |Retired(p, s0, n)| by { OneMore(p, s0, n); }
    }
  }

  lemma NothingYet(p: Program, a0: Arch, ms: MemSys)
    requires a0.regs.Valid()
    ensures Progress(p, a0, BootOf(a0, ms), 0) == 0
  {
    BubbleIsQuiet(a0.nzcv);
  }

  lemma OneMore(p: Program, s: Cpu, n: nat)
    requires s.Ok(p.cfg) && n > 0
    ensures IndexM(Run(p, s, n - 1), |Retired(p, s, n - 1)|) == |Retired(p, s, n)|
  {
    hide Cycle;
  }

  // Once the end of the program is in the pipeline nothing but HLT follows it.

  predicate TailFull(s: Cpu) {
    && (Ends(s.wOut.status) ==> Ends(s.mOut.status))
    && (Ends(s.mOut.status) ==> Ends(s.xOut.status))
    && (Ends(s.xOut.status) ==> Ends(s.dOut.status))
  }

  lemma StopInX(p: Program, a: Arch, x: XReg)
    requires a.regs.Valid() && Behaves(p, a) && HoldsX(p, a, x) && Ends(x.status)
    ensures InertX(x) && Halted(p, a) && !Mispredicted(Execute(x, a.nzcv))
  {
    hide AluResult, ExecuteFlags, SeqX, Halted, Behaves;
    if !Halted(p, a) { StatusOf(p, a); }
  }

  lemma StopInD(p: Program, a: Arch, d: DReg)
    requires a.regs.Valid() && Behaves(p, a) && HoldsD(p, a, d) && Ends(d.status)
    ensures Halted(p, a) && d.op != RET && !Diverts(p, a)
  {
    hide SeqX, SeqD, Behaves, SeqM;
    if !Halted(p, a) { StatusOf(p, a); }
  }

  lemma TailStep(p: Program, a0: Arch, s: Cpu, k: nat)
    requires a0.regs.Valid() && DataBehaves(p, a0) && Inv(p, a0, s, k) && TailFull(s)
    ensures TailFull(Cycle(p, s))
  {
    hide Cycle, HoldsX, HoldsM, HoldsW, HoldsD, FetchReady, Squashed, View, MemOk, DataBehaves, MemNext, Execute,
      ExecuteFlags, MemoryResult, DecodeOut, Fetched, NextPC, SelectPC, FetchHalts, FetchStops, StickyStatus,
      WriteRegs, LoadUse, Sources, Behaves, At, Diverts, Halted, InertX, Loaded, Quiet;
    if MemNext(p, s).busy {
      BusyCycle(p, s);
    } else {
      ReadyCycleFields(p, a0, s, k);
      DecodeOutOp(p, s);
      AllBehave(p, a0, IndexX(s, k));
      ExecuteStatus(s.xOut, s.nzcv);
      if Ends(s.xOut.status) {
        StopInX(p, At(p, a0, IndexX(s, k)), s.xOut);
        assert s.xOut.op != LDUR by { InertOp(s.xOut); }
      }
      if Ends(s.dOut.status) && OnPathD(s) && !LoadUseHazard(s) {
        var i := IndexD(s, k);
        AllBehave(p, a0, i);
        StopInD(p, At(p, a0, i), s.dOut);
        HaltedForever(p, a0, i, i + 1);
        FetchHolds(p, a0, s, k);
      }
    }
  }

  lemma InertOp(x: XReg)
    requires InertX(x)
    ensures x.op != LDUR && x.op != RET
  {}

  lemma ExecuteStatus(x: XReg, nzcv: Flags)
    ensures Execute(x, nzcv).status == x.status
  {}

  lemma {:induction false} RunTail(p: Program, a0: Arch, ms: MemSys, n: nat)
    requires a0.regs.Valid() && WellBehaved(p, a0) && Starts(p, a0, ms)
    ensures TailFull(Run(p, BootOf(a0, ms), n))
  {
    hide Cycle, Inv, DataBehaves, FetchesText, View, MemOk, MemShaped, Loaded;
    if n > 0 {
      RunTail(p, a0, ms, n - 1);
      RunInv(p, a0, ms, n - 1);
      TailStep(p, a0, Run(p, BootOf(a0, ms), n - 1), |Retired(p, BootOf(a0, ms), n - 1)|);
    }
  }

  lemma HaltPenalty(p: Program, a0: Arch, h: nat)
    requires a0.regs.Valid() && Halted(p, At(p, a0, h))
    ensures PenaltySum(p, a0, h + 2) == PenaltySum(p, a0, h)
  {
    hide Penalty, Halted, At;
    HaltedForever(p, a0, h, h + 1);
    NoPenalty(p, At(p, a0, h), At(p, a0, h + 1));
    NoPenalty(p, At(p, a0, h + 1), At(p, a0, h + 2));
  }

  /** With the end of the program in writeback, the pipeline is full of it. */
  lemma HaltIndices(p: Program, a0: Arch, s: Cpu, h: nat)
    requires a0.regs.Valid() && DataBehaves(p, a0) && Inv(p, a0, s, h) && TailFull(s) && Ends(s.wOut.status)
    ensures Halted(p, At(p, a0, h))
    ensures IndexX(s, h) == h + 2 && IndexF(s, h) == h + 4 && Pending(s) == 0
  {
    hide HoldsM, HoldsX, HoldsD, FetchReady, Squashed, DataBehaves, View, MemOk, Halted, Behaves, SeqW, At, Execute,
      InertX, Loaded, Quiet;
    AllBehave(p, a0, h);
    AllBehave(p, a0, h + 2);
    if !Halted(p, At(p, a0, h)) { StatusOf(p, At(p, a0, h)); }
    StopInX(p, At(p, a0, h + 2), s.xOut);
    InertOp(s.xOut);
  }

  /** With the end of the program, instruction number `h`, in writeback, exactly this many
      cycles have passed. */
  lemma HaltCycle(p: Program, a0: Arch, ms: MemSys, n: nat)
    requires a0.regs.Valid() && WellBehaved(p, a0) && Starts(p, a0, ms)
    requires Ends(Run(p, BootOf(a0, ms), n).wOut.status)
    ensures var h := |Retired(p, BootOf(a0, ms), n)|;
      && Halted(p, At(p, a0, h))
      && n == h + 4 + PenaltySum(p, a0, h) + Waits(p, BootOf(a0, ms), n)
  {
    hide Cycle, Inv, DataBehaves, FetchesText, View, MemOk, Halted, At, TailFull, PenaltySum, IndexX, IndexF, Pending,
      Waits, Retired, Run, Loaded;
    var s := Run(p, BootOf(a0, ms), n);
    var h := |Retired(p, BootOf(a0, ms), n)|;
    RunInv(p, a0, ms, n);
    RunTail(p, a0, ms, n);
    AllQuiet(p, a0, ms, n + 1);
    CyclesSpent(p, a0, ms, n);
    HaltIndices(p, a0, s, h);
    HaltPenalty(p, a0, h);
  }

  lemma NoPenalty(p: Program, a: Arch, b: Arch)
    requires a.regs.Valid() && Halted(p, a)
    ensures Penalty(p, a, b) == 0
  {}
}
