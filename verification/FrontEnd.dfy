/** Fetch and decode after a cycle: squash, stall, or move on. */
module FrontEnd {
  import opened Alu
  import opened Isa
  import opened Datapath
  import opened Sequential
  import opened Pipeline
  import opened Invariant
  import opened Stages
  import opened CycleFields
  import opened Refinement
  import opened ReadyStep

  /** Execute diverts control exactly when the sequential instruction it holds does. */
  lemma ExecuteDiverts(p: Program, a: Arch, x: XReg)
    requires a.regs.Valid() && HoldsX(p, a, x)
    ensures x.op == RET || Mispredicted(Execute(x, a.nzcv)) <==> x.status != BUB && Diverts(p, a)
  {
    hide AluResult, ExecuteFlags, Decode, SeqD;
  }

  /** The front end keeps its part of the invariant. */
  ghost predicate FrontOk(p: Program, a0: Arch, s: Cpu, k: nat)
    requires a0.regs.Valid()
  {
    && Squashed(s) && FetchReady(p, a0, s, k)
    && (OnPathD(s) ==> HoldsD(p, At(p, a0, IndexD(s, k)), s.dOut))
  }

  lemma BubbleIsQuiet(nzcv: Flags)
    ensures !Mispredicted(Execute(X_BUBBLE, nzcv))
  {}

  /** A wrongly predicted branch leaves execute: both younger stages are emptied. */
  lemma AfterMisprediction(p: Program, a0: Arch, s: Cpu, k: nat)
    requires a0.regs.Valid() && Inv(p, a0, s, k) && WrongPathD(s)
    requires ReadyFields(p, s, Cycle(p, s))
    ensures FrontOk(p, a0, Cycle(p, s), IndexM(s, k))
    ensures IndexF(Cycle(p, s), IndexM(s, k)) == IndexF(s, k)
  {
    hide HoldsX, HoldsW, HoldsM, HoldsD, Cycle, Execute, ExecuteFlags, MemoryResult, DecodeOut, Fetched, Sources,
      LoadUse, DataAgrees, WrongPathF, At, Loaded;
    BubbleIsQuiet(Cycle(p, s).nzcv);
    Indices(p, a0, s, Cycle(p, s), k);
  }

  /** A RET moves from decode to execute: decode is emptied behind it. */
  lemma AfterRet(p: Program, a0: Arch, s: Cpu, k: nat)
    requires a0.regs.Valid() && DataBehaves(p, a0) && Inv(p, a0, s, k) && !MemNext(p, s).busy
    requires ReadyFields(p, s, Cycle(p, s))
    requires !WrongPathD(s) && !LoadUseHazard(s) && s.dOut.op == RET
    ensures FrontOk(p, a0, Cycle(p, s), IndexM(s, k))
    ensures IndexF(Cycle(p, s), IndexM(s, k)) == IndexF(s, k)
    ensures Cycle(p, s).xOut.op == RET
  {
    hide HoldsX, HoldsW, HoldsM, HoldsD, Cycle, Execute, ExecuteFlags, MemoryResult, DecodeOut, Fetched, Sources,
      LoadUse, DataAgrees, WrongPathF, MemNext, At, FetchHalts, SelectPC, StickyStatus, NextPC, WriteRegs, FetchStops,
      Loaded;
    DecodeOutOp(p, s);
    RetIsQuiet(Cycle(p, s).xOut, Cycle(p, s).nzcv);
    Indices(p, a0, s, Cycle(p, s), k);
    assert Redirected(Cycle(p, s));
  }

  lemma DecodeOutOp(p: Program, s: Cpu)
    requires s.Ok(p.cfg)
    ensures DecodeOut(p, s).op == s.dOut.op && DecodeOut(p, s).status == s.dOut.status
  {
    hide DataAccess, Execute, ExecuteFlags, Fetched, FetchHalts, ForwardOne, ControlOf, AluOpOf, ImmediateOf,
      OperandsOf, CondOf, HwOf;
  }

  lemma RetIsQuiet(x: XReg, nzcv: Flags)
    ensures x.op != B_COND ==> !Mispredicted(Execute(x, nzcv))
  {}

  /** A load-use hazard: decode and fetch stay, execute gets a bubble. */
  lemma AfterLoadUse(p: Program, a0: Arch, s: Cpu, k: nat)
    requires a0.regs.Valid() && DataBehaves(p, a0) && Inv(p, a0, s, k)
    requires ReadyFields(p, s, Cycle(p, s)) && LoadUseHazard(s)
    ensures FrontOk(p, a0, Cycle(p, s), IndexM(s, k))
    ensures IndexF(Cycle(p, s), IndexM(s, k)) == IndexF(s, k)
  {
    hide HoldsX, HoldsW, HoldsM, HoldsD, Cycle, Execute, ExecuteFlags, MemoryResult, DecodeOut, Fetched, Sources,
      LoadUse, DataAgrees, FetchReady, Diverts, StickyStatus, At, Loaded;
    var s', k' := Cycle(p, s), IndexM(s, k);
    BubbleIsQuiet(s'.nzcv);
    RetIsQuiet(s.xOut, s.nzcv);
    Indices(p, a0, s, s', k);
    assert FetchReady(p, a0, s', k') by {
      if WrongPathF(p, a0, s, k) {
        StillWrongPath(p, a0, s, s', k, k');
      } else {
        FetchAgain(p, a0, s, s', k, k');
      }
    }
  }

  lemma StillWrongPath(p: Program, a0: Arch, s: Cpu, s': Cpu, k: nat, k': nat)
    requires a0.regs.Valid() && WrongPathF(p, a0, s, k) && OnPathD(s) && OnPathD(s')
    requires IndexD(s', k') == IndexD(s, k)
    ensures FetchReady(p, a0, s', k')
  {}

  /** No hazard: fetch's instruction enters decode, decode's enters execute. */
  lemma AfterAdvance(p: Program, a0: Arch, s: Cpu, k: nat)
    requires a0.regs.Valid() && DataBehaves(p, a0) && Inv(p, a0, s, k) && !MemNext(p, s).busy
    requires ReadyFields(p, s, Cycle(p, s))
    requires !WrongPathD(s) && !LoadUseHazard(s) && s.dOut.op != RET
    ensures FrontOk(p, a0, Cycle(p, s), IndexM(s, k))
    ensures IndexF(Cycle(p, s), IndexM(s, k)) == IndexF(s, k) + One(!WrongPathF(p, a0, s, k))
    ensures Cycle(p, s).xOut.op == s.dOut.op
    ensures WrongPathF(p, a0, s, k) <==> WrongPathD(Cycle(p, s))
  {
    hide HoldsW, HoldsM, HoldsX, HoldsD, Cycle, Execute, ExecuteFlags, MemoryResult, DecodeOut, Fetched, Sources,
      LoadUse, DataAgrees, FetchReady, Diverts, StickyStatus, At, MemNext, FetchHalts, Redirected, Loaded;
    var s', k' := Cycle(p, s), IndexM(s, k);
    var i := IndexD(s, k);
    DecodeHoldsAny(p, a0, s, k);
    DecodeOutOp(p, s);
    FetchedStatus(p, s);
    ReadyFlags(p, a0, s, k);
    ExecuteDiverts(p, At(p, a0, i), s'.xOut);
    Indices(p, a0, s, s', k);
    if !WrongPathF(p, a0, s, k) {
      FetchHolds(p, a0, s, k);
      AdvanceReady(p, a0, s, s', k, k');
    } else {
      assert FetchReady(p, a0, s', k') by { Wrong(p, a0, s', k'); }
    }
  }

  lemma Wrong(p: Program, a0: Arch, s: Cpu, k: nat)
    requires a0.regs.Valid() && WrongPathD(s)
    ensures FetchReady(p, a0, s, k)
  {}

  lemma FetchedStatus(p: Program, s: Cpu)
    ensures Fetched(p, s).status != BUB
  {
    hide FetchOp, AdrpValue, FetchHalts;
  }

  /** Fetch stays at the end of the program. */
  lemma AdvanceAtEnd(p: Program, a0: Arch, s: Cpu, s': Cpu, k: nat, k': nat)
    requires a0.regs.Valid() && DataBehaves(p, a0) && Inv(p, a0, s, k) && !WrongPathF(p, a0, s, k)
    requires ReadyFields(p, s, s') && IndexF(s', k') == IndexF(s, k) + 1 && Halted(p, At(p, a0, IndexF(s, k)))
    ensures FetchReady(p, a0, s', k')
  {
    hide HoldsW, HoldsM, HoldsX, HoldsD, Execute, ExecuteFlags, MemoryResult, DecodeOut, Fetched, Sources, LoadUse,
      Inv, Diverts, MemNext, OnPathD, IndexD, WrongPathD, WrongPathF, Halted, NextPC, SeqStep, Behaves, SelectPC,
      IndexF, DataAgrees, Loaded;
    var i := IndexF(s, k);
    FetchHolds(p, a0, s, k);
    Unroll(p, a0, i);
    HaltedStays(p, At(p, a0, i));
  }

  lemma AdvanceReady(p: Program, a0: Arch, s: Cpu, s': Cpu, k: nat, k': nat)
    requires a0.regs.Valid() && DataBehaves(p, a0) && Inv(p, a0, s, k) && !WrongPathF(p, a0, s, k)
    requires ReadyFields(p, s, s') && !LoadUseHazard(s) && s.dOut.op != RET
    requires OnPathD(s') && IndexD(s', k') == IndexF(s, k)
    ensures FetchReady(p, a0, s', k')
  {
    hide HoldsW, HoldsM, HoldsX, HoldsD, Execute, ExecuteFlags, MemoryResult, DecodeOut, Fetched, Sources, LoadUse,
      Inv, Diverts, MemNext, OnPathD, IndexD, WrongPathD, Halted, NextPC, SeqStep, Behaves, SelectPC, DataBehaves,
      DataAgrees, Loaded;
    var i := IndexF(s, k);
    if Halted(p, At(p, a0, i)) {
      AdvanceAtEnd(p, a0, s, s', k, k');
    } else {
      FetchHolds(p, a0, s, k);
      if !Diverts(p, At(p, a0, i)) {
        PredictionRight(p, a0, i);
      }
    }
  }
}
