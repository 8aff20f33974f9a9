/** One cycle keeps the invariant, so the pipeline refines the sequential machine. */
module Refinement {
  import opened Alu
  import opened Isa
  import opened MemorySystem
  import opened Datapath
  import opened Sequential
  import opened Pipeline
  import opened Invariant
  import opened Stages
  import opened OperandValues
  import opened CycleFields
  import opened TextMemory

  // Fetch.

  lemma RetGoes(p: Program, a: Arch, x: XReg)
    requires a.regs.Valid() && HoldsX(p, a, x) && x.op == RET
    ensures x.status != BUB && SeqStep(p, a).pc == x.valA && !Mispredicted(Execute(x, a.nzcv))
  {
    hide Halted, SeqX, SeqW, MemAfter, OutputAfter, NextPC, ExecuteFlags, AluResult, WriteRegs;
  }

  lemma BranchGoes(p: Program, a: Arch, m: MReg)
    requires a.regs.Valid() && HoldsM(p, a, m) && Mispredicted(m)
    ensures m.status != BUB && SeqStep(p, a).pc == m.value
  {
    hide Halted, SeqM, SeqX, SeqW, MemAfter, OutputAfter, NextPC, ExecuteFlags, AluResult, WriteRegs;
    ValueOf(p, a);
  }

  lemma RetTarget(p: Program, a0: Arch, s: Cpu, k: nat)
    requires a0.regs.Valid() && Placed(p, a0, s, k) && s.xOut.op == RET
    ensures !WrongPathD(s) && SelectPC(s) == At(p, a0, IndexF(s, k)).pc
  {
    hide HoldsW, HoldsX, HoldsM, HoldsD, Execute, SeqStep, FetchReady, Loaded;
    var i := IndexX(s, k);
    RetGoes(p, At(p, a0, i), s.xOut);
    Unroll(p, a0, i);
  }

  lemma BranchTarget(p: Program, a0: Arch, s: Cpu, k: nat)
    requires a0.regs.Valid() && Placed(p, a0, s, k) && Mispredicted(s.mOut) && !WrongPathD(s) && s.xOut.op != RET
    ensures SelectPC(s) == At(p, a0, IndexF(s, k)).pc
  {
    hide HoldsW, HoldsX, HoldsM, HoldsD, Execute, SeqStep, FetchReady, Loaded, WrongPathD;
    var i := IndexM(s, k);
    BranchGoes(p, At(p, a0, i), s.mOut);
    Unroll(p, a0, i);
  }

  /** When X or M redirects fetch, it redirects it to the next instruction to run. */
  lemma RedirectTarget(p: Program, a0: Arch, s: Cpu, k: nat)
    requires a0.regs.Valid() && Placed(p, a0, s, k) && Redirected(s) && !WrongPathD(s)
    ensures SelectPC(s) == At(p, a0, IndexF(s, k)).pc
  {
    hide Placed, SelectPC, WrongPathD, IndexF, Mispredicted;
    if s.xOut.op == RET { RetTarget(p, a0, s, k); } else { BranchTarget(p, a0, s, k); }
  }

  lemma ValueOf(p: Program, a: Arch)
    requires a.regs.Valid()
    ensures SeqM(p, a).value == SeqX(p, a).value && SeqM(p, a).op == SeqX(p, a).op == SeqD(p, a).op
  {}

  lemma HaltedAtZero(p: Program, a: Arch)
    ensures a.pc == 0 ==> Halted(p, a)
    ensures a.pc != 0 ==> SeqD(p, a) == FetchAt(p.cfg, p.code(a.pc), a.pc)
    ensures a.pc != 0 && SeqD(p, a).op == HLT ==> SeqD(p, a).status == STOP && SeqD(p, a).format == FormatS
    ensures Illegal(p, a) ==> SeqD(p, a).status == INS && SeqD(p, a).format == FormatError
  {
    hide OpOf, AdrpValue;
  }

  /** Off the wrong path, fetch delivers the next instruction of the sequential run. */
  lemma FetchHolds(p: Program, a0: Arch, s: Cpu, k: nat)
    requires a0.regs.Valid() && DataBehaves(p, a0) && Inv(p, a0, s, k) && !WrongPathF(p, a0, s, k)
    ensures var a := At(p, a0, IndexF(s, k));
      && HoldsD(p, a, Fetched(p, s))
      && (if Halted(p, a) then StopStatus(p, a, Fetched(p, s).status) else Fetched(p, s).status == AOK)
      && (!Halted(p, a) ==> !FetchHalts(s) && SelectPC(s) == a.pc && FetchWord(p, s) == p.code(a.pc))
  {
    hide HoldsW, HoldsM, HoldsX, HoldsD, SeqX, SeqM, Behaves, FetchAt, SeqStep, DataAgrees, MemOk, MemShaped,
      Squashed, Fetched, FetchWord, Loaded, Quiet, Halted, IndexF;
    var a := At(p, a0, IndexF(s, k));
    assert Behaves(p, a);
    HaltedAtZero(p, a);
    if Redirected(s) {
      RedirectTarget(p, a0, s, k);
    } else {
      DecodeIsNotRet(p, a0, s, k);
    }
    if FetchHalts(s) { FetchedEnd(p, a, s); } else { FetchesThere(p, a, s); }
  }

  /** Fetch looks where the sequential machine is, and finds what it finds. */
  lemma FetchesThere(p: Program, a: Arch, s: Cpu)
    requires a.regs.Valid() && Behaves(p, a) && MemOk(p.cfg, s.mem) && Loaded(p, s.mem)
    requires !FetchHalts(s) && SelectPC(s) == a.pc
    ensures HoldsD(p, a, Fetched(p, s))
    ensures if Halted(p, a) then StopStatus(p, a, Fetched(p, s).status) else Fetched(p, s).status == AOK
    ensures !Halted(p, a) ==> FetchWord(p, s) == p.code(a.pc)
  {
    hide SeqX, SeqM, Behaves, OpOf, MemOk, Loaded, FetchWord, SelectPC, StickyStatus, AdrpValue;
    FetchesProgram(p, s);
    HaltedAtZero(p, a);
    if !Halted(p, a) { StatusOf(p, a); }
  }

  lemma FetchedEnd(p: Program, a: Arch, s: Cpu)
    requires Halted(p, a) && FetchHalts(s)
    ensures HoldsD(p, a, Fetched(p, s)) && StopStatus(p, a, Fetched(p, s).status)
  {
    hide SeqD, Halted, SelectPC, StickyStatus;
  }

  lemma DecodeIsNotRet(p: Program, a0: Arch, s: Cpu, k: nat)
    requires a0.regs.Valid() && Inv(p, a0, s, k) && !WrongPathF(p, a0, s, k)
    ensures s.dOut.op != RET
  {
    hide HoldsW, HoldsM, HoldsX, SeqM, SeqStep, DataAgrees, MemOk, Loaded;
    if s.dOut.op == RET {
      ValueOf(p, At(p, a0, IndexD(s, k)));
    }
  }

  /** The PC predicted after an instruction that does not divert is the right one. */
  lemma PredictionRight(p: Program, a0: Arch, i: nat)
    requires a0.regs.Valid() && !Diverts(p, At(p, a0, i)) && !Halted(p, At(p, a0, i))
    ensures At(p, a0, i + 1).pc == NextPC(p.cfg, p.code(At(p, a0, i).pc), At(p, a0, i).pc)
  {
    hide SeqX, SeqM, Halted, NextPC, SeqW, ExecuteFlags, MemAfter, OutputAfter;
    Unroll(p, a0, i);
  }

  // The common part of every cycle.

  lemma RetireW(p: Program, a: Arch, w: WReg)
    requires a.regs.Valid() && Behaves(p, a) && HoldsW(p, a, w)
    ensures WriteRegs(a.regs, w) == if w.status == BUB then a.regs else SeqStep(p, a).regs
  {
    hide SeqW, Halted, PCAfter, MemAfter, OutputAfter, ExecuteFlags, SeqX;
    if w.status != BUB && !Halted(p, a) { StatusOf(p, a); }
  }

  lemma RetireOne(p: Program, a0: Arch, s: Cpu, k: nat)
    requires a0.regs.Valid() && DataBehaves(p, a0) && Inv(p, a0, s, k)
    ensures WriteRegs(s.regs, s.wOut) == At(p, a0, IndexM(s, k)).regs
  {
    hide HoldsX, HoldsD, HoldsM, HoldsW, FetchReady, Squashed, Behaves, SeqStep, WriteRegs, Loaded;
    assert Behaves(p, At(p, a0, k));
    Unroll(p, a0, k);
    RetireW(p, At(p, a0, k), s.wOut);
  }

  /** What fetch leaves behind when its instruction has to be fetched again. */
  lemma FetchAgain(p: Program, a0: Arch, s: Cpu, s': Cpu, k: nat, k': nat)
    requires a0.regs.Valid() && DataBehaves(p, a0) && Inv(p, a0, s, k)
    requires IndexF(s, k) == IndexF(s', k') && !Redirected(s) && !WrongPathF(p, a0, s, k)
    requires s'.fIn.status == FetchStatusAfter(p, s) && s'.fOut.predPC == s.fOut.predPC
    ensures FetchReady(p, a0, s', k')
  {
    hide HoldsW, HoldsX, HoldsM, HoldsD, Halted, Fetched, IndexF, WrongPathD, OnPathD, DataAgrees, Squashed, Diverts,
      Loaded;
    FetchHolds(p, a0, s, k);
  }

  lemma BusyData(p: Program, a0: Arch, s: Cpu, k: nat)
    requires a0.regs.Valid() && DataBehaves(p, a0) && Inv(p, a0, s, k) && MemNext(p, s).busy
    ensures var s' := Cycle(p, s);
      && MemOk(p.cfg, s'.mem) && Loaded(p, s'.mem) && DataAgrees(p, a0, s', IndexM(s, k))
      && (s'.mOut.ms.read || s'.mOut.ms.write) && DataWord(p.cfg, s'.mOut.valEx)
  {
    hide HoldsX, HoldsM, HoldsD, HoldsW, Halted, Fetched, Execute, DataAccess, FetchReady, Squashed, FetchStatusAfter,
      Cycle, View, MemOk, At, MemoryOut, SeqW, MemAfter, OutputAfter, WriteRegs, Loaded;
    BusyCycle(p, s);
    RetireOne(p, a0, s, k);
    MemoryInCycle(p, a0, s, k);
  }

  /** A cycle with a data access in flight moves nothing but what was in writeback. */
  lemma BusyStep(p: Program, a0: Arch, s: Cpu, k: nat)
    requires a0.regs.Valid() && DataBehaves(p, a0) && Inv(p, a0, s, k) && MemNext(p, s).busy
    ensures Placed(p, a0, Cycle(p, s), IndexM(s, k))
    ensures var s' := Cycle(p, s);
      var k' := IndexM(s, k);
      && s'.wOut.status == BUB && s'.mOut == s.mOut && s'.xOut == s.xOut && s'.dOut == s.dOut
      && IndexF(s', k') == IndexF(s, k) && IndexX(s', k') == IndexX(s, k)
  {
    hide HoldsX, HoldsM, HoldsD, Halted, Fetched, Execute, MemNext, FetchReady, FetchStatusAfter, Cycle, View,
      DataAgrees, MemOk, At, MemShaped, WriteRegs, SeqW, MemoryOut, Mispredicted, DataBehaves, DataAccess, Loaded;
    BusyCycle(p, s);
    RetireOne(p, a0, s, k);
    BusyData(p, a0, s, k);
    BusyFront(p, a0, s, k);
  }

  /** Fetch is as ready, or as lost, as before. */
  lemma BusyFront(p: Program, a0: Arch, s: Cpu, k: nat)
    requires a0.regs.Valid() && DataBehaves(p, a0) && Inv(p, a0, s, k) && MemNext(p, s).busy
    ensures FetchReady(p, a0, Cycle(p, s), IndexM(s, k))
  {
    hide HoldsX, HoldsM, HoldsD, HoldsW, Halted, Fetched, Execute, MemNext, FetchReady, FetchStatusAfter, Cycle, View,
      DataAgrees, MemOk, At, MemShaped, Diverts, WrongPathF, Redirected, WriteRegs, Squashed, Loaded;
    BusyCycle(p, s);
    var s', k' := Cycle(p, s), IndexM(s, k);
    if !WrongPathF(p, a0, s, k) && !Redirected(s) {
      FetchAgain(p, a0, s, s', k, k');
    } else {
      BusyDiverts(p, a0, s, s', k, k');
    }
  }

  lemma BusyDiverts(p: Program, a0: Arch, s: Cpu, s': Cpu, k: nat, k': nat)
    requires a0.regs.Valid() && (WrongPathF(p, a0, s, k) || Redirected(s))
    requires s'.dOut == s.dOut && s'.xOut == s.xOut && s'.mOut == s.mOut && s'.nzcv == s.nzcv
    requires IndexD(s', k') == IndexD(s, k)
    ensures FetchReady(p, a0, s', k')
  {
    hide Halted, Diverts, Execute;
  }
}
