/** What one cycle leaves in the clocked state, case by case. */
module CycleFields {
  import opened Alu
  import opened Isa
  import opened MemorySystem
  import opened Datapath
  import opened Sequential
  import opened Pipeline
  import opened Invariant

  /** What decode offers execute, after forwarding. */
  function DecodeOut(p: Program, s: Cpu): XReg
    requires s.Ok(p.cfg)
  {
    Forward(RunStages(p, s)).xIn
  }

  function MemNext(p: Program, s: Cpu): MemSys
    requires s.Ok(p.cfg)
  {
    DataAccess(p.cfg, FetchMem(p, s), s.mOut).0
  }

  function MemoryResult(p: Program, s: Cpu): WReg
    requires s.Ok(p.cfg)
  {
    MemoryOut(p.cfg, s.mOut, DataAccess(p.cfg, FetchMem(p, s), s.mOut).1)
  }

  /** The instruction in memory has a fault. */
  predicate Faults(p: Program, s: Cpu)
    requires s.Ok(p.cfg)
  {
    IsFault(MemoryResult(p, s).status) || IsFault(s.mOut.status)
  }

  predicate LoadUseHazard(s: Cpu) {
    LoadUse(s.xOut, Sources(s.dOut).src1, Sources(s.dOut).src2)
  }

  predicate FetchStops(p: Program, s: Cpu) {
    Fetched(p, s).status == STOP || Fetched(p, s).status == INS
  }

  function FetchStatusAfter(p: Program, s: Cpu): Status {
    if Fetched(p, s).status == AOK then StickyStatus(s) else Fetched(p, s).status
  }

  /** The parts every cycle has in common. */
  predicate Common(p: Program, s: Cpu, s': Cpu)
    requires s.Ok(p.cfg)
  {
    && s'.Ok(p.cfg) && NoFault(s')
    && s'.mem == MemNext(p, s)
    && s'.regs == WriteRegs(s.regs, s.wOut)
    && s'.fIn.status == FetchStatusAfter(p, s)
    && s'.status == s.wOut.status
  }

  /** A cycle in which a data access stays in flight. */
  lemma BusyCycle(p: Program, s: Cpu)
    requires s.Ok(p.cfg) && NoFault(s) && MemNext(p, s).busy
    ensures var s' := Cycle(p, s);
      && Common(p, s, s')
      && s'.nzcv == s.nzcv
      && s'.dOut == s.dOut && s'.xOut == s.xOut && s'.mOut == s.mOut && s'.wOut == W_BUBBLE
      && s'.fOut == FReg(s.fOut.predPC, Fetched(p, s).status)
  {
    hide DataAccess, FetchMem, Execute, ExecuteFlags, Decode, Sources, Fetched, FetchHalts, SelectPC, StickyStatus,
      NextPC, MemoryOut, ForwardOne, WriteValue;
  }

  /** Every other cycle; no stage is told to bubble and stall at once. */
  lemma ReadyCycle(p: Program, s: Cpu)
    requires s.Ok(p.cfg) && NoFault(s) && !MemNext(p, s).busy
    requires LoadUseHazard(s) ==> !WrongPathD(s) && !(s.dOut.op == RET && DecodeOut(p, s).valA == 0)
    ensures Common(p, s, Cycle(p, s))
    ensures Cycle(p, s).nzcv == (if s.xOut.xs.setFlags && !Faults(p, s) then ExecuteFlags(s.xOut, s.nzcv) else s.nzcv)
    ensures Cycle(p, s).wOut == MemoryResult(p, s)
    ensures Cycle(p, s).mOut == Execute(s.xOut, s.nzcv)
    ensures Cycle(p, s).xOut == (if LoadUseHazard(s) || WrongPathD(s) then X_BUBBLE else DecodeOut(p, s))
    ensures Cycle(p, s).dOut == (if LoadUseHazard(s) then s.dOut
                                 else if WrongPathD(s) || s.dOut.op == RET then D_BUBBLE
                                 else Fetched(p, s))
    ensures LoadUseHazard(s) ==> Cycle(p, s).fOut.predPC == s.fOut.predPC
    ensures !LoadUseHazard(s) && s.dOut.op != RET && !FetchStops(p, s) && !FetchHalts(s) && !Faults(p, s) ==>
              Cycle(p, s).fOut.predPC == NextPC(p.cfg, FetchWord(p, s), SelectPC(s))
  {
    hide DataAccess, FetchMem, AluResult, CondHolds, ExecuteFlags, Decode, Sources, Fetched, FetchHalts, SelectPC,
      StickyStatus, NextPC, MemoryOut, ForwardOne, WriteValue;
  }
}
