/** What a data access to a wrong address does, in any state: one instruction is reported,
    but not only those before it have had their effect. */
module DataFault {
  import opened Words
  import opened Isa
  import opened MemorySystem
  import opened Datapath
  import opened Sequential
  import opened Pipeline
  import opened Invariant
  import opened CycleFields
  import opened ReportedPC

  /** An access to none of the three special addresses and to no multiple of 8 in the data. */
  predicate WrongAddress(cfg: Config, m: MReg) {
    && (m.ms.read || m.ms.write)
    && m.valEx != 0 && m.valEx != TWO64 - 1 && m.valEx != TWO64 - 9
    && (m.valEx < cfg.dataStart || m.valEx >= cfg.kernelStart || m.valEx % 8 != 0)
  }

  lemma WrongIsFault(cfg: Config, ms: MemSys, m: MReg)
    requires MemShaped(cfg, ms)
    ensures WrongAddress(cfg, m) ==> DataAccess(cfg, ms, m) == (ms, 0)
    ensures forall v: Word :: MemoryOut(cfg, m, v).status == if WrongAddress(cfg, m) then ADR else m.status
  {}

  /** No register is told to be emptied and to wait at once, as in no state of a run. */
  predicate Consistent(p: Program, s: Cpu)
    requires s.Ok(p.cfg)
  {
    NoFault(s) && (LoadUseHazard(s) ==> !WrongPathD(s) && !(s.dOut.op == RET && DecodeOut(p, s).valA == 0))
  }

  lemma FaultCycle(p: Program, s: Cpu)
    requires s.Ok(p.cfg) && Consistent(p, s) && p.cfg.cache.NoCache? && !s.mem.busy && WrongAddress(p.cfg, s.mOut)
    ensures var s' := Cycle(p, s);
      && s'.wOut.status == ADR && s'.nzcv == s.nzcv && s'.pc == Wrap(s.mOut.value - 4)
      && s'.mOut == Execute(s.xOut, s.nzcv) && !s'.mem.busy
  {
    hide DataAccess, FetchMem, Execute, MemoryOut, Fetched, FetchHalts, SelectPC, WrongAddress, WriteRegs,
      LoadUseHazard, WrongPathD, NextPC, FetchWord, ExecuteFlags, DecodeOut;
    NoCacheFetch(p, s);
    WrongIsFault(p.cfg, s.mem, s.mOut);
    ReadyCycle(p, s);
    CyclePC(p, s);
  }

  lemma NoCacheFetch(p: Program, s: Cpu)
    requires s.Ok(p.cfg) && p.cfg.cache.NoCache?
    ensures FetchMem(p, s) == s.mem
  {
    hide SelectPC, FetchHalts;
  }

  lemma StopCycle(p: Program, s: Cpu)
    requires s.Ok(p.cfg) && Consistent(p, s) && p.cfg.cache.NoCache? && !s.mem.busy && s.wOut.status == ADR
    ensures var s' := Cycle(p, s);
      s'.status == ADR && s'.regs == s.regs && s'.mem == DataAccess(p.cfg, s.mem, s.mOut).0
  {
    hide DataAccess, FetchMem, Execute, MemoryOut, Fetched, FetchHalts, SelectPC, LoadUseHazard, WrongPathD, NextPC,
      FetchWord, ExecuteFlags, DecodeOut;
    NoCacheFetch(p, s);
    StaysReady(p.cfg, s.mem, s.mOut);
    ReadyCycle(p, s);
  }

  /** Without a cache, an access to a wrong address stops the processor two cycles on, with the
      status for that. The flags of the instruction right behind it are not set, the PC is set
      back to the access, and no register is written for it; but the instruction right behind
      makes its own access. */
  lemma FaultIsReported(p: Program, s: Cpu)
    requires s.Ok(p.cfg) && Consistent(p, s) && Consistent(p, Cycle(p, s)) && p.cfg.cache.NoCache? && !s.mem.busy
    requires WrongAddress(p.cfg, s.mOut)
    ensures var s1 := Cycle(p, s);
      var s2 := Cycle(p, s1);
      && s1.nzcv == s.nzcv && s1.pc == Wrap(s.mOut.value - 4)
      && s2.status == ADR && s2.regs == s1.regs
      && s2.mem == DataAccess(p.cfg, s1.mem, Execute(s.xOut, s.nzcv)).0
  {
    hide Cycle, DataAccess, Execute, Consistent, WrongAddress;
    FaultCycle(p, s);
    StopCycle(p, Cycle(p, s));
  }

  lemma StaysReady(cfg: Config, ms: MemSys, m: MReg)
    requires MemShaped(cfg, ms) && cfg.cache.NoCache? && !ms.busy
    ensures !DataAccess(cfg, ms, m).0.busy
  {}
}
