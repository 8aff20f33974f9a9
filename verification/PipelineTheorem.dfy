/** The pipeline refines the sequential machine, for every program and every number of
    cycles, with or without a cache. */
module PipelineTheorem {
  import opened Alu
  import opened Isa
  import opened FlatMemory
  import opened MemorySystem
  import opened Datapath
  import opened Sequential
  import opened Pipeline
  import opened Invariant
  import opened Stages
  import opened CycleFields
  import opened Refinement
  import opened ReadyStep
  import opened FrontEnd
  import opened FetchPath

  lemma FrontAfter(p: Program, a0: Arch, s: Cpu, k: nat)
    requires a0.regs.Valid() && DataBehaves(p, a0) && Inv(p, a0, s, k) && !MemNext(p, s).busy
    requires ReadyFields(p, s, Cycle(p, s))
    ensures FrontOk(p, a0, Cycle(p, s), IndexM(s, k))
  {
    hide Inv, ReadyFields, Cycle, FrontOk, LoadUseHazard, WrongPathD, DataBehaves, MemNext, IndexM, Behaves;
    if WrongPathD(s) {
      AfterMisprediction(p, a0, s, k);
    } else if LoadUseHazard(s) {
      AfterLoadUse(p, a0, s, k);
    } else if s.dOut.op == RET {
      AfterRet(p, a0, s, k);
    } else {
      AfterAdvance(p, a0, s, k);
    }
  }

  lemma ReadyStepKeepsInv(p: Program, a0: Arch, s: Cpu, k: nat)
    requires a0.regs.Valid() && DataBehaves(p, a0) && Inv(p, a0, s, k) && !MemNext(p, s).busy
    ensures Placed(p, a0, Cycle(p, s), IndexM(s, k))
  {
    hide Cycle, HoldsX, HoldsM, HoldsW, HoldsD, FetchReady, Squashed, DataAgrees, MemOk, DataBehaves, LoadUseHazard,
      WrongPathD, OnPathD, MemoryResult, DecodeOut, Execute, ExecuteFlags, Fetched, WriteRegs, FetchStops, FetchHalts,
      FetchStatusAfter, DataAccess, NextPC, SelectPC, At, Loaded, Quiet;
    ReadyCycleFields(p, a0, s, k);
    ReadyData(p, a0, s, k);
    ReadyRegisters(p, a0, s, k);
    FrontAfter(p, a0, s, k);
    Indices(p, a0, s, Cycle(p, s), k);
  }

  lemma CycleKeepsInv(p: Program, a0: Arch, s: Cpu, k: nat)
    requires a0.regs.Valid() && DataBehaves(p, a0) && Inv(p, a0, s, k)
    ensures Placed(p, a0, Cycle(p, s), IndexM(s, k))
  {
    hide Cycle, HoldsX, HoldsM, HoldsW, HoldsD, FetchReady, Squashed, DataAgrees, MemOk, DataBehaves, DataAccess,
      Loaded, Quiet;
    if MemNext(p, s).busy {
      BusyStep(p, a0, s, k);
    } else {
      ReadyStepKeepsInv(p, a0, s, k);
    }
  }

  /** The memory system starts out idle and showing the initial memory. */
  ghost predicate Starts(p: Program, a0: Arch, ms: MemSys) {
    && MemShaped(p.cfg, ms) && MemOk(p.cfg, ms) && !ms.busy && Loaded(p, ms)
    && View(p.cfg, ms) == a0.mem && ms.output == a0.output
  }

  function BootOf(a0: Arch, ms: MemSys): Cpu {
    Boot(a0.regs, a0.nzcv, a0.pc, ms)
  }

  lemma BootPlaced(p: Program, a0: Arch, ms: MemSys)
    requires a0.regs.Valid() && Starts(p, a0, ms)
    ensures Placed(p, a0, BootOf(a0, ms), 0) && OnTrack(p, a0, BootOf(a0, ms), 0)
  {
    hide View, MemOk, MemShaped, Loaded;
    BubbleIsQuiet(a0.nzcv);
  }

  /** The instructions that have left writeback in the first `n` cycles, oldest first. */
  function Retired(p: Program, s: Cpu, n: nat): seq<WReg>
    requires s.Ok(p.cfg)
  {
    if n == 0 then [] else
    var w := Run(p, s, n - 1).wOut;
    Retired(p, s, n - 1) + (if w.status != BUB then [w] else [])
  }

  ghost predicate RetiredInOrder(p: Program, a0: Arch, log: seq<WReg>)
    requires a0.regs.Valid()
  {
    forall i | 0 <= i < |log| :: log[i].status != BUB && HoldsW(p, At(p, a0, i), log[i])
  }

  /** Fetch leaves the data cache alone in the first `n` cycles. */
  ghost predicate QuietUntil(p: Program, s0: Cpu, n: nat)
    requires s0.Ok(p.cfg)
  {
    forall j: nat | j < n :: Quiet(p, Run(p, s0, j))
  }

  lemma {:induction false} RunPlaced(p: Program, a0: Arch, ms: MemSys, n: nat)
    requires a0.regs.Valid() && DataBehaves(p, a0) && Starts(p, a0, ms) && QuietUntil(p, BootOf(a0, ms), n)
    ensures var s, log := Run(p, BootOf(a0, ms), n), Retired(p, BootOf(a0, ms), n);
      Placed(p, a0, s, |log|) && OnTrack(p, a0, s, |log|) && RetiredInOrder(p, a0, log)
  {
    hide HoldsX, HoldsM, HoldsW, HoldsD, FetchReady, Squashed, DataAgrees, MemOk, DataBehaves, Cycle, At, Starts,
      Quiet, OnTrack, Loaded;
    BootPlaced(p, a0, ms);
    if n > 0 {
      RunPlaced(p, a0, ms, n - 1);
      var s, k := Run(p, BootOf(a0, ms), n - 1), |Retired(p, BootOf(a0, ms), n - 1)|;
      CycleKeepsInv(p, a0, s, k);
      TrackStays(p, a0, s, k);
    }
  }

  lemma {:induction false} AllQuiet(p: Program, a0: Arch, ms: MemSys, n: nat)
    requires a0.regs.Valid() && WellBehaved(p, a0) && Starts(p, a0, ms)
    ensures QuietUntil(p, BootOf(a0, ms), n)
  {
    hide Placed, DataBehaves, FetchesText, Cycle, View, MemOk, MemShaped, Loaded, Quiet, OnTrack, Run, Retired;
    if n > 0 {
      AllQuiet(p, a0, ms, n - 1);
      RunPlaced(p, a0, ms, n - 1);
      StaysQuiet(p, a0, Run(p, BootOf(a0, ms), n - 1), |Retired(p, BootOf(a0, ms), n - 1)|);
    }
  }

  lemma RunInv(p: Program, a0: Arch, ms: MemSys, n: nat)
    requires a0.regs.Valid() && WellBehaved(p, a0) && Starts(p, a0, ms)
    ensures var log := Retired(p, BootOf(a0, ms), n);
      && Inv(p, a0, Run(p, BootOf(a0, ms), n), |log|)
      && RetiredInOrder(p, a0, log)
  {
    hide Placed, DataBehaves, FetchesText, Cycle, View, MemOk, MemShaped, Loaded, Quiet, OnTrack, Run, Retired;
    AllQuiet(p, a0, ms, n + 1);
    QuietInv(p, a0, ms, n);
  }

  /** The invariant of a run needs no more of the program than that fetch leaves the data
      cache alone. */
  lemma QuietInv(p: Program, a0: Arch, ms: MemSys, n: nat)
    requires a0.regs.Valid() && DataBehaves(p, a0) && Starts(p, a0, ms) && QuietUntil(p, BootOf(a0, ms), n + 1)
    ensures var s, log := Run(p, BootOf(a0, ms), n), Retired(p, BootOf(a0, ms), n);
      Inv(p, a0, s, |log|) && OnTrack(p, a0, s, |log|) && RetiredInOrder(p, a0, log)
  {
    hide Placed, DataBehaves, Cycle, View, MemOk, MemShaped, Loaded, Quiet, OnTrack, Run, Retired;
    RunPlaced(p, a0, ms, n);
    assert Quiet(p, Run(p, BootOf(a0, ms), n));
  }

  /** The record that retired for the instruction starting from `a`: all the values the
      sequential machine computes for it, or the end of the run, which writes nothing. */
  predicate RetiredAs(p: Program, a: Arch, w: WReg)
    requires a.regs.Valid()
  {
    if Halted(p, a) then StopStatus(p, a, w.status) && !w.ws.wEnable
    else w == SeqW(p, a) && w.status == AOK
  }

  lemma RetiredRight(p: Program, a: Arch, w: WReg)
    requires a.regs.Valid() && Behaves(p, a) && HoldsW(p, a, w) && w.status != BUB
    ensures RetiredAs(p, a, w)
  {
    hide Behaves, SeqW, Halted;
    if !Halted(p, a) { StatusOf(p, a); }
  }

  /** The theorem. After any number of cycles the instructions that have retired are, in
      order and with the values they wrote, a prefix of the sequential run; the register
      file is the sequential one after that prefix; and memory and the flags are the
      sequential ones at most one and two instructions further on. */
  lemma PipelineRefines(p: Program, a0: Arch, ms: MemSys, n: nat)
    requires a0.regs.Valid() && WellBehaved(p, a0) && Starts(p, a0, ms)
    ensures var s := Run(p, BootOf(a0, ms), n);
      var log := Retired(p, BootOf(a0, ms), n);
      var k := |log|;
      && k <= n
      && (forall i | 0 <= i < k :: RetiredAs(p, At(p, a0, i), log[i]))
      && s.regs == At(p, a0, k).regs
      && k <= IndexM(s, k) <= k + 1
      && MemOk(p.cfg, s.mem)
      && View(p.cfg, s.mem) == At(p, a0, IndexM(s, k)).mem
      && s.mem.output == At(p, a0, IndexM(s, k)).output
      && IndexM(s, k) <= IndexX(s, k) <= IndexM(s, k) + 1
      && s.nzcv == At(p, a0, IndexX(s, k)).nzcv
  {
    hide HoldsX, HoldsM, HoldsW, HoldsD, FetchReady, Squashed, MemOk, Behaves, Cycle, At, View, DataBehaves,
      FetchesText, Retired, RetiredAs, Loaded, Quiet;
    RunInv(p, a0, ms, n);
    LogLength(p, BootOf(a0, ms), n);
    var log := Retired(p, BootOf(a0, ms), n);
    forall i | 0 <= i < |log|
      ensures RetiredAs(p, At(p, a0, i), log[i])
    {
      AllBehave(p, a0, i);
      RetiredRight(p, At(p, a0, i), log[i]);
    }
  }

  lemma AllBehave(p: Program, a0: Arch, i: nat)
    requires a0.regs.Valid() && DataBehaves(p, a0)
    ensures Behaves(p, At(p, a0, i))
  {
    hide Behaves, SeqRun;
  }

  lemma {:induction false} LogLength(p: Program, s: Cpu, n: nat)
    requires s.Ok(p.cfg)
    ensures |Retired(p, s, n)| <= n
  {
    hide Cycle;
    if n > 0 { LogLength(p, s, n - 1); }
  }

  lemma NextLength(p: Program, s0: Cpu, n: nat)
    requires s0.Ok(p.cfg) && n > 0
    ensures var s, log := Run(p, s0, n - 1), Retired(p, s0, n - 1);
      && |Retired(p, s0, n)| == IndexM(s, |log|)
      && Run(p, s0, n) == Cycle(p, s)
      && Retired(p, s0, n) == log + (if s.wOut.status != BUB then [s.wOut] else [])
  {
    hide Cycle;
  }

  /** The processor stops exactly in a cycle that retires a HLT or an illegal instruction,
      and then its whole architectural state is the sequential machine's final state. */
  lemma StopIsFinal(p: Program, a0: Arch, ms: MemSys, n: nat)
    requires a0.regs.Valid() && WellBehaved(p, a0) && Starts(p, a0, ms) && n > 0
    ensures var s := Run(p, BootOf(a0, ms), n);
      var k, before := |Retired(p, BootOf(a0, ms), n)|, |Retired(p, BootOf(a0, ms), n - 1)|;
      && (s.status == AOK || s.status == BUB || Ends(s.status))
      && (Ends(s.status) <==> k > before && Halted(p, At(p, a0, before)))
      && (s.status == INS ==> Illegal(p, At(p, a0, before)))
      && (Ends(s.status) ==>
            k > 0 && Halted(p, At(p, a0, k - 1))
            && var final := At(p, a0, k - 1);
            s.regs == final.regs && s.nzcv == final.nzcv
            && MemOk(p.cfg, s.mem) && View(p.cfg, s.mem) == final.mem && s.mem.output == final.output)
  {
    hide Placed, Cycle, At, View, MemOk, MemShaped, Halted, Illegal, DataBehaves, FetchesText, Loaded, Quiet, Run,
      Retired, RetiredInOrder;
    NextLength(p, BootOf(a0, ms), n);
    RunInv(p, a0, ms, n);
    RunInv(p, a0, ms, n - 1);
    var s, t := Run(p, BootOf(a0, ms), n), Run(p, BootOf(a0, ms), n - 1);
    var k, j := |Retired(p, BootOf(a0, ms), n)|, |Retired(p, BootOf(a0, ms), n - 1)|;
    StatusReported(p, a0, t, j);
    StatusOfW(p, a0, t, j);
    if Ends(s.status) { FinalState(p, a0, s, j, k); }
  }

  /** A state behind the end of the program. */
  lemma FinalState(p: Program, a0: Arch, s: Cpu, j: nat, k: nat)
    requires a0.regs.Valid() && Inv(p, a0, s, k) && Halted(p, At(p, a0, j)) && j < k
    ensures var final := At(p, a0, k - 1);
      && Halted(p, final) && s.regs == final.regs && s.nzcv == final.nzcv
      && MemOk(p.cfg, s.mem) && View(p.cfg, s.mem) == final.mem && s.mem.output == final.output
  {
    hide HoldsX, HoldsM, HoldsW, HoldsD, FetchReady, Squashed, MemOk, At, View, Halted, Loaded, Quiet;
    HaltedForever(p, a0, j, k - 1);
    HaltedForever(p, a0, j, k);
    HaltedForever(p, a0, j, IndexM(s, k));
    HaltedForever(p, a0, j, IndexX(s, k));
  }

  lemma StatusOfW(p: Program, a0: Arch, s: Cpu, k: nat)
    requires a0.regs.Valid() && DataBehaves(p, a0) && Inv(p, a0, s, k)
    ensures var st, a := s.wOut.status, At(p, a0, k);
      && (st == AOK || st == BUB || Ends(st)) && (Ends(st) <==> st != BUB && Halted(p, a))
      && (st == INS ==> Illegal(p, a))
  {
    hide HoldsX, HoldsM, HoldsW, HoldsD, FetchReady, Squashed, DataAgrees, MemOk, At, View, Halted, Illegal, Loaded,
      Quiet, DataBehaves;
    AllBehave(p, a0, k);
    StatusInW(p, At(p, a0, k), s.wOut);
  }

  lemma StatusInW(p: Program, a: Arch, w: WReg)
    requires a.regs.Valid() && Behaves(p, a) && HoldsW(p, a, w)
    ensures w.status == AOK || w.status == BUB || Ends(w.status)
    ensures Ends(w.status) <==> w.status != BUB && Halted(p, a)
    ensures w.status == INS ==> Illegal(p, a)
  {
    hide Behaves, SeqW, Halted;
    if w.status != BUB && !Halted(p, a) { StatusOf(p, a); }
  }

  lemma StatusReported(p: Program, a0: Arch, s: Cpu, k: nat)
    requires a0.regs.Valid() && DataBehaves(p, a0) && Inv(p, a0, s, k)
    ensures Cycle(p, s).status == s.wOut.status
  {
    hide HoldsX, HoldsM, HoldsW, HoldsD, FetchReady, Squashed, DataAgrees, MemOk, DataBehaves, DataAccess, Cycle,
      Loaded, Quiet;
    if MemNext(p, s).busy {
      BusyCycle(p, s);
    } else {
      ReadyCycleFields(p, a0, s, k);
    }
  }

  // Stall transparency.

  /** The same program in the same layout, with another cache or none. */
  ghost predicate SameProgram(p: Program, q: Program) {
    p.code == q.code && p.cfg.(cache := NoCache) == q.cfg.(cache := NoCache)
  }

  lemma SameStep(p: Program, q: Program, a: Arch)
    requires SameProgram(p, q) && a.regs.Valid()
    ensures SeqStep(p, a) == SeqStep(q, a) && Behaves(p, a) == Behaves(q, a)
    ensures Halted(p, a) == Halted(q, a) && Illegal(p, a) == Illegal(q, a) && SeqW(p, a) == SeqW(q, a)
  {
    hide AluResult, AluFlags, ControlOf, AluOpOf, ImmediateOf, OperandsOf, PredictPC, OpOf, AdrpValue, Load64,
      Store64;
    assert SeqD(p, a) == SeqD(q, a);
  }

  lemma {:induction false} SameRun(p: Program, q: Program, a0: Arch, n: nat)
    requires SameProgram(p, q) && a0.regs.Valid()
    ensures At(p, a0, n) == At(q, a0, n)
  {
    hide SeqStep, Behaves, Halted, Illegal, SeqW, SameProgram;
    if n > 0 {
      SameRun(p, q, a0, n - 1);
      SameStep(p, q, At(p, a0, n - 1));
    }
  }

  /** Whatever caches two pipelines have and however long their misses take, they retire
      the same instructions with the same values: one log is a prefix of the other. Only
      the status an illegal instruction ends the run with can differ. */
  lemma StallsAreTransparent(p: Program, q: Program, a0: Arch, ms: MemSys, mt: MemSys, m: nat, n: nat)
    requires SameProgram(p, q) && a0.regs.Valid() && WellBehaved(p, a0) && WellBehaved(q, a0)
    requires Starts(p, a0, ms) && Starts(q, a0, mt)
    ensures var x := Retired(p, BootOf(a0, ms), m);
      var y := Retired(q, BootOf(a0, mt), n);
      && (forall i | 0 <= i < |x| && i < |y| ::
            SameEffect(x[i], y[i]) && (Illegal(p, At(p, a0, i)) || x[i].status == y[i].status))
      && (|x| == |y| ==> Run(p, BootOf(a0, ms), m).regs == Run(q, BootOf(a0, mt), n).regs)
  {
    hide Halted, SeqW, At, Behaves, View, MemOk, IndexM, IndexX, Cycle, Retired, RetiredAs, SameEffect, DataBehaves,
      FetchesText, SameProgram, Run, Loaded;
    PipelineRefines(p, a0, ms, m);
    PipelineRefines(q, a0, mt, n);
    var x, y := Retired(p, BootOf(a0, ms), m), Retired(q, BootOf(a0, mt), n);
    SameRun(p, q, a0, |x|);
    forall i | 0 <= i < |x| && i < |y|
      ensures SameEffect(x[i], y[i]) && (Illegal(p, At(p, a0, i)) || x[i].status == y[i].status)
    {
      SameRun(p, q, a0, i);
      RetiredAlike(p, q, At(p, a0, i), x[i], y[i]);
    }
  }

  /** Two retired instructions with the same effect: equal, unless both end the run. */
  predicate SameEffect(w: WReg, v: WReg) {
    if Ends(w.status) then Ends(v.status) && !w.ws.wEnable && !v.ws.wEnable else w == v
  }

  lemma RetiredAlike(p: Program, q: Program, a: Arch, w: WReg, v: WReg)
    requires SameProgram(p, q) && a.regs.Valid() && RetiredAs(p, a, w) && RetiredAs(q, a, v)
    ensures SameEffect(w, v) && (Illegal(p, a) || w.status == v.status)
  {
    hide SeqW, Halted, Illegal, SameProgram, SeqStep, Behaves;
    SameStep(p, q, a);
  }
}
