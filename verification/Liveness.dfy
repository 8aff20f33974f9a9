/** No program gets stuck: a wait for the cache is bounded, and so is the number of
    cycles in which any given instruction has not retired. */
module Liveness {
  import opened Words
  import opened Isa
  import opened CacheModel
  import opened CacheCoherence
  import opened MemorySystem
  import opened MissTiming
  import opened Datapath
  import opened Sequential
  import opened Pipeline
  import opened Invariant
  import opened OperandValues
  import opened CycleFields
  import opened ReadyStep
  import opened PipelineTheorem
  import opened Timing

  /** The miss delay; one when there is no cache. */
  function Delay(cfg: Config): nat {
    if cfg.cache.WithCache? then cfg.cache.g.d else 1
  }

  /** A countdown is running exactly while an access is in flight, and it is that of the
      instruction in memory. */
  ghost predicate WaitOk(cfg: Config, ms: MemSys, m: MReg)
    requires MemOk(cfg, ms)
  {
    match cfg.cache
    case NoCache => !ms.busy
    case WithCache(g) =>
      && ms.busy == ms.inflight
      && (ms.busy ==> ms.inflightAddr == g.BlockBase(m.valEx) && !Cached(g, ms.cache, m.valEx)
                      && 1 <= ms.inflightCycles < g.d)
  }

  /** The cycles the instruction in memory has waited so far. */
  function Elapsed(cfg: Config, ms: MemSys): nat {
    if ms.busy && ms.inflightCycles <= Delay(cfg) then Delay(cfg) - ms.inflightCycles else 0
  }

  /** The longest `i` instructions can have waited, with what the current one has waited. */
  function WaitBudget(cfg: Config, i: nat, ms: MemSys): int {
    (Delay(cfg) - 1) * i + Elapsed(cfg, ms)
  }

  lemma AccessWaits(g: Geometry, ms: MemSys, a: Word, write: bool)
    requires CacheOk(g, ms) && a % 8 == 0 && ms.busy == ms.inflight
    requires ms.busy ==> ms.inflightAddr == g.BlockBase(a) && !Cached(g, ms.cache, a) && 1 <= ms.inflightCycles < g.d
    ensures var (m, ok) := Access(g, ms, a, write, 0);
      && CacheOk(g, m) && (ok ==> !m.inflight && WordCached(g, m.cache, a))
      && (!ok ==> m.busy && m.inflight && m.inflightAddr == g.BlockBase(a) && !Cached(g, m.cache, a)
                  && m.inflightCycles == (if ms.busy then ms.inflightCycles else g.d) - 1
                  && 1 <= m.inflightCycles < g.d)
  {
    hide IsPow2, Coherent, Cached, Access, Geometry.BlockBase, WordCached;
    var (m, ok) := Access(g, ms, a, write, 0);
    if Cached(g, ms.cache, a) {
      HitAccess(g, ms, a, write);
    } else {
      MissAccess(g, ms, a, write);
    }
    if ok { WordIsCached(g, m, a); }
  }

  lemma DataWaits(cfg: Config, ms: MemSys, m: MReg)
    requires MemOk(cfg, ms) && MemShaped(cfg, ms) && WaitOk(cfg, ms, m) && MemOk(cfg, DataAccess(cfg, ms, m).0)
    requires !(m.ms.read && m.ms.write) && (ms.busy ==> (m.ms.read || m.ms.write) && DataWord(cfg, m.valEx))
    ensures var ms' := DataAccess(cfg, ms, m).0;
      && WaitOk(cfg, ms', m)
      && (ms'.busy ==> Elapsed(cfg, ms') == Elapsed(cfg, ms) + 1 && Elapsed(cfg, ms') < Delay(cfg))
  {
    hide IsPow2, Coherent, Cached, Access, Geometry.BlockBase, WordCached, SetWord, GetWord;
    if cfg.cache.WithCache? && (m.ms.read || m.ms.write) && DataWord(cfg, m.valEx) {
      AccessWaits(cfg.cache.g, ms, m.valEx, m.ms.write);
    }
  }

  lemma IdleWaits(cfg: Config, ms: MemSys, m: MReg, m': MReg)
    requires MemOk(cfg, ms) && WaitOk(cfg, ms, m) && !ms.busy
    ensures WaitOk(cfg, ms, m') && Elapsed(cfg, ms) == 0
  {}

  lemma {:induction false} RunWaits(p: Program, a0: Arch, ms: MemSys, n: nat)
    requires a0.regs.Valid() && DataBehaves(p, a0) && Starts(p, a0, ms) && !ms.inflight
    requires QuietUntil(p, BootOf(a0, ms), n + 1)
    ensures var s := Run(p, BootOf(a0, ms), n);
      var k := |Retired(p, BootOf(a0, ms), n)|;
      && MemOk(p.cfg, s.mem) && WaitOk(p.cfg, s.mem, s.mOut)
      && Waits(p, BootOf(a0, ms), n) <= WaitBudget(p.cfg, IndexM(s, k), s.mem)
  {
    hide Cycle, Inv, WaitOk, MemOk, DataBehaves, FetchesText, View, IndexM, Elapsed, Loaded;
    QuietInv(p, a0, ms, n);
    var s0 := BootOf(a0, ms);
    if n == 0 {
      StartWaits(p, a0, ms);
    } else {
      RunWaits(p, a0, ms, n - 1);
      QuietInv(p, a0, ms, n - 1);
      OneMore(p, s0, n);
      WaitCycle(p, a0, Run(p, s0, n - 1), |Retired(p, s0, n - 1)|, Waits(p, s0, n - 1));
    }
  }

  lemma StartWaits(p: Program, a0: Arch, ms: MemSys)
    requires a0.regs.Valid() && Starts(p, a0, ms) && !ms.inflight
    ensures WaitOk(p.cfg, ms, M_BUBBLE) && IndexM(BootOf(a0, ms), 0) == 0
  {}

  lemma WaitCycle(p: Program, a0: Arch, s: Cpu, k: nat, waits: nat)
    requires a0.regs.Valid() && DataBehaves(p, a0) && Inv(p, a0, s, k) && WaitOk(p.cfg, s.mem, s.mOut)
    requires waits <= WaitBudget(p.cfg, IndexM(s, k), s.mem)
    ensures var s' := Cycle(p, s);
      && MemOk(p.cfg, s'.mem) && WaitOk(p.cfg, s'.mem, s'.mOut)
      && waits + One(MemNext(p, s).busy) <= WaitBudget(p.cfg, IndexM(s', IndexM(s, k)), s'.mem)
  {
    hide Cycle, HoldsX, HoldsM, HoldsW, HoldsD, FetchReady, Squashed, DataAgrees, MemOk, DataBehaves, DataAccess,
      WaitOk, MemShaped, Fetched, FetchStatusAfter, WriteRegs, Execute, ExecuteFlags, MemoryResult, DecodeOut,
      LoadUse, Sources, NextPC, SelectPC, FetchHalts, FetchStops, DataWord, IndexM, IndexX, Elapsed, Delay,
      WaitBudget, Loaded;
    MemoryInCycle(p, a0, s, k);
    OneAccess(p, At(p, a0, IndexM(s, k)), s.mOut);
    DataWaits(p.cfg, s.mem, s.mOut);
    var s' := Cycle(p, s);
    IndexSteps(s, s', k);
    if MemNext(p, s).busy {
      BusyCycle(p, s);
      OneMoreWait(p.cfg, IndexM(s, k), s.mem, s'.mem);
    } else {
      ReadyCycleFields(p, a0, s, k);
      IdleWaits(p.cfg, s'.mem, s.mOut, s'.mOut);
      Indices(p, a0, s, s', k);
      ElapsedBound(p.cfg, s.mem, s.mOut);
      WaitOver(p.cfg, IndexM(s, k), IndexX(s, k), s.mem, s'.mem);
    }
  }

  lemma IndexSteps(s: Cpu, s': Cpu, k: nat)
    ensures IndexM(s, k) <= IndexX(s, k) <= IndexM(s, k) + 1
    ensures IndexX(s, k) == IndexM(s, k) <==> s.mOut.status == BUB
    ensures s'.wOut == W_BUBBLE ==> IndexM(s', IndexM(s, k)) == IndexM(s, k)
  {}

  lemma ElapsedBound(cfg: Config, ms: MemSys, m: MReg)
    requires MemOk(cfg, ms) && WaitOk(cfg, ms, m)
    ensures Delay(cfg) >= 1 && Elapsed(cfg, ms) <= Delay(cfg) - 1
    ensures !ms.busy ==> Elapsed(cfg, ms) == 0
  {}

  lemma OneMoreWait(cfg: Config, i: nat, ms: MemSys, ms': MemSys)
    requires Elapsed(cfg, ms') == Elapsed(cfg, ms) + 1
    ensures WaitBudget(cfg, i, ms') == WaitBudget(cfg, i, ms) + 1
  {}

  lemma WaitOver(cfg: Config, i: nat, j: nat, ms: MemSys, ms': MemSys)
    requires i <= j <= i + 1 && Elapsed(cfg, ms) <= Delay(cfg) - 1 && (i == j ==> Elapsed(cfg, ms) == 0)
    ensures WaitBudget(cfg, i, ms) <= WaitBudget(cfg, j, ms')
  {
    hide Elapsed;
    var d := Delay(cfg) - 1;
    if j == i + 1 { assert d * j == d * i + d; }
  }

  lemma {:induction false} PenaltyBound(p: Program, a0: Arch, n: nat)
    requires a0.regs.Valid()
    ensures PenaltySum(p, a0, n) <= 2 * n
  {
    hide At, Penalty;
    if n > 0 {
      PenaltyBound(p, a0, n - 1);
      PenaltyAtMostTwo(p, At(p, a0, n - 1), At(p, a0, n));
    }
  }

  /** By cycle `n`, all but a bounded number of instructions per cycle have retired. */
  lemma RetiresSteadily(p: Program, a0: Arch, ms: MemSys, n: nat)
    requires a0.regs.Valid() && DataBehaves(p, a0) && Starts(p, a0, ms) && !ms.inflight
    requires QuietUntil(p, BootOf(a0, ms), n + 1)
    ensures var k := |Retired(p, BootOf(a0, ms), n)|;
      n <= (Delay(p.cfg) - 1) * (k + 2) + 3 * k + 9
  {
    hide Cycle, Inv, WaitOk, MemOk, DataBehaves, FetchesText, View, PenaltySum, Waits, Elapsed, Loaded;
    QuietInv(p, a0, ms, n);
    RunWaits(p, a0, ms, n);
    CyclesSpent(p, a0, ms, n);
    var s := Run(p, BootOf(a0, ms), n);
    var k := |Retired(p, BootOf(a0, ms), n)|;
    PenaltyBound(p, a0, IndexX(s, k));
    ElapsedBound(p.cfg, s.mem, s.mOut);
    Scale(Delay(p.cfg) - 1, IndexM(s, k) + 1, k + 2);
  }

  lemma Scale(d: nat, i: nat, j: nat)
    requires i <= j
    ensures d * i <= d * j
    ensures i > 0 ==> d * (i - 1) + d == d * i
  {}

  /** A retired HLT was reported in the cycle after it was in writeback. */
  lemma {:induction false} FindCycle(p: Program, s: Cpu, n: nat, i: nat) returns (j: nat)
    requires s.Ok(p.cfg) && i < |Retired(p, s, n)|
    ensures j < n && Run(p, s, j).wOut == Retired(p, s, n)[i] && |Retired(p, s, j)| == i
  {
    hide Cycle;
    if i < |Retired(p, s, n - 1)| {
      j := FindCycle(p, s, n - 1, i);
    } else {
      j := n - 1;
    }
  }

  /** The cycles within which a program whose `h`-th instruction is HLT must stop. */
  function StopBound(cfg: Config, h: nat): nat
    requires Delay(cfg) >= 1
  {
    (Delay(cfg) - 1) * (h + 2) + 3 * h + 10
  }

  lemma ManyCycles(d: nat, h: nat, k: nat)
    requires d * (h + 2) + 3 * h + 10 <= d * (k + 2) + 3 * k + 9
    ensures k > h
  {
    if k <= h { Scale(d, k + 2, h + 2); }
  }

  /** If the sequential machine reaches HLT, the pipeline stops - within a bound that
      only depends on how far away HLT is and on the miss delay. */
  lemma PipelineStops(p: Program, a0: Arch, ms: MemSys, h: nat) returns (n: nat)
    requires a0.regs.Valid() && WellBehaved(p, a0) && Starts(p, a0, ms) && !ms.inflight
    requires Halted(p, At(p, a0, h)) && Delay(p.cfg) >= 1
    ensures 0 < n <= StopBound(p.cfg, h) && Ends(Run(p, BootOf(a0, ms), n).status)
  {
    hide Cycle, Inv, MemOk, DataBehaves, FetchesText, View, At, RetiredAs, Halted, Run, Retired, Loaded;
    var s0 := BootOf(a0, ms);
    var N := StopBound(p.cfg, h);
    AllQuiet(p, a0, ms, N + 1);
    RetiresSteadily(p, a0, ms, N);
    var k := |Retired(p, s0, N)|;
    ManyCycles(Delay(p.cfg) - 1, h, k);
    PipelineRefines(p, a0, ms, N);
    assert RetiredAs(p, At(p, a0, h), Retired(p, s0, N)[h]);
    StopEntry(p, At(p, a0, h), Retired(p, s0, N)[h]);
    var j := FindCycle(p, s0, N, h);
    RunInv(p, a0, ms, j);
    StatusReported(p, a0, Run(p, s0, j), h);
    NextCycle(p, s0, j);
    n := j + 1;
  }

  lemma NextCycle(p: Program, s: Cpu, j: nat)
    requires s.Ok(p.cfg)
    ensures Run(p, s, j + 1) == Cycle(p, Run(p, s, j))
  {
    hide Cycle;
  }

  lemma StopEntry(p: Program, a: Arch, w: WReg)
    requires a.regs.Valid() && Halted(p, a) && RetiredAs(p, a, w)
    ensures Ends(w.status)
  {}
}
