/** With a cache, too, the program alone decides whether an illegal instruction is reported. */
module IllegalMiss {
  import opened Isa
  import opened Arith
  import opened CacheModel
  import opened CacheCoherence
  import opened MemorySystem
  import opened MissTiming
  import opened CacheTrace
  import opened WordTrace
  import opened Datapath
  import opened Sequential
  import opened Pipeline
  import opened Invariant
  import opened Stages
  import opened OperandValues
  import opened CycleFields
  import opened Refinement
  import opened ReadyStep
  import opened FrontEnd
  import opened PipelineTheorem
  import opened Timing
  import opened Liveness
  import opened IllegalEnd
  import opened CacheTiming
  import opened DataFetch

  // Where the pipeline has bubbles.

  /** There is a bubble behind an instruction exactly if it costs a cycle. */
  predicate Gaps(p: Program, a0: Arch, s: Cpu, k: nat)
    requires a0.regs.Valid()
  {
    var i := IndexM(s, k);
    && (s.dOut.status == BUB && s.mOut.status != BUB ==> Redirected(s))
    && (s.mOut.status != BUB && s.xOut.status == BUB && OnPathD(s) ==> Penalty(p, At(p, a0, i), At(p, a0, i + 1)) > 0)
    && (s.mOut.status != BUB && s.xOut.status != BUB ==> Penalty(p, At(p, a0, i), At(p, a0, i + 1)) == 0)
  }

  lemma BusyGaps(p: Program, a0: Arch, s: Cpu, k: nat)
    requires a0.regs.Valid() && DataBehaves(p, a0) && Inv(p, a0, s, k) && MemNext(p, s).busy && Gaps(p, a0, s, k)
    ensures Gaps(p, a0, Cycle(p, s), IndexM(s, k))
  {
    hide HoldsX, HoldsM, HoldsW, HoldsD, FetchReady, Squashed, DataAgrees, MemOk, Loaded, Quiet, DataBehaves, Cycle,
      MemNext, At, Execute, Penalty, FetchStatusAfter, Fetched, WriteRegs, View;
    BusyCycle(p, s);
    BusyStep(p, a0, s, k);
  }

  /** What the instruction in execute costs, once it leaves it. */
  lemma CostOfX(p: Program, a0: Arch, s: Cpu, k: nat)
    requires a0.regs.Valid() && Placed(p, a0, s, k) && s.xOut.status != BUB
    ensures var i := IndexX(s, k);
      && (s.xOut.op == RET ==> Penalty(p, At(p, a0, i), At(p, a0, i + 1)) == 1)
      && (OnPathD(s) && s.xOut.op != RET ==> Penalty(p, At(p, a0, i), At(p, a0, i + 1)) == One(LoadUseHazard(s)))
  {
    hide HoldsX, HoldsM, HoldsW, HoldsD, FetchReady, Squashed, MemOk, Loaded, At, Execute, Penalty, LoadUse, Sources,
      View;
    var i := IndexX(s, k);
    PenaltyInX(p, At(p, a0, i), At(p, a0, i + 1), s.xOut);
    if OnPathD(s) && s.xOut.op != RET {
      PenaltyBehindX(p, At(p, a0, i), At(p, a0, i + 1), s.xOut, s.dOut);
    }
  }

  lemma ReadyGaps(p: Program, a0: Arch, s: Cpu, k: nat)
    requires a0.regs.Valid() && DataBehaves(p, a0) && Inv(p, a0, s, k) && ReadyFields(p, s, Cycle(p, s))
    ensures Gaps(p, a0, Cycle(p, s), IndexM(s, k))
  {
    hide HoldsX, HoldsM, HoldsW, HoldsD, FetchReady, DataAgrees, MemOk, Loaded, Quiet, DataBehaves, Cycle, At,
      Execute, Penalty, FetchStatusAfter, Fetched, WriteRegs, View, MemoryResult, DecodeOut, LoadUse, Sources, NextPC,
      ExecuteFlags, FetchStops, FetchHalts, SelectPC, LoadUseHazard;
    var s', k' := Cycle(p, s), IndexM(s, k);
    Indices(p, a0, s, s', k);
    BubbleIsQuiet(s'.nzcv);
    DecodeOutOp(p, s);
    ExecuteStatus(s.xOut, s.nzcv);
    FetchedStatus(p, s);
    if s.xOut.status != BUB { CostOfX(p, a0, s, k); }
    if WrongPathD(s) { WrongLeaves(s); }
  }

  lemma WrongLeaves(s: Cpu)
    requires WrongPathD(s)
    ensures Mispredicted(Execute(s.xOut, s.nzcv))
  {}

  lemma {:induction false} RunGaps(p: Program, a0: Arch, ms: MemSys, n: nat)
    requires a0.regs.Valid() && WellBehaved(p, a0) && Starts(p, a0, ms)
    ensures Gaps(p, a0, Run(p, BootOf(a0, ms), n), |Retired(p, BootOf(a0, ms), n)|)
  {
    hide Placed, Quiet, Gaps, Cycle, DataBehaves, FetchesText, View, MemOk, MemShaped, Loaded, IndexM, MemNext;
    if n == 0 {
      NoGaps(p, a0, ms);
    } else {
      RunGaps(p, a0, ms, n - 1);
      RunInv(p, a0, ms, n - 1);
      var s, k := Run(p, BootOf(a0, ms), n - 1), |Retired(p, BootOf(a0, ms), n - 1)|;
      OneMore(p, BootOf(a0, ms), n);
      if MemNext(p, s).busy {
        BusyGaps(p, a0, s, k);
      } else {
        ReadyCycleFields(p, a0, s, k);
        ReadyGaps(p, a0, s, k);
      }
    }
  }

  lemma NoGaps(p: Program, a0: Arch, ms: MemSys)
    requires a0.regs.Valid()
    ensures Gaps(p, a0, BootOf(a0, ms), 0)
  {
    hide Penalty, At;
  }

  // The condition on the program.

  /** Instructions `k` - 3 to `k` follow each other without a bubble or a jump. */
  predicate InARow(p: Program, a0: Arch, k: nat)
    requires a0.regs.Valid()
  {
    && k >= 3 && !Diverts(p, At(p, a0, k - 1))
    && Penalty(p, At(p, a0, k - 3), At(p, a0, k - 2)) == 0
    && Penalty(p, At(p, a0, k - 2), At(p, a0, k - 1)) == 0
  }

  /** The third instruction before number `k`, without a bubble or a jump in between, makes a
      data access that takes more than a cycle. */
  ghost predicate MissBefore(p: Program, a0: Arch, g: Geometry, k: nat)
    requires a0.regs.Valid() && g.Valid()
  {
    && InARow(p, a0, k) && g.d > 1
    && var now := AccessAt(p, At(p, a0, k - 3));
       now != [] && !Recent(g, TraceOf(Accesses(p, a0, k - 3)), now[0].addr)
  }

  lemma AccessGoesOn(p: Program, a: Arch, m: MReg)
    requires a.regs.Valid() && HoldsM(p, a, m) && IsAccess(p.cfg, m)
    ensures m.status != BUB && !Halted(p, a) && !Mispredicted(SeqM(p, a)) && SeqX(p, a).op != RET
  {
    hide ExecuteFlags, SeqX, DataWord;
    AccessOps(p, a);
  }

  lemma AccessOps(p: Program, a: Arch)
    requires a.regs.Valid()
    ensures SeqM(p, a).ms.read || SeqM(p, a).ms.write ==> SeqX(p, a).op == LDUR || SeqX(p, a).op == STUR
    ensures SeqM(p, a).op == SeqX(p, a).op
  {
    OpShape(SeqD(p, a).op);
  }

  /** A cost that is no jump's is that of a load and its use. */
  lemma CostIsUse(p: Program, a0: Arch, k: nat)
    requires a0.regs.Valid() && k >= 2 && !Diverts(p, At(p, a0, k - 1)) && !Diverts(p, At(p, a0, k - 2))
    requires Penalty(p, At(p, a0, k - 2), At(p, a0, k - 1)) > 0
    ensures UseBefore(p, a0, k)
  {
    hide Halted, SeqX, SeqM, SeqD, Sources, LoadUse, At;
  }

  lemma LetGoInD(p: Program, a0: Arch, s: Cpu, kk: nat, k: nat)
    requires a0.regs.Valid() && s.Ok(p.cfg) && Gaps(p, a0, s, kk) && LetGo(p, a0, s, kk, k) && s.mOut.status != BUB
    ensures OnPathD(s) && !WrongPathD(s) && k == IndexD(s, kk) + 1 && !Diverts(p, At(p, a0, k - 1))
  {
    hide Fetched, HeldUp, Penalty, Diverts, WrongPathD, Redirected, At, IndexD;
  }

  lemma WaitBubble(p: Program, a0: Arch, s: Cpu, kk: nat, k: nat)
    requires a0.regs.Valid() && s.Ok(p.cfg) && HoldsM(p, At(p, a0, IndexM(s, kk)), s.mOut) && Gaps(p, a0, s, kk)
    requires LetGo(p, a0, s, kk, k) && IsAccess(p.cfg, s.mOut) && s.xOut.status == BUB
    ensures UseBefore(p, a0, k)
  {
    hide HoldsM, At, Penalty, UseBefore, Diverts, IsAccess, WrongPathD, LetGo, Redirected;
    AccessGoesOn(p, At(p, a0, IndexM(s, kk)), s.mOut);
    LetGoInD(p, a0, s, kk, k);
    NoJump(p, At(p, a0, IndexM(s, kk)));
    CostIsUse(p, a0, k);
  }

  lemma WaitFull(p: Program, a0: Arch, s: Cpu, kk: nat, k: nat)
    requires a0.regs.Valid() && s.Ok(p.cfg) && Placed(p, a0, s, kk) && Gaps(p, a0, s, kk)
    requires LetGo(p, a0, s, kk, k) && s.mOut.status != BUB && s.xOut.status != BUB
    ensures UseBefore(p, a0, k) || (InARow(p, a0, k) && IndexM(s, kk) == k - 3)
  {
    hide HoldsX, HoldsM, HoldsW, HoldsD, FetchReady, DataAgrees, MemOk, Loaded, At, Penalty, UseBefore, Diverts,
      IsAccess, WrongPathD, LoadUseHazard, LetGo, Redirected;
    LetGoInD(p, a0, s, kk, k);
    FullInX(s, kk);
    DecodeFull(p, a0, s);
    CostOfX(p, a0, s, kk);
    XGoesOn(p, a0, s, kk);
    if LoadUseHazard(s) { CostIsUse(p, a0, k); }
  }

  lemma FullInX(s: Cpu, kk: nat)
    requires s.mOut.status != BUB && s.xOut.status != BUB
    ensures IndexD(s, kk) == IndexM(s, kk) + 2 && IndexX(s, kk) == IndexM(s, kk) + 1
  {}

  lemma DecodeFull(p: Program, a0: Arch, s: Cpu)
    requires a0.regs.Valid() && Squashed(s) && OnPathD(s)
    ensures s.xOut.op != RET
  {}

  /** Where the instruction that the cache keeps waiting is, if it makes fetch let go. */
  lemma WaitInPlace(p: Program, a0: Arch, s: Cpu, kk: nat, k: nat)
    requires a0.regs.Valid() && Placed(p, a0, s, kk) && Gaps(p, a0, s, kk)
    requires LetGo(p, a0, s, kk, k) && IsAccess(p.cfg, s.mOut)
    ensures UseBefore(p, a0, k) || (InARow(p, a0, k) && IndexM(s, kk) == k - 3)
  {
    hide HoldsX, HoldsM, HoldsW, HoldsD, FetchReady, DataAgrees, MemOk, Loaded, Squashed, At, UseBefore, Gaps,
      IsAccess, LetGo, IndexM, InARow;
    if s.xOut.status == BUB {
      WaitBubble(p, a0, s, kk, k);
    } else {
      AccessGoesOn(p, At(p, a0, IndexM(s, kk)), s.mOut);
      WaitFull(p, a0, s, kk, k);
    }
  }

  lemma NoJump(p: Program, a: Arch)
    requires a.regs.Valid() && !Mispredicted(SeqM(p, a)) && SeqX(p, a).op != RET
    ensures !Diverts(p, a)
  {}

  /** In execute, with decode on the right path, is no jump. */
  lemma XGoesOn(p: Program, a0: Arch, s: Cpu, kk: nat)
    requires a0.regs.Valid() && Placed(p, a0, s, kk) && s.xOut.status != BUB && s.xOut.op != RET && !WrongPathD(s)
    ensures !Diverts(p, At(p, a0, IndexX(s, kk)))
  {
    hide HoldsX, HoldsM, HoldsW, HoldsD, FetchReady, Squashed, MemOk, Loaded, At, Execute, View, Diverts;
    ExecuteDiverts(p, At(p, a0, IndexX(s, kk)), s.xOut);
  }

  // The cache.

  /** A call that waits is one of a block that is not among the most recently used ones. */
  lemma BusyIsMiss(p: Program, a0: Arch, g: Geometry, ms: MemSys, s: Cpu, k: nat, waited: nat)
    requires a0.regs.Valid() && DataBehaves(p, a0) && Inv(p, a0, s, k) && p.cfg.cache == WithCache(g) && Idle(g, ms)
    requires Carries(g, s.mem, Done(p, a0, g, ms, IndexM(s, k)), s.mOut, waited) && MemNext(p, s).busy
    ensures IsAccess(p.cfg, s.mOut) && g.d > 1
    ensures AccessAt(p, At(p, a0, IndexM(s, k))) == [OpOfM(s.mOut)]
    ensures !Recent(g, TraceOf(Accesses(p, a0, IndexM(s, k))), s.mOut.valEx)
  {
    hide HoldsX, HoldsM, HoldsW, HoldsD, FetchReady, Squashed, DataAgrees, MemOk, Loaded, Quiet, DataBehaves, At,
      Accesses, AccessAt, IsPow2, Coherent, Cached, PerformAll, IndexM, EmptyCache, DataWord, Recent, Reissue, Missed,
      Missing, DataAccess, View, Product;
    var i := IndexM(s, k);
    MemoryInCycle(p, a0, s, k);
    MemoryCarries(p, a0, g, ms, s, k, waited);
    AccessInM(p, At(p, a0, i), s.mOut);
    WordHitIffRecent(g, ms, Accesses(p, a0, i), s.mOut.valEx);
  }

  /** The access that is over has waited, if its block was not among them. */
  lemma OverHasWaited(p: Program, a0: Arch, g: Geometry, ms: MemSys, s: Cpu, kk: nat, k: nat, waited: nat)
    requires a0.regs.Valid() && DataBehaves(p, a0) && Inv(p, a0, s, kk) && p.cfg.cache == WithCache(g) && Idle(g, ms)
    requires Carries(g, s.mem, Done(p, a0, g, ms, IndexM(s, kk)), s.mOut, waited) && !MemNext(p, s).busy
    requires MissBefore(p, a0, g, k) && IndexM(s, kk) == k - 3 && s.mOut.status != BUB
    ensures s.mem.busy
  {
    hide HoldsX, HoldsM, HoldsW, HoldsD, FetchReady, Squashed, DataAgrees, MemOk, Loaded, Quiet, DataBehaves, At,
      Accesses, AccessAt, IsPow2, Coherent, Cached, PerformAll, IndexM, EmptyCache, DataWord, Recent, Reissue, Missed,
      MemNext, View, Product, InARow;
    MemoryCarries(p, a0, g, ms, s, kk, waited);
    AccessInM(p, At(p, a0, k - 3), s.mOut);
    WordHitIffRecent(g, ms, Accesses(p, a0, k - 3), s.mOut.valEx);
  }

  // Both directions.

  /** Nothing behind the access jumps. */
  lemma RowGoesOn(p: Program, a0: Arch, s: Cpu, kk: nat, k: nat)
    requires a0.regs.Valid() && Placed(p, a0, s, kk) && InARow(p, a0, k)
    requires IndexX(s, kk) == k - 2
    ensures !WrongPathD(s) && s.xOut.op != RET
  {
    hide HoldsX, HoldsM, HoldsW, HoldsD, FetchReady, Squashed, DataAgrees, MemOk, Loaded, At, Penalty, Diverts, View,
      WrongPathD, LoadUseHazard, IndexX;
    if s.xOut.status == BUB {
      BubbleGoesOn(p, a0, s, kk);
    } else {
      CostOfX(p, a0, s, kk);
      if WrongPathD(s) { CostOfWrong(p, a0, s, kk); }
    }
  }

  lemma RowInM(p: Program, a0: Arch, s: Cpu, kk: nat, k: nat)
    requires a0.regs.Valid() && Placed(p, a0, s, kk) && Gaps(p, a0, s, kk) && InARow(p, a0, k)
    requires IndexM(s, kk) == k - 3 && IsAccess(p.cfg, s.mOut)
    ensures !Redirected(s) && OnPathD(s) && IndexD(s, kk) == k - 1
  {
    hide Placed, At, IsAccess, Penalty, Diverts, WrongPathD, IndexM, Mispredicted;
    AccessIsNoBranch(p, a0, s, kk);
    assert IndexX(s, kk) == k - 2;
    RowGoesOn(p, a0, s, kk, k);
    RowCost(p, a0, k);
  }

  lemma RowCost(p: Program, a0: Arch, k: nat)
    requires a0.regs.Valid() && InARow(p, a0, k)
    ensures k >= 3 && Penalty(p, At(p, a0, k - 3), At(p, a0, k - 3 + 1)) == 0
  {
    hide Penalty, At;
  }

  lemma AccessIsNoBranch(p: Program, a0: Arch, s: Cpu, kk: nat)
    requires a0.regs.Valid() && Placed(p, a0, s, kk) && IsAccess(p.cfg, s.mOut)
    ensures s.mOut.status != BUB && !Mispredicted(s.mOut)
  {
    hide HoldsX, HoldsM, HoldsW, HoldsD, FetchReady, Squashed, DataAgrees, MemOk, Loaded, At, IsAccess, View;
    var a := At(p, a0, IndexM(s, kk));
    AccessGoesOn(p, a, s.mOut);
    NoBranchInM(p, a, s.mOut);
  }

  lemma NoBranchInM(p: Program, a: Arch, m: MReg)
    requires a.regs.Valid() && HoldsM(p, a, m) && !Mispredicted(SeqM(p, a))
    ensures !Mispredicted(m)
  {
    hide SeqM;
  }

  lemma CostOfWrong(p: Program, a0: Arch, s: Cpu, kk: nat)
    requires a0.regs.Valid() && Placed(p, a0, s, kk) && s.xOut.status != BUB && WrongPathD(s)
    ensures Penalty(p, At(p, a0, IndexX(s, kk)), At(p, a0, IndexX(s, kk) + 1)) == 2
  {
    hide HoldsX, HoldsM, HoldsW, HoldsD, FetchReady, Squashed, MemOk, Loaded, At, Execute, Penalty, View;
    PenaltyInX(p, At(p, a0, IndexX(s, kk)), At(p, a0, IndexX(s, kk) + 1), s.xOut);
  }

  lemma BubbleGoesOn(p: Program, a0: Arch, s: Cpu, kk: nat)
    requires a0.regs.Valid() && Placed(p, a0, s, kk) && s.xOut.status == BUB
    ensures !WrongPathD(s) && s.xOut.op != RET
  {
    hide HoldsM, HoldsW, HoldsD, FetchReady, Squashed, DataAgrees, MemOk, Loaded, At, ExecuteFlags;
  }

  /** The access in its place, and waiting, makes fetch let go. */
  lemma WaitsInRow(p: Program, a0: Arch, s: Cpu, kk: nat, k: nat)
    requires a0.regs.Valid() && DataBehaves(p, a0) && Inv(p, a0, s, kk) && Gaps(p, a0, s, kk) && FirstIllegal(p, a0, k)
    requires InARow(p, a0, k) && IndexM(s, kk) == k - 3 && IsAccess(p.cfg, s.mOut) && MemNext(p, s).busy
    ensures LetGo(p, a0, s, kk, k) || LostInF(p, a0, s, kk, k)
  {
    hide HoldsX, HoldsM, HoldsW, HoldsD, FetchReady, DataAgrees, MemOk, Loaded, At, IsAccess, Penalty, Diverts, View,
      WrongPathD, LoadUseHazard, Squashed, FirstIllegal, Fetched, MemNext, Gaps, Redirected, IndexD, IndexM;
    RowInM(p, a0, s, kk, k);
    FetchesIllegal(p, a0, s, kk, k);
  }

  /** By the time the access has begun to wait, and once it has left memory, fetch has let go. */
  ghost predicate Waited(s: Cpu, kk: nat, k: nat) {
    IndexM(s, kk) + 3 > k || (IndexM(s, kk) + 3 == k && s.mOut.status != BUB && s.mem.busy)
  }

  lemma WaitStep(p: Program, a0: Arch, g: Geometry, ms: MemSys, s: Cpu, kk: nat, k: nat, waited: nat)
    requires a0.regs.Valid() && DataBehaves(p, a0) && Inv(p, a0, s, kk) && p.cfg.cache == WithCache(g) && Idle(g, ms)
    requires Carries(g, s.mem, Done(p, a0, g, ms, IndexM(s, kk)), s.mOut, waited) && Gaps(p, a0, s, kk)
    requires FirstIllegal(p, a0, k) && MissBefore(p, a0, g, k)
    requires Waited(Cycle(p, s), IndexM(s, kk), k) && !Waited(s, kk, k)
    ensures LetGo(p, a0, s, kk, k) || LostInF(p, a0, s, kk, k)
  {
    hide HoldsX, HoldsM, HoldsW, HoldsD, FetchReady, Squashed, DataAgrees, MemOk, Loaded, Quiet, DataBehaves, At,
      Cycle, Done, Gaps, Carries, FirstIllegal, MissBefore, InARow, LetGo, LostInF, MemNext, IndexM, IndexX, IsAccess,
      EmptyCache, IsPow2, Coherent, Execute, ReadyFields;
    if MemNext(p, s).busy {
      BusyStep(p, a0, s, kk);
      BusyCycle(p, s);
      IndexSteps(s, Cycle(p, s), kk);
      BusyIsMiss(p, a0, g, ms, s, kk, waited);
      RowOf(p, a0, g, k);
      WaitsInRow(p, a0, s, kk, k);
    } else {
      ReadyCycleFields(p, a0, s, kk);
      Indices(p, a0, s, Cycle(p, s), kk);
      IndexSteps(s, Cycle(p, s), kk);
      CycleMem(p, s);
      OverHasWaited(p, a0, g, ms, s, kk, k, waited);
    }
  }

  lemma RowOf(p: Program, a0: Arch, g: Geometry, k: nat)
    requires a0.regs.Valid() && g.Valid() && MissBefore(p, a0, g, k)
    ensures InARow(p, a0, k) && k >= 3
  {}

  lemma {:induction false} WaitedMeansLetGo(p: Program, a0: Arch, g: Geometry, ms: MemSys, k: nat, n: nat)
    requires a0.regs.Valid() && WellBehaved(p, a0) && Starts(p, a0, ms) && p.cfg.cache == WithCache(g) && Idle(g, ms)
    requires FirstIllegal(p, a0, k) && MissBefore(p, a0, g, k)
    requires Waited(Run(p, BootOf(a0, ms), n), |Retired(p, BootOf(a0, ms), n)|, k)
    ensures WasLetGo(p, a0, BootOf(a0, ms), k, n)
  {
    hide Placed, Quiet, Gaps, Cycle, DataBehaves, FetchesText, View, MemOk, MemShaped, Loaded, IndexM, MemNext, LetGo,
      WasLetGo, FirstIllegal, MissBefore, Run, Retired, Carries, Done, IsPow2, Coherent, EmptyCache, LostInF, Waits,
      Waited, InARow, At, Missed, Accesses;
    var s0 := BootOf(a0, ms);
    if n == 0 {
      RowOf(p, a0, g, k);
      NothingWaited(p, a0, ms, k);
    } else {
      var s, kk := Run(p, s0, n - 1), |Retired(p, s0, n - 1)|;
      NextLength(p, s0, n);
      OneMoreCycle(p, a0, s0, k, n - 1);
      if Waited(s, kk, k) {
        WaitedMeansLetGo(p, a0, g, ms, k, n - 1);
      } else {
        RunInv(p, a0, ms, n - 1);
        RunGaps(p, a0, ms, n - 1);
        var waited := RunCarries(p, a0, g, ms, n - 1);
        WaitStep(p, a0, g, ms, s, kk, k, waited);
        if LostInF(p, a0, s, kk, k) {
          InFetchIsLost(p, a0, s0, k, n - 1);
          LostIffLetGo(p, a0, ms, k, n - 1);
        }
      }
    }
  }

  lemma NothingWaited(p: Program, a0: Arch, ms: MemSys, k: nat)
    requires a0.regs.Valid() && MemShaped(p.cfg, ms) && k >= 3
    ensures !Waited(Run(p, BootOf(a0, ms), 0), |Retired(p, BootOf(a0, ms), 0)|, k)
  {}

  lemma LetGoHasCause(p: Program, a0: Arch, g: Geometry, ms: MemSys, k: nat, j: nat)
    requires a0.regs.Valid() && WellBehaved(p, a0) && Starts(p, a0, ms) && p.cfg.cache == WithCache(g) && Idle(g, ms)
    requires FirstIllegal(p, a0, k) && LetGo(p, a0, Run(p, BootOf(a0, ms), j), |Retired(p, BootOf(a0, ms), j)|, k)
    ensures UseBefore(p, a0, k) || MissBefore(p, a0, g, k)
  {
    hide HoldsX, HoldsM, HoldsW, HoldsD, FetchReady, Squashed, DataAgrees, Quiet, Gaps, Cycle, DataBehaves,
      FetchesText, View, MemOk, MemShaped, Loaded, IndexM, MemNext, LetGo, FirstIllegal, Run, Retired, Carries, Done,
      IsPow2, Coherent, EmptyCache, UseBefore, InARow, Waits, IsAccess, Recent, Accesses, AccessAt, At;
    var s, kk := Run(p, BootOf(a0, ms), j), |Retired(p, BootOf(a0, ms), j)|;
    RunInv(p, a0, ms, j);
    if MemNext(p, s).busy {
      var waited := RunCarries(p, a0, g, ms, j);
      RunGaps(p, a0, ms, j);
      BusyIsMiss(p, a0, g, ms, s, kk, waited);
      WaitInPlace(p, a0, s, kk, k);
    } else {
      HazardInPlace(p, a0, s, kk, k);
    }
  }

  /** With a cache, the illegal instruction is reported if and only if it comes neither right
      behind a load and the use of what it loads, nor right behind three instructions the
      first of which accesses a block that is not among the most recently used ones. */
  lemma ReportedWithCache(p: Program, a0: Arch, g: Geometry, ms: MemSys, k: nat, n: nat)
    requires a0.regs.Valid() && WellBehaved(p, a0) && Starts(p, a0, ms) && p.cfg.cache == WithCache(g) && Idle(g, ms)
    requires FirstIllegal(p, a0, k)
    requires n > 0 && |Retired(p, BootOf(a0, ms), n - 1)| == k < |Retired(p, BootOf(a0, ms), n)|
    ensures Run(p, BootOf(a0, ms), n).status == (if UseBefore(p, a0, k) || MissBefore(p, a0, g, k) then STOP else INS)
  {
    hide Placed, Quiet, Cycle, DataBehaves, FetchesText, View, MemOk, MemShaped, Loaded, MemNext, LetGo, FirstIllegal,
      Run, Retired, IsPow2, Coherent, EmptyCache, UseBefore, MissBefore, IndexX, At;
    var s0 := BootOf(a0, ms);
    var s, kk := Run(p, s0, n), |Retired(p, s0, n)|;
    IllegalIsReported(p, a0, ms, k, n);
    if UseBefore(p, a0, k) {
      PassedMeansLetGo(p, a0, ms, k, n);
      PastExecute(s, kk);
    } else if MissBefore(p, a0, g, k) {
      WaitedMeansLetGo(p, a0, g, ms, k, n);
    } else if WasLetGo(p, a0, s0, k, n) {
      var j :| 0 <= j < n && LetGo(p, a0, Run(p, s0, j), |Retired(p, s0, j)|, k);
      LetGoHasCause(p, a0, g, ms, k, j);
      assert false;
    }
  }
}
