/** Which programs keep fetch out of the data cache, wrong paths included: exactly those
    whose sequential run does. */
module TextFetch {
  import opened Words
  import opened Isa
  import opened MemorySystem
  import opened Datapath
  import opened Sequential
  import opened Pipeline
  import opened Invariant
  import opened Stages
  import opened CycleFields
  import opened Refinement
  import opened ReadyStep
  import opened FrontEnd
  import opened FetchPath
  import opened PipelineTheorem
  import opened Timing
  import opened Liveness

  // What a run without a fetch from the data has shown of its program so far.

  /** The instruction at `a`, and the first address fetched behind it if it diverts. */
  predicate FirstBelow(p: Program, a: Arch)
    requires a.regs.Valid()
  {
    Below(p.cfg, a.pc) && (Diverts(p, a) ==> Below(p.cfg, After(p, a.pc)))
  }

  ghost predicate SeenBehind(p: Program, a0: Arch, s: Cpu, k: nat)
    requires a0.regs.Valid()
  {
    && (forall j: nat | j < IndexX(s, k) :: PathBelow(p, At(p, a0, j)))
    && (s.xOut.status != BUB ==> FirstBelow(p, At(p, a0, IndexX(s, k))))
    && (OnPathD(s) ==> Below(p.cfg, At(p, a0, IndexD(s, k)).pc))
  }

  /** Where fetch has stopped, it has been. */
  predicate SeenInF(p: Program, a0: Arch, s: Cpu, k: nat)
    requires a0.regs.Valid()
  {
    Ends(s.fIn.status) ==>
      && (!WrongPathF(p, a0, s, k) && !Redirected(s) ==> Below(p.cfg, At(p, a0, IndexF(s, k)).pc))
      && (OnPathD(s) && Diverts(p, At(p, a0, IndexD(s, k))) ==> Below(p.cfg, After(p, At(p, a0, IndexD(s, k)).pc)))
      && (WrongPathD(s) ==>
            var wrong := After(p, At(p, a0, IndexX(s, k)).pc);
            StopsFetch(p, wrong) || Below(p.cfg, After(p, wrong)))
  }

  ghost predicate Seen(p: Program, a0: Arch, s: Cpu, k: nat)
    requires a0.regs.Valid()
  {
    SeenBehind(p, a0, s, k) && SeenInF(p, a0, s, k)
  }

  lemma ZeroIsBelow(cfg: Config)
    ensures Below(cfg, 0)
  {}

  /** Where fetch looks without going through the cache is below the data. */
  lemma LooksBelow(p: Program, s: Cpu)
    requires p.cfg.cache.WithCache? && MemOk(p.cfg, s.mem) && Loaded(p, s.mem)
    requires Quiet(p, s) && !Redirected(s) && !Ends(s.fIn.status)
    ensures Below(p.cfg, s.fOut.predPC)
  {
    hide MemOk, Loaded, FetchHalts, SelectPC, Redirected;
    FetchGoes(p, s);
  }

  /** The instruction fetch delivers on the right path has been looked for below the data. */
  lemma RightSeen(p: Program, a0: Arch, s: Cpu, k: nat)
    requires a0.regs.Valid() && p.cfg.cache.WithCache? && Inv(p, a0, s, k) && SeenInF(p, a0, s, k)
    requires !WrongPathF(p, a0, s, k)
    ensures Below(p.cfg, At(p, a0, IndexF(s, k)).pc)
  {
    hide HoldsX, HoldsM, HoldsW, HoldsD, Squashed, DataAgrees, MemOk, Loaded, At, Execute, SelectPC, IndexF, IndexD,
      IndexX, Diverts, Redirected, StopsFetch, After, FetchHalts, WrongPathF, Below, View;
    ZeroIsBelow(p.cfg);
    if !FetchHalts(s) {
      RightPathBelow(p, a0, s, k);
      QuietBelow(p, s);
    } else if Redirected(s) {
      RedirectedAlone(p, a0, s, k);
      RedirectTarget(p, a0, s, k);
      RedirectedHalts(s);
    } else {
      FetchGoes(p, s);
    }
  }

  lemma QuietBelow(p: Program, s: Cpu)
    requires p.cfg.cache.WithCache? && Quiet(p, s) && !FetchHalts(s)
    ensures Below(p.cfg, SelectPC(s))
  {
    hide FetchHalts, SelectPC;
  }

  lemma RedirectedHalts(s: Cpu)
    requires Redirected(s)
    ensures FetchHalts(s) <==> SelectPC(s) == 0
  {}

  /** The wrong paths. */
  lemma StraySeen(p: Program, a0: Arch, s: Cpu, k: nat)
    requires a0.regs.Valid() && p.cfg.cache.WithCache? && Inv(p, a0, s, k)
    requires OnTrack(p, a0, s, k) && SeenInF(p, a0, s, k)
    ensures OnPathD(s) && Diverts(p, At(p, a0, IndexD(s, k))) ==> Below(p.cfg, After(p, At(p, a0, IndexD(s, k)).pc))
    ensures WrongPathD(s) ==>
      var wrong := After(p, At(p, a0, IndexX(s, k)).pc);
      StopsFetch(p, wrong) || Below(p.cfg, After(p, wrong))
  {
    hide HoldsX, HoldsM, HoldsW, HoldsD, Squashed, DataAgrees, MemOk, Loaded, At, Execute, SelectPC, IndexF, IndexD,
      IndexX, Diverts, Redirected, StopsFetch, After, FetchHalts, WrongPathF, Below, View, WrongPathD, OnPathD, Quiet;
    if Redirected(s) {
      RedirectedAlone(p, a0, s, k);
    } else if !Ends(s.fIn.status) {
      LooksBelow(p, s);
    }
  }

  lemma BehindSeen(p: Program, a0: Arch, s: Cpu, k: nat)
    requires a0.regs.Valid() && p.cfg.cache.WithCache? && DataBehaves(p, a0) && Inv(p, a0, s, k)
    requires Seen(p, a0, s, k) && OnTrack(p, a0, s, k) && s.xOut.status != BUB
    ensures PathBelow(p, At(p, a0, IndexX(s, k)))
  {
    hide HoldsX, HoldsM, HoldsW, HoldsD, Squashed, DataAgrees, MemOk, Loaded, At, Execute, IndexX, IndexD, IndexF,
      Diverts, StopsFetch, After, FetchReady, Below, View, SeqX, Quiet, OnPathD, SeenInF;
    var a := At(p, a0, IndexX(s, k));
    XDiverts(p, a0, s, k);
    StraySeen(p, a0, s, k);
  }

  lemma XDiverts(p: Program, a0: Arch, s: Cpu, k: nat)
    requires a0.regs.Valid() && Placed(p, a0, s, k) && s.xOut.status != BUB
    ensures var a := At(p, a0, IndexX(s, k));
      Diverts(p, a) ==> WrongPathD(s) || SeqX(p, a).op == RET
  {
    hide HoldsX, HoldsM, HoldsW, HoldsD, Squashed, FetchReady, MemOk, Loaded, View, Execute, Diverts, SeqX, At;
    if Diverts(p, At(p, a0, IndexX(s, k))) { DivertsInX(p, At(p, a0, IndexX(s, k)), s.xOut); }
  }

  lemma DivertsInX(p: Program, a: Arch, x: XReg)
    requires a.regs.Valid() && HoldsX(p, a, x) && x.status != BUB && Diverts(p, a)
    ensures Mispredicted(Execute(x, a.nzcv)) || SeqX(p, a).op == RET
  {
    hide ExecuteFlags, Decode, SeqD;
  }

  /** Waiting shows only what fetch reads. */
  lemma BusySeen(p: Program, a0: Arch, s: Cpu, k: nat)
    requires a0.regs.Valid() && p.cfg.cache.WithCache? && DataBehaves(p, a0) && Inv(p, a0, s, k)
    requires MemNext(p, s).busy && Seen(p, a0, s, k) && OnTrack(p, a0, s, k)
    ensures Seen(p, a0, Cycle(p, s), IndexM(s, k))
  {
    hide HoldsX, HoldsM, HoldsW, HoldsD, FetchReady, Squashed, DataAgrees, MemOk, Loaded, Quiet, DataBehaves, Cycle,
      MemNext, Diverts, At, Execute, FetchStatusAfter, WriteRegs, Fetched, View, Redirected, Below, PathBelow, After,
      StopsFetch, FirstBelow;
    BusyCycle(p, s);
    BusyStep(p, a0, s, k);
    StraySeen(p, a0, s, k);
    if !WrongPathF(p, a0, s, k) { RightSeen(p, a0, s, k); }
  }

  lemma HazardSeen(p: Program, a0: Arch, s: Cpu, k: nat)
    requires a0.regs.Valid() && p.cfg.cache.WithCache? && DataBehaves(p, a0) && Inv(p, a0, s, k)
    requires Seen(p, a0, s, k) && OnTrack(p, a0, s, k) && ReadyFields(p, s, Cycle(p, s)) && LoadUseHazard(s)
    ensures Seen(p, a0, Cycle(p, s), IndexM(s, k))
  {
    hide HoldsX, HoldsM, HoldsW, HoldsD, FetchReady, Squashed, DataAgrees, MemOk, Loaded, Quiet, DataBehaves, Cycle,
      Diverts, At, Execute, FetchStatusAfter, WriteRegs, Fetched, View, Redirected, DecodeOut, Below, PathBelow,
      MemoryResult, ExecuteFlags, FetchStops, FetchHalts, NextPC, Sources, LoadUse, After, StopsFetch, FirstBelow;
    var s', k' := Cycle(p, s), IndexM(s, k);
    BubbleIsQuiet(s'.nzcv);
    Indices(p, a0, s, s', k);
    BehindSeen(p, a0, s, k);
    StraySeen(p, a0, s, k);
    if !WrongPathF(p, a0, s, k) { RightSeen(p, a0, s, k); }
  }

  lemma SquashSeen(p: Program, a0: Arch, s: Cpu, k: nat)
    requires a0.regs.Valid() && p.cfg.cache.WithCache? && DataBehaves(p, a0) && Inv(p, a0, s, k) && !MemNext(p, s).busy
    requires Seen(p, a0, s, k) && OnTrack(p, a0, s, k) && ReadyFields(p, s, Cycle(p, s)) && !LoadUseHazard(s)
    requires WrongPathD(s) || s.dOut.op == RET
    ensures Seen(p, a0, Cycle(p, s), IndexM(s, k))
  {
    hide HoldsX, HoldsM, HoldsW, HoldsD, FetchReady, DataAgrees, MemOk, Loaded, Quiet, DataBehaves, Cycle, Diverts,
      At, Execute, FetchStatusAfter, WriteRegs, Fetched, View, DecodeOut, Below, PathBelow, MemoryResult,
      ExecuteFlags, FetchStops, FetchHalts, NextPC, Sources, LoadUse, After, StopsFetch, MemNext;
    var s', k' := Cycle(p, s), IndexM(s, k);
    Indices(p, a0, s, s', k);
    if s.xOut.status != BUB { BehindSeen(p, a0, s, k); }
    StraySeen(p, a0, s, k);
    BubbleIsQuiet(s'.nzcv);
    DecodeOutOp(p, s);
    RetIsQuiet(s'.xOut, s'.nzcv);
    if WrongPathD(s) { WrongIsRedirected(p, s); }
  }

  lemma WrongIsRedirected(p: Program, s: Cpu)
    requires WrongPathD(s)
    ensures Mispredicted(Execute(s.xOut, s.nzcv))
  {}

  lemma AdvanceSeen(p: Program, a0: Arch, s: Cpu, k: nat)
    requires a0.regs.Valid() && p.cfg.cache.WithCache? && DataBehaves(p, a0) && Inv(p, a0, s, k) && !MemNext(p, s).busy
    requires Seen(p, a0, s, k) && OnTrack(p, a0, s, k) && ReadyFields(p, s, Cycle(p, s)) && !LoadUseHazard(s)
    requires !WrongPathD(s) && s.dOut.op != RET
    ensures Seen(p, a0, Cycle(p, s), IndexM(s, k))
  {
    hide HoldsX, HoldsM, HoldsW, HoldsD, FetchReady, Squashed, DataAgrees, MemOk, Loaded, Quiet, DataBehaves, Cycle,
      Diverts, At, Execute, FetchStatusAfter, WriteRegs, Fetched, View, Redirected, DecodeOut, Below, PathBelow,
      MemoryResult, ExecuteFlags, FetchStops, FetchHalts, NextPC, Sources, LoadUse, After, StopsFetch, WrongPathD,
      MemNext, SeenInF;
    var s', k' := Cycle(p, s), IndexM(s, k);
    AfterAdvance(p, a0, s, k);
    Indices(p, a0, s, s', k);
    FetchedStatus(p, s);
    if s.xOut.status != BUB { BehindSeen(p, a0, s, k); }
    StraySeen(p, a0, s, k);
    if !WrongPathF(p, a0, s, k) { RightSeen(p, a0, s, k); }
    AdvanceSeenInF(p, a0, s, k);
  }

  lemma AdvanceSeenInF(p: Program, a0: Arch, s: Cpu, k: nat)
    requires a0.regs.Valid() && p.cfg.cache.WithCache? && DataBehaves(p, a0) && Inv(p, a0, s, k) && !MemNext(p, s).busy
    requires SeenInF(p, a0, s, k) && OnTrack(p, a0, s, k) && ReadyFields(p, s, Cycle(p, s)) && !LoadUseHazard(s)
    requires !WrongPathD(s) && s.dOut.op != RET
    ensures SeenInF(p, a0, Cycle(p, s), IndexM(s, k))
  {
    hide HoldsX, HoldsM, HoldsW, HoldsD, FetchReady, Squashed, DataAgrees, MemOk, Loaded, Quiet, DataBehaves, Cycle,
      Diverts, At, Execute, FetchStatusAfter, WriteRegs, Fetched, View, Redirected, DecodeOut, Below, PathBelow,
      MemoryResult, ExecuteFlags, FetchStops, FetchHalts, NextPC, Sources, LoadUse, After, StopsFetch, WrongPathD,
      MemNext;
    var s', k' := Cycle(p, s), IndexM(s, k);
    AfterAdvance(p, a0, s, k);
    Indices(p, a0, s, s', k);
    FetchedStatus(p, s);
    if WrongPathF(p, a0, s, k) {
      if Redirected(s) { RedirectedAlone(p, a0, s, k); }
      FetchGoes(p, s);
    } else if Ends(s'.fIn.status) {
      RightSeen(p, a0, s, k);
      EndFetched(p, a0, s, k);
    }
  }

  /** If fetch stops at what it delivers on the right path, that is the end of the program. */
  lemma EndFetched(p: Program, a0: Arch, s: Cpu, k: nat)
    requires a0.regs.Valid() && DataBehaves(p, a0) && Inv(p, a0, s, k) && !WrongPathF(p, a0, s, k)
    requires Ends(FetchStatusAfter(p, s))
    ensures Halted(p, At(p, a0, IndexF(s, k))) && At(p, a0, IndexF(s, k) + 1) == At(p, a0, IndexF(s, k))
    ensures !Diverts(p, At(p, a0, IndexF(s, k)))
  {
    hide HoldsX, HoldsM, HoldsW, HoldsD, FetchReady, Squashed, DataAgrees, MemOk, Loaded, Quiet, At, Execute, Fetched,
      View, Redirected, SelectPC, IndexF, StickyStatus, WrongPathF, Halted, SeqX, SeqM;
    var i := IndexF(s, k);
    FetchHolds(p, a0, s, k);
    if Halted(p, At(p, a0, i)) { HaltedForever(p, a0, i, i + 1); }
  }

  lemma SeenStays(p: Program, a0: Arch, s: Cpu, k: nat)
    requires a0.regs.Valid() && p.cfg.cache.WithCache? && DataBehaves(p, a0) && Inv(p, a0, s, k)
    requires Seen(p, a0, s, k) && OnTrack(p, a0, s, k)
    ensures Seen(p, a0, Cycle(p, s), IndexM(s, k))
  {
    hide HoldsX, HoldsM, HoldsW, HoldsD, FetchReady, Squashed, DataAgrees, MemOk, Loaded, Seen, OnTrack, Cycle,
      MemNext, ReadyFields, LoadUseHazard, WrongPathD, DataBehaves, Quiet, IndexM, At;
    if MemNext(p, s).busy {
      BusySeen(p, a0, s, k);
    } else {
      ReadyCycleFields(p, a0, s, k);
      if LoadUseHazard(s) {
        HazardSeen(p, a0, s, k);
      } else if WrongPathD(s) || s.dOut.op == RET {
        SquashSeen(p, a0, s, k);
      } else {
        AdvanceSeen(p, a0, s, k);
      }
    }
  }

  lemma {:induction false} RunSeen(p: Program, a0: Arch, ms: MemSys, n: nat)
    requires a0.regs.Valid() && p.cfg.cache.WithCache? && DataBehaves(p, a0) && Starts(p, a0, ms)
    requires QuietUntil(p, BootOf(a0, ms), n)
    ensures Seen(p, a0, Run(p, BootOf(a0, ms), n), |Retired(p, BootOf(a0, ms), n)|)
  {
    hide Placed, Seen, OnTrack, Cycle, DataBehaves, Quiet, View, MemOk, MemShaped, Loaded, IndexM;
    if n == 0 {
      NothingSeen(p, a0, ms);
    } else {
      RunSeen(p, a0, ms, n - 1);
      QuietInv(p, a0, ms, n - 1);
      SeenStays(p, a0, Run(p, BootOf(a0, ms), n - 1), |Retired(p, BootOf(a0, ms), n - 1)|);
      OneMore(p, BootOf(a0, ms), n);
    }
  }

  lemma NothingSeen(p: Program, a0: Arch, ms: MemSys)
    requires a0.regs.Valid()
    ensures Seen(p, a0, BootOf(a0, ms), 0)
  {
    hide PathBelow, At;
    BubbleIsQuiet(a0.nzcv);
  }

  /** Fetch never goes through the data cache. */
  ghost predicate QuietRun(p: Program, s0: Cpu)
    requires s0.Ok(p.cfg)
  {
    forall n: nat :: Quiet(p, Run(p, s0, n))
  }

  /** The condition of the theorems is exact: over a whole run fetch leaves the data cache
      alone if and only if the instructions of the sequential run, and the one or two
      fetched on the wrong path behind each that diverts control, lie below the data. */
  lemma QuietIffText(p: Program, a0: Arch, ms: MemSys)
    requires a0.regs.Valid() && p.cfg.cache.WithCache? && Delay(p.cfg) >= 1
    requires DataBehaves(p, a0) && Starts(p, a0, ms) && !ms.inflight
    ensures QuietRun(p, BootOf(a0, ms)) <==> FetchesText(p, a0)
  {
    hide Quiet, Run, Retired, View, MemOk, MemShaped, Loaded, PathBelow, DataBehaves, Seen, Delay, SeqRun;
    var s0 := BootOf(a0, ms);
    if FetchesText(p, a0) {
      forall n: nat ensures Quiet(p, Run(p, s0, n)) { AllQuiet(p, a0, ms, n + 1); }
    } else if QuietRun(p, s0) {
      forall i: nat ensures PathBelow(p, SeqRun(p, a0, i)) { PathSeen(p, a0, ms, i); }
      assert false;
    }
  }

  lemma PathSeen(p: Program, a0: Arch, ms: MemSys, i: nat)
    requires a0.regs.Valid() && p.cfg.cache.WithCache? && Delay(p.cfg) >= 1
    requires DataBehaves(p, a0) && Starts(p, a0, ms) && !ms.inflight
    requires QuietRun(p, BootOf(a0, ms))
    ensures PathBelow(p, SeqRun(p, a0, i))
  {
    hide Quiet, Run, Retired, View, MemOk, MemShaped, Loaded, PathBelow, DataBehaves, Delay, SeqRun, FirstBelow,
      SeenInF;
    var n := StopBound(p.cfg, i);
    var s, k := Run(p, BootOf(a0, ms), n), |Retired(p, BootOf(a0, ms), n)|;
    RetiresSteadily(p, a0, ms, n);
    ManyCycles(Delay(p.cfg) - 1, i, k);
    RunSeen(p, a0, ms, n);
    assert i < IndexX(s, k);
    assert At(p, a0, i) == SeqRun(p, a0, i);
  }

  // A simpler condition on the text, whatever the data.

  /** Whatever legal instruction the text holds, fetch goes on below the data from there. */
  ghost predicate TextIsClosed(p: Program) {
    forall pc: Word :: !StopsFetch(p, pc) ==> Below(p.cfg, After(p, pc))
  }

  /** The program itself never leaves for the data. */
  ghost predicate RunsBelow(p: Program, a0: Arch)
    requires a0.regs.Valid()
  {
    forall i: nat :: Below(p.cfg, At(p, a0, i).pc)
  }

  lemma ClosedTextIsFetched(p: Program, a0: Arch)
    requires a0.regs.Valid() && TextIsClosed(p) && RunsBelow(p, a0)
    ensures FetchesText(p, a0)
  {
    hide Diverts, Below, After, StopsFetch, SeqRun;
    forall i: nat ensures PathBelow(p, SeqRun(p, a0, i)) {
      assert Below(p.cfg, At(p, a0, i).pc);
      if Diverts(p, SeqRun(p, a0, i)) { DivertsIsLegal(p, SeqRun(p, a0, i)); }
    }
  }

  lemma DivertsIsLegal(p: Program, a: Arch)
    requires a.regs.Valid() && Diverts(p, a)
    ensures !StopsFetch(p, a.pc)
  {
    hide SeqX, SeqM, FetchOp, AdrpValue;
  }
}
