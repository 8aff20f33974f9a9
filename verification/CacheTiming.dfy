/** The exact number of cycles of a run with a cache, in terms of the program alone: which
    of its accesses find their block among the most recently used ones. */
module CacheTiming {
  import opened Arith
  import opened Words
  import opened Isa
  import opened CacheModel
  import opened CacheCoherence
  import opened MemorySystem
  import opened MissTiming
  import opened CacheTrace
  import opened WordTrace
  import opened Datapath
  import opened Sequential
  import opened Pipeline
  import opened Invariant
  import opened Stages
  import opened TextMemory
  import opened CycleFields
  import opened ReadyStep
  import opened PipelineTheorem
  import opened Timing
  import opened Liveness

  type DataOp = MissTiming.Op

  // The data accesses of the sequential run.

  predicate IsAccess(cfg: Config, m: MReg) {
    (m.ms.read || m.ms.write) && DataWord(cfg, m.valEx)
  }

  function OpOfM(m: MReg): DataOp {
    MissTiming.Op(m.valEx, m.ms.write, m.valB)
  }

  function AccessAt(p: Program, a: Arch): (ops: seq<DataOp>)
    requires a.regs.Valid()
    ensures |ops| <= 1 && forall i | 0 <= i < |ops| :: ops[i].addr % 8 == 0
  {
    if !Halted(p, a) && IsAccess(p.cfg, SeqM(p, a)) then [OpOfM(SeqM(p, a))] else []
  }

  /** The data accesses of the first `n` instructions. */
  function Accesses(p: Program, a0: Arch, n: nat): (ops: seq<DataOp>)
    requires a0.regs.Valid()
    ensures forall i | 0 <= i < |ops| :: ops[i].addr % 8 == 0
  {
    if n == 0 then [] else Accesses(p, a0, n - 1) + AccessAt(p, At(p, a0, n - 1))
  }

  /** How many of them do not find their block among the most recently used ones of its set. */
  ghost function Misses(p: Program, a0: Arch, g: Geometry, n: nat): nat
    requires a0.regs.Valid() && g.Valid()
  {
    if n == 0 then 0 else
    var before, now := Accesses(p, a0, n - 1), AccessAt(p, At(p, a0, n - 1));
    Misses(p, a0, g, n - 1) + One(now != [] && !Recent(g, TraceOf(before), now[0].addr))
  }

  lemma {:induction false} MissesAreMissed(p: Program, a0: Arch, g: Geometry, ms: MemSys, n: nat)
    requires a0.regs.Valid() && CacheOk(g, ms) && !ms.inflight && ms.cache == EmptyCache(g)
    ensures Missed(g, ms, Accesses(p, a0, n)) == Misses(p, a0, g, n)
  {
    hide IsPow2, Coherent, EmptyCache, PerformAll, Cached, Recent, AccessAt, At;
    if n > 0 {
      MissesAreMissed(p, a0, g, ms, n - 1);
      var before, now := Accesses(p, a0, n - 1), AccessAt(p, At(p, a0, n - 1));
      if now == [] {
        assert Accesses(p, a0, n) == before;
      } else {
        WordHitIffRecent(g, ms, before, now[0].addr);
        MissedGrows(g, ms, before, now[0]);
        assert now == [now[0]];
      }
    }
  }

  lemma MissedGrows(g: Geometry, ms: MemSys, ops: seq<DataOp>, op: DataOp)
    requires Shaped(g, ms.cache)
    ensures Missed(g, ms, ops + [op]) == Missed(g, ms, ops) + One(!Cached(g, PerformAll(g, ms, ops).cache, op.addr))
    ensures PerformAll(g, ms, ops + [op]) == Perform(g, PerformAll(g, ms, ops), op)
  {
    hide Perform, Cached, IsPow2;
    assert (ops + [op])[..|ops|] == ops;
  }

  // The console does not touch the cache.

  lemma ByteAside(g: Geometry, ms: MemSys, b: Word, write: bool, o: seq<Word>)
    requires Shaped(g, ms.cache)
    ensures AccessByte(g, ms.(output := o), b, write).0 == AccessByte(g, ms, b, write).0.(output := o)
    ensures AccessByte(g, ms.(output := o), b, write).1 == AccessByte(g, ms, b, write).1
  {
    hide CheckHit, Fill, Geometry.BlockBase, IsPow2;
  }

  lemma {:induction false} OutputAside(g: Geometry, ms: MemSys, a: Word, write: bool, i: nat, o: seq<Word>)
    requires Shaped(g, ms.cache) && i <= 8
    ensures Access(g, ms.(output := o), a, write, i).0 == Access(g, ms, a, write, i).0.(output := o)
    ensures Access(g, ms.(output := o), a, write, i).1 == Access(g, ms, a, write, i).1
    decreases 8 - i
  {
    hide AccessByte, Access, IsPow2;
    AccessUnfolds(g, ms, a, write, i);
    AccessUnfolds(g, ms.(output := o), a, write, i);
    if i < 8 {
      ByteAside(g, ms, Wrap(a + i), write, o);
      var (m, ok) := AccessByte(g, ms, Wrap(a + i), write);
      if ok { OutputAside(g, m, a, write, i + 1, o); }
    }
  }

  // The memory system of the pipeline, between two cycles.

  /** `ms` is `done` with the access of `m` re-issued as often as it has waited. */
  ghost predicate Carries(g: Geometry, ms: MemSys, done: MemSys, m: MReg, waited: nat)
    requires Shaped(g, done.cache)
  {
    && ms.busy == (waited > 0)
    && (waited > 0 ==> waited < g.d && !Cached(g, done.cache, m.valEx))
    && ms.(output := done.output) == Reissue(g, done, m.valEx, m.ms.write, waited)
  }

  /** One more call: it waits, or the operation is done. */
  lemma CallCarries(g: Geometry, cfg: Config, ms: MemSys, done: MemSys, m: MReg, waited: nat)
    requires cfg.cache == WithCache(g) && MemShaped(cfg, ms) && IsAccess(cfg, m) && !(m.ms.read && m.ms.write)
    requires CacheOk(g, done) && !done.inflight && !done.busy && Carries(g, ms, done, m, waited)
    ensures var ms' := DataAccess(cfg, ms, m).0;
      if ms'.busy then Carries(g, ms', done, m, waited + 1)
      else
        && ms'.(output := done.output) == Perform(g, done, OpOfM(m))
        && waited == (if Cached(g, done.cache, m.valEx) then 0 else g.d - 1)
  {
    hide IsPow2, Coherent, Access, Cached, WordCached, GetWord, SetWord, DataWord;
    var a, w := m.valEx, m.ms.write;
    AccessAligned(cfg, m);
    var t := Reissue(g, done, a, w, waited);
    OutputAside(g, ms, a, w, 0, done.output);
    if Cached(g, done.cache, a) {
      HitAccess(g, done, a, w);
    } else {
      MissTakesD(g, done, a, w, waited);
      MissAccess(g, t, a, w);
    }
    ReadyCompletes(g, done, a, w);
  }

  lemma AccessAligned(cfg: Config, m: MReg)
    requires IsAccess(cfg, m)
    ensures m.valEx % 8 == 0 && m.valEx != IO_CHAR_ADDR
  {}

  /** An instruction without a data access leaves the cache alone. */
  lemma NoAccess(cfg: Config, ms: MemSys, m: MReg)
    requires MemShaped(cfg, ms) && !IsAccess(cfg, m)
    ensures DataAccess(cfg, ms, m).0 == ms.(output := DataAccess(cfg, ms, m).0.output)
  {
    hide DataWord;
  }

  /** The memory system after the accesses of the first `n` instructions. */
  function Done(p: Program, a0: Arch, g: Geometry, ms: MemSys, n: nat): (m: MemSys)
    requires a0.regs.Valid() && Shaped(g, ms.cache)
    ensures Shaped(g, m.cache)
  {
    PerformAll(g, ms, Accesses(p, a0, n))
  }

  ghost predicate Idle(g: Geometry, ms: MemSys) {
    CacheOk(g, ms) && !ms.inflight && !ms.busy && ms.cache == EmptyCache(g)
  }

  lemma {:induction false} AllDone(g: Geometry, ms: MemSys, ops: seq<DataOp>)
    requires CacheOk(g, ms) && !ms.inflight && !ms.busy && forall i | 0 <= i < |ops| :: ops[i].addr % 8 == 0
    ensures var m := PerformAll(g, ms, ops);
      CacheOk(g, m) && !m.inflight && !m.busy
  {
    hide IsPow2, Coherent, Perform;
    if ops != [] {
      AllDone(g, ms, ops[..|ops| - 1]);
      PerformCounts(g, PerformAll(g, ms, ops[..|ops| - 1]), ops[|ops| - 1]);
    }
  }

  /** What the instruction in memory accesses. */
  lemma AccessInM(p: Program, a: Arch, m: MReg)
    requires a.regs.Valid() && HoldsM(p, a, m)
    ensures IsAccess(p.cfg, m) ==> m.status != BUB && AccessAt(p, a) == [OpOfM(m)]
    ensures !IsAccess(p.cfg, m) && m.status != BUB ==> AccessAt(p, a) == []
    ensures !(m.ms.read && m.ms.write)
  {
    hide SeqM, Halted, DataWord;
    AccessIsOne(p, a);
  }

  lemma DoneNext(p: Program, a0: Arch, g: Geometry, ms: MemSys, n: nat)
    requires a0.regs.Valid() && Shaped(g, ms.cache)
    ensures var now := AccessAt(p, At(p, a0, n));
      if now == [] then
        Done(p, a0, g, ms, n + 1) == Done(p, a0, g, ms, n)
        && Missed(g, ms, Accesses(p, a0, n + 1)) == Missed(g, ms, Accesses(p, a0, n))
      else
        && Done(p, a0, g, ms, n + 1) == Perform(g, Done(p, a0, g, ms, n), now[0])
        && Missed(g, ms, Accesses(p, a0, n + 1)) ==
             Missed(g, ms, Accesses(p, a0, n)) + One(!Cached(g, Done(p, a0, g, ms, n).cache, now[0].addr))
  {
    hide Perform, PerformAll, Cached, IsPow2, At, AccessAt, Missed;
    var before, now := Accesses(p, a0, n), AccessAt(p, At(p, a0, n));
    if now == [] {
      assert Accesses(p, a0, n + 1) == before;
    } else {
      assert now == [now[0]];
      MissedGrows(g, ms, before, now[0]);
    }
  }

  /** The instruction in memory, number `i`, accesses a block that is not cached. */
  predicate Missing(p: Program, a0: Arch, g: Geometry, ms: MemSys, s: Cpu, i: nat)
    requires a0.regs.Valid() && Shaped(g, ms.cache)
  {
    IsAccess(p.cfg, s.mOut) && !Cached(g, Done(p, a0, g, ms, i).cache, s.mOut.valEx)
  }

  /** The memory stage of one cycle. */
  lemma MemoryCarries(p: Program, a0: Arch, g: Geometry, ms: MemSys, s: Cpu, k: nat, waited: nat)
    requires a0.regs.Valid() && DataBehaves(p, a0) && Inv(p, a0, s, k) && p.cfg.cache == WithCache(g) && Idle(g, ms)
    requires Carries(g, s.mem, Done(p, a0, g, ms, IndexM(s, k)), s.mOut, waited)
    ensures var t, i, x := MemNext(p, s), IndexM(s, k), IndexX(s, k);
      var done := Done(p, a0, g, ms, i);
      if t.busy then Carries(g, t, done, s.mOut, waited + 1)
      else
        && t.(output := done.output) == Done(p, a0, g, ms, x)
        && waited == (if Missing(p, a0, g, ms, s, i) then g.d - 1 else 0)
        && Missed(g, ms, Accesses(p, a0, x)) == Missed(g, ms, Accesses(p, a0, i)) + One(Missing(p, a0, g, ms, s, i))
  {
    hide HoldsX, HoldsM, HoldsW, HoldsD, FetchReady, Squashed, DataAgrees, MemOk, DataBehaves, DataAccess, At, Missed,
      Accesses, AccessAt, IsPow2, Coherent, Cached, Perform, PerformAll, Done, Reissue, IndexM, EmptyCache, DataWord,
      Loaded, Quiet, FetchMem, View, NoFault;
    var i, done := IndexM(s, k), Done(p, a0, g, ms, IndexM(s, k));
    QuietMem(p, s);
    DoneIsIdle(p, a0, g, ms, i);
    AccessInM(p, At(p, a0, i), s.mOut);
    DoneNext(p, a0, g, ms, i);
    NothingReissued(g, done, s.mOut);
    if IsAccess(p.cfg, s.mOut) {
      CallCarries(g, p.cfg, s.mem, done, s.mOut, waited);
    } else {
      NoAccess(p.cfg, s.mem, s.mOut);
      NotBusyAside(p, s);
    }
  }

  lemma NotBusyAside(p: Program, s: Cpu)
    requires s.Ok(p.cfg) && FetchMem(p, s) == s.mem && !IsAccess(p.cfg, s.mOut)
    ensures MemNext(p, s).busy == s.mem.busy
  {
    hide DataWord;
  }

  /** One cycle of the pipeline, seen from its memory system. */
  lemma CycleCarries(p: Program, a0: Arch, g: Geometry, ms: MemSys, s: Cpu, k: nat, waited: nat)
    requires a0.regs.Valid() && DataBehaves(p, a0) && Inv(p, a0, s, k) && p.cfg.cache == WithCache(g) && Idle(g, ms)
    requires Carries(g, s.mem, Done(p, a0, g, ms, IndexM(s, k)), s.mOut, waited)
    ensures var s', i, j := Cycle(p, s), IndexM(s, k), IndexM(Cycle(p, s), IndexM(s, k));
      && Carries(g, s'.mem, Done(p, a0, g, ms, j), s'.mOut, if s'.mem.busy then waited + 1 else 0)
      && s'.mem.busy == MemNext(p, s).busy
      && Missed(g, ms, Accesses(p, a0, j)) ==
           Missed(g, ms, Accesses(p, a0, i)) + One(!s'.mem.busy && Missing(p, a0, g, ms, s, i))
      && (!s'.mem.busy ==> waited == (if Missing(p, a0, g, ms, s, i) then g.d - 1 else 0))
  {
    hide HoldsX, HoldsM, HoldsW, HoldsD, FetchReady, Squashed, DataAgrees, MemOk, DataBehaves, Cycle, MemNext, At,
      Missed, Accesses, IsPow2, Coherent, Cached, Done, Reissue, WrongPathD, OnPathD, Missing, IndexM, IndexX,
      EmptyCache, Loaded;
    MemoryCarries(p, a0, g, ms, s, k, waited);
    if MemNext(p, s).busy {
      BusyCycle(p, s);
      IndexSteps(s, Cycle(p, s), k);
    } else {
      ReadyCycleFields(p, a0, s, k);
      Indices(p, a0, s, Cycle(p, s), k);
      NothingReissued(g, Done(p, a0, g, ms, IndexX(s, k)), Cycle(p, s).mOut);
    }
  }

  lemma NothingReissued(g: Geometry, ms: MemSys, m: MReg)
    requires Shaped(g, ms.cache)
    ensures Reissue(g, ms, m.valEx, m.ms.write, 0) == ms
  {}

  lemma DoneIsIdle(p: Program, a0: Arch, g: Geometry, ms: MemSys, n: nat)
    requires a0.regs.Valid() && Idle(g, ms)
    ensures var m := Done(p, a0, g, ms, n);
      CacheOk(g, m) && !m.inflight && !m.busy
  {
    hide IsPow2, Coherent, PerformAll, Accesses;
    AllDone(g, ms, Accesses(p, a0, n));
  }

  lemma {:induction false} RunCarries(p: Program, a0: Arch, g: Geometry, ms: MemSys, n: nat) returns (waited: nat)
    requires a0.regs.Valid() && WellBehaved(p, a0) && Starts(p, a0, ms) && p.cfg.cache == WithCache(g) && Idle(g, ms)
    ensures var s := Run(p, BootOf(a0, ms), n);
      var i := IndexM(s, |Retired(p, BootOf(a0, ms), n)|);
      && Carries(g, s.mem, Done(p, a0, g, ms, i), s.mOut, waited)
      && Waits(p, BootOf(a0, ms), n) == Product(g.d - 1, Missed(g, ms, Accesses(p, a0, i))) + waited
  {
    hide Cycle, Inv, DataBehaves, FetchesText, View, MemOk, MemShaped, Carries, Done, Missed, Accesses, Product,
      MemNext, IsPow2, Coherent, Missing, IndexM, Retired, Run, Loaded, At;
    var s0 := BootOf(a0, ms);
    if n == 0 {
      waited := 0;
      StartCarries(p, a0, g, ms);
    } else {
      var before := RunCarries(p, a0, g, ms, n - 1);
      RunInv(p, a0, ms, n - 1);
      var s, k := Run(p, s0, n - 1), |Retired(p, s0, n - 1)|;
      CycleCarries(p, a0, g, ms, s, k, before);
      NextLength(p, s0, n);
      waited := if Cycle(p, s).mem.busy then before + 1 else 0;
      ProductStep(g.d - 1, Missed(g, ms, Accesses(p, a0, IndexM(s, k))));
    }
  }

  lemma StartCarries(p: Program, a0: Arch, g: Geometry, ms: MemSys)
    requires a0.regs.Valid() && Starts(p, a0, ms) && Idle(g, ms)
    ensures var s := Run(p, BootOf(a0, ms), 0);
      var i := IndexM(s, |Retired(p, BootOf(a0, ms), 0)|);
      && Carries(g, s.mem, Done(p, a0, g, ms, i), s.mOut, 0)
      && Waits(p, BootOf(a0, ms), 0) == 0 == Product(g.d - 1, Missed(g, ms, Accesses(p, a0, i)))
  {
    hide View, MemOk, IsPow2, Coherent, EmptyCache, Loaded;
    assert Accesses(p, a0, 0) == [];
  }

  /** With the end of the program in writeback, as instruction number `h`, exactly this
      many cycles have passed and this many misses are counted, in terms of the program
      alone: d - 1 cycles more for each access whose block is not among the most recently
      used ones of its set. */
  lemma ExactCycles(p: Program, a0: Arch, g: Geometry, ms: MemSys, n: nat)
    requires a0.regs.Valid() && WellBehaved(p, a0) && Starts(p, a0, ms) && p.cfg.cache == WithCache(g) && Idle(g, ms)
    requires Ends(Run(p, BootOf(a0, ms), n).wOut.status)
    ensures var h := |Retired(p, BootOf(a0, ms), n)|;
      && Halted(p, At(p, a0, h))
      && n == h + 4 + PenaltySum(p, a0, h) + Product(g.d - 1, Misses(p, a0, g, h))
      && Run(p, BootOf(a0, ms), n).mem.cache.misses == Product(g.d, Misses(p, a0, g, h))
  {
    hide Cycle, Inv, DataBehaves, FetchesText, View, MemOk, MemShaped, Carries, Done, Missed, Accesses, Product,
      IsPow2, Coherent, Misses, PenaltySum, Waits, At, Halted, TailFull, IndexM, Retired, Run, Loaded;
    var s0 := BootOf(a0, ms);
    var s, h := Run(p, s0, n), |Retired(p, s0, n)|;
    HaltCycle(p, a0, ms, n);
    RunInv(p, a0, ms, n);
    RunTail(p, a0, ms, n);
    var waited := RunCarries(p, a0, g, ms, n);
    NotBusyAtEnd(p, a0, s, h);
    LastAccess(p, a0, g, ms, h);
    MissesAreMissed(p, a0, g, ms, h);
    CountAtEnd(p, a0, g, ms, s, h + 1, waited);
  }

  lemma NotBusyAtEnd(p: Program, a0: Arch, s: Cpu, h: nat)
    requires a0.regs.Valid() && DataBehaves(p, a0) && Inv(p, a0, s, h) && TailFull(s) && Ends(s.wOut.status)
    ensures !s.mem.busy && IndexM(s, h) == h + 1
  {
    hide HoldsX, HoldsW, HoldsD, FetchReady, Squashed, DataAgrees, MemOk, DataBehaves, At, SeqM, Halted, Loaded;
    AllBehave(p, a0, h + 1);
    if !Halted(p, At(p, a0, h + 1)) { StatusOf(p, At(p, a0, h + 1)); }
  }

  /** The end of the program accesses nothing. */
  lemma LastAccess(p: Program, a0: Arch, g: Geometry, ms: MemSys, h: nat)
    requires a0.regs.Valid() && Halted(p, At(p, a0, h)) && Shaped(g, ms.cache)
    ensures Accesses(p, a0, h + 1) == Accesses(p, a0, h)
  {
    hide At, Halted, SeqM;
    assert Accesses(p, a0, h + 1) == Accesses(p, a0, h) + [];
  }

  lemma CountAtEnd(p: Program, a0: Arch, g: Geometry, ms: MemSys, s: Cpu, i: nat, waited: nat)
    requires a0.regs.Valid() && Idle(g, ms) && !s.mem.busy && Carries(g, s.mem, Done(p, a0, g, ms, i), s.mOut, waited)
    ensures waited == 0 && s.mem.cache.misses == Product(g.d, Missed(g, ms, Accesses(p, a0, i)))
  {
    hide IsPow2, Coherent, PerformAll, Accesses, Missed, Product;
    CountersMean(g, ms, Accesses(p, a0, i));
    NothingReissued(g, Done(p, a0, g, ms, i), s.mOut);
  }
}
