/** What happens when fetch does go through the data cache: whatever the instruction there,
    the pipeline waits for it, and may wait forever. */
module DataFetch {
  import opened Words
  import opened Isa
  import opened CacheModel
  import opened CacheCoherence
  import opened MemorySystem
  import opened MissTiming
  import opened Datapath
  import opened Sequential
  import opened Pipeline
  import opened Invariant
  import opened CycleFields
  import opened CacheTiming

  /** The memory system after a cycle is what the two stages that use it leave. */
  lemma CycleMem(p: Program, s: Cpu)
    requires s.Ok(p.cfg)
    ensures Cycle(p, s).mem == MemNext(p, s)
  {
    hide DataAccess, FetchMem, Execute, ExecuteFlags, Decode, Sources, Fetched, FetchHalts, SelectPC, StickyStatus,
      NextPC, MemoryOut, ForwardOne, WriteValue, Requested, LatchOne, ControlStage;
  }

  // The lookup.

  lemma WithinWord(a: Word, i: nat)
    requires a % 4 == 0 && i < 4
    ensures a % 8 + i < 8 && (a - a % 8) % 8 == 0 && a + i < TWO64 && Wrap(a + i) == a + i
  {}

  /** A word of an instruction lies in one block. */
  lemma {:induction false} LookUpKeepsView(g: Geometry, ms: MemSys, a: Word, i: nat)
    requires CacheOk(g, ms) && a % 4 == 0 && i <= 4
    ensures var (m, ok) := LookUp(g, ms, a, i);
      SameView(g, ms, m) && m.busy == (ms.busy || !ok)
    decreases 4 - i
  {
    hide IsPow2, Coherent, Flat, Cached, AccessByte, LookUp, Geometry.Valid;
    LookUpUnfolds(g, ms, a, i);
    if i < 4 {
      WithinWord(a, i);
      AccessByteKeepsView(g, ms, a - a % 8, a % 8 + i, false);
      var (m, ok) := AccessByte(g, ms, a + i, false);
      if ok { LookUpKeepsView(g, m, a, i + 1); }
    }
  }

  /** The fetch of a missing word waits out the countdown of its block. */
  lemma LookUpWaits(g: Geometry, ms: MemSys, a: Word)
    requires CacheOk(g, ms) && !Cached(g, ms.cache, a) && CyclesLeft(g, ms, g.BlockBase(a)) > 1
    ensures var (m, ok) := LookUp(g, ms, a, 0);
      && !ok && m == Waiting(g, ms, g.BlockBase(a), CyclesLeft(g, ms, g.BlockBase(a)) - 1)
      && CacheOk(g, m) && !Cached(g, m.cache, a)
  {
    hide IsPow2, Coherent, Cached, Fill, Flat, Geometry.BlockBase, CheckHit, LookUp;
    LookUpUnfolds(g, ms, a, 0);
    HitCounts(g, ms.cache, a, false);
    CheckHitKeepsFlat(g, ms.cache, ms.raw, a, false);
    assert Wrap(a + 0) == a;
  }

  lemma {:induction false} LookUpHits(g: Geometry, ms: MemSys, a: Word, i: nat)
    requires CacheOk(g, ms) && a % 4 == 0 && i <= 4 && Cached(g, ms.cache, a - a % 8)
    ensures var (m, ok) := LookUp(g, ms, a, i);
      ok && m == ms.(cache := m.cache)
    decreases 4 - i
  {
    hide IsPow2, Coherent, Cached, AccessByte, LookUp;
    LookUpUnfolds(g, ms, a, i);
    if i < 4 {
      WithinWord(a, i);
      HitByte(g, ms, a - a % 8, false, a % 8 + i);
      LookUpHits(g, AccessByte(g, ms, a + i, false).0, a, i + 1);
    }
  }

  lemma LastByteComes(g: Geometry, ms: MemSys, b: Word)
    requires CacheOk(g, ms) && CyclesLeft(g, ms, g.BlockBase(b)) == 1
    ensures AccessByte(g, ms, b, false).1
  {
    hide IsPow2, Coherent, Cached, Fill, Flat, Geometry.BlockBase, CheckHit;
  }

  /** A fetch from the data is over in its cycle, and lets the pipeline go on, exactly if its
      word is cached or the wait for its block is over. */
  lemma FetchIsOver(cfg: Config, g: Geometry, ms: MemSys, pc: Word)
    requires cfg.cache == WithCache(g) && CacheOk(g, ms) && MemShaped(cfg, ms) && FetchCached(cfg, pc) && pc % 4 == 0
    ensures !InstrRead(cfg, ms, pc).busy <==> Cached(g, ms.cache, pc) || CyclesLeft(g, ms, g.BlockBase(pc)) <= 1
  {
    hide IsPow2, Coherent, Cached, AccessByte, LookUp, Geometry.BlockBase, CyclesLeft;
    WithinWord(pc, 0);
    CachedByWord(g, ms.cache, pc - pc % 8, pc % 8);
    LookUpUnfolds(g, ms, pc, 0);
    WaitsAtLeastOne(g, ms, g.BlockBase(pc));
    if Cached(g, ms.cache, pc) {
      LookUpHits(g, ms, pc, 0);
    } else if CyclesLeft(g, ms, g.BlockBase(pc)) > 1 {
      LookUpWaits(g, ms, pc);
    } else {
      LastByteComes(g, ms, pc);
      AccessByteKeepsView(g, ms, pc - pc % 8, pc % 8, false);
      LookUpHits(g, AccessByte(g, ms, pc, false).0, pc, 1);
    }
  }

  lemma WaitsAtLeastOne(g: Geometry, ms: MemSys, block: Word)
    requires CacheOk(g, ms)
    ensures CyclesLeft(g, ms, block) >= 1
  {
    hide IsPow2, Coherent;
  }

  // Waiting forever.

  /** Fetch has been to the data and given up, the memory system still waits for what it
      asked for, and the instruction in memory asks for nothing. */
  predicate Stuck(p: Program, s: Cpu) {
    && s.Ok(p.cfg) && NoFault(s) && s.mem.busy
    && Ends(s.fIn.status) && !Redirected(s) && !IsAccess(p.cfg, s.mOut)
  }

  lemma NoAccessWaits(cfg: Config, ms: MemSys, m: MReg)
    requires MemShaped(cfg, ms) && ms.busy && !IsAccess(cfg, m)
    ensures DataAccess(cfg, ms, m).0.busy
  {
    hide DataWord;
  }

  lemma GivenUp(p: Program, s: Cpu)
    requires s.Ok(p.cfg) && Ends(s.fIn.status) && !Redirected(s)
    ensures FetchHalts(s) && FetchMem(p, s) == s.mem && Ends(FetchStatusAfter(p, s))
  {
    hide SelectPC, InstrRead;
  }

  lemma StuckStays(p: Program, s: Cpu)
    requires Stuck(p, s)
    ensures Stuck(p, Cycle(p, s)) && Cycle(p, s).status == s.wOut.status && Cycle(p, s).wOut == W_BUBBLE
  {
    hide Cycle, DataAccess, FetchMem, FetchStatusAfter, Fetched, WriteRegs, FetchHalts, IsAccess, MemShaped;
    GivenUp(p, s);
    NoAccessWaits(p.cfg, s.mem, s.mOut);
    BusyCycle(p, s);
  }

  lemma {:induction false} StuckForever(p: Program, s: Cpu, n: nat)
    requires Stuck(p, s) && n > 0
    ensures Stuck(p, Run(p, s, n)) && Run(p, s, n).wOut == W_BUBBLE
    ensures Run(p, s, n).status == if n == 1 then s.wOut.status else BUB
  {
    hide Cycle, NoFault, MemShaped, Redirected, IsAccess;
    if n > 1 { StuckForever(p, s, n - 1); }
    StuckStays(p, Run(p, s, n - 1));
  }

  /** A fetch from the data delivers no instruction. */
  lemma FetchesNothing(p: Program, s: Cpu)
    requires !FetchHalts(s) && FetchCached(p.cfg, SelectPC(s))
    ensures Fetched(p, s).status == INS && Ends(FetchStatusAfter(p, s))
  {
    hide FetchHalts, SelectPC, FetchWord;
  }

  lemma GetsStuck(p: Program, s: Cpu)
    requires s.Ok(p.cfg) && NoFault(s) && !Redirected(s) && !IsAccess(p.cfg, s.mOut)
    requires !FetchHalts(s) && FetchCached(p.cfg, SelectPC(s)) && FetchMem(p, s).busy
    ensures Stuck(p, Cycle(p, s)) && Cycle(p, s).wOut == W_BUBBLE
  {
    hide Cycle, DataAccess, FetchMem, FetchStatusAfter, Fetched, WriteRegs, FetchHalts, IsAccess, MemShaped, SelectPC;
    FetchesNothing(p, s);
    NoAccessWaits(p.cfg, FetchMem(p, s), s.mOut);
    BusyCycle(p, s);
  }

  // Waiting for a data access as well.

  /** Each further call of an access brings its completion nearer. */
  lemma DataCalls(cfg: Config, g: Geometry, ms: MemSys, m: MReg)
    requires cfg.cache == WithCache(g) && CacheOk(g, ms) && MemShaped(cfg, ms)
    requires IsAccess(cfg, m) && !(m.ms.read && m.ms.write)
    ensures var ms' := DataAccess(cfg, ms, m).0;
      var block := g.BlockBase(m.valEx);
      ms'.busy ==> CacheOk(g, ms') && CyclesLeft(g, ms', block) < CyclesLeft(g, ms, block)
  {
    hide IsPow2, Coherent, Access, Cached, WordCached, GetWord, SetWord, DataWord, Geometry.BlockBase;
    AccessAligned(cfg, m);
    var (t, ok) := Access(g, ms, m.valEx, m.ms.write, 0);
    if Cached(g, ms.cache, m.valEx) {
      HitAccess(g, ms, m.valEx, m.ms.write);
    } else {
      MissAccess(g, ms, m.valEx, m.ms.write);
    }
    if ok { WordIsCached(g, t, m.valEx); }
  }

  /** Fetch has given up, and the instruction in memory has an access to make. */
  ghost predicate Pending(p: Program, g: Geometry, s: Cpu) {
    && p.cfg.cache == WithCache(g) && s.Ok(p.cfg) && NoFault(s) && CacheOk(g, s.mem)
    && Ends(s.fIn.status) && !Redirected(s) && IsAccess(p.cfg, s.mOut) && !(s.mOut.ms.read && s.mOut.ms.write)
  }

  lemma PendingStays(p: Program, g: Geometry, s: Cpu)
    requires Pending(p, g, s) && Cycle(p, s).mem.busy
    ensures var s', block := Cycle(p, s), g.BlockBase(s.mOut.valEx);
      && Pending(p, g, s') && s'.mOut == s.mOut && CyclesLeft(g, s'.mem, block) < CyclesLeft(g, s.mem, block)
  {
    hide Cycle, DataAccess, FetchMem, FetchStatusAfter, Fetched, WriteRegs, FetchHalts, IsAccess, MemShaped, IsPow2,
      Coherent, Geometry.BlockBase, CyclesLeft;
    GivenUp(p, s);
    CycleMem(p, s);
    BusyCycle(p, s);
    DataCalls(p.cfg, g, s.mem, s.mOut);
  }

  lemma {:induction false} PendingEnds(p: Program, g: Geometry, s: Cpu) returns (n: nat)
    requires Pending(p, g, s)
    ensures n > 0 && !Run(p, s, n).mem.busy
    decreases CyclesLeft(g, s.mem, g.BlockBase(s.mOut.valEx))
  {
    hide Cycle, IsAccess, Coherent, Geometry.BlockBase, CyclesLeft;
    if Cycle(p, s).mem.busy {
      PendingStays(p, g, s);
      var m := PendingEnds(p, g, Cycle(p, s));
      OneEarlier(p, s, m);
      n := m + 1;
    } else {
      n := 1;
    }
  }

  lemma {:induction false} OneEarlier(p: Program, s: Cpu, n: nat)
    requires s.Ok(p.cfg)
    ensures Run(p, s, n + 1) == Run(p, Cycle(p, s), n)
  {
    hide Cycle;
    if n > 0 { OneEarlier(p, s, n - 1); }
  }

  lemma MakesPending(p: Program, g: Geometry, s: Cpu)
    requires p.cfg.cache == WithCache(g) && s.Ok(p.cfg) && NoFault(s) && CacheOk(g, s.mem) && !Redirected(s)
    requires IsAccess(p.cfg, s.mOut) && !(s.mOut.ms.read && s.mOut.ms.write)
    requires !FetchHalts(s) && FetchCached(p.cfg, SelectPC(s)) && SelectPC(s) % 4 == 0 && Cycle(p, s).mem.busy
    ensures Pending(p, g, Cycle(p, s))
  {
    hide Cycle, DataAccess, FetchStatusAfter, Fetched, WriteRegs, FetchHalts, IsAccess, MemShaped, SelectPC, LookUp,
      Coherent, IsPow2, Flat, FetchCached;
    FetchesNothing(p, s);
    CycleMem(p, s);
    BusyCycle(p, s);
    FetchKeepsOk(p, g, s);
    DataCalls(p.cfg, g, FetchMem(p, s), s.mOut);
  }

  lemma FetchKeepsOk(p: Program, g: Geometry, s: Cpu)
    requires p.cfg.cache == WithCache(g) && s.Ok(p.cfg) && CacheOk(g, s.mem)
    requires !FetchHalts(s) && FetchCached(p.cfg, SelectPC(s)) && SelectPC(s) % 4 == 0
    ensures CacheOk(g, FetchMem(p, s))
  {
    hide FetchHalts, SelectPC, LookUp, Coherent, IsPow2, Flat, FetchCached;
    LookUpKeepsView(g, s.mem, SelectPC(s), 0);
  }

  /** A fetch from the data that has to wait, on the path fetch chose by itself, ends all
      progress for good if and only if the instruction then in memory has no data access of
      its own: fetch never asks again, so nobody notices that the word has come. */
  lemma StuckIffNoAccess(p: Program, g: Geometry, s: Cpu)
    requires p.cfg.cache == WithCache(g) && s.Ok(p.cfg) && NoFault(s) && CacheOk(g, s.mem) && !Redirected(s)
    requires !(s.mOut.ms.read && s.mOut.ms.write)
    requires !FetchHalts(s) && FetchCached(p.cfg, SelectPC(s)) && SelectPC(s) % 4 == 0 && FetchMem(p, s).busy
    ensures (forall n: nat | n > 0 :: Run(p, s, n).mem.busy) <==> !IsAccess(p.cfg, s.mOut)
    ensures !IsAccess(p.cfg, s.mOut) ==> forall n: nat | n > 1 :: Run(p, s, n).status == BUB
  {
    hide Cycle, IsAccess, FetchHalts, SelectPC, FetchMem, FetchCached, Coherent, NoFault, MemShaped, Redirected, Run;
    if IsAccess(p.cfg, s.mOut) {
      var n := 1;
      assert Run(p, s, 1) == Cycle(p, s) by { OneEarlier(p, s, 0); NoCycles(p, Cycle(p, s)); }
      if Cycle(p, s).mem.busy {
        MakesPending(p, g, s);
        var m := PendingEnds(p, g, Cycle(p, s));
        OneEarlier(p, s, m);
        n := m + 1;
      }
      assert !Run(p, s, n).mem.busy;
    } else {
      GetsStuck(p, s);
      forall n: nat | n > 0 ensures Run(p, s, n).mem.busy && (n > 1 ==> Run(p, s, n).status == BUB) {
        OneEarlier(p, s, n - 1);
        NoCycles(p, Cycle(p, s));
        if n > 1 { StuckForever(p, Cycle(p, s), n - 1); }
      }
    }
  }

  lemma NoCycles(p: Program, s: Cpu)
    requires s.Ok(p.cfg)
    ensures Run(p, s, 0) == s
  {}

  // Printing more than once.

  /** A RET in execute sends fetch to a word of the data that is not cached, and the
      instruction in memory prints. */
  ghost predicate Printing(p: Program, g: Geometry, s: Cpu) {
    && p.cfg.cache == WithCache(g) && s.Ok(p.cfg) && NoFault(s) && CacheOk(g, s.mem)
    && s.xOut.op == RET && !FetchHalts(s) && FetchCached(p.cfg, SelectPC(s)) && !Cached(g, s.mem.cache, SelectPC(s))
    && s.mOut.op != B_COND && s.mOut.ms == MSigs(false, true) && s.mOut.valEx == IO_CHAR_ADDR
  }

  /** The cycles until the word has come. */
  function Left(g: Geometry, s: Cpu): nat
    requires g.Valid()
  {
    CyclesLeft(g, s.mem, g.BlockBase(SelectPC(s)))
  }

  lemma Prints(cfg: Config, ms: MemSys, m: MReg)
    requires MemShaped(cfg, ms) && m.ms == MSigs(false, true) && m.valEx == IO_CHAR_ADDR
    ensures DataAccess(cfg, ms, m).0 == ms.(output := ms.output + [m.valB])
  {}

  lemma PrintingStays(p: Program, g: Geometry, s: Cpu)
    requires Printing(p, g, s) && Left(g, s) > 1
    ensures var s' := Cycle(p, s);
      && Printing(p, g, s') && Left(g, s') == Left(g, s) - 1 && s'.mOut == s.mOut
      && s'.mem.output == s.mem.output + [s.mOut.valB]
  {
    hide Cycle, DataAccess, FetchStatusAfter, Fetched, WriteRegs, MemShaped, LookUp, Coherent, IsPow2, Flat, Cached,
      Geometry.BlockBase, FetchCached;
    LookUpWaits(g, s.mem, SelectPC(s));
    Prints(p.cfg, FetchMem(p, s), s.mOut);
    CycleMem(p, s);
    BusyCycle(p, s);
  }

  lemma PrintsNow(p: Program, g: Geometry, s: Cpu)
    requires Printing(p, g, s)
    ensures Cycle(p, s).mem.output == s.mem.output + [s.mOut.valB]
  {
    hide Cycle, DataAccess, FetchStatusAfter, Fetched, WriteRegs, MemShaped, LookUp, Coherent, IsPow2, Flat, Cached,
      Geometry.BlockBase, FetchCached, FetchHalts, SelectPC;
    CycleMem(p, s);
    Prints(p.cfg, FetchMem(p, s), s.mOut);
    FetchPrintsNothing(p, g, s);
  }

  lemma FetchPrintsNothing(p: Program, g: Geometry, s: Cpu)
    requires p.cfg.cache == WithCache(g) && s.Ok(p.cfg)
    ensures FetchMem(p, s).output == s.mem.output
  {
    hide SelectPC, FetchHalts, LookUp;
    LookUpPrintsNothing(g, s.mem, SelectPC(s), 0);
  }

  lemma {:induction false} LookUpPrintsNothing(g: Geometry, ms: MemSys, a: Word, i: nat)
    requires Shaped(g, ms.cache) && i <= 4
    ensures LookUp(g, ms, a, i).0.output == ms.output
    decreases 4 - i
  {
    hide CheckHit, Fill, Geometry.BlockBase, IsPow2;
    if i < 4 {
      var (m, ok) := AccessByte(g, ms, Wrap(a + i), false);
      if ok { LookUpPrintsNothing(g, m, a, i + 1); }
    }
  }

  /** The store is carried out again in every cycle the fetch has to wait: a word that the
      program prints once comes out once a cycle, d times for a miss that has not begun. */
  lemma {:induction false} PrintsEachCycle(p: Program, g: Geometry, s: Cpu, n: nat)
    requires Printing(p, g, s) && n <= Left(g, s)
    ensures Run(p, s, n).mem.output == s.mem.output + seq(n, _ => s.mOut.valB)
    ensures n < Left(g, s) ==> Printing(p, g, Run(p, s, n)) && Run(p, s, n).mOut == s.mOut
    ensures n < Left(g, s) ==> Left(g, Run(p, s, n)) == Left(g, s) - n
  {
    hide Cycle, Coherent, Cached, FetchCached, FetchHalts, SelectPC, NoFault, MemShaped, Left;
    if n > 0 {
      PrintsEachCycle(p, g, s, n - 1);
      var t := Run(p, s, n - 1);
      PrintsNow(p, g, t);
      if n < Left(g, s) { PrintingStays(p, g, t); }
    }
  }
}
