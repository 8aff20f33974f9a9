/** True LRU for the words the emulator itself accesses: which of them miss, over any
    sequence of completed operations. */
module WordTrace {
  import opened Words
  import opened Lru
  import opened CacheSet
  import opened LruContents
  import opened CacheModel
  import opened CacheCoherence
  import opened CacheTrace
  import opened MemorySystem
  import opened MissTiming

  /** The eight lookups of a word count as one use of its block. */
  lemma DedupTracks(A: Ways, s: Set, h: seq<Word>, t: Word)
    requires Tracks(A, s, h + [t] + [t])
    ensures Tracks(A, s, h + [t])
  {
    hide MatrixBit, ZeroRow, LastUse;
    forall u ensures LastUse(h + [t] + [t], u) == (if u == t then |h| + 2 else LastUse(h, u)) {
      LastUseSnoc(h + [t], t, u);
      LastUseSnoc(h, t, u);
    }
    forall u ensures LastUse(h + [t], u) == (if u == t then |h| + 1 else LastUse(h, u)) {
      LastUseSnoc(h, t, u);
    }
    forall u, i | u in h + [t] && !Holds(s, u) && 0 <= i < A
      ensures LineUse(s, h + [t], i) > LastUse(h + [t], u)
    {
      assert LineUse(s, h + [t] + [t], i) > LastUse(h + [t] + [t], u);
    }
  }

  /** Only the set of `a` has changed, and it now tracks `h`. */
  ghost predicate Touched(g: Geometry, c: Cache, c': Cache, a: Word, h: seq<Word>) {
    && Shaped(g, c) && Shaped(g, c')
    && Tracks(g.A, c'.sets[g.SetIndex(a)], h)
    && forall k | 0 <= k < g.S && k != g.SetIndex(a) :: c'.sets[k] == c.sets[k]
  }

  lemma HitTouches(g: Geometry, ms: MemSys, a: Word, write: bool, i: nat, h: seq<Word>)
    requires CacheOk(g, ms) && a % 8 == 0 && i < 8 && Cached(g, ms.cache, a)
    requires Tracks(g.A, ms.cache.sets[g.SetIndex(a)], h)
    ensures a + i < TWO64
    ensures Touched(g, ms.cache, AccessByte(g, ms, a + i, write).0.cache, a, h + [g.Tag(a)])
  {
    hide IsPow2, Coherent, Tracks, Fill, HitLine, Geometry.BlockBase, Geometry.SetIndex, Geometry.Tag;
    AlignedWord(g, a, i);
    CachedByWord(g, ms.cache, a, i);
    HitTracks(g.A, ms.cache.sets[g.SetIndex(a)], h, g.Tag(a), write);
  }

  lemma FillTouches(g: Geometry, ms: MemSys, a: Word, write: bool, h: seq<Word>)
    requires CacheOk(g, ms) && a % 8 == 0 && !Cached(g, ms.cache, a) && CyclesLeft(g, ms, g.BlockBase(a)) == 1
    requires Tracks(g.A, ms.cache.sets[g.SetIndex(a)], h)
    ensures Touched(g, ms.cache, AccessByte(g, ms, a, write).0.cache, a, h + [g.Tag(a)])
  {
    hide IsPow2, Coherent, Tracks, Install, Victim, Geometry.BlockBase, Geometry.SetIndex, Geometry.Tag, EvictedAddr,
      WriteBack, CyclesLeft;
    MissVictim(g, ms.cache, ms.raw, a);
    AlignedBlock(g, a);
    var base := g.BlockBase(a);
    InstallTracks(g.A, ms.cache.sets[g.SetIndex(a)], h, g.Tag(a), write, ms.raw[base..base + g.B]);
  }

  lemma TouchedAgain(g: Geometry, c: Cache, c': Cache, c'': Cache, a: Word, h: seq<Word>, h': seq<Word>)
    requires Touched(g, c, c', a, h) && Touched(g, c', c'', a, h')
    ensures Touched(g, c, c'', a, h')
  {}

  lemma {:induction false} RestTouches(g: Geometry, ms: MemSys, a: Word, write: bool, i: nat, h: seq<Word>)
    requires CacheOk(g, ms) && a % 8 == 0 && i <= 8 && Cached(g, ms.cache, a)
    requires Tracks(g.A, ms.cache.sets[g.SetIndex(a)], h + [g.Tag(a)])
    ensures Touched(g, ms.cache, Access(g, ms, a, write, i).0.cache, a, h + [g.Tag(a)])
    decreases 8 - i
  {
    hide IsPow2, Coherent, Tracks, AccessByte, Access, Cached, Geometry.SetIndex, Geometry.Tag;
    AccessUnfolds(g, ms, a, write, i);
    if i < 8 {
      var t := g.Tag(a);
      HitByte(g, ms, a, write, i);
      HitTouches(g, ms, a, write, i, h + [t]);
      var m := AccessByte(g, ms, a + i, write).0;
      DedupTracks(g.A, m.cache.sets[g.SetIndex(a)], h, t);
      RestTouches(g, m, a, write, i + 1, h);
      TouchedAgain(g, ms.cache, m.cache, Access(g, m, a, write, i + 1).0.cache, a, h + [t], h + [t]);
    }
  }

  /** A call that completes uses the block once. */
  lemma AccessTouches(g: Geometry, ms: MemSys, a: Word, write: bool, h: seq<Word>)
    requires CacheOk(g, ms) && a % 8 == 0 && Tracks(g.A, ms.cache.sets[g.SetIndex(a)], h)
    requires Cached(g, ms.cache, a) || CyclesLeft(g, ms, g.BlockBase(a)) == 1
    ensures Touched(g, ms.cache, Access(g, ms, a, write, 0).0.cache, a, h + [g.Tag(a)])
  {
    hide IsPow2, Coherent, Tracks, AccessByte, Access, Cached, Geometry.SetIndex, Geometry.Tag, Geometry.BlockBase,
      CyclesLeft;
    AccessUnfolds(g, ms, a, write, 0);
    var m := AccessByte(g, ms, a, write).0;
    if Cached(g, ms.cache, a) {
      HitByte(g, ms, a, write, 0);
      HitTouches(g, ms, a, write, 0, h);
    } else {
      MissByte(g, ms, a, write);
      FillTouches(g, ms, a, write, h);
    }
    RestTouches(g, m, a, write, 1, h);
    TouchedAgain(g, ms.cache, m.cache, Access(g, m, a, write, 1).0.cache, a, h + [g.Tag(a)], h + [g.Tag(a)]);
  }

  // Whole operations.

  /** Every set is what true LRU leaves after the trace. */
  ghost predicate SetsTrack(g: Geometry, c: Cache, trace: seq<Request>) {
    Shaped(g, c) && forall k | 0 <= k < g.S :: Tracks(g.A, c.sets[k], History(g, trace, k))
  }

  lemma HistoryGrows(g: Geometry, trace: seq<Request>, r: Request, k: nat)
    requires g.Valid()
    ensures History(g, trace + [r], k) ==
      if g.SetIndex(r.addr) == k then History(g, trace, k) + [g.Tag(r.addr)] else History(g, trace, k)
  {
    hide Geometry.SetIndex, Geometry.Tag, IsPow2;
    assert (trace + [r])[..|trace|] == trace;
  }

  lemma TouchTracks(g: Geometry, c: Cache, c': Cache, r: Request, trace: seq<Request>)
    requires SetsTrack(g, c, trace)
    requires Touched(g, c, c', r.addr, History(g, trace, g.SetIndex(r.addr)) + [g.Tag(r.addr)])
    ensures SetsTrack(g, c', trace + [r])
  {
    hide Geometry.SetIndex, Geometry.Tag, IsPow2, Tracks;
    forall k | 0 <= k < g.S ensures Tracks(g.A, c'.sets[k], History(g, trace + [r], k)) {
      HistoryGrows(g, trace, r, k);
    }
  }

  lemma DataKeepsSets(g: Geometry, c: Cache, a: Word, v: Word, trace: seq<Request>)
    requires SetsTrack(g, c, trace) && WordCached(g, c, a)
    ensures SetsTrack(g, SetWord(g, c, a, v), trace)
  {
    hide Geometry.SetIndex, Geometry.Tag, Geometry.Offset, IsPow2, Tracks;
    var k := g.SetIndex(a);
    var s := c.sets[k];
    var i := Find(s.lines, g.Tag(a), 0);
    var l := SetWord(g, c, a, v).sets[k].lines[i];
    DataKeepsTracks(g.A, s, History(g, trace, k), i, l);
  }

  function Asks(op: Op): Request {
    Request(op.addr, op.write)
  }

  function TraceOf(ops: seq<Op>): seq<Request> {
    seq(|ops|, i requires 0 <= i < |ops| => Asks(ops[i]))
  }

  lemma PerformTracks(g: Geometry, ms: MemSys, op: Op, trace: seq<Request>)
    requires CacheOk(g, ms) && op.addr % 8 == 0 && !ms.inflight && SetsTrack(g, ms.cache, trace)
    ensures SetsTrack(g, Perform(g, ms, op).cache, trace + [Asks(op)])
  {
    hide IsPow2, Coherent, Tracks, Access, Cached, Geometry.SetIndex, Geometry.Tag, Geometry.BlockBase, Reissue,
      CyclesLeft, WordCached, GetWord, SetWord, History;
    var a, w := op.addr, op.write;
    var before := if Cached(g, ms.cache, a) then ms else Reissue(g, ms, a, w, g.d - 1);
    if !Cached(g, ms.cache, a) { MissTakesD(g, ms, a, w, g.d - 1); }
    SameSets(g, ms.cache, before.cache, trace);
    var (m, ok) := Access(g, before, a, w, 0);
    AccessTouches(g, before, a, w, History(g, trace, g.SetIndex(a)));
    TouchTracks(g, before.cache, m.cache, Asks(op), trace);
    ReadyCompletes(g, ms, a, w);
    if w { DataKeepsSets(g, m.cache, a, op.value, trace + [Asks(op)]); }
  }

  lemma SameSets(g: Geometry, c: Cache, c': Cache, trace: seq<Request>)
    requires SetsTrack(g, c, trace) && c'.sets == c.sets
    ensures SetsTrack(g, c', trace)
  {
    hide Tracks, IsPow2;
  }

  lemma {:induction false} PerformAllTracks(g: Geometry, ms: MemSys, ops: seq<Op>)
    requires CacheOk(g, ms) && !ms.inflight && ms.cache == EmptyCache(g)
    requires forall i | 0 <= i < |ops| :: ops[i].addr % 8 == 0
    ensures var m := PerformAll(g, ms, ops);
      CacheOk(g, m) && !m.inflight && SetsTrack(g, m.cache, TraceOf(ops))
  {
    hide IsPow2, Coherent, Tracks, Perform, SetsTrack, EmptyCache;
    if ops == [] {
      EmptySets(g);
    } else {
      var rest, op := ops[..|ops| - 1], ops[|ops| - 1];
      PerformAllTracks(g, ms, rest);
      PerformTracks(g, PerformAll(g, ms, rest), op, TraceOf(rest));
      PerformCounts(g, PerformAll(g, ms, rest), op);
      assert TraceOf(ops) == TraceOf(rest) + [Asks(op)];
    }
  }

  lemma EmptySets(g: Geometry)
    requires g.Valid()
    ensures SetsTrack(g, EmptyCache(g), [])
  {
    hide Tracks, IsPow2;
    EmptyTracks(g);
  }

  /** The emulator's own data cache is true LRU: a word is present exactly when its block
      is among the most recently used ones of its set. */
  lemma WordHitIffRecent(g: Geometry, ms: MemSys, ops: seq<Op>, a: Word)
    requires CacheOk(g, ms) && !ms.inflight && ms.cache == EmptyCache(g)
    requires forall i | 0 <= i < |ops| :: ops[i].addr % 8 == 0
    ensures Cached(g, PerformAll(g, ms, ops).cache, a) <==> Recent(g, TraceOf(ops), a)
  {
    hide IsPow2, Coherent, Tracks, PerformAll, EmptyCache, Geometry.SetIndex, Geometry.Tag, History, Newer;
    PerformAllTracks(g, ms, ops);
    var k := g.SetIndex(a);
    ContentsAreMostRecent(g.A, PerformAll(g, ms, ops).cache.sets[k], History(g, TraceOf(ops), k), g.Tag(a));
  }
}
