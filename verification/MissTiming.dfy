/** How long a miss takes and what it does to the counters. */
module MissTiming {
  import opened Words
  import opened Arith
  import opened CacheSet
  import opened FlatMemory
  import opened CacheModel
  import opened CacheCoherence
  import opened MemorySystem

  lemma HitByte(g: Geometry, ms: MemSys, a: Word, write: bool, i: nat)
    requires CacheOk(g, ms) && a % 8 == 0 && i < 8 && Cached(g, ms.cache, a)
    ensures a + i < TWO64
    ensures var (m, ok) := AccessByte(g, ms, a + i, write);
      && ok && m.cache.hits == ms.cache.hits + 1 && m.cache.misses == ms.cache.misses
      && m == ms.(cache := m.cache) && CacheOk(g, m) && Cached(g, m.cache, a)
  {
    hide IsPow2, Coherent, Cached, Fill, Flat, CheckHit, Geometry.BlockBase;
    CachedByWord(g, ms.cache, a, i);
    CheckHitKeepsFlat(g, ms.cache, ms.raw, a + i, write);
    HitCounts(g, ms.cache, a + i, write);
    CachedByWord(g, CheckHit(g, ms.cache, a + i, write).1, a, i);
  }

  lemma AccessUnfolds(g: Geometry, ms: MemSys, a: Word, write: bool, i: nat)
    requires Shaped(g, ms.cache) && i <= 8
    ensures Access(g, ms, a, write, i) ==
      if i == 8 then (ms, true) else
      var (m, ok) := AccessByte(g, ms, Wrap(a + i), write);
      if ok then Access(g, m, a, write, i + 1) else (m, false)
  {
    hide AccessByte;
  }

  lemma LookUpUnfolds(g: Geometry, ms: MemSys, a: Word, i: nat)
    requires Shaped(g, ms.cache) && i <= 4
    ensures LookUp(g, ms, a, i) ==
      if i == 4 then (ms, true) else
      var (m, ok) := AccessByte(g, ms, Wrap(a + i), false);
      if ok then LookUp(g, m, a, i + 1) else (m, false)
  {
    hide AccessByte;
  }

  lemma {:induction false} HitsFrom(g: Geometry, ms: MemSys, a: Word, write: bool, i: nat)
    requires CacheOk(g, ms) && a % 8 == 0 && i <= 8 && Cached(g, ms.cache, a)
    ensures var (m, ok) := Access(g, ms, a, write, i);
      && ok && m.cache.hits == ms.cache.hits + (8 - i) && m.cache.misses == ms.cache.misses
      && m == ms.(cache := m.cache) && CacheOk(g, m) && Cached(g, m.cache, a)
    decreases 8 - i
  {
    hide IsPow2, Coherent, Cached, AccessByte, Access;
    AccessUnfolds(g, ms, a, write, i);
    if i < 8 {
      HitByte(g, ms, a, write, i);
      HitsFrom(g, AccessByte(g, ms, a + i, write).0, a, write, i + 1);
    }
  }

  lemma HitCounts(g: Geometry, c: Cache, b: Word, write: bool)
    requires Shaped(g, c)
    ensures var (hit, c') := CheckHit(g, c, b, write);
      && hit == Cached(g, c, b)
      && (if hit then c'.hits == c.hits + 1 && c'.misses == c.misses else c' == c.(misses := c.misses + 1))
  {}

  /** A word that is present costs one cycle and counts eight hits. */
  lemma HitAccess(g: Geometry, ms: MemSys, a: Word, write: bool)
    requires CacheOk(g, ms) && a % 8 == 0 && Cached(g, ms.cache, a)
    ensures var (m, ok) := Access(g, ms, a, write, 0);
      && ok && m.cache.hits == ms.cache.hits + 8 && m.cache.misses == ms.cache.misses
      && m == ms.(cache := m.cache) && CacheOk(g, m) && Cached(g, m.cache, a)
  {
    HitsFrom(g, ms, a, write, 0);
  }

  lemma FillCounts(g: Geometry, c: Cache, raw: Mem, a: Word, write: bool)
    requires Shaped(g, c)
    ensures Fill(g, c, raw, a, write).0.hits == c.hits && Fill(g, c, raw, a, write).0.misses == c.misses
  {
    hide Install, Geometry.BlockBase, Geometry.BlockAddr, Victim;
  }

  /** Waiting changes nothing but the countdown and the miss counter. */
  function Waiting(g: Geometry, ms: MemSys, block: Word, left: Word): MemSys {
    ms.(cache := ms.cache.(misses := ms.cache.misses + 1),
        inflight := true, inflightAddr := block, inflightCycles := left, busy := true)
  }

  lemma MissByte(g: Geometry, ms: MemSys, a: Word, write: bool)
    requires CacheOk(g, ms) && a % 8 == 0 && !Cached(g, ms.cache, a)
    ensures var (m, ok) := AccessByte(g, ms, a, write);
      var left := CyclesLeft(g, ms, g.BlockBase(a));
      && 1 <= left < TWO64 && CacheOk(g, m)
      && (left > 1 ==> !ok && m == Waiting(g, ms, g.BlockBase(a), left - 1) && !Cached(g, m.cache, a))
      && (left == 1 ==> ok && !m.inflight && Cached(g, m.cache, a) && m.busy == ms.busy
                        && m.cache.misses == ms.cache.misses + 1 && m.cache.hits == ms.cache.hits)
  {
    hide IsPow2, Coherent, Cached, Fill, Flat, Geometry.BlockBase, CheckHit;
    AccessByteKeepsView(g, ms, a, 0, write);
    HitCounts(g, ms.cache, a, write);
    var c := CheckHit(g, ms.cache, a, write).1;
    FillCounts(g, c, ms.raw, a, write);
    SameContents(g, ms.cache, c, a);
  }

  /** One call on a word that is not present: wait, or finish on the last cycle. */
  lemma MissAccess(g: Geometry, ms: MemSys, a: Word, write: bool)
    requires CacheOk(g, ms) && a % 8 == 0 && !Cached(g, ms.cache, a)
    ensures var (m, ok) := Access(g, ms, a, write, 0);
      var left := CyclesLeft(g, ms, g.BlockBase(a));
      && 1 <= left < TWO64 && CacheOk(g, m)
      && (left > 1 ==> !ok && m == Waiting(g, ms, g.BlockBase(a), left - 1) && !Cached(g, m.cache, a))
      && (left == 1 ==> ok && !m.inflight && Cached(g, m.cache, a) && m.busy == ms.busy
                        && m.cache.misses == ms.cache.misses + 1 && m.cache.hits == ms.cache.hits + 7)
  {
    hide IsPow2, Coherent, Cached, AccessByte, Access, Geometry.BlockBase, Waiting, CyclesLeft;
    AccessUnfolds(g, ms, a, write, 0);
    MissByte(g, ms, a, write);
    var (m, ok) := AccessByte(g, ms, a, write);
    if ok {
      HitsFrom(g, m, a, write, 1);
    }
  }

  lemma SameContents(g: Geometry, c: Cache, c': Cache, a: Word)
    requires Shaped(g, c) && Shaped(g, c') && c'.sets == c.sets
    ensures Cached(g, c', a) == Cached(g, c, a)
  {}

  /** A miss on another block than the one that is waited for starts to wait from the beginning,
      one on the same block goes on. */
  lemma RestartsForOther(g: Geometry, ms: MemSys, a: Word, write: bool)
    requires CacheOk(g, ms) && a % 8 == 0 && !Cached(g, ms.cache, a) && ms.inflight
    ensures var (m, ok) := Access(g, ms, a, write, 0);
      var left := if ms.inflightAddr == g.BlockBase(a) then ms.inflightCycles else g.d;
      ok == (left == 1) && (!ok ==> m.busy && m.inflightAddr == g.BlockBase(a) && m.inflightCycles == left - 1)
  {
    hide IsPow2, Coherent, Access, Cached, Geometry.BlockBase;
    MissAccess(g, ms, a, write);
  }

  /** The access re-issued once a cycle, `n` times. */
  function Reissue(g: Geometry, ms: MemSys, a: Word, write: bool, n: nat): (m: MemSys)
    requires Shaped(g, ms.cache)
    ensures Shaped(g, m.cache)
  {
    if n == 0 then ms else Access(g, Reissue(g, ms, a, write, n - 1), a, write, 0).0
  }

  /** A miss completes on exactly the d-th call, and until then no line, no byte of
      memory and no LRU datum changes. */
  lemma {:induction false} MissTakesD(g: Geometry, ms: MemSys, a: Word, write: bool, n: nat)
    requires CacheOk(g, ms) && a % 8 == 0 && !Cached(g, ms.cache, a) && !ms.inflight && n < g.d
    ensures var m := Reissue(g, ms, a, write, n);
      && CacheOk(g, m) && m.cache.sets == ms.cache.sets && m.raw == ms.raw
      && m.cache.misses == ms.cache.misses + n && m.cache.hits == ms.cache.hits
      && (n > 0 ==> m.busy) && !Cached(g, m.cache, a)
      && (Access(g, m, a, write, 0).1 <==> n == g.d - 1)
      && CyclesLeft(g, m, g.BlockBase(a)) == g.d - n
  {
    hide IsPow2, Coherent, Access, Geometry.BlockBase;
    if n > 0 {
      MissTakesD(g, ms, a, write, n - 1);
      MissAccess(g, Reissue(g, ms, a, write, n - 1), a, write);
    }
    MissAccess(g, Reissue(g, ms, a, write, n), a, write);
  }

  // Whole words.

  datatype Op = Op(addr: Word, write: bool, value: Word)

  /** One word operation, carried through to its last cycle. */
  function Perform(g: Geometry, ms: MemSys, op: Op): (m: MemSys)
    requires Shaped(g, ms.cache)
    ensures Shaped(g, m.cache)
  {
    var before := if Cached(g, ms.cache, op.addr) then ms else Reissue(g, ms, op.addr, op.write, g.d - 1);
    if op.write then WriteCached(g, before, op.addr, op.value) else ReadCached(g, before, op.addr).0
  }

  function PerformAll(g: Geometry, ms: MemSys, ops: seq<Op>): (m: MemSys)
    requires Shaped(g, ms.cache)
    ensures Shaped(g, m.cache)
  {
    if ops == [] then ms else Perform(g, PerformAll(g, ms, ops[..|ops| - 1]), ops[|ops| - 1])
  }

  /** How many of the operations missed. */
  function Missed(g: Geometry, ms: MemSys, ops: seq<Op>): (n: nat)
    requires Shaped(g, ms.cache)
    ensures n <= |ops|
  {
    if ops == [] then 0 else
    var rest := ops[..|ops| - 1];
    Missed(g, ms, rest) + (if Cached(g, PerformAll(g, ms, rest).cache, ops[|ops| - 1].addr) then 0 else 1)
  }

  lemma SetWordCounts(g: Geometry, ms: MemSys, a: Word, v: Word)
    requires CacheOk(g, ms) && a % 8 == 0 && Cached(g, ms.cache, a)
    ensures WordCached(g, ms.cache, a)
    ensures var c := SetWord(g, ms.cache, a, v);
      c.hits == ms.cache.hits && c.misses == ms.cache.misses && Coherent(g, c, ms.raw)
  {
    WordIsCached(g, ms, a);
    SetWordIsStore(g, ms.cache, ms.raw, a, v);
  }

  lemma PerformCounts(g: Geometry, ms: MemSys, op: Op)
    requires CacheOk(g, ms) && op.addr % 8 == 0 && !ms.inflight
    ensures var m := Perform(g, ms, op);
      && CacheOk(g, m) && !m.inflight && !m.busy
      && (if Cached(g, ms.cache, op.addr) then m.cache.hits == ms.cache.hits + 8 && m.cache.misses == ms.cache.misses
          else m.cache.hits == ms.cache.hits + 7 && m.cache.misses == ms.cache.misses + g.d)
  {
    hide IsPow2, Coherent, Access, Geometry.BlockBase, SetWord, GetWord, WordCached;
    var a, w := op.addr, op.write;
    var before := if Cached(g, ms.cache, a) then ms else Reissue(g, ms, a, w, g.d - 1);
    if Cached(g, ms.cache, a) {
      HitAccess(g, ms, a, w);
    } else {
      MissTakesD(g, ms, a, w, g.d - 1);
      MissAccess(g, before, a, w);
    }
    var (m, ok) := Access(g, before, a, w, 0);
    SetWordCounts(g, m, a, op.value);
  }

  /** With H completed words that hit and M that missed, the counters read 8H + 7M hits
      and d*M misses, so the number of missed words is the miss counter divided by d. */
  lemma {:induction false} CountersMean(g: Geometry, ms: MemSys, ops: seq<Op>)
    requires CacheOk(g, ms) && !ms.inflight && ms.cache.hits == 0 && ms.cache.misses == 0
    requires forall i | 0 <= i < |ops| :: ops[i].addr % 8 == 0
    ensures var m := PerformAll(g, ms, ops);
      var M := Missed(g, ms, ops);
      && CacheOk(g, m) && !m.inflight
      && m.cache.misses == Product(g.d, M)
      && m.cache.hits == 8 * (|ops| - M) + 7 * M
      && Div(m.cache.misses, g.d) == M
  {
    hide IsPow2, Coherent, Perform, Cached, Product, Div;
    ProductStep(g.d, 0);
    if ops != [] {
      var rest := ops[..|ops| - 1];
      CountersMean(g, ms, rest);
      PerformCounts(g, PerformAll(g, ms, rest), ops[|ops| - 1]);
      ProductStep(g.d, Missed(g, ms, rest));
    }
    ProductQuotient(g.d, Missed(g, ms, ops));
  }

  /** What the final report prints from the counters: the misses are the words that
      missed, but the hits are 8H + 6M, which is the words that hit for no sequence but
      the empty one. */
  lemma ReportedCounts(g: Geometry, ms: MemSys, ops: seq<Op>)
    requires CacheOk(g, ms) && !ms.inflight && ms.cache.hits == 0 && ms.cache.misses == 0
    requires forall i | 0 <= i < |ops| :: ops[i].addr % 8 == 0
    ensures var m := PerformAll(g, ms, ops);
      var M := Missed(g, ms, ops);
      var misses := Div(m.cache.misses, g.d);
      var hits := m.cache.hits - misses;
      misses == M && hits == 8 * (|ops| - M) + 6 * M && (hits == |ops| - M <==> ops == [])
  {
    hide CacheOk, PerformAll, Missed;
    CountersMean(g, ms, ops);
  }

  // What a sequence of operations means.

  function Ready(g: Geometry, ms: MemSys, a: Word, write: bool): (m: MemSys)
    requires Shaped(g, ms.cache)
    ensures Shaped(g, m.cache)
  {
    if Cached(g, ms.cache, a) then ms else Reissue(g, ms, a, write, g.d - 1)
  }

  /** The word a completed read of `a` returns. */
  function ReadNow(g: Geometry, ms: MemSys, a: Word): Word
    requires Shaped(g, ms.cache)
  {
    ReadCached(g, Ready(g, ms, a, false), a).1
  }

  lemma {:induction false} ReissueKeepsView(g: Geometry, ms: MemSys, a: Word, write: bool, n: nat)
    requires CacheOk(g, ms) && a % 8 == 0
    ensures SameView(g, ms, Reissue(g, ms, a, write, n))
  {
    hide IsPow2, Coherent, Access, Flat;
    if n > 0 {
      ReissueKeepsView(g, ms, a, write, n - 1);
      AccessKeepsView(g, Reissue(g, ms, a, write, n - 1), a, write, 0);
    }
  }

  lemma ReadyCompletes(g: Geometry, ms: MemSys, a: Word, write: bool)
    requires CacheOk(g, ms) && a % 8 == 0 && !ms.inflight
    ensures var (m, ok) := Access(g, Ready(g, ms, a, write), a, write, 0);
      ok && SameView(g, ms, m) && Cached(g, m.cache, a) && WordCached(g, m.cache, a)
  {
    hide IsPow2, Coherent, Access, Flat, WordCached, Cached;
    if Cached(g, ms.cache, a) {
      HitAccess(g, ms, a, write);
    } else {
      MissTakesD(g, ms, a, write, g.d - 1);
      ReissueKeepsView(g, ms, a, write, g.d - 1);
    }
    var t := Ready(g, ms, a, write);
    AccessKeepsView(g, t, a, write, 0);
    WordIsCached(g, Access(g, t, a, write, 0).0, a);
  }

  lemma PerformIsFlat(g: Geometry, ms: MemSys, op: Op)
    requires CacheOk(g, ms) && op.addr % 8 == 0 && !ms.inflight
    ensures op.addr + 8 <= TWO64
    ensures var m := Perform(g, ms, op);
      && CacheOk(g, m) && !m.inflight
      && Flat(g, m.cache, m.raw) ==
           (if op.write then Store64(Flat(g, ms.cache, ms.raw), op.addr, op.value) else Flat(g, ms.cache, ms.raw))
    ensures ReadNow(g, ms, op.addr) == Load64(Flat(g, ms.cache, ms.raw), op.addr)
  {
    hide IsPow2, Coherent, Access, Flat, WordCached, Cached, Store64, Load64, SetWord, GetWord;
    PerformCounts(g, ms, op);
    ReadyCompletes(g, ms, op.addr, op.write);
    ReadyCompletes(g, ms, op.addr, false);
    var r := Access(g, Ready(g, ms, op.addr, false), op.addr, false, 0).0;
    GetWordIsLoad(g, r.cache, r.raw, op.addr);
    var m := Access(g, Ready(g, ms, op.addr, op.write), op.addr, op.write, 0).0;
    SetWordIsStore(g, m.cache, m.raw, op.addr, op.value);
  }

  /** The value last written to `a`, or what memory held before the first operation. */
  function LastWritten(m: Mem, ops: seq<Op>, a: Word): Word
    requires a + 8 <= TWO64
  {
    if ops == [] then Load64(m, a)
    else if ops[|ops| - 1].write && ops[|ops| - 1].addr == a then ops[|ops| - 1].value
    else LastWritten(m, ops[..|ops| - 1], a)
  }

  lemma {:induction false} SequenceHolds(g: Geometry, ms: MemSys, ops: seq<Op>, a: Word)
    requires CacheOk(g, ms) && !ms.inflight && a % 8 == 0
    requires forall i | 0 <= i < |ops| :: ops[i].addr % 8 == 0
    ensures a + 8 <= TWO64
    ensures var m := PerformAll(g, ms, ops);
      && CacheOk(g, m) && !m.inflight
      && Load64(Flat(g, m.cache, m.raw), a) == LastWritten(Flat(g, ms.cache, ms.raw), ops, a)
  {
    hide IsPow2, Coherent, Perform, Flat, Store64, Load64;
    AlignedWordFits(a);
    if ops != [] {
      var rest, op := ops[..|ops| - 1], ops[|ops| - 1];
      SequenceHolds(g, ms, rest, a);
      var t := PerformAll(g, ms, rest);
      PerformIsFlat(g, t, op);
      if op.write {
        if op.addr == a {
          LoadAfterStore(Flat(g, t.cache, t.raw), a, op.value);
        } else {
          LoadElsewhere(Flat(g, t.cache, t.raw), op.addr, op.value, a);
        }
      }
    }
  }

  lemma AlignedWordFits(a: Word)
    requires a % 8 == 0
    ensures a + 8 <= TWO64
  {}

  /** After any sequence of completed operations, a read returns the value last written
      to its address: hits, misses, evictions and write-backs do not show. */
  lemma ReadsLastWrite(g: Geometry, ms: MemSys, ops: seq<Op>, a: Word)
    requires CacheOk(g, ms) && !ms.inflight && a % 8 == 0
    requires forall i | 0 <= i < |ops| :: ops[i].addr % 8 == 0
    ensures a + 8 <= TWO64
    ensures ReadNow(g, PerformAll(g, ms, ops), a) == LastWritten(Flat(g, ms.cache, ms.raw), ops, a)
  {
    hide IsPow2, Coherent, Perform, Flat, Store64, Load64, ReadNow;
    SequenceHolds(g, ms, ops, a);
    PerformIsFlat(g, PerformAll(g, ms, ops), Op(a, false, 0));
  }
}
