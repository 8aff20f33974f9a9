/** The text stays as it was loaded: stores only reach the data, and what the cache writes
    back brings memory nowhere but to what the program sees already. */
module TextMemory {
  import opened Words
  import opened FlatMemory
  import opened CacheSet
  import opened Isa
  import opened CacheModel
  import opened CacheCoherence
  import opened MemorySystem
  import opened Datapath
  import opened Sequential
  import opened Pipeline
  import opened Invariant
  import opened Stages

  /** Memory has changed, if at all, to what the cache showed before. */
  ghost predicate CatchesUp(g: Geometry, ms: MemSys, raw: Mem)
    requires CacheOk(g, ms)
  {
    forall b: Word :: raw[b] == ms.raw[b] || raw[b] == Flat(g, ms.cache, ms.raw)[b]
  }

  lemma FillCatchesUp(g: Geometry, c: Cache, raw: Mem, a: Word, write: bool, b: Word)
    requires Coherent(g, c, raw) && !Cached(g, c, a) && g.BlockBase(a) + g.B <= TWO64
    ensures Victim(c.sets[g.SetIndex(a)]) < g.A
    ensures var raw' := Fill(g, c, raw, a, write).1;
      raw'[b] == raw[b] || raw'[b] == Flat(g, c, raw)[b]
  {
    hide Geometry.SetIndex, Geometry.Tag, Geometry.Offset, Geometry.BlockAddr, Fill, Tracks, Victim,
      Geometry.BlockBase;
    MissVictim(g, c, raw, a);
    FillMemory(g, c, raw, a, write, b);
    var k := g.SetIndex(a);
    var s := c.sets[k];
    assert SetOk(g, s, k, raw);
    if s.lines[Victim(s)].valid && g.SetIndex(b) == k && g.Tag(b) == s.lines[Victim(s)].tag {
      FindUnique(g.A, s, Victim(s));
      HoldsIff(s, g.Tag(b));
      assert Flat(g, c, raw)[b] == ByteAt(g, c, raw, b);
    }
  }

  lemma ByteCatchesUp(g: Geometry, ms: MemSys, a: Word, i: nat, write: bool)
    requires CacheOk(g, ms) && a % 8 == 0 && i < 8
    ensures a + i < TWO64
    ensures CatchesUp(g, ms, AccessByte(g, ms, a + i, write).0.raw)
  {
    hide IsPow2, Coherent, Flat, Cached, CheckHit, Fill, Geometry.BlockBase;
    AccessByteKeepsView(g, ms, a, i, write);
    CheckHitKeepsFlat(g, ms.cache, ms.raw, a + i, write);
    var (hit, c) := CheckHit(g, ms.cache, a + i, write);
    if !hit {
      AlignedBlock(g, a + i);
      forall b: Word
        ensures var raw := Fill(g, c, ms.raw, a + i, write).1;
          raw[b] == ms.raw[b] || raw[b] == Flat(g, ms.cache, ms.raw)[b]
      {
        FillCatchesUp(g, c, ms.raw, a + i, write, b);
      }
    }
  }

  lemma {:induction false} AccessCatchesUp(g: Geometry, ms: MemSys, a: Word, write: bool, i: nat)
    requires CacheOk(g, ms) && a % 8 == 0 && i <= 8
    ensures CatchesUp(g, ms, Access(g, ms, a, write, i).0.raw)
    decreases 8 - i
  {
    hide IsPow2, Coherent, Flat, Cached, AccessByte;
    if i < 8 {
      AccessByteKeepsView(g, ms, a, i, write);
      ByteCatchesUp(g, ms, a, i, write);
      var (m, ok) := AccessByte(g, ms, a + i, write);
      if ok {
        AccessCatchesUp(g, m, a, write, i + 1);
      }
    }
  }

  // Data accesses.

  lemma ReadCatchesUp(cfg: Config, ms: MemSys, a: Word, b: Word)
    requires MemOk(cfg, ms) && MemShaped(cfg, ms) && View(cfg, ms)[b] == ms.raw[b]
    ensures DataRead(cfg, ms, a).0.raw[b] == ms.raw[b]
  {
    hide IsPow2, Coherent, Flat, Cached, Access, GetWord, WordCached, Load64;
    if cfg.cache.WithCache? && DataWord(cfg, a) {
      AccessCatchesUp(cfg.cache.g, ms, a, false, 0);
    }
  }

  lemma WriteCatchesUp(cfg: Config, ms: MemSys, a: Word, v: Word, b: Word)
    requires MemOk(cfg, ms) && MemShaped(cfg, ms) && View(cfg, ms)[b] == ms.raw[b] && b < cfg.dataStart
    ensures DataWrite(cfg, ms, a, v).raw[b] == ms.raw[b]
  {
    hide IsPow2, Coherent, Flat, Cached, Access, SetWord, WordCached;
    if cfg.cache.WithCache? && DataWord(cfg, a) {
      AccessCatchesUp(cfg.cache.g, ms, a, true, 0);
    }
  }

  lemma DataKeepsText(cfg: Config, ms: MemSys, m: MReg, b: Word)
    requires MemOk(cfg, ms) && MemShaped(cfg, ms) && !(m.ms.read && m.ms.write)
    requires b < cfg.dataStart && View(cfg, ms)[b] == ms.raw[b]
    ensures var ms' := DataAccess(cfg, ms, m).0;
      MemOk(cfg, ms') && View(cfg, ms')[b] == ms'.raw[b] == ms.raw[b]
  {
    hide DataRead, DataWrite, MemOk, View, MemShaped, Load64;
    if m.ms.read && DataWord(cfg, m.valEx) {
      ReadIsLoad(cfg, ms, m.valEx);
      ReadCatchesUp(cfg, ms, m.valEx, b);
    } else if m.ms.write && DataWord(cfg, m.valEx) {
      WriteIsStore(cfg, ms, m.valEx, m.valB);
      WriteCatchesUp(cfg, ms, m.valEx, m.valB, b);
    } else if m.ms.write {
      SpecialStore(cfg, ms, m.valEx, m.valB);
      WriteCatchesUp(cfg, ms, m.valEx, m.valB, b);
    } else if m.ms.read {
      ElsewhereRead(cfg, ms, m.valEx);
    }
  }

  lemma ElsewhereRead(cfg: Config, ms: MemSys, a: Word)
    requires MemShaped(cfg, ms) && !DataWord(cfg, a)
    ensures DataRead(cfg, ms, a).0 == ms
  {}

  /** No data access changes the text, however dirty the cache. */
  lemma AccessKeepsLoaded(p: Program, ms: MemSys, m: MReg)
    requires MemOk(p.cfg, ms) && MemShaped(p.cfg, ms) && Loaded(p, ms) && !(m.ms.read && m.ms.write)
    ensures var ms' := DataAccess(p.cfg, ms, m).0;
      MemOk(p.cfg, ms') && Loaded(p, ms')
  {
    hide DataAccess, MemOk, View, MemShaped, Load32;
    var ms' := DataAccess(p.cfg, ms, m).0;
    DataKeepsOk(p.cfg, ms, m);
    forall b: Word | b < p.cfg.dataStart ensures View(p.cfg, ms')[b] == ms'.raw[b] == ms.raw[b] {
      DataKeepsText(p.cfg, ms, m, b);
    }
    forall pc: Word | !FetchFault(p.cfg, pc) ensures Load32(ms'.raw, pc) == p.code(pc) {
      TextWord(p.cfg, pc);
      SameLoad(ms.raw, ms'.raw, pc);
    }
  }

  lemma TextWord(cfg: Config, pc: Word)
    requires cfg.dataStart % 4 == 0 && !FetchFault(cfg, pc)
    ensures pc + 4 <= cfg.dataStart
  {}

  lemma SameLoad(m: Mem, m': Mem, a: Word)
    requires a + 4 <= TWO64 && forall b: Word | a <= b < a + 4 :: m'[b] == m[b]
    ensures Load32(m', a) == Load32(m, a)
  {
    assert m'[a..a + 4] == m[a..a + 4];
  }

  lemma DataKeepsOk(cfg: Config, ms: MemSys, m: MReg)
    requires MemOk(cfg, ms) && MemShaped(cfg, ms) && !(m.ms.read && m.ms.write)
    ensures MemOk(cfg, DataAccess(cfg, ms, m).0)
  {
    hide DataRead, DataWrite, MemOk, View, MemShaped, Load64;
    if m.ms.read && DataWord(cfg, m.valEx) {
      ReadIsLoad(cfg, ms, m.valEx);
    } else if m.ms.write && DataWord(cfg, m.valEx) {
      WriteIsStore(cfg, ms, m.valEx, m.valB);
    } else if m.ms.write {
      SpecialStore(cfg, ms, m.valEx, m.valB);
    } else if m.ms.read {
      ElsewhereRead(cfg, ms, m.valEx);
    }
  }

  // What fetch reads.

  /** Where there is text, fetch reads the program; where there is none, it does not matter. */
  lemma FetchesProgram(p: Program, s: Cpu)
    requires MemOk(p.cfg, s.mem) && Loaded(p, s.mem) && SelectPC(s) != 0
    ensures var pc := SelectPC(s);
      && FetchOp(p.cfg, FetchWord(p, s), pc) == FetchOp(p.cfg, p.code(pc), pc)
      && (!FetchFault(p.cfg, pc) ==> FetchWord(p, s) == p.code(pc))
  {
    hide View, MemOk, SelectPC, Load32, OpOf;
    if !FetchFault(p.cfg, SelectPC(s)) { TextWord(p.cfg, SelectPC(s)); }
  }

  lemma QuietMem(p: Program, s: Cpu)
    requires MemShaped(p.cfg, s.mem) && Quiet(p, s)
    ensures FetchMem(p, s) == s.mem
  {
    hide SelectPC, FetchHalts, LookUp;
  }
}
