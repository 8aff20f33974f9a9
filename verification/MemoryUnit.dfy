/** The memory front end as the emulator runs it: page table, cache and the countdown of
    the access in flight, all updated in place. */
module MemoryUnit {
  import opened Words
  import opened Bits
  import opened CacheSet
  import opened FlatMemory
  import opened CacheModel
  import opened CacheCoherence
  import opened MemorySystem
  import opened MissTiming
  import opened Masks
  import opened CacheSim
  import opened PageTable

  const NO_CACHE := Cache([], 0, 0, 0, 0)

  /** What serving a miss at `b` relies on. */
  lemma MissReady(g: Geometry, ms: MemSys, b: Word, write: bool, data: seq<Byte>)
    requires CacheOk(g, ms)
    ensures g.BlockBase(b) + g.B <= TWO64
    ensures Victim(ms.cache.sets[g.SetIndex(b)]) < g.A
    ensures var e := HandleMiss(g, ms.cache, b, write, data).0;
      e.valid && e.dirty ==> e.blockAddr + |e.data| <= TWO64
  {
    hide IsPow2, Geometry.SetIndex, Geometry.Tag, Geometry.BlockAddr, Victim, EvictedAddr, Install;
    AlignedBlock(g, b);
    MissVictim(g, ms.cache, ms.raw, b);
    var k := g.SetIndex(b);
    assert SetOk(g, ms.cache.sets[k], k, ms.raw);
    var l := ms.cache.sets[k].lines[Victim(ms.cache.sets[k])];
    assert LineOk(g, l, k, ms.raw);
    if l.valid { BlockAddrByShifts(g, l.tag, k); }
  }

  /** Asking for a byte or for the block it lies in is the same to the cache. */
  lemma MissByBlock(g: Geometry, c: Cache, b: Word, write: bool, data: seq<Byte>)
    requires Shaped(g, c) && Victim(c.sets[g.SetIndex(b)]) < g.A
    ensures g.SetIndex(g.BlockBase(b)) == g.SetIndex(b)
    ensures HandleMiss(g, c, g.BlockBase(b), write, data) == HandleMiss(g, c, b, write, data)
  {
    hide IsPow2, Geometry.SetIndex, Geometry.Tag, Geometry.BlockAddr, Geometry.Offset, Geometry.BlockBase, Victim,
      EvictedAddr, Install;
    BaseOfBase(g, b);
    SameBlock(g, g.BlockBase(b), b);
  }

  lemma ShapedValid(g: Geometry, c: Cache)
    requires Shaped(g, c)
    ensures g.Valid() && |c.sets| == g.S
  {}

  lemma CheckKeepsOk(g: Geometry, ms: MemSys, b: Word, write: bool)
    requires CacheOk(g, ms)
    ensures CacheOk(g, ms.(cache := CheckHit(g, ms.cache, b, write).1, inflight := false))
  {
    hide IsPow2, Coherent, CheckHit, Flat;
    CheckHitKeepsFlat(g, ms.cache, ms.raw, b, write);
  }

  lemma SameOk(g: Geometry, ms: MemSys, ms': MemSys)
    requires CacheOk(g, ms) && ms'.cache == ms.cache && ms'.raw == ms.raw && !ms'.inflight
    ensures CacheOk(g, ms')
  {
    hide IsPow2, Coherent;
  }

  lemma DelayFits(g: Geometry, ms: MemSys)
    requires CacheOk(g, ms)
    ensures g.d < TWO64
  {
    hide IsPow2, Coherent;
  }

  lemma BaseOfBase(g: Geometry, b: Word)
    requires g.Valid()
    ensures g.BlockBase(g.BlockBase(b)) == g.BlockBase(b)
  {
    hide Geometry.SetIndex, Geometry.Tag, Geometry.BlockAddr, Geometry.Offset;
    AddressRoundTrip(g, b);
    BlockAddrParts(g, g.Tag(b), g.SetIndex(b), 0);
    assert g.Offset(g.BlockBase(b)) == 0;
  }

  class Unit {
    const cfg: Config
    const pages: Pages
    const cache: CacheArray?
    var inflight: bool
    var inflightAddr: Word
    var inflightCycles: Word
    var busy: bool
    var output: seq<Word>

    ghost function Footprint(): set<object>
      reads pages
    {
      {this as object} + pages.Footprint() + (if cache == null then {} else {cache as object, cache.sets})
    }

    ghost predicate Apart()
      reads pages
    {
      && this !in pages.Footprint()
      && (cache != null ==> cache as object != this && {cache as object, cache.sets} !! pages.Footprint() + {this})
    }

    ghost function Model(): MemSys
      requires pages.Valid()
      reads this, pages, pages.table, Footprint()
    {
      MemSys(pages.Contents(), if cache == null then NO_CACHE else cache.Model(),
             inflight, inflightAddr, inflightCycles, busy, output)
    }

    lemma BusyIsModelled()
      requires pages.Valid()
      ensures Model().busy == busy
    {}

    /** The parts fit together. */
    ghost predicate Wired()
      reads this, pages, Footprint()
    {
      && pages.Valid() && Apart()
      && (if cache == null then cfg.cache == NoCache else cfg.cache == WithCache(cache.g) && cache.Valid())
    }

    ghost predicate Valid()
      reads this, pages, Footprint()
    {
      Wired() && MemOk(cfg, Model())
    }

    constructor (cfg: Config)
      requires cfg.cache.WithCache? ==> cfg.cache.g.Valid() && cfg.cache.g.d < TWO64
      ensures this.cfg == cfg && Valid() && fresh(Footprint())
      ensures !Model().busy && !Model().inflight && Model().output == []
      ensures View(cfg, Model()) == seq(TWO64, _ => 0)
    {
      hide IsPow2, Coherent, Pages.Contents, Pages.ByteAt, Pages.Valid, EmptyCache;
      this.cfg := cfg;
      var p := new Pages();
      var c: CacheArray? := null;
      if cfg.cache.WithCache? {
        c := new CacheArray(cfg.cache.g);
        EmptyIsFlat(cfg.cache.g, p.Contents());
      }
      pages, cache := p, c;
      inflight, inflightAddr, inflightCycles, busy := false, 0, 0, false;
      output := [];
    }

    /** Read a block from memory, byte by byte. */
    method FetchBlock(base: Word) returns (block: seq<Byte>)
      requires Wired() && cache != null && base + cache.g.B <= TWO64
      modifies Footprint()
      ensures Wired() && Model() == old(Model()) && fresh(Footprint() - old(Footprint()))
      ensures block == pages.Contents()[base..base + cache.g.B]
    {
      hide Pages.Valid, Pages.ByteAt, Pages.Contents, IsPow2, FromBytes, Shaped;
      block := [];
      ghost var m := pages.Contents();
      for j := 0 to cache.g.B
        invariant Wired() && Model() == old(Model()) && fresh(Footprint() - old(Footprint()))
        invariant pages.Contents() == m && block == m[base..base + j]
      {
        var b := pages.ReadLE(base + j, 1);
        OneByte(m, base + j);
        block := block + [b];
      }
    }

    /** Write an evicted block back to memory, byte by byte. */
    method StoreBlock(e: Evicted)
      requires Wired() && e.blockAddr + |e.data| <= TWO64
      modifies Footprint()
      ensures Wired() && fresh(Footprint() - old(Footprint()))
      ensures Model() == old(Model()).(raw := Splice(old(pages.Contents()), e.blockAddr, e.data))
    {
      hide Pages.Valid, Pages.ByteAt, Pages.Contents, IsPow2, ToBytes, Shaped;
      ghost var m := pages.Contents();
      assert Splice(m, e.blockAddr, e.data[..0]) == m;
      for j := 0 to |e.data|
        invariant Wired() && fresh(Footprint() - old(Footprint()))
        invariant Model() == old(Model()).(raw := Splice(m, e.blockAddr, e.data[..j]))
      {
        pages.WriteLE(e.blockAddr + j, e.data[j], 1);
        WriteOne(Splice(m, e.blockAddr, e.data[..j]), e.blockAddr + j, e.data[j]);
        SpliceNext(m, e.blockAddr, e.data, j);
      }
      assert e.data[..|e.data|] == e.data;
    }

    /** The last cycle of a miss: fill the line, then write the evicted block back. */
    method ServeMiss(b: Word, write: bool)
      requires Wired() && cache != null && CacheOk(cache.g, Model())
      modifies Footprint()
      ensures Wired() && fresh(Footprint() - old(Footprint()))
      ensures var (c, raw) := Fill(cache.g, old(Model().cache), old(Model().raw), b, write);
        Model() == old(Model()).(cache := c, raw := raw)
    {
      hide Pages.Valid, Pages.ByteAt, Pages.Contents, IsPow2, Shaped, Geometry.SetIndex, Geometry.Tag,
        Geometry.BlockBase, Coherent, HandleMiss, Victim, Splice, WordOp;
      ShapedValid(cache.g, cache.Model());
      AlignedBlock(cache.g, b);
      BaseByMask(cache.g, b);
      var block := WordOp(And, b, Complement(cache.g.B - 1));
      ghost var base := cache.g.BlockBase(b);
      ghost var data := pages.Contents()[base..base + cache.g.B];
      MissReady(cache.g, Model(), b, write, data);
      MissByBlock(cache.g, cache.Model(), b, write, data);
      var bytes := FetchBlock(block);
      assert cache.sets[cache.g.SetIndex(b)] == cache.Model().sets[cache.g.SetIndex(b)];
      var e := cache.Miss(block, write, bytes);
      if e.valid && e.dirty {
        StoreBlock(e);
      }
    }

    /** Start the countdown for `block` unless it is running, and take one cycle off. */
    method CountDown(block: Word)
      requires cache != null && cache.g.d < TWO64
      modifies this`inflight, this`inflightAddr, this`inflightCycles
      ensures inflight && inflightAddr == block
      ensures inflightCycles ==
        Wrap((if old(inflight) && old(inflightAddr) == block then old(inflightCycles) else cache.g.d) - 1)
    {
      if inflightAddr != block || !inflight {
        inflightAddr := block;
        inflightCycles := cache.g.d;
        inflight := true;
      }
      inflightCycles := Wrap(inflightCycles - 1);
    }

    /** One byte of an access, with the countdown of a miss. */
    method AccessOne(b: Word, write: bool) returns (ok: bool)
      requires Wired() && cache != null && CacheOk(cache.g, Model())
      modifies Footprint()
      ensures Wired() && fresh(Footprint() - old(Footprint()))
      ensures AccessByte(cache.g, old(Model()), b, write) == (Model(), ok)
    {
      hide Pages.Valid, CacheOk, Pages.ByteAt, Pages.Contents, IsPow2, Shaped, Geometry.SetIndex, Geometry.Tag,
        Geometry.BlockBase, Coherent, CheckHit, Fill, WordOp;
      ghost var before := Model();
      ShapedValid(cache.g, before.cache);
      DelayFits(cache.g, before);
      CheckKeepsOk(cache.g, before, b, write);
      var hit := cache.Check(b, write);
      if hit {
        return true;
      }
      BaseByMask(cache.g, b);
      var block := WordOp(And, b, Complement(cache.g.B - 1));
      CountDown(block);
      if inflightCycles > 0 {
        busy := true;
        return false;
      }
      inflight := false;
      SameOk(cache.g, before.(cache := CheckHit(cache.g, before.cache, b, write).1, inflight := false), Model());
      ServeMiss(b, write);
      return true;
    }

    /** The loop over the eight bytes of a word. */
    method AccessWord(a: Word, write: bool) returns (ok: bool)
      requires Wired() && cache != null && CacheOk(cache.g, Model()) && a % 8 == 0
      modifies Footprint()
      ensures Wired() && fresh(Footprint() - old(Footprint()))
      ensures Access(cache.g, old(Model()), a, write, 0) == (Model(), ok)
    {
      hide Pages.Valid, Pages.ByteAt, Pages.Contents, IsPow2, Shaped, Coherent, AccessByte, Access, Flat, Cached;
      var i := 0;
      while i < 8
        invariant 0 <= i <= 8
        invariant Wired() && CacheOk(cache.g, Model()) && fresh(Footprint() - old(Footprint()))
        invariant Access(cache.g, old(Model()), a, write, 0) == Access(cache.g, Model(), a, write, i)
      {
        AccessUnfolds(cache.g, Model(), a, write, i);
        AccessByteKeepsView(cache.g, Model(), a, i, write);
        ok := AccessOne(Wrap(a + i), write);
        if !ok {
          return;
        }
        i := i + 1;
      }
      AccessUnfolds(cache.g, Model(), a, write, 8);
      ok := true;
    }

    /** Read the data word at `a`; `busy` says whether it is still in flight. */
    method ReadData(a: Word) returns (v: Word)
      requires Valid()
      modifies Footprint()
      ensures Valid() && fresh(Footprint() - old(Footprint()))
      ensures MemShaped(cfg, old(Model())) && DataRead(cfg, old(Model()), a) == (Model(), v)
    {
      hide Pages.Valid, Pages.ByteAt, Pages.Contents, IsPow2, Shaped, Coherent, Access, Flat, Cached, GetWord, Load64,
        FromBytes, IsSpecial, LineOf;
      ShapeKept(cfg, Model());
      if !DataWord(cfg, a) {
        return 0;
      }
      ReadIsLoad(cfg, Model(), a);
      if cache == null {
        v := pages.ReadLE(a, 8);
        LoadIsBytes(pages.Contents(), a);
        return;
      }
      AccessEnds(cache.g, Model(), a, false);
      var ok := AccessWord(a, false);
      if !ok {
        return 0;
      }
      assert WordCached(cache.g, cache.Model(), a);
      v := cache.GetWordAt(a);
      busy := false;
    }

    /** The loop over the four bytes of an instruction. */
    method AccessInstr(pc: Word) returns (ok: bool)
      requires Wired() && cache != null && CacheOk(cache.g, Model()) && pc % 4 == 0
      modifies Footprint()
      ensures Wired() && CacheOk(cache.g, Model()) && fresh(Footprint() - old(Footprint()))
      ensures Shaped(cache.g, old(Model()).cache) && LookUp(cache.g, old(Model()), pc, 0) == (Model(), ok)
    {
      hide Pages.Valid, Pages.ByteAt, Pages.Contents, IsPow2, Shaped, Coherent, AccessByte, LookUp, Flat, Cached;
      var i := 0;
      while i < 4
        invariant 0 <= i <= 4
        invariant Wired() && CacheOk(cache.g, Model()) && fresh(Footprint() - old(Footprint()))
        invariant LookUp(cache.g, old(Model()), pc, 0) == LookUp(cache.g, Model(), pc, i)
      {
        LookUpUnfolds(cache.g, Model(), pc, i);
        AccessByteKeepsView(cache.g, Model(), pc - pc % 8, pc % 8 + i, false);
        ok := AccessOne(Wrap(pc + i), false);
        if !ok {
          return;
        }
        i := i + 1;
      }
      LookUpUnfolds(cache.g, Model(), pc, 4);
      ok := true;
    }

    /** Read the word at `pc` for fetch; from the data segment it comes through the cache. */
    method ReadInstr(pc: Word) returns (bits: Insn)
      requires Valid() && (FetchCached(cfg, pc) ==> pc % 4 == 0)
      modifies Footprint()
      ensures Valid() && fresh(Footprint() - old(Footprint()))
      ensures MemShaped(cfg, old(Model())) && bits == InstrBits(cfg, old(Model()), pc)
      ensures Model() == InstrRead(cfg, old(Model()), pc)
    {
      hide Pages.Valid, Pages.ByteAt, Pages.Contents, IsPow2, Shaped, Coherent, LookUp, Flat, Cached, Load32,
        FromBytes, IsSpecial;
      ShapeKept(cfg, Model());
      if cache != null && pc >= cfg.dataStart && !IsSpecial(pc) {
        var ok := AccessInstr(pc);
        if ok {
          busy := false;
        }
        return 0;
      }
      if IsSpecial(pc) || pc + 4 > TWO64 {
        NothingThere(pages.Contents(), pc);
        return 0;
      }
      Load32IsBytes(pages.Contents(), pc);
      bits := pages.ReadLE(pc, 4);
    }

    /** Write the data word at `a`; the console address prints it instead. */
    method WriteData(a: Word, v: Word)
      requires Valid()
      modifies Footprint()
      ensures Valid() && fresh(Footprint() - old(Footprint()))
      ensures MemShaped(cfg, old(Model())) && DataWrite(cfg, old(Model()), a, v) == Model()
    {
      hide Pages.Valid, Pages.ByteAt, Pages.Contents, IsPow2, Shaped, Coherent, Access, Flat, Cached, SetWord,
        Store64, ToBytes, LineOf;
      ShapeKept(cfg, Model());
      if a == IO_CHAR_ADDR {
        PrintKeepsOk(cfg, Model(), v);
        output := output + [v];
        return;
      }
      if !DataWord(cfg, a) {
        return;
      }
      WriteIsStore(cfg, Model(), a, v);
      if cache == null {
        StoreIsBytes(pages.Contents(), a, v);
        pages.WriteLE(a, v, 8);
        return;
      }
      AccessEnds(cache.g, Model(), a, true);
      var ok := AccessWord(a, true);
      if !ok {
        return;
      }
      assert WordCached(cache.g, cache.Model(), a);
      cache.SetWordAt(a, v);
      busy := false;
    }
  }

  lemma ShapeKept(cfg: Config, ms: MemSys)
    requires MemOk(cfg, ms)
    ensures MemShaped(cfg, ms)
  {
    hide IsPow2, Coherent;
  }

  lemma PrintKeepsOk(cfg: Config, ms: MemSys, v: Word)
    requires MemOk(cfg, ms)
    ensures MemOk(cfg, ms.(output := ms.output + [v]))
  {
    hide IsPow2, Coherent;
  }

  lemma NothingThere(m: Mem, a: Word)
    ensures a + 4 > TWO64 ==> Load32(m, a) == 0
  {}

  lemma Load32IsBytes(m: Mem, a: Word)
    requires a + 4 <= TWO64
    ensures FromBytes(m[a..a + 4]) == Load32(m, a)
  {}

  lemma LoadIsBytes(m: Mem, a: Word)
    requires a + 8 <= TWO64
    ensures FromBytes(m[a..a + 8]) == Load64(m, a)
  {}

  lemma StoreIsBytes(m: Mem, a: Word, v: Word)
    requires a + 8 <= TWO64
    ensures Splice(m, a, ToBytes(v, 8)[..8]) == Store64(m, a, v)
  {
    assert ToBytes(v, 8)[..8] == ToBytes(v, 8);
  }

  /** An access that completes leaves its word in the cache. */
  lemma AccessEnds(g: Geometry, ms: MemSys, a: Word, write: bool)
    requires CacheOk(g, ms) && a % 8 == 0
    ensures Shaped(g, ms.cache)
    ensures var (m, ok) := Access(g, ms, a, write, 0);
      Shaped(g, m.cache) && (ok ==> Cached(g, m.cache, a) && WordCached(g, m.cache, a))
  {
    hide IsPow2, Coherent, Access, Flat, Cached, WordCached;
    AccessKeepsView(g, ms, a, write, 0);
    var (m, ok) := Access(g, ms, a, write, 0);
    if ok { WordIsCached(g, m, a); }
  }

  lemma OneByte(m: Mem, a: Word)
    ensures m[a..a + 1] == [m[a]] && FromBytes(m[a..a + 1]) == m[a]
  {
    assert FromBytes([m[a]][1..]) == 0;
  }

  lemma WriteOne(m: Mem, a: Word, b: Byte)
    ensures Splice(m, a, ToBytes(b, 8)[..1]) == m[a := b]
  {
    assert ToBytes(b, 8)[0] == b;
    assert forall x: Word :: Splice(m, a, ToBytes(b, 8)[..1])[x] == m[a := b][x];
  }
}
