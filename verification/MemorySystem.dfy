/** The memory front end: word access through the cache, byte by byte, with a miss
    that keeps the access in flight for `d` cycles. */
module MemorySystem {
  import opened Words
  import opened Arith
  import opened Bits
  import opened FlatMemory
  import opened CacheModel
  import opened CacheCoherence

  datatype CacheConfig = NoCache | WithCache(g: Geometry)

  /** Where the segments start, and whether data goes through a cache. */
  datatype Config = Config(textStart: Word, dataStart: Word, kernelStart: Word, cache: CacheConfig)

  datatype MemSys = MemSys(raw: Mem, cache: Cache, inflight: bool, inflightAddr: Word,
                           inflightCycles: Word, busy: bool, output: seq<Word>)

  const NULL_ADDR: Word := 0
  const IO_CHAR_ADDR: Word := 0xFFFF_FFFF_FFFF_FFFF
  const CHECKPOINT_ADDR: Word := 0xFFFF_FFFF_FFFF_FFF7

  predicate IsSpecial(a: Word) {
    a == NULL_ADDR || a == IO_CHAR_ADDR || a == CHECKPOINT_ADDR
  }

  predicate InData(cfg: Config, a: Word) {
    cfg.dataStart <= a < cfg.kernelStart
  }

  predicate InText(cfg: Config, a: Word) {
    cfg.textStart <= a < cfg.dataStart
  }

  /** An ordinary data word: inside the data segments, aligned and not a trap address. */
  predicate DataWord(cfg: Config, a: Word) {
    InData(cfg, a) && a % 8 == 0 && !IsSpecial(a)
  }

  /** How many cycles a miss on `block` still has to wait, this one included. */
  function CyclesLeft(g: Geometry, ms: MemSys, block: Word): nat {
    if ms.inflight && ms.inflightAddr == block then ms.inflightCycles else g.d
  }

  /** One byte of an access: a hit, one more cycle of waiting, or the end of a miss.
      The second result says whether the access may go on in this cycle. */
  function AccessByte(g: Geometry, ms: MemSys, b: Word, write: bool): (r: (MemSys, bool))
    requires Shaped(g, ms.cache)
    ensures Shaped(g, r.0.cache)
  {
    var (hit, c) := CheckHit(g, ms.cache, b, write);
    if hit then (ms.(cache := c), true)
    else
      var block := g.BlockBase(b);
      var left := Wrap(CyclesLeft(g, ms, block) - 1);
      if left > 0 then
        (ms.(cache := c, inflight := true, inflightAddr := block, inflightCycles := left, busy := true), false)
      else
        var (c', raw') := Fill(g, c, ms.raw, b, write);
        (ms.(cache := c', raw := raw', inflight := false, inflightAddr := block, inflightCycles := 0), true)
  }

  /** Look up the bytes of the word at `a` from byte `i` on; the second result says
      whether the access completed in this cycle. */
  function Access(g: Geometry, ms: MemSys, a: Word, write: bool, i: nat): (r: (MemSys, bool))
    requires Shaped(g, ms.cache) && i <= 8
    ensures Shaped(g, r.0.cache)
    decreases 8 - i
  {
    if i == 8 then (ms, true) else
    var (m, ok) := AccessByte(g, ms, Wrap(a + i), write);
    if ok then Access(g, m, a, write, i + 1) else (m, false)
  }

  /** A word can be taken from the cache at `a`. */
  predicate WordCached(g: Geometry, c: Cache, a: Word)
    requires Shaped(g, c)
  {
    Cached(g, c, a) && |LineOf(g, c, a).data| == g.B && g.Offset(a) + 8 <= g.B
  }

  function ReadCached(g: Geometry, ms: MemSys, a: Word): (r: (MemSys, Word))
    requires Shaped(g, ms.cache)
    ensures Shaped(g, r.0.cache)
  {
    var (m, ok) := Access(g, ms, a, false, 0);
    if ok && WordCached(g, m.cache, a) then (m.(busy := false), GetWord(g, m.cache, a)) else (m, 0)
  }

  function WriteCached(g: Geometry, ms: MemSys, a: Word, v: Word): (r: MemSys)
    requires Shaped(g, ms.cache)
    ensures Shaped(g, r.cache)
  {
    var (m, ok) := Access(g, ms, a, true, 0);
    if ok && WordCached(g, m.cache, a) then m.(cache := SetWord(g, m.cache, a, v), busy := false) else m
  }

  predicate MemShaped(cfg: Config, ms: MemSys) {
    cfg.cache.WithCache? ==> Shaped(cfg.cache.g, ms.cache)
  }

  /** Read the data word at `a`. Only data words are modelled. */
  function DataRead(cfg: Config, ms: MemSys, a: Word): (r: (MemSys, Word))
    requires MemShaped(cfg, ms)
    ensures MemShaped(cfg, r.0)
  {
    if !DataWord(cfg, a) then (ms, 0)
    else match cfg.cache
      case WithCache(g) => ReadCached(g, ms, a)
      case NoCache => (ms, Load64(ms.raw, a))
  }

  /** Write the data word at `a`; the console address prints instead, and a write to
      the null address is dropped. */
  function DataWrite(cfg: Config, ms: MemSys, a: Word, v: Word): (r: MemSys)
    requires MemShaped(cfg, ms)
    ensures MemShaped(cfg, r)
  {
    if a == IO_CHAR_ADDR then ms.(output := ms.output + [v])
    else if !DataWord(cfg, a) then ms
    else match cfg.cache
      case WithCache(g) => WriteCached(g, ms, a, v)
      case NoCache => ms.(raw := Store64(ms.raw, a, v))
  }

  // Instructions.

  /** An instruction at `pc` is read through the data cache, though it can only be an error. */
  predicate FetchCached(cfg: Config, pc: Word) {
    cfg.cache.WithCache? && pc >= cfg.dataStart && !IsSpecial(pc)
  }

  /** The word fetched at `pc`. What comes from the data cache is never used and given as 0. */
  function InstrBits(cfg: Config, ms: MemSys, pc: Word): Insn {
    if FetchCached(cfg, pc) || IsSpecial(pc) then 0 else Load32(ms.raw, pc)
  }

  /** Look up the four bytes at `a` from byte `i` on, as `Access` does eight. */
  function LookUp(g: Geometry, ms: MemSys, a: Word, i: nat): (r: (MemSys, bool))
    requires Shaped(g, ms.cache) && i <= 4
    ensures Shaped(g, r.0.cache)
    decreases 4 - i
  {
    if i == 4 then (ms, true) else
    var (m, ok) := AccessByte(g, ms, Wrap(a + i), false);
    if ok then LookUp(g, m, a, i + 1) else (m, false)
  }

  /** The memory after the word at `pc` has been fetched. */
  function InstrRead(cfg: Config, ms: MemSys, pc: Word): (ms': MemSys)
    requires MemShaped(cfg, ms)
    ensures MemShaped(cfg, ms')
    ensures !FetchCached(cfg, pc) ==> ms' == ms
  {
    if !FetchCached(cfg, pc) then ms else
    var (m, ok) := LookUp(cfg.cache.g, ms, pc, 0);
    if ok then m.(busy := false) else m
  }

  // What a program sees.

  ghost predicate CacheOk(g: Geometry, ms: MemSys) {
    && Shaped(g, ms.cache) && g.d < TWO64 && Coherent(g, ms.cache, ms.raw)
    && (ms.inflight ==> ms.inflightCycles >= 1)
  }

  ghost predicate MemOk(cfg: Config, ms: MemSys) {
    if cfg.cache.WithCache? then CacheOk(cfg.cache.g, ms) else !ms.busy
  }

  ghost function View(cfg: Config, ms: MemSys): Mem
    requires MemOk(cfg, ms)
  {
    if cfg.cache.WithCache? then Flat(cfg.cache.g, ms.cache, ms.raw) else ms.raw
  }

  ghost predicate SameView(g: Geometry, ms: MemSys, ms': MemSys) {
    CacheOk(g, ms) && CacheOk(g, ms') && ms'.output == ms.output
    && Flat(g, ms'.cache, ms'.raw) == Flat(g, ms.cache, ms.raw)
  }

  lemma CachedByWord(g: Geometry, c: Cache, a: Word, i: nat)
    requires Shaped(g, c) && a % 8 == 0 && i < 8
    ensures a + i < TWO64 && Cached(g, c, a + i) == Cached(g, c, a)
  {
    AlignedWord(g, a, i);
  }

  lemma AccessByteKeepsView(g: Geometry, ms: MemSys, a: Word, i: nat, write: bool)
    requires CacheOk(g, ms) && a % 8 == 0 && i < 8
    ensures a + i < TWO64
    ensures var (m, ok) := AccessByte(g, ms, a + i, write);
      SameView(g, ms, m) && m.busy == (ms.busy || !ok) && (ok ==> Cached(g, m.cache, a))
  {
    hide IsPow2, Coherent, Flat, Cached, CheckHit, Fill, Geometry.BlockBase;
    AlignedWord(g, a, i);
    CachedByWord(g, ms.cache, a, i);
    CheckHitKeepsFlat(g, ms.cache, ms.raw, a + i, write);
    var (hit, c) := CheckHit(g, ms.cache, a + i, write);
    if hit {
      CachedByWord(g, c, a, i);
    } else {
      AlignedBlock(g, a + i);
      FillKeepsFlat(g, c, ms.raw, a + i, write);
    }
  }

  lemma {:induction false} AccessKeepsView(g: Geometry, ms: MemSys, a: Word, write: bool, i: nat)
    requires CacheOk(g, ms) && a % 8 == 0 && i <= 8
    requires i == 8 ==> Cached(g, ms.cache, a)
    ensures var (m, ok) := Access(g, ms, a, write, i);
      SameView(g, ms, m) && m.busy == (ms.busy || !ok) && (ok ==> Cached(g, m.cache, a))
    decreases 8 - i
  {
    hide IsPow2, Coherent, Flat, Cached, AccessByte;
    if i < 8 {
      AccessByteKeepsView(g, ms, a, i, write);
      var (m, ok) := AccessByte(g, ms, a + i, write);
      if ok {
        AccessKeepsView(g, m, a, write, i + 1);
      }
    }
  }

  lemma WordIsCached(g: Geometry, ms: MemSys, a: Word)
    requires CacheOk(g, ms) && a % 8 == 0 && Cached(g, ms.cache, a)
    ensures WordCached(g, ms.cache, a)
  {
    WordBytes(g, ms.cache, ms.raw, a, 0);
  }

  /** Reads: whatever the cache does, memory as seen stays put, and a read that
      completes returns the word last stored there. */
  lemma ReadIsLoad(cfg: Config, ms: MemSys, a: Word)
    requires MemOk(cfg, ms) && DataWord(cfg, a)
    ensures MemShaped(cfg, ms) && a + 8 <= TWO64
    ensures var (ms', v) := DataRead(cfg, ms, a);
      && MemOk(cfg, ms') && View(cfg, ms') == View(cfg, ms) && ms'.output == ms.output
      && (!ms'.busy ==> v == Load64(View(cfg, ms), a))
  {
    hide IsPow2, Coherent, Flat, Cached, Access, GetWord, WordCached, Load64;
    if cfg.cache.WithCache? {
      var g := cfg.cache.g;
      AccessKeepsView(g, ms, a, false, 0);
      var (m, ok) := Access(g, ms, a, false, 0);
      if ok {
        WordIsCached(g, m, a);
        GetWordIsLoad(g, m.cache, m.raw, a);
      }
    }
  }

  /** Writes: nothing is visible until the access completes, and then exactly the word
      stored is. */
  lemma WriteIsStore(cfg: Config, ms: MemSys, a: Word, v: Word)
    requires MemOk(cfg, ms) && DataWord(cfg, a)
    ensures MemShaped(cfg, ms) && a + 8 <= TWO64
    ensures var ms' := DataWrite(cfg, ms, a, v);
      && MemOk(cfg, ms') && ms'.output == ms.output
      && View(cfg, ms') == if ms'.busy then View(cfg, ms) else Store64(View(cfg, ms), a, v)
  {
    hide IsPow2, Coherent, Flat, Cached, Access, SetWord, WordCached, Store64;
    if cfg.cache.WithCache? {
      var g := cfg.cache.g;
      AccessKeepsView(g, ms, a, true, 0);
      var (m, ok) := Access(g, ms, a, true, 0);
      if ok {
        WordIsCached(g, m, a);
        SetWordIsStore(g, m.cache, m.raw, a, v);
      }
    }
  }

  /** No block runs over the end of the address space. */
  lemma AlignedBlock(g: Geometry, a: Word)
    requires g.Valid()
    ensures g.BlockBase(a) + g.B <= TWO64
  {
    var k := Log(g.B);
    if k > 64 { Pow2Mono(64, k); }
    Pow2Is64();
    Pow2Add(k, 64 - k);
    var q := Div(a, g.B);
    DivMod(a, g.B);
    MulStep(g.B, q, Pow2(64 - k));
    MulStep(g.B, Pow2(64 - k), q);
  }
}
