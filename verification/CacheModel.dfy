/** The write-back, set-associative cache as a value, and its agreement with a flat
    memory: `raw` is the memory behind the cache, `Flat` what a program sees. */
module CacheModel {
  import opened Words
  import opened Bits
  import opened Arith
  import opened Lru
  import opened CacheSet
  import opened FlatMemory

  /** The base-2 logarithm, rounded down. */
  function Log(x: nat): nat {
    if x <= 1 then 0 else 1 + Log(x / 2)
  }

  predicate IsPow2(x: nat) {
    x == Pow2(Log(x))
  }

  /** Associativity, bytes per block, number of sets and miss delay. */
  datatype Geometry = Geometry(A: Ways, B: nat, S: nat, d: nat) {
    predicate Valid() {
      && 8 <= B < 0x8000_0000 && IsPow2(B)
      && 1 <= S < 0x8000_0000 && IsPow2(S)
      && d >= 1
    }

    function SetIndex(a: nat): (r: nat)
      requires Valid()
      ensures r < S
    {
      Mod(Div(a, B), S)
    }

    function Tag(a: nat): (r: nat)
      requires Valid()
      ensures r <= a
    {
      Div(Div(a, B), S)
    }

    function Offset(a: nat): (r: nat)
      requires Valid()
      ensures r < B
    {
      Mod(a, B)
    }

    function BlockBase(a: nat): (r: nat)
      requires Valid()
      ensures r <= a && r + Offset(a) == a
    {
      assert Mod(a, B) <= a;
      a - Mod(a, B)
    }

    function BlockAddr(tag: nat, index: nat): (r: nat)
      requires Valid()
    {
      Product(Product(tag, S) + index, B)
    }
  }

  datatype Cache = Cache(sets: seq<Set>, hits: nat, misses: nat, dirtyEvictions: nat, cleanEvictions: nat)

  datatype Evicted = Evicted(valid: bool, dirty: bool, blockAddr: Word, data: seq<Byte>)

  function EmptySet(g: Geometry): Set {
    Set(seq(g.A, _ => Line(false, 0, false, seq(g.B, _ => 0))), 0, TWO64 - 1)
  }

  function EmptyCache(g: Geometry): Cache
    requires g.Valid()
  {
    Cache(seq(g.S, _ => EmptySet(g)), 0, 0, 0, 0)
  }

  predicate Shaped(g: Geometry, c: Cache) {
    && g.Valid() && |c.sets| == g.S
    && forall s | 0 <= s < |c.sets| :: |c.sets[s].lines| == g.A
  }

  predicate Cached(g: Geometry, c: Cache, a: Word)
    requires Shaped(g, c)
  {
    Holds(c.sets[g.SetIndex(a)], g.Tag(a))
  }

  /** Look `a` up, count the outcome and, on a hit, mark and touch the line. */
  function CheckHit(g: Geometry, c: Cache, a: Word, write: bool): (r: (bool, Cache))
    requires Shaped(g, c)
    ensures Shaped(g, r.1)
  {
    var s := c.sets[g.SetIndex(a)];
    var i := Find(s.lines, g.Tag(a), 0);
    if i < g.A then
      (true, c.(sets := c.sets[g.SetIndex(a) := HitLine(g.A, s, i, write)], hits := c.hits + 1))
    else
      (false, c.(misses := c.misses + 1))
  }

  /** The address of the block that `tag` stands for in set `index`, by shifts. */
  function EvictedAddr(g: Geometry, tag: Word, index: Word): Word {
    WordOp(Or, ShiftLeft(tag, Log(g.B) + Log(g.S)), ShiftLeft(index, Log(g.B)))
  }

  /** Give the victim line of `a`'s set to `a`'s block, and report what it held. */
  function HandleMiss(g: Geometry, c: Cache, a: Word, write: bool, data: seq<Byte>): (r: (Evicted, Cache))
    requires Shaped(g, c) && Victim(c.sets[g.SetIndex(a)]) < g.A
    ensures Shaped(g, r.1)
  {
    var s := c.sets[g.SetIndex(a)];
    var i := Victim(s);
    var l := s.lines[i];
    var c' := c.(sets := c.sets[g.SetIndex(a) := Install(g.A, s, i, g.Tag(a), write, data)],
                 dirtyEvictions := c.dirtyEvictions + (if l.valid && l.dirty then 1 else 0),
                 cleanEvictions := c.cleanEvictions + (if l.valid && !l.dirty then 1 else 0));
    (Evicted(l.valid, l.dirty, EvictedAddr(g, l.tag, g.SetIndex(a)), l.data), c')
  }

  function LineOf(g: Geometry, c: Cache, a: Word): Line
    requires Shaped(g, c) && Cached(g, c, a)
  {
    var s := c.sets[g.SetIndex(a)];
    s.lines[Find(s.lines, g.Tag(a), 0)]
  }

  function GetWord(g: Geometry, c: Cache, a: Word): Word
    requires Shaped(g, c) && Cached(g, c, a)
    requires |LineOf(g, c, a).data| == g.B && g.Offset(a) + 8 <= g.B
  {
    var data := LineOf(g, c, a).data[g.Offset(a)..g.Offset(a) + 8];
    FromBytesBound(data);
    Pow256Is64();
    FromBytes(data)
  }

  function SetWord(g: Geometry, c: Cache, a: Word, v: Word): (c': Cache)
    requires Shaped(g, c) && Cached(g, c, a)
    requires |LineOf(g, c, a).data| == g.B && g.Offset(a) + 8 <= g.B
    ensures Shaped(g, c')
  {
    var s := c.sets[g.SetIndex(a)];
    var i := Find(s.lines, g.Tag(a), 0);
    var l := s.lines[i];
    var off := g.Offset(a);
    var data := l.data[..off] + ToBytes(v, 8) + l.data[off + 8..];
    c.(sets := c.sets[g.SetIndex(a) := s.(lines := s.lines[i := l.(data := data, dirty := true)])])
  }

  /** Write an evicted dirty block back to memory. */
  function WriteBack(raw: Mem, e: Evicted): Mem {
    if e.valid && e.dirty && e.blockAddr + |e.data| <= TWO64 then Splice(raw, e.blockAddr, e.data) else raw
  }

  /** Serve a miss at `a` from memory: fill the victim line, then write back. The guard
      holds in every coherent cache. */
  function Fill(g: Geometry, c: Cache, raw: Mem, a: Word, write: bool): (r: (Cache, Mem))
    requires Shaped(g, c)
    ensures Shaped(g, r.0)
  {
    var base := g.BlockBase(a);
    if Victim(c.sets[g.SetIndex(a)]) < g.A && base + g.B <= TWO64 then
      var (e, c') := HandleMiss(g, c, a, write, raw[base..base + g.B]);
      (c', WriteBack(raw, e))
    else (c, raw)
  }

  // Addresses.

  /** Tag, index and offset determine the address, and rebuild it. */
  lemma AddressRoundTrip(g: Geometry, a: nat)
    requires g.Valid()
    ensures g.BlockAddr(g.Tag(a), g.SetIndex(a)) + g.Offset(a) == a
  {
    hide Div, Mod, Product;
    DivMod(a, g.B);
    DivMod(Div(a, g.B), g.S);
  }

  /** The parts a block address is made of come back out of it. */
  lemma BlockAddrParts(g: Geometry, tag: nat, index: nat, off: nat)
    requires g.Valid() && index < g.S && off < g.B
    ensures var a := g.BlockAddr(tag, index) + off;
      g.Tag(a) == tag && g.SetIndex(a) == index && g.Offset(a) == off
  {
    hide Div, Mod, Product;
    DivModUnique(Product(tag, g.S) + index, g.B, off);
    DivModUnique(tag, g.S, index);
  }

  /** Two addresses are in one block exactly when they share tag and index. */
  lemma SameBlock(g: Geometry, a: nat, b: nat)
    requires g.Valid()
    ensures g.Tag(a) == g.Tag(b) && g.SetIndex(a) == g.SetIndex(b) <==> g.BlockBase(a) == g.BlockBase(b)
  {
    hide Div, Mod, Product, Geometry.Tag, Geometry.SetIndex, Geometry.Offset, Geometry.BlockAddr;
    AddressRoundTrip(g, a);
    AddressRoundTrip(g, b);
    BlockAddrParts(g, g.Tag(a), g.SetIndex(a), 0);
    BlockAddrParts(g, g.Tag(b), g.SetIndex(b), 0);
  }
}
