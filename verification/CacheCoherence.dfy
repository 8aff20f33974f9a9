/** The cache in front of a memory is, at every moment, one flat memory. */
module CacheCoherence {
  import opened Words
  import opened Arith
  import opened Lru
  import opened CacheSet
  import opened FlatMemory
  import opened CacheModel
  import opened Masks

  ghost predicate LruOk(A: Ways, s: Set) {
    exists h :: Tracks(A, s, h)
  }

  ghost predicate LineOk(g: Geometry, l: Line, index: nat, raw: Mem)
    requires g.Valid()
  {
    && |l.data| == g.B
    && (l.valid ==>
          var base := g.BlockAddr(l.tag, index);
          base + g.B <= TWO64 && (!l.dirty ==> l.data == raw[base..base + g.B]))
  }

  ghost predicate SetOk(g: Geometry, s: Set, index: nat, raw: Mem)
    requires g.Valid()
  {
    LruOk(g.A, s) && forall j | 0 <= j < |s.lines| :: LineOk(g, s.lines[j], index, raw)
  }

  ghost predicate Coherent(g: Geometry, c: Cache, raw: Mem) {
    Shaped(g, c) && forall i | 0 <= i < |c.sets| :: SetOk(g, c.sets[i], i, raw)
  }

  ghost function ByteAt(g: Geometry, c: Cache, raw: Mem, a: Word): Byte
    requires Coherent(g, c, raw)
  {
    if Cached(g, c, a) then
      assert SetOk(g, c.sets[g.SetIndex(a)], g.SetIndex(a), raw);
      LineOf(g, c, a).data[g.Offset(a)]
    else raw[a]
  }

  /** What a program sees: cached bytes where there are any, memory elsewhere. */
  ghost function Flat(g: Geometry, c: Cache, raw: Mem): (m: Mem)
    requires Coherent(g, c, raw)
    ensures forall a: Word :: m[a] == ByteAt(g, c, raw, a)
  {
    seq(TWO64, a requires 0 <= a < TWO64 => ByteAt(g, c, raw, a))
  }

  lemma {:induction false} EmptyTracks(g: Geometry)
    requires g.Valid()
    ensures Tracks(g.A, EmptySet(g), [])
  {
    forall r, c | 0 <= r < g.A && 0 <= c < g.A
      ensures !MatrixBit(g.A, 0, r, c)
    {
      ZeroBits(r * g.A + c);
    }
  }

  lemma {:induction false} ZeroBits(i: nat)
    ensures !Bits.Bit(0, i)
  {
    if i > 0 { ZeroBits(i - 1); }
  }

  lemma EmptyIsFlat(g: Geometry, raw: Mem)
    requires g.Valid()
    ensures Coherent(g, EmptyCache(g), raw) && Flat(g, EmptyCache(g), raw) == raw
  {
    EmptyTracks(g);
  }

  // Hits.

  /** The same lines, apart from dirty bits and LRU data, answer every lookup alike. */
  lemma SameFind(s: Set, s': Set, tag: Word)
    requires |s.lines| == |s'.lines|
    requires forall j | 0 <= j < |s.lines| :: s.lines[j].valid == s'.lines[j].valid && s.lines[j].tag == s'.lines[j].tag
    ensures Find(s.lines, tag, 0) == Find(s'.lines, tag, 0)
  {}

  lemma HitKeepsSet(g: Geometry, s: Set, index: nat, raw: Mem, tag: Word, write: bool)
    requires g.Valid() && SetOk(g, s, index, raw) && |s.lines| == g.A && Holds(s, tag)
    ensures SetOk(g, HitLine(g.A, s, Find(s.lines, tag, 0), write), index, raw)
  {
    hide Tracks, TouchLine;
    var h :| Tracks(g.A, s, h);
    HitTracks(g.A, s, h, tag, write);
    HitLines(g.A, s, Find(s.lines, tag, 0), write);
  }

  lemma HitLines(A: Ways, s: Set, i: nat, write: bool)
    requires i < |s.lines|
    ensures var s' := HitLine(A, s, i, write);
      s'.lines == if write then s.lines[i := s.lines[i].(dirty := true)] else s.lines
  {}

  lemma CheckHitKeepsFlat(g: Geometry, c: Cache, raw: Mem, a: Word, write: bool)
    requires Coherent(g, c, raw)
    ensures var (hit, c') := CheckHit(g, c, a, write);
      && Coherent(g, c', raw)
      && Flat(g, c', raw) == Flat(g, c, raw)
      && hit == Cached(g, c, a)
      && (forall b: Word :: Cached(g, c', b) == Cached(g, c, b))
      && (hit && write ==> LineOf(g, c', a).dirty)
  {
    hide Geometry.SetIndex, Geometry.Tag, Geometry.Offset, Geometry.BlockAddr, LineOk, LruOk, HitLine;
    var (hit, c') := CheckHit(g, c, a, write);
    var k := g.SetIndex(a);
    var s := c.sets[k];
    assert SetOk(g, s, k, raw);
    if hit {
      var i := Find(s.lines, g.Tag(a), 0);
      HitKeepsSet(g, s, k, raw, g.Tag(a), write);
      HitLines(g.A, s, i, write);
      SameFind(s, c'.sets[k], g.Tag(a));
      forall b: Word
        ensures Cached(g, c', b) == Cached(g, c, b) && ByteAt(g, c', raw, b) == ByteAt(g, c, raw, b)
      {
        SameFind(s, c'.sets[k], g.Tag(b));
      }
    }
  }

  // Misses.

  /** Lines of one set hold different blocks, so a lookup finds the line that holds it. */
  lemma FindUnique(A: Ways, s: Set, j: nat)
    requires LruOk(A, s) && j < |s.lines| && s.lines[j].valid
    ensures Find(s.lines, s.lines[j].tag, 0) == j
  {
    var h :| Tracks(A, s, h);
  }

  /** A block of another set, or of another tag, shares no byte with this one. */
  lemma BlocksDisjoint(g: Geometry, tag: nat, index: nat, a: nat)
    requires g.Valid() && index < g.S
    requires g.Tag(a) != tag || g.SetIndex(a) != index
    ensures var base := g.BlockAddr(tag, index);
      !(base <= a < base + g.B)
  {
    hide Geometry.SetIndex, Geometry.Tag, Geometry.Offset, Geometry.BlockAddr;
    var base := g.BlockAddr(tag, index);
    if base <= a < base + g.B {
      BlockAddrParts(g, tag, index, a - base);
    }
  }

  lemma InBlock(g: Geometry, a: nat)
    requires g.Valid()
    ensures var base := g.BlockAddr(g.Tag(a), g.SetIndex(a));
      base <= a < base + g.B && a - base == g.Offset(a)
  {
    hide Geometry.SetIndex, Geometry.Tag, Geometry.BlockAddr;
    AddressRoundTrip(g, a);
  }

  lemma InstallLines(A: Ways, s: Set, i: nat, tag: Word, write: bool, data: seq<Byte>)
    requires i < |s.lines|
    ensures Install(A, s, i, tag, write, data).lines == s.lines[i := Line(true, tag, write, data)]
  {}

  lemma MissVictim(g: Geometry, c: Cache, raw: Mem, a: Word)
    requires Coherent(g, c, raw)
    ensures Victim(c.sets[g.SetIndex(a)]) < g.A
  {
    var k := g.SetIndex(a);
    assert SetOk(g, c.sets[k], k, raw);
    var h :| Tracks(g.A, c.sets[k], h);
    VictimInRange(g.A, c.sets[k], h);
  }

  /** What the fill does, in terms of the line it replaces. */
  lemma FillEffect(g: Geometry, c: Cache, raw: Mem, a: Word, write: bool)
    requires Coherent(g, c, raw) && !Cached(g, c, a) && g.BlockBase(a) + g.B <= TWO64
    requires Victim(c.sets[g.SetIndex(a)]) < g.A
    ensures var k := g.SetIndex(a);
      var s, s' := c.sets[k], Fill(g, c, raw, a, write).0.sets[k];
      var i := Victim(s);
      var evicted := s.lines[i];
      var raw' := Fill(g, c, raw, a, write).1;
      var base := g.BlockBase(a);
      var from := g.BlockAddr(evicted.tag, k);
      && base == g.BlockAddr(g.Tag(a), k)
      && LruOk(g.A, s')
      && s'.lines == s.lines[i := Line(true, g.Tag(a), write, raw[base..base + g.B])]
      && (evicted.valid && evicted.dirty ==> from + g.B <= TWO64 && raw' == Splice(raw, from, evicted.data))
      && (!(evicted.valid && evicted.dirty) ==> raw' == raw)
  {
    hide Geometry.SetIndex, Geometry.Tag, Geometry.Offset, Geometry.BlockAddr, Install, Tracks, TouchLine,
      EvictedAddr, IsPow2;
    var k, t := g.SetIndex(a), g.Tag(a);
    var s := c.sets[k];
    assert SetOk(g, s, k, raw);
    var i := Victim(s);
    assert LineOk(g, s.lines[i], k, raw);
    var h :| Tracks(g.A, s, h);
    var base := g.BlockBase(a);
    InstallTracks(g.A, s, h, t, write, raw[base..base + g.B]);
    InstallLines(g.A, s, i, t, write, raw[base..base + g.B]);
    AddressRoundTrip(g, a);
    if s.lines[i].valid { BlockAddrByShifts(g, s.lines[i].tag, k); }
  }

  lemma FillKeepsLine(g: Geometry, c: Cache, raw: Mem, a: Word, write: bool, n: nat, j: nat)
    requires Coherent(g, c, raw) && !Cached(g, c, a) && g.BlockBase(a) + g.B <= TWO64
    requires Victim(c.sets[g.SetIndex(a)]) < g.A
    requires n < g.S && j < g.A
    ensures var (c', raw') := Fill(g, c, raw, a, write);
      LineOk(g, c'.sets[n].lines[j], n, raw')
  {
    hide Geometry.SetIndex, Geometry.Tag, Geometry.Offset, Geometry.BlockAddr, Fill, Tracks, Victim;
    FillEffect(g, c, raw, a, write);
    var k := g.SetIndex(a);
    var s := c.sets[k];
    var i := Victim(s);
    var evicted := s.lines[i];
    var (c', raw') := Fill(g, c, raw, a, write);
    FillOtherSets(g, c, raw, a, write);
    var l := c'.sets[n].lines[j];
    assert SetOk(g, c.sets[n], n, raw) && SetOk(g, s, k, raw);
    assert LineOk(g, c.sets[n].lines[j], n, raw);
    var here := g.BlockAddr(l.tag, n);
    if l.valid && evicted.valid && evicted.dirty {
      FindUnique(g.A, s, i);
      if n == k && j != i { FindUnique(g.A, s, j); }
      assert l.tag != evicted.tag || n != k;
      assert here + g.B <= TWO64;
      forall x | here <= x < here + g.B ensures raw'[x] == raw[x] {
        BlockAddrParts(g, l.tag, n, x - here);
        BlocksDisjoint(g, evicted.tag, k, x);
      }
      assert raw'[here..here + g.B] == raw[here..here + g.B];
    }
  }

  lemma FillOtherSets(g: Geometry, c: Cache, raw: Mem, a: Word, write: bool)
    requires Coherent(g, c, raw) && g.BlockBase(a) + g.B <= TWO64
    requires Victim(c.sets[g.SetIndex(a)]) < g.A
    ensures var c' := Fill(g, c, raw, a, write).0;
      forall n | 0 <= n < g.S && n != g.SetIndex(a) :: c'.sets[n] == c.sets[n]
  {}

  lemma FillCoherent(g: Geometry, c: Cache, raw: Mem, a: Word, write: bool)
    requires Coherent(g, c, raw) && !Cached(g, c, a) && g.BlockBase(a) + g.B <= TWO64
    requires Victim(c.sets[g.SetIndex(a)]) < g.A
    ensures var (c', raw') := Fill(g, c, raw, a, write);
      Coherent(g, c', raw')
  {
    hide Geometry.SetIndex, Geometry.Tag, Geometry.Offset, Geometry.BlockAddr, Fill, Tracks, Victim, LineOk;
    var (c', raw') := Fill(g, c, raw, a, write);
    FillEffect(g, c, raw, a, write);
    FillOtherSets(g, c, raw, a, write);
    forall n | 0 <= n < |c'.sets| ensures SetOk(g, c'.sets[n], n, raw') {
      assert SetOk(g, c.sets[n], n, raw);
      forall j | 0 <= j < |c'.sets[n].lines| ensures LineOk(g, c'.sets[n].lines[j], n, raw') {
        FillKeepsLine(g, c, raw, a, write, n, j);
      }
    }
  }

  lemma FillByte(g: Geometry, c: Cache, raw: Mem, a: Word, write: bool, b: Word)
    requires Coherent(g, c, raw) && !Cached(g, c, a) && g.BlockBase(a) + g.B <= TWO64
    requires Victim(c.sets[g.SetIndex(a)]) < g.A
    ensures var (c', raw') := Fill(g, c, raw, a, write);
      Coherent(g, c', raw') && ByteAt(g, c', raw', b) == ByteAt(g, c, raw, b)
  {
    FillCoherent(g, c, raw, a, write);
    if g.SetIndex(b) != g.SetIndex(a) {
      FillByteElsewhere(g, c, raw, a, write, b);
    } else {
      FillByteInSet(g, c, raw, a, write, b);
    }
  }

  /** Memory changes only under the block that was evicted. */
  lemma FillMemory(g: Geometry, c: Cache, raw: Mem, a: Word, write: bool, b: Word)
    requires Coherent(g, c, raw) && !Cached(g, c, a) && g.BlockBase(a) + g.B <= TWO64
    requires Victim(c.sets[g.SetIndex(a)]) < g.A
    ensures var k := g.SetIndex(a);
      var evicted := c.sets[k].lines[Victim(c.sets[k])];
      var raw' := Fill(g, c, raw, a, write).1;
      && |evicted.data| == g.B
      && (if evicted.valid && g.SetIndex(b) == k && g.Tag(b) == evicted.tag then raw'[b] == evicted.data[g.Offset(b)]
          else raw'[b] == raw[b])
  {
    hide Geometry.SetIndex, Geometry.Tag, Geometry.Offset, Geometry.BlockAddr, Fill, Tracks, Victim;
    var k := g.SetIndex(a);
    var evicted := c.sets[k].lines[Victim(c.sets[k])];
    FillEffect(g, c, raw, a, write);
    assert SetOk(g, c.sets[k], k, raw) && LineOk(g, evicted, k, raw);
    InBlock(g, b);
    if g.SetIndex(b) != k || g.Tag(b) != evicted.tag { BlocksDisjoint(g, evicted.tag, k, b); }
  }

  lemma FillByteElsewhere(g: Geometry, c: Cache, raw: Mem, a: Word, write: bool, b: Word)
    requires Coherent(g, c, raw) && !Cached(g, c, a) && g.BlockBase(a) + g.B <= TWO64
    requires Victim(c.sets[g.SetIndex(a)]) < g.A && g.SetIndex(b) != g.SetIndex(a)
    requires var (c', raw') := Fill(g, c, raw, a, write); Coherent(g, c', raw')
    ensures var (c', raw') := Fill(g, c, raw, a, write); ByteAt(g, c', raw', b) == ByteAt(g, c, raw, b)
  {
    hide Geometry.SetIndex, Geometry.Tag, Geometry.Offset, Geometry.BlockAddr, Fill, Tracks, Victim, Find;
    FillOtherSets(g, c, raw, a, write);
    FillMemory(g, c, raw, a, write, b);
  }

  lemma FillByteInSet(g: Geometry, c: Cache, raw: Mem, a: Word, write: bool, b: Word)
    requires Coherent(g, c, raw) && !Cached(g, c, a) && g.BlockBase(a) + g.B <= TWO64
    requires Victim(c.sets[g.SetIndex(a)]) < g.A && g.SetIndex(b) == g.SetIndex(a)
    requires var (c', raw') := Fill(g, c, raw, a, write); Coherent(g, c', raw')
    ensures var (c', raw') := Fill(g, c, raw, a, write); ByteAt(g, c', raw', b) == ByteAt(g, c, raw, b)
  {
    hide Geometry.SetIndex, Geometry.Tag, Geometry.Offset, Geometry.BlockAddr, Fill, Tracks, Victim, LruOk, LineOk;
    var (c', raw') := Fill(g, c, raw, a, write);
    FillEffect(g, c, raw, a, write);
    FillMemory(g, c, raw, a, write, b);
    var k, t := g.SetIndex(a), g.Tag(a);
    var s, s' := c.sets[k], c'.sets[k];
    assert SetOk(g, s, k, raw) && SetOk(g, s', k, raw');
    InBlock(g, b);
    LookupAfterInstall(g.A, s, s', Victim(s), t, g.Tag(b));
  }

  /** Where a lookup lands after line `i` has been given to `t`. */
  lemma LookupAfterInstall(A: Ways, s: Set, s': Set, i: nat, t: Word, u: Word)
    requires |s.lines| == |s'.lines| == A && i < A
    requires LruOk(A, s) && LruOk(A, s') && !Holds(s, t)
    requires s'.lines[i].valid && s'.lines[i].tag == t
    requires forall j | 0 <= j < A && j != i :: s'.lines[j] == s.lines[j]
    ensures u == t ==> Find(s'.lines, u, 0) == i && !Holds(s, u)
    ensures s.lines[i].valid && u == s.lines[i].tag ==> !Holds(s', u) && Find(s.lines, u, 0) == i
    ensures u != t && !(s.lines[i].valid && u == s.lines[i].tag) ==> Find(s'.lines, u, 0) == Find(s.lines, u, 0)
  {
    hide Tracks, LruOk;
    FindUnique(A, s', i);
    if s.lines[i].valid && u == s.lines[i].tag {
      FindUnique(A, s, i);
      HoldsIff(s', u);
      forall j | 0 <= j < A && j != i && s.lines[j].valid ensures s.lines[j].tag != u {
        FindUnique(A, s, j);
      }
    }
  }

  /** Filling a line and writing the dirty block it held back leaves what a program
      sees unchanged: the two blocks differ, so the order does not matter. */
  lemma FillKeepsFlat(g: Geometry, c: Cache, raw: Mem, a: Word, write: bool)
    requires Coherent(g, c, raw) && !Cached(g, c, a) && g.BlockBase(a) + g.B <= TWO64
    ensures Victim(c.sets[g.SetIndex(a)]) < g.A
    ensures var (c', raw') := Fill(g, c, raw, a, write);
      && Coherent(g, c', raw')
      && Flat(g, c', raw') == Flat(g, c, raw)
      && (forall b: Word | g.BlockBase(b) == g.BlockBase(a) :: Cached(g, c', b))
  {
    hide Geometry.SetIndex, Geometry.Tag, Geometry.Offset, Geometry.BlockAddr, Fill, Tracks, Victim, ByteAt;
    MissVictim(g, c, raw, a);
    FillCoherent(g, c, raw, a, write);
    FillEffect(g, c, raw, a, write);
    var (c', raw') := Fill(g, c, raw, a, write);
    forall b: Word ensures ByteAt(g, c', raw', b) == ByteAt(g, c, raw, b) {
      FillByte(g, c, raw, a, write, b);
    }
    forall b: Word | g.BlockBase(b) == g.BlockBase(a) ensures Cached(g, c', b) {
      SameBlock(g, a, b);
      var s' := c'.sets[g.SetIndex(a)];
      HoldsIff(s', g.Tag(a));
      assert s'.lines[Victim(c.sets[g.SetIndex(a)])].tag == g.Tag(a);
    }
  }

  // Words.

  lemma {:induction false} Pow2Multiple(n: nat)
    ensures if n < 3 then Pow2(n) < 8 else Pow2(n) >= 8 && Pow2(n) % 8 == 0
  {
    if n > 3 {
      Pow2Multiple(n - 1);
    } else {
      assert Pow2(1) == 2 && Pow2(2) == 4 && Pow2(3) == 8;
    }
  }

  lemma OffsetAligned(q: nat, b: nat, r: nat)
    requires b % 8 == 0 && (Product(q, b) + r) % 8 == 0
    ensures r % 8 == 0
  {
    var m := b / 8;
    assert q * b == 8 * (q * m);
  }

  lemma OffsetIsAligned(g: Geometry, a: nat)
    requires g.Valid() && a % 8 == 0
    ensures g.Offset(a) % 8 == 0 && g.B % 8 == 0
  {
    hide Geometry.SetIndex, Geometry.Tag, Geometry.BlockAddr;
    Pow2Multiple(Log(g.B));
    DivMod(a, g.B);
    OffsetAligned(Div(a, g.B), g.B, Mod(a, g.B));
  }

  /** The eight bytes of an aligned word lie in one block. */
  lemma AlignedWord(g: Geometry, a: Word, i: nat)
    requires g.Valid() && a % 8 == 0 && i < 8
    ensures g.Offset(a) + 8 <= g.B
    ensures a + i < TWO64 && g.BlockBase(a + i) == g.BlockBase(a) && g.Offset(a + i) == g.Offset(a) + i
    ensures g.SetIndex(a + i) == g.SetIndex(a) && g.Tag(a + i) == g.Tag(a)
  {
    hide Geometry.SetIndex, Geometry.Tag, Geometry.Offset, Geometry.BlockAddr, IsPow2;
    OffsetIsAligned(g, a);
    AddressRoundTrip(g, a);
    BlockAddrParts(g, g.Tag(a), g.SetIndex(a), g.Offset(a) + i);
  }

  lemma WordBytes(g: Geometry, c: Cache, raw: Mem, a: Word, i: nat)
    requires Coherent(g, c, raw) && Cached(g, c, a) && a % 8 == 0 && i < 8
    ensures a + i < TWO64 && g.Offset(a) + 8 <= g.B && |LineOf(g, c, a).data| == g.B
    ensures Cached(g, c, a + i) && Flat(g, c, raw)[a + i] == LineOf(g, c, a).data[g.Offset(a) + i]
  {
    hide Geometry.SetIndex, Geometry.Tag, Geometry.BlockAddr, Geometry.Offset, LruOk;
    AlignedWord(g, a, i);
    var k := g.SetIndex(a);
    assert SetOk(g, c.sets[k], k, raw);
  }

  lemma GetWordIsLoad(g: Geometry, c: Cache, raw: Mem, a: Word)
    requires Coherent(g, c, raw) && Cached(g, c, a) && a % 8 == 0
    ensures a + 8 <= TWO64 && g.Offset(a) + 8 <= g.B && |LineOf(g, c, a).data| == g.B
    ensures GetWord(g, c, a) == Load64(Flat(g, c, raw), a)
  {
    hide Geometry.SetIndex, Geometry.Tag, Geometry.BlockAddr, Geometry.Offset, LruOk, SetOk;
    WordBytes(g, c, raw, a, 7);
    var off := g.Offset(a);
    var cached := LineOf(g, c, a).data[off..off + 8];
    var flat := Flat(g, c, raw)[a..a + 8];
    forall i | 0 <= i < 8 ensures cached[i] == flat[i] {
      WordBytes(g, c, raw, a, i);
    }
    assert cached == flat;
  }

  lemma SetWordIsStore(g: Geometry, c: Cache, raw: Mem, a: Word, v: Word)
    requires Coherent(g, c, raw) && Cached(g, c, a) && a % 8 == 0
    ensures a + 8 <= TWO64 && g.Offset(a) + 8 <= g.B && |LineOf(g, c, a).data| == g.B
    ensures var c' := SetWord(g, c, a, v);
      && Coherent(g, c', raw)
      && Flat(g, c', raw) == Store64(Flat(g, c, raw), a, v)
      && (forall b: Word :: Cached(g, c', b) == Cached(g, c, b))
  {
    hide Geometry.SetIndex, Geometry.Tag, Geometry.BlockAddr, Geometry.Offset, Tracks;
    WordBytes(g, c, raw, a, 7);
    var c' := SetWord(g, c, a, v);
    var k := g.SetIndex(a);
    var s, s' := c.sets[k], c'.sets[k];
    assert SetOk(g, s, k, raw);
    var h :| Tracks(g.A, s, h);
    var i := Find(s.lines, g.Tag(a), 0);
    DataKeepsTracks(g.A, s, h, i, s'.lines[i]);
    assert SetOk(g, s', k, raw);
    assert Coherent(g, c', raw);
    forall b: Word
      ensures Cached(g, c', b) == Cached(g, c, b)
      ensures ByteAt(g, c', raw, b) == Store64(Flat(g, c, raw), a, v)[b]
    {
      SameFind(s, s', g.Tag(b));
      SetWordByte(g, c, raw, a, v, b);
    }
  }

  lemma DataKeepsTracks(A: Ways, s: Set, h: seq<Word>, i: nat, l: Line)
    requires Tracks(A, s, h) && i < A && l.valid == s.lines[i].valid && l.tag == s.lines[i].tag
    ensures Tracks(A, s.(lines := s.lines[i := l]), h)
  {
    hide MatrixBit, ZeroRow, LastUse;
    var s' := s.(lines := s.lines[i := l]);
    assert forall j | 0 <= j < A :: LineUse(s', h, j) == LineUse(s, h, j);
    forall t, j | t in h && !Holds(s', t) && 0 <= j < A ensures LineUse(s', h, j) > LastUse(h, t) {
      SameFind(s, s', t);
      assert LineUse(s, h, j) > LastUse(h, t);
    }
  }

  lemma SetWordByte(g: Geometry, c: Cache, raw: Mem, a: Word, v: Word, b: Word)
    requires Coherent(g, c, raw) && Cached(g, c, a) && a % 8 == 0
    requires g.Offset(a) + 8 <= g.B && |LineOf(g, c, a).data| == g.B && a + 8 <= TWO64
    requires Coherent(g, SetWord(g, c, a, v), raw)
    ensures ByteAt(g, SetWord(g, c, a, v), raw, b) == Store64(Flat(g, c, raw), a, v)[b]
  {
    hide Geometry.SetIndex, Geometry.Tag, Geometry.BlockAddr, Geometry.Offset, LruOk;
    var c' := SetWord(g, c, a, v);
    var k := g.SetIndex(a);
    SameFind(c.sets[k], c'.sets[k], g.Tag(b));
    if a <= b < a + 8 {
      AlignedWord(g, a, b - a);
    } else if g.SetIndex(b) == k && g.Tag(b) == g.Tag(a) {
      SameBlock(g, a, b);
    }
  }
}
