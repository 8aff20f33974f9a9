/** Demand-filled memory: a hash table of chained pages that stands for a flat, initially
    zero memory. */
module PageTable {
  import opened Words
  import opened Bits
  import opened FlatMemory

  const PAGE_SIZE := 4096
  const HASH_SIZE := 128

  /** A byte of the page number as the C type `char`, which is signed here. */
  function CharAt(n: Word, i: nat): int {
    var b := Halve(n, 8 * i) % 256;
    if b < 128 then b else b - 256
  }

  function HashStep(h: Word, c: int): Word {
    var h1 := Wrap(h * 16 + c);
    var high := WordOp(And, h1, 0xF000_0000);
    var h2 := if high != 0 then WordOp(Xor, h1, ShiftRight(high, 24)) else h1;
    WordOp(And, h2, Complement(high))
  }

  function HashUpTo(n: Word, i: nat): Word {
    if i == 0 then 0 else HashStep(HashUpTo(n, i - 1), CharAt(n, i - 1))
  }

  function Hash(n: Word): (h: nat)
    ensures h < HASH_SIZE
  {
    HashUpTo(n, 7) % HASH_SIZE
  }

  method ComputeHash(n: Word) returns (h: nat)
    ensures h == Hash(n)
  {
    var acc: Word := 0;
    for i := 0 to 7
      invariant acc == HashUpTo(n, i)
    {
      acc := HashStep(acc, CharAt(n, i));
    }
    h := acc % HASH_SIZE;
  }

  class Page {
    const num: Word
    const data: array<Byte>
    const next: Page?

    constructor (num: Word, data: array<Byte>, next: Page?)
      ensures this.num == num && this.data == data && this.next == next
    {
      this.num, this.data, this.next := num, data, next;
    }
  }

  function After(c: seq<Page>, i: nat): Page? {
    if i < |c| then c[i] else null
  }

  /** `c` lists the pages of the chain that starts at `head` in bucket `h`. */
  ghost predicate Chain(c: seq<Page>, head: Page?, h: nat, stored: map<Word, array<Byte>>) {
    && head == After(c, 0)
    && (forall i | 0 <= i < |c| :: c[i].next == After(c, i + 1))
    && (forall i | 0 <= i < |c| :: Hash(c[i].num) == h && c[i].num in stored && stored[c[i].num] == c[i].data)
    && (forall i, j | 0 <= i < j < |c| :: c[i].num != c[j].num)
  }

  lemma ChainGrows(c: seq<Page>, head: Page?, h: nat, stored: map<Word, array<Byte>>, n: Word, data: array<Byte>)
    requires Chain(c, head, h, stored) && n !in stored
    ensures Chain(c, head, h, stored[n := data])
  {
    hide Hash;
  }

  lemma ChainCons(c: seq<Page>, head: Page?, h: nat, stored: map<Word, array<Byte>>, p: Page)
    requires Chain(c, head, h, stored) && p.num !in stored && p.next == head && Hash(p.num) == h
    ensures Chain([p] + c, p, h, stored[p.num := p.data])
  {
    hide Hash;
    var c' := [p] + c;
    forall i | 0 <= i < |c'| ensures c'[i].next == After(c', i + 1) {
      if i > 0 {
        assert c'[i] == c[i - 1];
        assert After(c', i + 1) == After(c, i);
      }
    }
  }

  /** Page `n` is somewhere in its chain. */
  ghost predicate Linked(chains: seq<seq<Page>>, n: Word)
    requires |chains| == HASH_SIZE
  {
    exists i | 0 <= i < |chains[Hash(n)]| :: chains[Hash(n)][i].num == n
  }

  lemma LinkedGrows(chains: seq<seq<Page>>, h: nat, p: Page, n: Word)
    requires |chains| == HASH_SIZE && h == Hash(p.num)
    requires n == p.num || Linked(chains, n)
    ensures Linked(chains[h := [p] + chains[h]], n)
  {
    hide Hash;
    var chains': seq<seq<Page>> := chains[h := [p] + chains[h]];
    if n == p.num {
      assert chains'[h][0].num == n;
    } else {
      var i :| 0 <= i < |chains[Hash(n)]| && chains[Hash(n)][i].num == n;
      assert chains'[Hash(n)][if Hash(n) == h then i + 1 else i].num == n;
    }
  }

  class Pages {
    const table: array<Page?>
    /** The pages of each chain, from the head on. */
    ghost var chains: seq<seq<Page>>
    /** The storage of every page that has been touched. */
    ghost var stored: map<Word, array<Byte>>

    ghost predicate ChainOk(h: nat)
      requires h < |chains| && h < table.Length
      reads this, table
    {
      Chain(chains[h], table[h], h, stored)
    }

    ghost predicate Valid()
      reads this, table
    {
      && table.Length == HASH_SIZE && |chains| == HASH_SIZE
      && (forall h | 0 <= h < HASH_SIZE :: ChainOk(h))
      && (forall n | n in stored :: Linked(chains, n) && stored[n].Length == PAGE_SIZE)
      && (forall m, n | m in stored && n in stored && m != n :: stored[m] != stored[n])
      && (forall n | n in stored :: stored[n] as object != table)
    }

    ghost function Footprint(): set<object>
      reads this
    {
      {this as object, table} + set n | n in stored :: stored[n]
    }

    ghost function ByteAt(a: Word): Byte
      requires Valid()
      reads this, table, set n | n in stored :: stored[n]
    {
      if a / PAGE_SIZE in stored then stored[a / PAGE_SIZE][a % PAGE_SIZE] else 0
    }

    /** The memory the table stands for. */
    ghost function Contents(): (m: Mem)
      requires Valid()
      reads this, table, set n | n in stored :: stored[n]
      ensures forall a: Word :: m[a] == ByteAt(a)
    {
      seq(TWO64, a requires 0 <= a < TWO64 && Valid() reads this, table, set n | n in stored :: stored[n] => ByteAt(a))
    }

    constructor ()
      ensures Valid() && fresh(Footprint())
      ensures Contents() == seq(TWO64, _ => 0)
    {
      table := new Page?[HASH_SIZE](_ => null);
      chains := seq(HASH_SIZE, _ => []);
      stored := map[];
    }

    method GetPage(n: Word) returns (p: Page?)
      requires Valid()
      ensures p == null <==> n !in stored
      ensures p != null ==> p.num == n && p.data == stored[n]
    {
      hide Hash;
      var h := ComputeHash(n);
      ghost var c := chains[h];
      assert ChainOk(h);
      p := table[h];
      ghost var i := 0;
      while p != null && p.num != n
        invariant 0 <= i <= |c| && p == After(c, i)
        invariant forall j | 0 <= j < i :: c[j].num != n
        decreases |c| - i
      {
        assert p == c[i];
        p := p.next;
        i := i + 1;
      }
      assert n in stored ==> Linked(chains, n);
    }

    /** Materialising a page of zeros at the head of its chain changes no byte. */
    method AddPage(n: Word) returns (p: Page)
      requires Valid() && n !in stored
      modifies this, table
      ensures Valid() && p.num == n && n in stored && p.data == stored[n] && fresh(p.data)
      ensures stored == old(stored)[n := p.data]
      ensures Contents() == old(Contents())
    {
      hide Hash, Chain, Linked;
      var data := new Byte[PAGE_SIZE](_ => 0);
      var h := ComputeHash(n);
      assert ChainOk(h);
      p := new Page(n, data, table[h]);
      table[h] := p;
      chains := chains[h := [p] + chains[h]];
      stored := stored[n := data];
      ChainCons(old(chains)[h], p.next, h, old(stored), p);
      forall k | 0 <= k < HASH_SIZE ensures ChainOk(k) {
        assert old(ChainOk(k));
        ChainGrows(old(chains)[k], old(table[k]), k, old(stored), n, data);
      }
      forall m | m in stored ensures Linked(chains, m) {
        LinkedGrows(old(chains), h, p, m);
      }
      assert forall a: Word :: ByteAt(a) == old(ByteAt(a));
    }

    method ReadByte(a: Word) returns (b: Byte)
      requires Valid()
      modifies this, table
      ensures Valid() && fresh(Footprint() - old(Footprint()))
      ensures Contents() == old(Contents()) && b == Contents()[a]
    {
      hide Hash, Pages.ChainOk, Linked;
      var p := GetPage(a / PAGE_SIZE);
      if p == null {
        p := AddPage(a / PAGE_SIZE);
      }
      b := p.data[a % PAGE_SIZE];
    }

    method WriteByte(a: Word, b: Byte)
      requires Valid()
      modifies Footprint()
      ensures Valid() && fresh(Footprint() - old(Footprint()))
      ensures Contents() == old(Contents())[a := b]
    {
      hide Hash, Pages.ChainOk, Linked;
      var p := GetPage(a / PAGE_SIZE);
      if p == null {
        p := AddPage(a / PAGE_SIZE);
      }
      ghost var before := Contents();
      p.data[a % PAGE_SIZE] := b;
      forall x: Word ensures ByteAt(x) == before[a := b][x] {
        if x / PAGE_SIZE == a / PAGE_SIZE && x != a {
          assert x % PAGE_SIZE != a % PAGE_SIZE;
        }
      }
    }

    /** Little-endian read: the most significant byte first, shifted up. */
    method ReadLE(a: Word, width: nat) returns (v: Word)
      requires Valid() && width <= 8 && a + width <= TWO64
      modifies this, table
      ensures Valid() && fresh(Footprint() - old(Footprint()))
      ensures Contents() == old(Contents()) && v == FromBytes(Contents()[a..a + width])
    {
      hide Hash, Pages.ChainOk, Linked, Pages.Valid, Pages.ByteAt, Pages.Contents;
      ghost var m := Contents();
      v := 0;
      var i: nat := width;
      while i > 0
        invariant i <= width
        invariant Valid() && fresh(Footprint() - old(Footprint())) && Contents() == m
        invariant v == FromBytes(m[a + i..a + width])
      {
        i := i - 1;
        var b := ReadByte(a + i);
        var rest := m[a + i + 1..a + width];
        assert m[a + i..a + width] == [b] + rest;
        ShiftInByte(b, rest);
        v := b + 256 * v;
      }
    }

    /** Little-endian write of the low `width` bytes of `v`. */
    method WriteLE(a: Word, v: Word, width: nat)
      requires Valid() && width <= 8 && a + width <= TWO64
      modifies Footprint()
      ensures Valid() && fresh(Footprint() - old(Footprint()))
      ensures Contents() == Splice(old(Contents()), a, ToBytes(v, 8)[..width])
    {
      hide Hash, Pages.ChainOk, Linked, ToBytes;
      ghost var m := Contents();
      var s := ToBytes(v, 8);
      assert Splice(m, a, s[..0]) == m;
      for i := 0 to width
        invariant Valid() && fresh(Footprint() - old(Footprint()))
        invariant Contents() == Splice(m, a, s[..i])
      {
        WriteByte(a + i, s[i]);
        assert s[..width][..i] == s[..i] && s[..width][..i + 1] == s[..i + 1];
        SpliceNext(m, a, s[..width], i);
      }
    }
  }

  lemma SpliceNext(m: Mem, a: Word, s: seq<Byte>, i: nat)
    requires i < |s| && a + |s| <= TWO64
    ensures Splice(m, a, s[..i])[a + i := s[i]] == Splice(m, a, s[..i + 1])
  {
    var x, y := Splice(m, a, s[..i])[a + i := s[i]], Splice(m, a, s[..i + 1]);
    assert forall j | 0 <= j < TWO64 :: x[j] == y[j];
  }

  lemma ShiftInByte(b: Byte, rest: seq<Byte>)
    requires |rest| < 8
    ensures FromBytes([b] + rest) == b + 256 * FromBytes(rest) < TWO64
  {
    assert ([b] + rest)[1..] == rest;
    FromBytesBound(rest);
    Pow256Mono(|rest|, 7);
    Pow256Is64();
  }

  lemma {:induction false} Pow256Mono(m: nat, n: nat)
    requires m <= n
    ensures Pow256(m) <= Pow256(n)
  {
    if m < n { Pow256Mono(m, n - 1); }
  }

  /** Memory keeps what is written: reading back gives the value modulo the width, also
      across page boundaries, and every other byte is as before. */
  lemma WriteThenRead(m: Mem, a: Word, v: Word, width: nat)
    requires width <= 8 && a + width <= TWO64
    ensures var m' := Splice(m, a, ToBytes(v, 8)[..width]);
      && FromBytes(m'[a..a + width]) == v % Pow256(width)
      && (forall x: Word | !(a <= x < a + width) :: m'[x] == m[x])
  {
    var m' := Splice(m, a, ToBytes(v, 8)[..width]);
    assert m'[a..a + width] == ToBytes(v, 8)[..width];
    BytesPrefix(v, width, 8);
    FromToBytes(v, width);
  }

  lemma {:induction false} BytesPrefix(v: nat, m: nat, n: nat)
    requires m <= n
    ensures ToBytes(v, n)[..m] == ToBytes(v, m)
  {
    if m > 0 { BytesPrefix(v / 256, m - 1, n - 1); }
  }
}
