/** A byte for every 64-bit address, and little-endian access to it. */
module FlatMemory {
  import opened Words
  import opened Arith

  type Mem = m: seq<Byte> | |m| == 0x1_0000_0000_0000_0000 witness seq(0x1_0000_0000_0000_0000, _ => 0)

  /** The `n` low bytes of `v`, least significant first. */
  function ToBytes(v: nat, n: nat): (b: seq<Byte>)
    ensures |b| == n
  {
    if n == 0 then [] else [v % 256] + ToBytes(v / 256, n - 1)
  }

  function FromBytes(b: seq<Byte>): nat {
    if b == [] then 0 else b[0] + 256 * FromBytes(b[1..])
  }

  function Pow256(n: nat): (p: nat)
    ensures p >= 1
  {
    if n == 0 then 1 else 256 * Pow256(n - 1)
  }

  lemma {:induction false} FromToBytes(v: nat, n: nat)
    ensures FromBytes(ToBytes(v, n)) == v % Pow256(n)
  {
    if n > 0 {
      FromToBytes(v / 256, n - 1);
      assert ToBytes(v, n)[1..] == ToBytes(v / 256, n - 1);
      ModSplit(v, Pow256(n - 1));
    }
  }

  lemma ModSplit(v: nat, p: nat)
    requires p >= 1
    ensures v % (256 * p) == v % 256 + 256 * (v / 256 % p)
  {
    var q, r := v / 256 / p, v / 256 % p;
    assert v / 256 == p * q + r;
    assert v == 256 * (p * q + r) + v % 256;
    assert v == (256 * p) * q + (256 * r + v % 256);
    assert 256 * r + v % 256 < 256 * p;
    ModUnique(v, 256 * p, q, 256 * r + v % 256);
  }

  lemma {:induction false} FromBytesBound(b: seq<Byte>)
    ensures FromBytes(b) < Pow256(|b|)
  {
    if b != [] {
      FromBytesBound(b[1..]);
    }
  }

  lemma Pow256Is64()
    ensures Pow256(8) == TWO64
  {
    assert Pow256(4) == 0x1_0000_0000;
    assert Pow256(8) == 256 * (256 * (256 * (256 * Pow256(4))));
  }

  /** `m` with the bytes from `a` on replaced by `data`. */
  function Splice(m: Mem, a: nat, data: seq<Byte>): (m': Mem)
    requires a + |data| <= TWO64
    ensures forall x | 0 <= x < TWO64 :: m'[x] == if a <= x < a + |data| then data[x - a] else m[x]
  {
    m[..a] + data + m[a + |data|..]
  }

  /** The 64-bit word at `a`. */
  function Load64(m: Mem, a: Word): Word
    requires a + 8 <= TWO64
  {
    Pow256Is64();
    FromBytesBound(m[a..a + 8]);
    FromBytes(m[a..a + 8])
  }

  /** The 32-bit word at `a`; nothing is read beyond the end of the address space. */
  function Load32(m: Mem, a: Word): Insn
  {
    if a + 4 > TWO64 then 0 else
    Pow256Is32();
    FromBytesBound(m[a..a + 4]);
    FromBytes(m[a..a + 4])
  }

  lemma Pow256Is32()
    ensures Pow256(4) == 0x1_0000_0000
  {}

  function Store64(m: Mem, a: Word, v: Word): Mem
    requires a + 8 <= TWO64
  {
    Splice(m, a, ToBytes(v, 8))
  }

  lemma LoadAfterStore(m: Mem, a: Word, v: Word)
    requires a + 8 <= TWO64
    ensures Load64(Store64(m, a, v), a) == v
  {
    assert Store64(m, a, v)[a..a + 8] == ToBytes(v, 8);
    FromToBytes(v, 8);
    Pow256Is64();
  }

  /** An aligned store leaves every other aligned word alone. */
  lemma LoadElsewhere(m: Mem, a: Word, v: Word, b: Word)
    requires a % 8 == 0 && b % 8 == 0 && a != b
    ensures a + 8 <= TWO64 && b + 8 <= TWO64
    ensures Load64(Store64(m, a, v), b) == Load64(m, b)
  {
    assert a + 8 <= b || b + 8 <= a;
    assert Store64(m, a, v)[b..b + 8] == m[b..b + 8];
  }
}
