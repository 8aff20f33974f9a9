/** Shifts and masks, as the cache computes them, against division and remainder. */
module Masks {
  import opened Words
  import opened Bits
  import opened Arith
  import opened Lru
  import opened CacheModel

  lemma {:induction false} HalveTwice(a: nat, m: nat, n: nat)
    ensures Halve(a, m + n) == Halve(Halve(a, m), n)
  {
    if m > 0 { HalveTwice(a / 2, m - 1, n); }
  }

  /** Masking with 2^k - 1 is the remainder modulo 2^k. */
  lemma MaskIsMod(x: Word, k: nat)
    requires k < 64
    ensures Pow2(k) <= TWO64
    ensures WordOp(And, x, Pow2(k) - 1) == Mod(x, Pow2(k))
  {
    Pow2Is64();
    Pow2Mono(k, 64);
    var r := WordOp(And, x, Pow2(k) - 1);
    forall i | 0 <= i < 64 ensures Bit(r, i) == Bit(Mod(x, Pow2(k)), i) {
      WordOpBit(And, x, Pow2(k) - 1, i);
      Ones(k, i);
      ModBit(x, k, i);
    }
    SameBits(r, Mod(x, Pow2(k)), 64);
  }

  lemma LogBound(x: nat)
    requires IsPow2(x) && x < 0x8000_0000
    ensures Log(x) < 31
  {
    if Log(x) >= 31 {
      Pow2Mono(31, Log(x));
      Pow2Is31();
    }
  }

  lemma Pow2Is31()
    ensures Pow2(31) == 0x8000_0000
  {
    assert Pow2(8) == 256;
    Pow2Add(8, 8);
    Pow2Add(16, 8);
    assert Pow2(7) == 128;
    Pow2Add(24, 7);
  }

  /** The set index, by shift and mask. */
  lemma IndexByMask(g: Geometry, a: Word)
    requires g.Valid()
    ensures WordOp(And, ShiftRight(a, Log(g.B)), g.S - 1) == g.SetIndex(a)
  {
    hide WordOp, Geometry.Tag, Geometry.BlockAddr;
    LogBound(g.S);
    HalveIsDivision(a, Log(g.B));
    MaskIsMod(ShiftRight(a, Log(g.B)), Log(g.S));
  }

  /** The tag, by one shift. */
  lemma TagByShift(g: Geometry, a: Word)
    requires g.Valid()
    ensures ShiftRight(a, Log(g.B) + Log(g.S)) == g.Tag(a)
  {
    hide WordOp, Geometry.SetIndex, Geometry.BlockAddr;
    HalveTwice(a, Log(g.B), Log(g.S));
    HalveIsDivision(a, Log(g.B));
    HalveIsDivision(Halve(a, Log(g.B)), Log(g.S));
  }

  lemma OffsetByMask(g: Geometry, a: Word)
    requires g.Valid()
    ensures WordOp(And, a, g.B - 1) == g.Offset(a)
  {
    hide WordOp, Geometry.SetIndex, Geometry.BlockAddr, Geometry.Tag;
    LogBound(g.B);
    MaskIsMod(a, Log(g.B));
  }

  /** Clearing the offset bits gives the block's base. */
  lemma BaseByMask(g: Geometry, a: Word)
    requires g.Valid()
    ensures WordOp(And, a, Complement(g.B - 1)) == g.BlockBase(a)
  {
    hide Geometry.SetIndex, Geometry.BlockAddr, Geometry.Tag;
    Pow2Is64();
    LogBound(g.B);
    var k := Log(g.B);
    var base := g.BlockBase(a);
    DivMod(a, g.B);
    assert base == Product(Div(a, g.B), Pow2(k));
    var r := WordOp(And, a, Complement(g.B - 1));
    forall i | 0 <= i < 64 ensures Bit(r, i) == Bit(base, i) {
      BaseBit(a, k, i);
    }
    SameBits(r, base, 64);
  }

  lemma BaseBit(a: Word, k: nat, i: nat)
    requires k < 64 && i < 64
    ensures Pow2(k) <= TWO64
    ensures Bit(WordOp(And, a, Complement(Pow2(k) - 1)), i) == Bit(Product(Div(a, Pow2(k)), Pow2(k)), i)
  {
    hide Bit, WordOp;
    Pow2Is64();
    Pow2Mono(k, 64);
    WordOpBit(And, a, Complement(Pow2(k) - 1), i);
    ComplementBit(Pow2(k) - 1, 64, i);
    Ones(k, i);
    ScaleBit(Div(a, Pow2(k)), k, i);
    HalveIsDivision(a, k);
    if i >= k { HalveBit(a, k, i - k); }
  }

  lemma {:induction false} OrRight(x: nat, n: nat)
    requires x < Pow2(n)
    ensures Zip(Or, x, 0, n) == x
  {
    if n > 0 { OrRight(x / 2, n - 1); }
  }

  /** Numbers with no bit in common are or-ed by adding them. */
  lemma {:induction false} OrDisjoint(x: nat, y: nat, k: nat, n: nat)
    requires y < Pow2(k) && x * Pow2(k) + y < Pow2(n)
    ensures Zip(Or, x * Pow2(k), y, n) == x * Pow2(k) + y
  {
    if k == 0 {
      OrRight(x, n);
    } else if n == 0 {
    } else {
      var p := x * Pow2(k - 1);
      assert x * Pow2(k) == 2 * p;
      OrDisjoint(x, y / 2, k - 1, n - 1);
    }
  }

  lemma ShiftExact(x: Word, k: nat, v: nat)
    requires v == x * Pow2(k) && v < TWO64
    ensures ShiftLeft(x, k) == v
  {
    hide Pow2;
  }

  lemma Distribute(x: nat, y: nat, b: nat)
    ensures (x + y) * b == x * b + y * b
  {}

  lemma Associate(x: nat, y: nat, z: nat)
    ensures (x * y) * z == x * (y * z)
  {}

  lemma Regroup(tag: nat, s: nat, index: nat, b: nat)
    ensures Product(Product(tag, s) + index, b) == tag * (s * b) + index * b
  {
    Distribute(tag * s, index, b);
    Associate(tag, s, b);
  }

  lemma SmallIndex(index: nat, s: nat, b: nat)
    requires index < s && b >= 1
    ensures index * b < s * b
  {
    Distribute(index, 1, b);
    MulMono(index + 1, s, b);
  }

  lemma OrOfShifts(x: Word, y: Word, k: nat, j: nat, u: nat, v: nat)
    requires u == x * Pow2(k) && v == y * Pow2(j) && v < Pow2(k) && u + v < TWO64
    ensures WordOp(Or, ShiftLeft(x, k), ShiftLeft(y, j)) == u + v
  {
    hide Zip, ShiftLeft;
    ShiftExact(x, k, u);
    ShiftExact(y, j, v);
    Pow2Is64();
    OrDisjoint(x, v, k, 64);
  }

  /** The evicted block's address, from the stored tag and the set index. */
  lemma BlockAddrByShifts(g: Geometry, tag: Word, index: Word)
    requires g.Valid() && index < g.S && g.BlockAddr(tag, index) < TWO64
    ensures EvictedAddr(g, tag, index) == g.BlockAddr(tag, index)
  {
    hide Geometry.SetIndex, Geometry.Tag, WordOp, ShiftLeft, Product, Pow2, Log;
    var b, s := Log(g.B), Log(g.S);
    Pow2Add(s, b);
    assert s + b == b + s;
    Regroup(tag, g.S, index, g.B);
    SmallIndex(index, g.S, g.B);
    OrOfShifts(tag, index, b + s, b, tag * (g.S * g.B), index * g.B);
  }
}
