/** The packed matrix that orders the lines of one cache set by their last use, and
    the recency list it stands for. */
module Lru {
  import opened Words
  import opened Bits

  type Ways = a: int | 1 <= a <= 8 witness 1

  /** Row `r`, column `c` of the matrix packed in `m`. */
  predicate MatrixBit(A: Ways, m: Word, r: nat, c: nat) {
    Bit(m, r * A + c)
  }

  function RowMask(A: Ways): Word {
    Wrap(ShiftLeft(1, A) - 1)
  }

  /** Bit `access` of each of the first `n` rows. */
  function ColMask(A: Ways, access: nat, n: nat): Word {
    if n == 0 then 0
    else WordOp(Or, ColMask(A, access, n - 1), ShiftLeft(1, (n - 1) * A + access))
  }

  /** Fill row `access` with ones, then clear column `access`. */
  function Touch(A: Ways, access: nat, m: Word): Word {
    WordOp(And, WordOp(Or, m, ShiftLeft(RowMask(A), access * A)), Complement(ColMask(A, access, A)))
  }

  predicate RowIsZero(A: Ways, m: Word, r: nat) {
    WordOp(And, ShiftRight(m, r * A), RowMask(A)) == 0
  }

  /** The first all-zero row from `r` on; row 0 when there is none. */
  function ZeroRow(A: Ways, m: Word, r: nat): (row: nat)
    ensures row < A
    decreases A - r
  {
    if r >= A then 0
    else if RowIsZero(A, m, r) then r
    else ZeroRow(A, m, r + 1)
  }

  // What one access does to each bit.

  lemma IndexBound(A: Ways, r: nat, c: nat)
    requires r < A && c < A
    ensures r * A + c < 64
  {
    assert r * A <= (A - 1) * A by { MulMono(r, A - 1, A); }
    assert (A - 1) * A + A == A * A;
    MulMono(A, 8, A);
    MulMono(A, 8, 8);
  }

  lemma MulMono(x: nat, y: nat, k: nat)
    requires x <= y
    ensures x * k <= y * k
  {}

  lemma IndexUnique(A: Ways, r: nat, c: nat, r': nat, c': nat)
    requires c < A && c' < A && r * A + c == r' * A + c'
    ensures r == r' && c == c'
  {
    DivUnique(r * A + c, A, r);
    DivUnique(r * A + c, A, r');
  }

  lemma SingleBit(k: nat, i: nat)
    requires k < 64 && i < 64
    ensures Bit(ShiftLeft(1, k), i) == (i == k)
  {
    ShiftLeftBit(1, k, i);
    if i > k { BitBeyond(1, 1, i - k); }
  }

  lemma {:induction false} RowMaskBit(A: Ways, i: nat)
    requires i < 64
    ensures RowMask(A) < Pow2(A)
    ensures Bit(RowMask(A), i) == (i < A)
  {
    hide Bit;
    assert Pow2(A) <= 256 by { assert Pow2(8) == 256; Pow2Mono(A, 8); }
    assert ShiftLeft(1, A) == Pow2(A);
    Ones(A, i);
  }

  lemma OrSingleBit(m: Word, k: nat, i: nat)
    requires k < 64 && i < 64
    ensures Bit(WordOp(Or, m, ShiftLeft(1, k)), i) == (Bit(m, i) || i == k)
  {
    WordOpBit(Or, m, ShiftLeft(1, k), i);
    SingleBit(k, i);
  }

  lemma SameIndex(A: Ways, r: nat, c: nat, r': nat, c': nat)
    requires c < A && c' < A
    ensures r * A + c == r' * A + c' <==> r == r' && c == c'
  {
    if r * A + c == r' * A + c' { IndexUnique(A, r, c, r', c'); }
  }

  lemma {:induction false} ColMaskBit(A: Ways, access: nat, n: nat, r: nat, c: nat, i: nat)
    requires access < A && n <= A && r < A && c < A && i == r * A + c && i < 64
    ensures Bit(ColMask(A, access, n), i) == (r < n && c == access)
  {
    hide Bit, WordOp, ShiftLeft;
    if n == 0 {
      BitBeyond(0, 0, i);
    } else {
      ColMaskBit(A, access, n - 1, r, c, i);
      var k := (n - 1) * A + access;
      IndexBound(A, n - 1, access);
      SameIndex(A, r, c, n - 1, access);
      OrSingleBit(ColMask(A, access, n - 1), k, i);
    }
  }

  lemma MaskedBit(m: Word, row: Word, col: Word, i: nat)
    requires i < 64
    ensures Bit(WordOp(And, WordOp(Or, m, row), Complement(col)), i) == ((Bit(m, i) || Bit(row, i)) && !Bit(col, i))
  {
    WordOpBit(And, WordOp(Or, m, row), Complement(col), i);
    WordOpBit(Or, m, row, i);
    Pow2Is64();
    ComplementBit(col, 64, i);
  }

  lemma TouchBit(A: Ways, access: nat, m: Word, r: nat, c: nat)
    requires access < A && r < A && c < A
    ensures MatrixBit(A, Touch(A, access, m), r, c) == (c != access && (r == access || MatrixBit(A, m, r, c)))
  {
    hide WordOp, ShiftLeft, Bit, ColMask, RowMask, Complement;
    var i := r * A + c;
    TouchRow(A, access, r, c);
    ColMaskBit(A, access, A, r, c, i);
    MaskedBit(m, ShiftLeft(RowMask(A), access * A), ColMask(A, access, A), i);
  }

  lemma TouchRow(A: Ways, access: nat, r: nat, c: nat)
    requires access < A && r < A && c < A
    ensures r * A + c < 64
    ensures Bit(ShiftLeft(RowMask(A), access * A), r * A + c) == (r == access)
  {
    var i := r * A + c;
    IndexBound(A, r, c);
    ShiftLeftBit(RowMask(A), access * A, i);
    if r == access {
      RowMaskBit(A, c);
    } else if i >= access * A {
      RowMaskBit(A, i - access * A);
      if i - access * A < A {
        IndexUnique(A, r, c, access, i - access * A);
      }
    }
  }

  lemma RowIsZeroMeans(A: Ways, m: Word, r: nat)
    requires r < A
    ensures RowIsZero(A, m, r) <==> forall c | 0 <= c < A :: !MatrixBit(A, m, r, c)
  {
    var row := WordOp(And, ShiftRight(m, r * A), RowMask(A));
    forall i: nat | i < 64
      ensures Bit(row, i) == (i < A && Bit(m, r * A + i))
    {
      RowMaskBit(A, i);
      HalveBit(m, r * A, i);
      WordOpBit(And, ShiftRight(m, r * A), RowMask(A), i);
    }
    if row == 0 {
      forall c | 0 <= c < A ensures !MatrixBit(A, m, r, c) {
        BitBeyond(0, 0, c);
        assert !Bit(row, c);
      }
    }
    if forall c | 0 <= c < A :: !MatrixBit(A, m, r, c) {
      forall i | 0 <= i < 64 ensures Bit(row, i) == Bit(0, i) {
        BitBeyond(0, 0, i);
        assert i < A ==> !MatrixBit(A, m, r, i);
      }
      Pow2Is64();
      SameBits(row, 0, 64);
    }
  }

  lemma {:induction false} ZeroRowFound(A: Ways, m: Word, from: nat, r: nat)
    requires from <= r < A && RowIsZero(A, m, r)
    ensures from <= ZeroRow(A, m, from) <= r && RowIsZero(A, m, ZeroRow(A, m, from))
    decreases A - from
  {
    if !RowIsZero(A, m, from) {
      ZeroRowFound(A, m, from + 1, r);
    }
  }
}
