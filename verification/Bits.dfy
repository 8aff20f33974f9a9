/** The bitwise operators of C on unsigned 64-bit words, each pinned down by what
    it does to every single bit. */
module Bits {
  import opened Words

  datatype BoolOp = And | Or | Xor {
    function Apply(a: bool, b: bool): bool {
      match this
      case And => a && b
      case Or => a || b
      case Xor => a != b
    }
  }

  function BoolToNat(b: bool): (n: nat)
    ensures n <= 1
  {
    if b then 1 else 0
  }

  /** Bit `i` of `a`, counted from the least significant one. */
  predicate Bit(a: nat, i: nat) {
    if i == 0 then a % 2 == 1 else Bit(a / 2, i - 1)
  }

  /** The low `n` bits of `a` and `b`, combined position by position. */
  function Zip(op: BoolOp, a: nat, b: nat, n: nat): (r: nat)
    ensures r < Pow2(n)
  {
    if n == 0 then 0
    else BoolToNat(op.Apply(a % 2 == 1, b % 2 == 1)) + 2 * Zip(op, a / 2, b / 2, n - 1)
  }

  lemma {:induction false} ZipBit(op: BoolOp, a: nat, b: nat, n: nat, i: nat)
    requires i < n
    ensures Bit(Zip(op, a, b, n), i) == op.Apply(Bit(a, i), Bit(b, i))
  {
    if i > 0 {
      ZipBit(op, a / 2, b / 2, n - 1, i - 1);
    }
  }

  lemma {:induction false} BitBeyond(a: nat, n: nat, i: nat)
    requires a < Pow2(n) && n <= i
    ensures !Bit(a, i)
  {
    if n == 0 {
      if i > 0 { BitBeyond(0, 0, i - 1); }
    } else {
      BitBeyond(a / 2, n - 1, i - 1);
    }
  }

  /** Numbers that agree on every bit are equal. */
  lemma {:induction false} SameBits(a: nat, b: nat, n: nat)
    requires a < Pow2(n) && b < Pow2(n)
    requires forall i | 0 <= i < n :: Bit(a, i) == Bit(b, i)
    ensures a == b
  {
    if n > 0 {
      assert Bit(a, 0) == Bit(b, 0);
      forall i | 0 <= i < n - 1
        ensures Bit(a / 2, i) == Bit(b / 2, i)
      {
        assert Bit(a, i + 1) == Bit(b, i + 1);
      }
      SameBits(a / 2, b / 2, n - 1);
    }
  }

  lemma Pow2Is16()
    ensures Pow2(16) == 65536
  {
    assert Pow2(8) == 256;
    Pow2Add(8, 8);
  }

  lemma Pow2Is64()
    ensures Pow2(64) == TWO64
  {
    hide Pow2;
    Pow2Is16();
    Pow2Add(16, 16);
    Pow2Add(32, 32);
  }

  lemma {:induction false} Pow2Add(m: nat, n: nat)
    ensures Pow2(m + n) == Pow2(m) * Pow2(n)
  {
    if m > 0 {
      Pow2Add(m - 1, n);
    }
  }

  function WordOp(op: BoolOp, a: Word, b: Word): Word {
    Pow2Is64();
    Zip(op, a, b, 64)
  }

  lemma WordOpBit(op: BoolOp, a: Word, b: Word, i: nat)
    requires i < 64
    ensures Bit(WordOp(op, a, b), i) == op.Apply(Bit(a, i), Bit(b, i))
  {
    ZipBit(op, a, b, 64, i);
  }

  function Complement(a: Word): Word {
    TWO64 - 1 - a
  }

  lemma {:induction false} ComplementBit(a: nat, n: nat, i: nat)
    requires a < Pow2(n) && i < n
    ensures Bit(Pow2(n) - 1 - a, i) == !Bit(a, i)
  {
    if i > 0 {
      assert (Pow2(n) - 1 - a) / 2 == Pow2(n - 1) - 1 - a / 2;
      ComplementBit(a / 2, n - 1, i - 1);
    }
  }

  function ShiftLeft(a: Word, k: nat): Word {
    Wrap(a * Pow2(k))
  }

  /** `a >> k`: drop the lowest bit `k` times. */
  function Halve(a: nat, k: nat): (r: nat)
    ensures r <= a
  {
    if k == 0 then a else Halve(a / 2, k - 1)
  }

  function ShiftRight(a: Word, k: nat): Word {
    Halve(a, k)
  }

  lemma DivDiv(a: nat, p: nat)
    requires p >= 1
    ensures a / (2 * p) == a / 2 / p
  {
    var q := a / 2 / p;
    assert p * q <= a / 2 < p * q + p;
    assert 2 * p * q <= a < 2 * p * q + 2 * p;
    assert (2 * p) * q == 2 * p * q;
    DivUnique(a, 2 * p, q);
  }

  lemma DivUnique(a: int, d: nat, q: int)
    requires d >= 1 && d * q <= a < d * q + d
    ensures a / d == q
  {
    var q' := a / d;
    assert d * q' <= a < d * q' + d;
    MulStep(d, q, q');
    MulStep(d, q', q);
  }

  lemma MulStep(d: nat, x: int, y: int)
    ensures x < y ==> d * x + d <= d * y
  {
    if x < y {
      assert d * y == d * x + d * (y - x);
      assert d * (y - x) >= d by {
        assert d * (y - x) == d + d * (y - x - 1);
      }
    }
  }

  lemma BitOfHalf(a: nat, i: nat)
    ensures Bit(a, i + 1) == Bit(a / 2, i)
  {}

  lemma {:induction false} HalveBit(a: nat, k: nat, i: nat)
    ensures Bit(Halve(a, k), i) == Bit(a, i + k)
  {
    hide Bit;
    if k > 0 {
      HalveBit(a / 2, k - 1, i);
      BitOfHalf(a, i + k - 1);
    }
  }

  lemma {:induction false} HalveIsDivision(a: nat, k: nat)
    ensures Halve(a, k) == a / Pow2(k)
  {
    if k > 0 {
      HalveIsDivision(a / 2, k - 1);
      DivDiv(a, Pow2(k - 1));
    }
  }

  lemma {:induction false} ScaleBit(a: nat, k: nat, i: nat)
    ensures Bit(a * Pow2(k), i) == (i >= k && Bit(a, i - k))
  {
    if k == 0 {
      assert a * Pow2(k) == a;
    } else {
      assert a * Pow2(k) == 2 * (a * Pow2(k - 1));
      if i > 0 {
        ScaleBit(a, k - 1, i - 1);
      }
    }
  }

  /** Reducing modulo a power of two keeps the low bits and clears the rest. */
  lemma {:induction false} ModBit(a: nat, n: nat, i: nat)
    ensures Bit(a % Pow2(n), i) == (i < n && Bit(a, i))
  {
    if i >= n {
      BitBeyond(a % Pow2(n), n, i);
    } else {
      ModHalf(a, Pow2(n - 1));
      if i > 0 {
        ModBit(a / 2, n - 1, i - 1);
      }
    }
  }

  lemma ModHalf(a: nat, p: nat)
    requires p >= 1
    ensures a % (2 * p) / 2 == a / 2 % p && a % (2 * p) % 2 == a % 2
  {
    var q := a / (2 * p);
    var r := a % (2 * p);
    assert a == 2 * (p * q) + r;
    assert a / 2 == p * q + r / 2;
    DivUnique(a / 2, p, q);
  }

  lemma ShiftLeftBit(a: Word, k: nat, i: nat)
    requires i < 64
    ensures Bit(ShiftLeft(a, k), i) == (i >= k && Bit(a, i - k))
  {
    Pow2Is64();
    ModBit(a * Pow2(k), 64, i);
    ScaleBit(a, k, i);
  }

  lemma {:induction false} Pow2Mono(m: nat, n: nat)
    requires m <= n
    ensures Pow2(m) <= Pow2(n)
  {
    if m < n { Pow2Mono(m, n - 1); }
  }

  lemma {:induction false} Ones(n: nat, i: nat)
    ensures Bit(Pow2(n) - 1, i) == (i < n)
  {
    if n == 0 {
      BitBeyond(0, 0, i);
    } else if i > 0 {
      assert (Pow2(n) - 1) / 2 == Pow2(n - 1) - 1;
      Ones(n - 1, i - 1);
    }
  }
}
