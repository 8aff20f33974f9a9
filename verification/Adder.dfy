/** The 64 chained full adders behind every addition and subtraction. */
module Adder {
  import opened Words
  import opened Bits

  datatype FullAdder = FullAdder(bitA: bool, bitB: bool, cIn: bool, cOut: bool, s: bool)

  /** What an adder of unbounded width would give, cut back to 64 bits and a carry. */
  datatype Sum = Sum(sum: Word, carry: bool)

  function AddWithCarry(a: Word, b: Word, cIn: bool): (r: Sum)
    ensures r.sum + (if r.carry then TWO64 else 0) == a + b + BoolToNat(cIn)
  {
    var t := a + b + BoolToNat(cIn);
    Sum(if t < TWO64 then t else t - TWO64, t >= TWO64)
  }

  /** The number the low `n` bits of `a` stand for. */
  function Low(a: nat, n: nat): (r: nat)
    ensures r < Pow2(n)
  {
    if n == 0 then 0 else
    var rest := Low(a, n - 1);
    rest + BoolToNat(Bit(a, n - 1)) * Pow2(n - 1)
  }

  lemma {:induction false} LowStep(a: nat, n: nat)
    ensures Low(a, n + 1) == a % 2 + 2 * Low(a / 2, n)
  {
    if n > 0 {
      LowStep(a, n - 1);
      assert Bit(a, n) == Bit(a / 2, n - 1);
    }
  }

  lemma {:induction false} LowIsAll(a: nat, n: nat)
    requires a < Pow2(n)
    ensures Low(a, n) == a
  {
    if n > 0 {
      LowStep(a, n - 1);
      LowIsAll(a / 2, n - 1);
    }
  }

  lemma {:induction false} OrWithZero(n: nat)
    ensures Zip(Or, 0, 0, n) == 0
  {
    if n > 0 { OrWithZero(n - 1); }
  }

  /** Setting a bit above every bit of `r` adds its weight. */
  lemma {:induction false} OrAbove(r: nat, i: nat, n: nat)
    requires r < Pow2(i) && i < n
    ensures Zip(Or, r, Pow2(i), n) == r + Pow2(i)
  {
    if i == 0 {
      OrWithZero(n - 1);
    } else {
      OrAbove(r / 2, i - 1, n - 1);
    }
  }

  /** After `i` adders, `result` and the carry together are the sum of the low parts. */
  ghost predicate Partial(result: nat, carry: bool, a: Word, b: Word, cIn: bool, i: nat) {
    && result < Pow2(i)
    && result + BoolToNat(carry) * Pow2(i) == Low(a, i) + Low(b, i) + BoolToNat(cIn)
  }

  lemma PartialStart(a: Word, b: Word, cIn: bool)
    ensures Partial(0, cIn, a, b, cIn, 0)
  {}

  function Majority(x: bool, y: bool, z: bool): bool {
    (x && y) || (x && z) || (y && z)
  }

  lemma FullAdderWeighs(x: bool, y: bool, z: bool, p: nat)
    ensures BoolToNat((x != y) != z) * p + BoolToNat(Majority(x, y, z)) * (2 * p)
         == BoolToNat(x) * p + BoolToNat(y) * p + BoolToNat(z) * p
  {}

  lemma PartialStep(result: nat, carry: bool, a: Word, b: Word, cIn: bool, i: nat)
    requires Partial(result, carry, a, b, cIn, i) && i < 64
    ensures var s := (Bit(a, i) != Bit(b, i)) != carry;
      var next := if s then Zip(Or, result, Pow2(i), 64) else result;
      Partial(next, Majority(Bit(a, i), Bit(b, i), carry), a, b, cIn, i + 1)
  {
    hide Bit, Zip, Majority, AddWithCarry;
    OrAbove(result, i, 64);
    FullAdderWeighs(Bit(a, i), Bit(b, i), carry, Pow2(i));
  }

  lemma PartialDone(result: nat, carry: bool, a: Word, b: Word, cIn: bool)
    requires Partial(result, carry, a, b, cIn, 64)
    ensures result < TWO64 && AddWithCarry(a, b, cIn) == Sum(result, carry)
  {
    Pow2Is64();
    LowIsAll(a, 64);
    LowIsAll(b, 64);
  }

  class RippleCarryAdder {
    const rca: array<FullAdder>

    constructor ()
      ensures fresh(rca) && rca.Length == 64
    {
      rca := new FullAdder[64](_ => FullAdder(false, false, false, false, false));
    }

    ghost predicate Loaded(a: Word, b: Word, cIn: bool)
      reads rca
    {
      && rca.Length == 64
      && (forall i | 0 <= i < 64 :: rca[i].bitA == Bit(a, i) && rca[i].bitB == Bit(b, i))
      && rca[0].cIn == cIn
    }

    method Init(a: Word, b: Word, cIn: bool)
      requires rca.Length == 64
      modifies rca
      ensures Loaded(a, b, cIn)
    {
      for i := 0 to 64
        invariant forall j | 0 <= j < i :: rca[j].bitA == Bit(a, j) && rca[j].bitB == Bit(b, j)
      {
        HalveBit(a, i, 0);
        HalveBit(b, i, 0);
        rca[i] := FullAdder(ShiftRight(a, i) % 2 == 1, ShiftRight(b, i) % 2 == 1, false, false, false);
      }
      rca[0] := rca[0].(cIn := cIn);
    }

    /** The ripple loop computes the exact sum: nothing is lost between the word it
        returns and the carry out of the last adder. */
    method RippleCarryAdd(ghost a: Word, ghost b: Word, ghost cIn: bool) returns (sum: Word)
      requires Loaded(a, b, cIn)
      modifies rca
      ensures rca.Length == 64
      ensures AddWithCarry(a, b, cIn) == Sum(sum, rca[63].cOut)
    {
      hide Partial, AddWithCarry, Zip, Bit, Pow2;
      PartialStart(a, b, cIn);
      var result: nat := 0;
      ghost var carry := cIn;
      for i := 0 to 64
        invariant rca.Length == 64
        invariant forall j | i <= j < 64 :: rca[j].bitA == Bit(a, j) && rca[j].bitB == Bit(b, j)
        invariant i < 64 ==> rca[i].cIn == carry
        invariant i > 0 ==> rca[i - 1].cOut == carry
        invariant Partial(result, carry, a, b, cIn, i)
      {
        var x, y, z := rca[i].bitA, rca[i].bitB, rca[i].cIn;
        PartialStep(result, carry, a, b, cIn, i);
        carry := Majority(x, y, z);
        rca[i] := rca[i].(s := (x != y) != z, cOut := (x && y) || (x && z) || (y && z));
        if rca[i].s {
          result := Zip(Or, result, Pow2(i), 64);
        }
        if i + 1 < 64 {
          rca[i + 1] := rca[i + 1].(cIn := rca[i].cOut);
        }
      }
      PartialDone(result, carry, a, b, cIn);
      sum := result;
    }
  }
}
