/** Division by a variable, wrapped so that proofs use its laws and not its definition. */
module Arith {

  function Div(a: nat, d: nat): (q: nat)
    requires d >= 1
    ensures q <= a
  {
    QuotientBound(a, d);
    a / d
  }

  function Mod(a: nat, d: nat): (r: nat)
    requires d >= 1
    ensures r < d && r <= a
  {
    a % d
  }

  function Product(x: nat, y: nat): nat {
    x * y
  }

  lemma QuotientBound(a: nat, d: nat)
    requires d >= 1
    ensures 0 <= a / d <= a
  {
    var q := a / d;
    assert d * q <= a;
    assert d * q == q + (d - 1) * q;
    assert (d - 1) * q >= 0;
  }

  lemma DivMod(a: nat, d: nat)
    requires d >= 1
    ensures Product(Div(a, d), d) + Mod(a, d) == a
  {}

  lemma MulGap(d: nat, k: int)
    requires d >= 1
    ensures k >= 1 ==> d * k >= d
    ensures k <= -1 ==> d * k <= 0 - d
  {
    if k >= 1 {
      assert d * k == d + d * (k - 1);
    } else if k <= -1 {
      assert d * k == 0 - d + d * (k + 1);
      assert d * (k + 1) <= 0 by { assert d * (k + 1) == -(d * (-k - 1)); }
    }
  }

  lemma DivModUnique(q: nat, d: nat, r: nat)
    requires r < d
    ensures Div(Product(q, d) + r, d) == q && Mod(Product(q, d) + r, d) == r
  {
    var v := q * d + r;
    var q', r' := v / d, v % d;
    assert v == d * q' + r';
    assert d * (q - q') == r' - r;
    MulGap(d, q - q');
  }

  lemma ModUnique(v: nat, d: nat, q: nat, r: nat)
    requires v == d * q + r && r < d
    ensures v % d == r
  {
    DivModUnique(q, d, r);
  }

  lemma ProductStep(d: nat, m: nat)
    ensures Product(d, 0) == 0 && Product(d, m + 1) == Product(d, m) + d
  {}

  lemma ProductQuotient(d: nat, m: nat)
    requires d >= 1
    ensures Div(Product(d, m), d) == m
  {
    DivModUnique(m, d, 0);
    assert Product(m, d) == Product(d, m);
  }
}
