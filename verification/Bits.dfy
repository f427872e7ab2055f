/** Bitwise operators on natural numbers, and the two facts the program leans on:
    masking with 2^k - 1 is reduction modulo 2^k, and "or"-ing a shifted word
    with one that fits below the shift is addition. */
module Bits {
  function Pow2(k: nat): (p: nat)
    ensures p > 0
  {
    if k == 0 then 1 else 2 * Pow2(k - 1)
  }

  lemma Pow2Values()
    ensures Pow2(31) == 0x8000_0000
    ensures Pow2(32) == 0x1_0000_0000
  {
    assert Pow2(8) == 0x100;
    assert Pow2(16) == 0x1_0000;
    assert Pow2(24) == 0x100_0000;
  }

  function BitAnd(a: nat, b: nat): nat {
    if a == 0 || b == 0 then 0
    else 2 * BitAnd(a / 2, b / 2) + (if a % 2 == 1 && b % 2 == 1 then 1 else 0)
  }

  function BitOr(a: nat, b: nat): nat
    decreases a + b
  {
    if a == 0 then b
    else if b == 0 then a
    else 2 * BitOr(a / 2, b / 2) + (if a % 2 == 1 || b % 2 == 1 then 1 else 0)
  }

  lemma HalfMod(a: nat, p: nat)
    requires p > 0
    ensures 2 * ((a / 2) % p) + a % 2 == a % (2 * p)
  {
    var q, r := (a / 2) / p, (a / 2) % p;
    assert a == (2 * p) * q + (2 * r + a % 2) by {
      assert a / 2 == p * q + r;
    }
    assert 0 <= 2 * r + a % 2 < 2 * p;
    DivModUnique(a, 2 * p, q, 2 * r + a % 2);
  }

  lemma DivModUnique(a: nat, d: nat, q: nat, r: nat)
    requires a == d * q + r && r < d
    ensures a / d == q && a % d == r
  {
    if a / d < q {
      MulMono(d, a / d + 1, q);
    } else if q < a / d {
      MulMono(d, q + 1, a / d);
    }
  }

  lemma MulMono(d: nat, x: nat, y: nat)
    requires x <= y
    ensures d * x <= d * y
  {
    assert d * y == d * x + d * (y - x);
  }

  lemma AndOdd(a: nat, m: nat)
    ensures BitAnd(a, 2 * m + 1) == 2 * BitAnd(a / 2, m) + a % 2
  {
    assert (2 * m + 1) / 2 == m && (2 * m + 1) % 2 == 1;
  }

  lemma OrDouble(y: nat, low: nat)
    ensures BitOr(2 * y, low) == 2 * BitOr(y, low / 2) + low % 2
  {
    assert 2 * y / 2 == y && 2 * y % 2 == 0;
  }

  lemma {:induction false} MaskIsMod(a: nat, k: nat)
    ensures BitAnd(a, Pow2(k) - 1) == a % Pow2(k)
  {
    if k > 0 {
      var m := Pow2(k - 1) - 1;
      MaskIsMod(a / 2, k - 1);
      HalfMod(a, m + 1);
      AndOdd(a, m);
      assert Pow2(k) - 1 == 2 * m + 1;
    }
  }

  lemma {:induction false} OrIsSum(p: nat, low: nat, k: nat)
    requires low < Pow2(k)
    ensures BitOr(p * Pow2(k), low) == p * Pow2(k) + low
  {
    if k > 0 {
      var y := p * Pow2(k - 1);
      OrIsSum(p, low / 2, k - 1);
      OrDouble(y, low);
      TwiceProduct(p, Pow2(k - 1));
    }
  }

  lemma TwiceProduct(p: nat, q: nat)
    ensures p * (2 * q) == 2 * (p * q)
  {
  }
}
