/** Integer arithmetic the codecs and the tree share. */
module Arithmetic {

  function Max(a: int, b: int): int {
    if a >= b then a else b
  }

  function Pow(b: nat, k: nat): (r: nat)
    ensures b > 0 ==> r > 0
  {
    if k == 0 then 1 else b * Pow(b, k - 1)
  }

  /** i >> k on natural numbers. */
  function ShiftRight(i: nat, k: nat): nat {
    i / Pow(2, k)
  }

  /** n / 2^k, rounded up. */
  function ShiftUp(n: nat, k: nat): nat {
    (n + Pow(2, k) - 1) / Pow(2, k)
  }

  /** Quotient and remainder are the only way to write a number as q * base + r. */
  lemma QuotientUnique(base: nat, q: int, r: int)
    requires 0 <= r < base
    ensures (q * base + r) / base == q && (q * base + r) % base == r
  {
    var n := q * base + r;
    var e := n / base - q;
    assert (n / base) * base == q * base + e * base;
    assert e * base == r - n % base;
    assert e >= 1 ==> e * base >= base;
    assert e <= -1 ==> e * base + base <= 0;
    assert e == 0;
  }

  /** Dividing twice is dividing by the product. */
  lemma HalveThenDivide(x: nat, q: nat)
    requires q > 0
    ensures x / 2 / q == x / (2 * q)
  {
    var d := x / 2 / q;
    var r := x / 2 - d * q;
    assert 0 <= r < q;
    var s := x - 2 * d * q;
    assert 2 * d * q == d * (2 * q);
    assert 0 <= s < 2 * q;
    assert x == d * (2 * q) + s;
    QuotientUnique(2 * q, d, s);
  }
}
