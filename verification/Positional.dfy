/** Big-endian positional notation over unbounded integers. */
module Positional {
  import opened Arithmetic

  ghost predicate InBase(base: nat, ds: seq<int>) {
    forall i :: 0 <= i < |ds| ==> 0 <= ds[i] < base
  }

  /** The number written by ds, most significant digit first: Python's int.from_bytes for base 256. */
  function Value(base: nat, ds: seq<int>): int {
    if ds == [] then 0 else Value(base, ds[..|ds| - 1]) * base + ds[|ds| - 1]
  }

  /** The shortest writing of n; zero is the empty sequence. */
  function Digits(base: nat, n: nat): (r: seq<int>)
    requires base >= 2
    ensures InBase(base, r)
    ensures r == [] <==> n == 0
    ensures n > 0 ==> r[0] != 0
    decreases n
  {
    if n == 0 then [] else
    QuotientShrinks(base, n);
    Digits(base, n / base) + [n % base]
  }

  lemma QuotientShrinks(base: nat, n: nat)
    requires base >= 2 && n > 0
    ensures 0 <= n / base < n
    ensures n / base == 0 ==> n % base == n
  {
    var q := n / base;
    assert n == q * base + n % base;
    assert q * base >= q * 2;
  }

  lemma DivMod(base: nat, n: nat) returns (q: nat, r: nat)
    requires base >= 2 && n > 0
    ensures q == n / base && r == n % base && q < n
    ensures q * base + r == n
  {
    QuotientShrinks(base, n);
    q, r := n / base, n % base;
  }

  lemma ValueAppend(base: nat, ds: seq<int>, d: int)
    ensures Value(base, ds + [d]) == Value(base, ds) * base + d
  {
    assert (ds + [d])[..|ds|] == ds;
  }

  lemma {:induction false} ValueOfDigits(base: nat, n: nat)
    requires base >= 2
    ensures Value(base, Digits(base, n)) == n
    decreases n
  {
    if n > 0 {
      var q, r := DivMod(base, n);
      assert Digits(base, n) == Digits(base, q) + [r];
      ValueOfDigits(base, q);
      ValueAppend(base, Digits(base, q), r);
    }
  }

  lemma {:induction false} DigitsOfValue(base: nat, ds: seq<int>)
    requires base >= 2 && InBase(base, ds) && (ds == [] || ds[0] != 0)
    ensures Value(base, ds) >= 0 && Digits(base, Value(base, ds)) == ds
  {
    if ds != [] {
      var init, last := ds[..|ds| - 1], ds[|ds| - 1];
      DigitsOfValue(base, init);
      DigitsAppend(base, Value(base, init), last);
      assert ds == init + [last];
    }
  }

  /** One more digit on a number, not all of it zero. */
  lemma DigitsAppend(base: nat, q: nat, last: int)
    requires base >= 2 && 0 <= last < base && (q > 0 || last > 0)
    ensures q * base + last > 0
    ensures Digits(base, q * base + last) == Digits(base, q) + [last]
  {
    QuotientUnique(base, q, last);
  }

  lemma ValueNonNegative(base: nat, ds: seq<int>)
    requires InBase(base, ds)
    ensures Value(base, ds) >= 0
  {
    if ds != [] {
      ValueNonNegative(base, ds[..|ds| - 1]);
      assert Value(base, ds[..|ds| - 1]) * base >= 0;
    }
  }

  function Repeat<T>(x: T, n: nat): (r: seq<T>)
    ensures |r| == n && forall i :: 0 <= i < n ==> r[i] == x
  {
    seq(n, i => x)
  }

  /** How many leading elements equal x: Python's len(s) - len(s.lstrip(x)). */
  function Leading<T(==)>(s: seq<T>, x: T): (r: nat)
    ensures r <= |s|
    ensures forall i :: 0 <= i < r ==> s[i] == x
    ensures r < |s| ==> s[r] != x
  {
    if s == [] || s[0] != x then 0 else 1 + Leading(s[1..], x)
  }

  lemma LeadingUnique<T>(s: seq<T>, x: T, k: nat)
    requires k <= |s| && (forall i :: 0 <= i < k ==> s[i] == x) && (k < |s| ==> s[k] != x)
    ensures Leading(s, x) == k
  {
  }

  lemma {:induction false} LeadingZerosKeepValue(base: nat, k: nat, ds: seq<int>)
    ensures Value(base, Repeat(0, k) + ds) == Value(base, ds)
    decreases |ds|, k
  {
    var all := Repeat(0, k) + ds;
    if ds != [] {
      assert all[..|all| - 1] == Repeat(0, k) + ds[..|ds| - 1];
      LeadingZerosKeepValue(base, k, ds[..|ds| - 1]);
    } else if k > 0 {
      assert all == Repeat(0, k) && all[..k - 1] == Repeat(0, k - 1) + [];
      LeadingZerosKeepValue(base, k - 1, []);
    }
  }

  /** A writing is its leading zeros followed by the shortest writing of its value. */
  lemma {:induction false} ZerosThenDigits(base: nat, ds: seq<int>)
    requires base >= 2 && InBase(base, ds)
    ensures Value(base, ds) >= 0
    ensures ds == Repeat(0, Leading(ds, 0)) + Digits(base, Value(base, ds))
  {
    var z := Leading(ds, 0);
    var tail := ds[z..];
    assert ds == Repeat(0, z) + tail;
    LeadingZerosKeepValue(base, z, tail);
    DigitsOfValue(base, tail);
  }

  /** Zeros in front of a shortest writing are exactly the leading zeros. */
  lemma {:induction false} LeadingOfZerosThenDigits(base: nat, k: nat, n: nat)
    requires base >= 2
    ensures Leading(Repeat(0, k) + Digits(base, n), 0) == k
    ensures Value(base, Repeat(0, k) + Digits(base, n)) == n
  {
    LeadingUnique(Repeat(0, k) + Digits(base, n), 0, k);
    LeadingZerosKeepValue(base, k, Digits(base, n));
    ValueOfDigits(base, n);
  }

  // ---------------------------------------------------------------------------
  // int.bit_length and int.to_bytes
  // ---------------------------------------------------------------------------

  function BitLength(n: nat): nat {
    if n == 0 then 0 else 1 + BitLength(n / 2)
  }

  /** n.to_bytes(length, "big"), for an n that fits. */
  function ToBytes(n: nat, length: nat): (r: seq<int>)
    ensures |r| == length && InBase(256, r)
  {
    if length == 0 then [] else ToBytes(n / 256, length - 1) + [n % 256]
  }

  lemma BitLengthSmall(n: nat)
    requires 0 < n < 256
    ensures 1 <= BitLength(n) <= 8
  {
    assert n < 2 ==> BitLength(n) == 1;
    BitLengthAtMost(n / 2, 7);
  }

  lemma BitLengthAtMost(n: nat, k: nat)
    requires k <= 7 && n < (if k == 0 then 1 else if k == 1 then 2 else if k == 2 then 4 else if k == 3 then 8
                            else if k == 4 then 16 else if k == 5 then 32 else if k == 6 then 64 else 128)
    ensures BitLength(n) <= k
  {
    if k > 0 {
      BitLengthAtMost(n / 2, k - 1);
    }
  }

  lemma BitLengthByte(n: nat)
    requires n >= 256
    ensures BitLength(n) == 8 + BitLength(n / 256)
  {
    var a := n / 2;
    var b := a / 2;
    var c := b / 2;
    var d := c / 2;
    assert BitLength(n) == 1 + BitLength(a);
    assert BitLength(a) == 1 + BitLength(b);
    assert BitLength(b) == 1 + BitLength(c);
    assert BitLength(c) == 1 + BitLength(d);
    var e := d / 2;
    var f := e / 2;
    var g := f / 2;
    var h := g / 2;
    assert BitLength(d) == 1 + BitLength(e);
    assert BitLength(e) == 1 + BitLength(f);
    assert BitLength(f) == 1 + BitLength(g);
    assert BitLength(g) == 1 + BitLength(h);
    assert h == n / 256;
  }

  /** The rounded-up bit length is the number of base-256 digits, so to_bytes never overflows or pads. */
  lemma {:induction false} ByteLength(n: nat)
    ensures (BitLength(n) + 7) / 8 == |Digits(256, n)|
    ensures ToBytes(n, |Digits(256, n)|) == Digits(256, n)
    decreases n
  {
    if n >= 256 {
      BitLengthByte(n);
      ByteLength(n / 256);
    } else if n > 0 {
      BitLengthSmall(n);
      assert Digits(256, n) == [] + [n];
      assert ToBytes(n, 1) == [] + [n];
    }
  }
}
