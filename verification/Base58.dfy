/** The pure-Python base58 codec (backend/filelife/solana_service.py, the ImportError branches). */
module Base58 {
  import opened Arithmetic
  import opened Common
  import opened Positional

  type byte = x: int | 0 <= x < 256

  const ALPHABET: string := "123456789" + "ABCDEFGHJKLMNPQRSTUVWXYZ" + "abcdefghijkmnopqrstuvwxyz"

  /** The letter of a digit, worked out from the gaps in the alphabet (0, I, O and l are absent). */
  function Letter(d: nat): char
    requires d < 58
  {
    if d < 9 then (d + 49) as char
    else if d < 17 then (d + 56) as char
    else if d < 22 then (d + 57) as char
    else if d < 33 then (d + 58) as char
    else if d < 44 then (d + 64) as char
    else (d + 65) as char
  }

  /** The digit of a letter; None is the ValueError of ALPHABET.index. */
  function Index(c: char): (r: Option<int>)
    ensures r.Some? ==> 0 <= r.value < 58 && Letter(r.value) == c
    ensures r.None? ==> forall d: nat :: d < 58 ==> Letter(d) != c
  {
    var code := c as int;
    if 49 <= code <= 57 then Some(code - 49)
    else if 65 <= code <= 72 then Some(code - 56)
    else if 74 <= code <= 78 then Some(code - 57)
    else if 80 <= code <= 90 then Some(code - 58)
    else if 97 <= code <= 107 then Some(code - 64)
    else if 109 <= code <= 122 then Some(code - 65)
    else None
  }

  lemma IndexInverts(d: nat)
    requires d < 58
    ensures Index(Letter(d)) == Some(d)
  {
  }

  /** Letter reads the alphabet string. */
  lemma LetterReadsAlphabet(d: nat)
    requires d < 58
    ensures |ALPHABET| == 58 && ALPHABET[d] == Letter(d)
  {
    if 9 <= d < 33 {
      CapitalLetters(d);
    } else if 33 <= d {
      SmallLetters(d);
    }
  }

  lemma CapitalLetters(d: nat)
    requires 9 <= d < 33
    ensures |ALPHABET| == 58 && ALPHABET[d] == Letter(d)
  {
    assert ALPHABET[d] == "ABCDEFGHJKLMNPQRSTUVWXYZ"[d - 9];
  }

  lemma SmallLetters(d: nat)
    requires 33 <= d < 58
    ensures |ALPHABET| == 58 && ALPHABET[d] == Letter(d)
  {
    assert ALPHABET[d] == "abcdefghijkmnopqrstuvwxyz"[d - 33];
  }

  predicate InAlphabet(s: string) {
    forall i :: 0 <= i < |s| ==> Index(s[i]).Some?
  }

  function Letters(ds: seq<int>): (r: string)
    requires InBase(58, ds)
    ensures |r| == |ds|
  {
    seq(|ds|, i requires 0 <= i < |ds| => Letter(ds[i]))
  }

  function Indices(s: string): (r: seq<int>)
    requires InAlphabet(s)
    ensures |r| == |s| && InBase(58, r)
  {
    seq(|s|, i requires 0 <= i < |s| => Index(s[i]).value)
  }

  lemma IndicesOfLetters(ds: seq<int>)
    requires InBase(58, ds)
    ensures InAlphabet(Letters(ds)) && Indices(Letters(ds)) == ds
  {
    forall i | 0 <= i < |ds|
      ensures Index(Letters(ds)[i]) == Some(ds[i])
    {
      IndexInverts(ds[i]);
    }
  }

  lemma LettersOfIndices(s: string)
    requires InAlphabet(s)
    ensures Letters(Indices(s)) == s
  {
  }

  /** The first letter is the digit zero. */
  lemma DigitZero(c: char)
    requires Index(c).Some?
    ensures Index(c).value == 0 <==> c == '1'
  {
    IndexInverts(0);
  }

  /** Leading '1's are leading zeros. */
  lemma LeadingOnes(s: string)
    requires InAlphabet(s)
    ensures Leading(s, '1') == Leading(Indices(s), 0)
  {
    var k := Leading(s, '1');
    forall i | 0 <= i < |s|
      ensures Indices(s)[i] == 0 <==> s[i] == '1'
    {
      DigitZero(s[i]);
    }
    LeadingUnique(Indices(s), 0, k);
  }

  /** Letters of k zeros followed by ds. */
  lemma LettersAfterZeros(k: nat, ds: seq<int>)
    requires InBase(58, ds)
    ensures InBase(58, Repeat(0, k) + ds) && Letters(Repeat(0, k) + ds) == Repeat('1', k) + Letters(ds)
  {
  }

  // ---------------------------------------------------------------------------
  // The two functions
  // ---------------------------------------------------------------------------

  /** Leading zero bytes become '1's; the rest is the number in base 58. */
  function Encoded(b: seq<byte>): string {
    ValueNonNegative(256, b);
    Repeat('1', Leading(b, 0)) + Letters(Digits(58, Value(256, b)))
  }

  /** The bytes of a number; zero takes one byte. */
  function NumberBytes(n: nat): seq<byte> {
    if n == 0 then [0] else AsBytes(Digits(256, n))
  }

  function AsBytes(ds: seq<int>): (r: seq<byte>)
    requires InBase(256, ds)
    ensures r == ds
  {
    seq(|ds|, i requires 0 <= i < |ds| => ds[i])
  }

  function Decoded(s: string): Result<seq<byte>> {
    if InAlphabet(s) then
      ValueNonNegative(58, Indices(s));
      Ok(Repeat(0, Leading(s, '1')) + NumberBytes(Value(58, Indices(s))))
    else Err(NotInAlphabet)
  }

  /** _b58decode. */
  method B58Decode(s: string) returns (result: Result<seq<byte>>)
    ensures result == Decoded(s)
  {
    var n: nat := 0;
    for i := 0 to |s|
      invariant InAlphabet(s[..i]) && n == Value(58, Indices(s[..i]))
    {
      var index := Index(s[i]);
      assert s[..i + 1][i] == s[i];
      if index.None? {
        assert !InAlphabet(s);
        return Err(NotInAlphabet);
      }
      assert forall j :: 0 <= j < i ==> s[..i + 1][j] == s[..i][j];
      assert Indices(s[..i + 1]) == Indices(s[..i]) + [index.value];
      ValueAppend(58, Indices(s[..i]), index.value);
      n := n * 58 + index.value;
    }
    assert s[..|s|] == s;
    var bytes := ToBytes(n, Max(1, (BitLength(n) + 7) / 8));
    ByteLength(n);
    assert n == 0 ==> ToBytes(0, 1) == [] + [0];
    assert bytes == NumberBytes(n);
    return Ok(Repeat(0, Leading(s, '1')) + AsBytes(bytes));
  }

  /** _b58encode. */
  method B58Encode(b: seq<byte>) returns (r: string)
    ensures r == Encoded(b)
  {
    ValueNonNegative(256, b);
    var n: nat := Value(256, b);
    r := "";
    while n != 0
      invariant Letters(Digits(58, Value(256, b))) == Letters(Digits(58, n)) + r
      decreases n
    {
      var rest, rem := DivMod58(n);
      assert Letters(Digits(58, n)) == Letters(Digits(58, rest)) + [Letter(rem)];
      r := [Letter(rem)] + r;
      n := rest;
    }
    r := Repeat('1', Leading(b, 0)) + r;
  }

  /** Python's divmod by 58. */
  method DivMod58(n: nat) returns (rest: nat, rem: nat)
    requires n > 0
    ensures rem < 58 && rest < n
    ensures n == 58 * rest + rem
    ensures Digits(58, n) == Digits(58, rest) + [rem]
  {
    rest, rem := n / 58, n % 58;
  }

  // ---------------------------------------------------------------------------
  // Round trips
  // ---------------------------------------------------------------------------

  ghost predicate AllZero(ds: seq<int>) {
    forall i :: 0 <= i < |ds| ==> ds[i] == 0
  }

  /** Every writing is z zeros and the shortest writing of its value n, which is 0 for zeros only. */
  lemma {:induction false} Normal(base: nat, ds: seq<int>) returns (z: nat, n: nat)
    requires base >= 2 && InBase(base, ds)
    ensures ds == Repeat(0, z) + Digits(base, n)
    ensures AllZero(ds) <==> n == 0
  {
    ZerosThenDigits(base, ds);
    z, n := Leading(ds, 0), Value(base, ds);
    if AllZero(ds) {
      LeadingUnique(ds, 0, |ds|);
    }
  }

  /** Encoding, on a byte string seen as z zeros and the shortest writing of n. */
  lemma {:induction false} EncodedOf(b: seq<byte>, z: nat, n: nat)
    requires b == Repeat(0, z) + Digits(256, n)
    ensures Encoded(b) == Letters(Repeat(0, z) + Digits(58, n))
  {
    LeadingOfZerosThenDigits(256, z, n);
    LettersAfterZeros(z, Digits(58, n));
  }

  /** Decoding, on a text whose digits are z zeros and the shortest writing of n. */
  lemma DecodedOf(s: string, z: nat, n: nat)
    requires InAlphabet(s) && Indices(s) == Repeat(0, z) + Digits(58, n)
    ensures Decoded(s) == Ok(Repeat(0, z) + NumberBytes(n))
  {
    LeadingOfZerosThenDigits(58, z, n);
    LeadingOnes(s);
  }

  /** Decoding an encoded byte string gives it back, except that an all-zero string grows by one zero. */
  lemma DecodeEncode(b: seq<byte>)
    ensures Decoded(Encoded(b)) == Ok(if AllZero(b) then b + [0] else b)
  {
    var z, n := Normal(256, b);
    EncodedOf(b, z, n);
    var ds := Repeat(0, z) + Digits(58, n);
    IndicesOfLetters(ds);
    DecodedOf(Letters(ds), z, n);
    ExtraZero(b, z, n);
  }

  lemma ExtraZero(b: seq<byte>, z: nat, n: nat)
    requires b == Repeat(0, z) + Digits(256, n) && (AllZero(b) <==> n == 0)
    ensures Repeat(0, z) + NumberBytes(n) == if AllZero(b) then b + [0] else b
  {
    assert Repeat(0, z) + [] == Repeat(0, z);
  }

  lemma ExtraOne(z: nat)
    ensures Letters(Repeat(0, z + 1) + Digits(58, 0)) == Letters(Repeat(0, z) + Digits(58, 0)) + "1"
  {
    LettersAfterZeros(z + 1, []);
    LettersAfterZeros(z, []);
    assert Repeat('1', z + 1) + "" == (Repeat('1', z) + "") + "1";
  }

  /** The round trip holds exactly for byte strings with a non-zero byte. */
  lemma DecodeEncodeIff(b: seq<byte>)
    ensures Decoded(Encoded(b)) == Ok(b) <==> exists i :: 0 <= i < |b| && b[i] != 0
  {
    DecodeEncode(b);
    assert |b + [0]| != |b|;
  }

  /** Encoding a decoded text gives it back, except that a text of '1's alone grows by one '1'. */
  lemma {:induction false} EncodeDecode(s: string, b: seq<byte>)
    requires Decoded(s) == Ok(b)
    ensures Encoded(b) == if AllOnes(s) then s + "1" else s
  {
    var z, n := Normal(58, Indices(s));
    DecodedOf(s, z, n);
    LettersOfIndices(s);
    EncodedNumber(z, n);
    OnesAreZeros(s);
  }

  ghost predicate AllOnes(s: string) {
    forall i :: 0 <= i < |s| ==> s[i] == '1'
  }

  /** Only the letter '1' is the digit zero. */
  lemma OnesAreZeros(s: string)
    requires InAlphabet(s)
    ensures AllZero(Indices(s)) <==> AllOnes(s)
  {
    forall i | 0 <= i < |s|
      ensures Indices(s)[i] == 0 <==> s[i] == '1'
    {
      DigitZero(s[i]);
    }
  }

  lemma EncodedNumber(z: nat, n: nat)
    ensures var t := Letters(Repeat(0, z) + Digits(58, n));
            Encoded(Repeat(0, z) + NumberBytes(n)) == if n == 0 then t + "1" else t
  {
    if n == 0 {
      assert Repeat(0, z) + NumberBytes(0) == Repeat(0, z + 1) + Digits(256, 0);
      ExtraOne(z);
      EncodedOf(Repeat(0, z) + NumberBytes(0), z + 1, 0);
    } else {
      EncodedOf(Repeat(0, z) + NumberBytes(n), z, n);
    }
  }

  /** The round trip holds exactly for texts with a letter other than '1'. */
  lemma {:induction false} EncodeDecodeIff(s: string, b: seq<byte>)
    requires Decoded(s) == Ok(b)
    ensures Encoded(b) == s <==> exists i :: 0 <= i < |s| && s[i] != '1'
  {
    EncodeDecode(s, b);
    assert |s + "1"| != |s|;
  }

  /** Different byte strings never share a text. */
  lemma EncodingIsInjective(a: seq<byte>, b: seq<byte>)
    requires Encoded(a) == Encoded(b)
    ensures a == b
  {
    DecodeEncode(a);
    DecodeEncode(b);
    assert AllZero(a) ==> AllZero(a + [0]) && (a + [0])[..|a|] == a;
    assert AllZero(b) ==> AllZero(b + [0]) && (b + [0])[..|b|] == b;
  }

  lemma InAlphabetIff(c: char)
    ensures Index(c).Some? <==> c in ALPHABET
  {
    if Index(c).Some? {
      LetterReadsAlphabet(Index(c).value);
    }
    if c in ALPHABET {
      LetterReadsAlphabet(0);
      var d: nat :| d < |ALPHABET| && ALPHABET[d] == c;
      LetterReadsAlphabet(d);
      IndexInverts(d);
    }
  }

  /** Decoding succeeds exactly on texts over the alphabet. */
  lemma {:induction false} DecodesIff(s: string)
    ensures Decoded(s).Ok? <==> forall i :: 0 <= i < |s| ==> s[i] in ALPHABET
  {
    forall i | 0 <= i < |s|
      ensures Index(s[i]).Some? <==> s[i] in ALPHABET
    {
      InAlphabetIff(s[i]);
    }
  }
}
