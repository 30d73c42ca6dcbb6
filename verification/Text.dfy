/** Splitting, joining and decimal text, as Python's str methods do them. */
module Text {
  import opened Common
  import opened Positional

  ghost predicate Free(c: char, s: string) {
    forall i :: 0 <= i < |s| ==> s[i] != c
  }

  /** sep.join(parts). */
  function Join(sep: char, parts: seq<string>): string {
    if parts == [] then ""
    else if |parts| == 1 then parts[0]
    else parts[0] + ([sep] + Join(sep, parts[1..]))
  }

  /** s.split(sep). */
  function Split(sep: char, s: string): (r: seq<string>)
    ensures |r| > 0
  {
    if s == "" then [""]
    else
      var rest := Split(sep, s[1..]);
      if s[0] == sep then [""] + rest else [[s[0]] + rest[0]] + rest[1..]
  }

  lemma {:induction false} SplitFree(sep: char, s: string)
    requires Free(sep, s)
    ensures Split(sep, s) == [s]
  {
    if s != "" {
      SplitFree(sep, s[1..]);
      assert [s[0]] + s[1..] == s;
    }
  }

  /** A separator cuts: the parts of a text are those before it and those after it. */
  lemma {:induction false} SplitAt(sep: char, a: string, b: string)
    ensures Split(sep, a + ([sep] + b)) == Split(sep, a) + Split(sep, b)
  {
    var s := a + ([sep] + b);
    if a == "" {
      assert s == [sep] + b && s[1..] == b;
    } else {
      assert s[0] == a[0] && s[1..] == a[1..] + ([sep] + b);
      SplitAt(sep, a[1..], b);
    }
  }

  lemma {:induction false} SplitJoin(sep: char, parts: seq<string>)
    requires parts != [] && forall i :: 0 <= i < |parts| ==> Free(sep, parts[i])
    ensures Split(sep, Join(sep, parts)) == parts
  {
    SplitFree(sep, parts[0]);
    if |parts| > 1 {
      SplitAt(sep, parts[0], Join(sep, parts[1..]));
      SplitJoin(sep, parts[1..]);
      assert parts == [parts[0]] + parts[1..];
    } else {
      assert parts == [parts[0]];
    }
  }

  /** Splitting a joined text never loses parts, and finds exactly them when none holds a separator. */
  lemma {:induction false} SplitJoinCount(sep: char, parts: seq<string>)
    requires parts != []
    ensures |Split(sep, Join(sep, parts))| >= |parts|
    ensures |Split(sep, Join(sep, parts))| == |parts| <==> forall i :: 0 <= i < |parts| ==> Free(sep, parts[i])
  {
    SplitOnce(sep, parts[0]);
    if |parts| > 1 {
      SplitAt(sep, parts[0], Join(sep, parts[1..]));
      SplitJoinCount(sep, parts[1..]);
      assert forall i :: 0 < i < |parts| ==> parts[i] == parts[1..][i - 1];
    }
  }

  lemma {:induction false} SplitOnce(sep: char, s: string)
    ensures |Split(sep, s)| == 1 <==> Free(sep, s)
  {
    if s != "" {
      SplitOnce(sep, s[1..]);
      assert forall i :: 0 < i < |s| ==> s[i] == s[1..][i - 1];
    }
  }

  lemma {:induction false} JoinSplit(sep: char, s: string)
    ensures Join(sep, Split(sep, s)) == s
  {
    if s != "" {
      JoinSplit(sep, s[1..]);
      JoinHead(sep, s[0], Split(sep, s[1..]));
      assert [s[0]] + s[1..] == s;
    }
  }

  lemma JoinHead(sep: char, c: char, rest: seq<string>)
    requires rest != []
    ensures Join(sep, [[c] + rest[0]] + rest[1..]) == [c] + Join(sep, rest)
    ensures Join(sep, [""] + rest) == [sep] + Join(sep, rest)
  {
    assert ([""] + rest)[1..] == rest;
    assert ([[c] + rest[0]] + rest[1..])[1..] == rest[1..];
    if |rest| > 1 {
      assert ([c] + rest[0]) + ([sep] + Join(sep, rest[1..])) == [c] + (rest[0] + ([sep] + Join(sep, rest[1..])));
    }
  }

  /** Two texts cut at their last separator. */
  lemma LastSeparator(sep: char, a: string, b: string, c: string, d: string)
    requires Free(sep, b) && Free(sep, d) && a + ([sep] + b) == c + ([sep] + d)
    ensures a == c && b == d
  {
    LastAt(sep, a, b);
    LastAt(sep, c, d);
    var s := a + ([sep] + b);
    assert |a| == |c|;
    assert a == s[..|a|] && c == s[..|c|];
    assert b == s[|a| + 1..] && d == s[|c| + 1..];
  }

  lemma LastAt(sep: char, a: string, b: string)
    requires Free(sep, b)
    ensures var s := a + ([sep] + b);
            s[|a|] == sep && forall i :: |a| < i < |s| ==> s[i] != sep
  {
  }

  // ---------------------------------------------------------------------------
  // Decimal numbers
  // ---------------------------------------------------------------------------

  function Digit(d: int): char
    requires 0 <= d < 10
  {
    (d + 48) as char
  }

  function Letters(ds: seq<int>): (r: string)
    requires InBase(10, ds)
    ensures |r| == |ds| && forall i :: 0 <= i < |ds| ==> r[i] == Digit(ds[i])
  {
    seq(|ds|, i requires 0 <= i < |ds| => Digit(ds[i]))
  }

  /** str(n) for a natural number. */
  function Decimal(n: nat): (r: string)
    ensures r != ""
  {
    if n == 0 then "0" else Letters(Digits(10, n))
  }

  /** str(n) for any integer. */
  function SignedDecimal(n: int): string {
    if n < 0 then "-" + Decimal(-n) else Decimal(n)
  }

  /** f"{n:04d}" and the like: zeros in front up to a width. */
  function Padded(n: nat, width: nat): string {
    var d := Decimal(n);
    Repeat('0', if |d| < width then width - |d| else 0) + d
  }

  predicate AllDigits(s: string) {
    forall i :: 0 <= i < |s| ==> '0' <= s[i] <= '9'
  }

  function Values(s: string): (r: seq<int>)
    requires AllDigits(s)
    ensures |r| == |s| && InBase(10, r) && forall i :: 0 <= i < |s| ==> r[i] == s[i] as int - 48
  {
    seq(|s|, i requires 0 <= i < |s| => s[i] as int - 48)
  }

  /** int(s) for a text of decimal digits; None is the ValueError. */
  function ParseInt(s: string): Option<int> {
    if s != "" && AllDigits(s) then Some(Value(10, Values(s))) else None
  }

  lemma DecimalDigits(n: nat)
    ensures AllDigits(Decimal(n))
    ensures Values(Decimal(n)) == (if n == 0 then [0] else Digits(10, n))
    ensures Value(10, Values(Decimal(n))) == n
  {
    if n == 0 {
      assert Values("0") == [] + [0];
      ValueAppend(10, [], 0);
    } else {
      assert Values(Decimal(n)) == Digits(10, n);
      ValueOfDigits(10, n);
    }
  }

  /** Leading zeros do not change what is parsed. */
  lemma ParsePadded(k: nat, n: nat)
    ensures ParseInt(Repeat('0', k) + Decimal(n)) == Some(n)
  {
    DecimalDigits(n);
    ValuesOfPadded(k, Decimal(n));
    LeadingZerosKeepValue(10, k, Values(Decimal(n)));
  }

  lemma ValuesOfPadded(k: nat, s: string)
    requires AllDigits(s)
    ensures AllDigits(Repeat('0', k) + s)
    ensures Values(Repeat('0', k) + s) == Repeat(0, k) + Values(s)
  {
  }

  lemma DecimalInjective(m: nat, n: nat)
    requires Decimal(m) == Decimal(n)
    ensures m == n
  {
    DecimalDigits(m);
    DecimalDigits(n);
  }

  lemma SignedDecimalInjective(m: int, n: int)
    requires SignedDecimal(m) == SignedDecimal(n)
    ensures m == n
  {
    MinusSign(m);
    MinusSign(n);
    if m < 0 {
      DecimalInjective(-m, -n);
    } else {
      DecimalInjective(m, n);
    }
  }

  lemma MinusSign(n: int)
    ensures SignedDecimal(n) != "" && (SignedDecimal(n)[0] == '-' <==> n < 0)
    ensures n < 0 ==> Decimal(-n) == SignedDecimal(n)[1..]
  {
    DecimalDigits(if n < 0 then -n else n);
  }

  /** int(s) for decimal digits that may follow a minus sign. */
  function ParseSigned(s: string): Option<int> {
    if s != "" && s[0] == '-' then
      match ParseInt(s[1..])
      case Some(n) => Some(-n)
      case None => None
    else ParseInt(s)
  }

  lemma ParseSignedDecimal(n: int)
    ensures ParseSigned(SignedDecimal(n)) == Some(n)
  {
    MinusSign(n);
    DecimalDigits(if n < 0 then -n else n);
  }

  lemma DecimalFree(n: int, c: char)
    requires c != '-' && !('0' <= c <= '9')
    ensures Free(c, SignedDecimal(n))
  {
    DecimalDigits(if n < 0 then -n else n);
  }
}
