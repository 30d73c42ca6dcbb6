/** Compact-u16 lengths and the memo transaction message (backend/filelife/solana_service.py). */
module MemoMessage {
  import opened Arithmetic
  import opened Common
  import opened Positional
  import opened Base58

  // ---------------------------------------------------------------------------
  // Compact-u16
  // ---------------------------------------------------------------------------

  /** Base 128, least significant group first, with the high bit set on every group but the last. */
  function Compact(n: nat): (r: seq<byte>)
    ensures |r| >= 1
  {
    if n < 128 then [n] else [n % 128 + 128] + Compact(n / 128)
  }

  /** _encode_compact_u16. */
  method EncodeCompactU16(n: nat) returns (buf: seq<byte>)
    ensures buf == Compact(n)
  {
    buf := [];
    var m, more := n, true;
    while more
      invariant Compact(n) == if more then buf + Compact(m) else buf
      decreases more, m
    {
      var group := m % 128;
      m := m / 128;
      more := m != 0;
      if more {
        group := group + 128;
      }
      buf := buf + [group];
    }
  }

  /** Reading a compact number off the front of a byte string; a group of zeros at the end of a
      longer number is refused, as it is not the shortest writing. */
  function ReadCompact(bs: seq<byte>): Option<(nat, seq<byte>)> {
    if bs == [] then None
    else if bs[0] < 128 then Some((bs[0], bs[1..]))
    else
      var rest := ReadCompact(bs[1..]);
      if rest.None? || rest.value.0 == 0 then None
      else Some((bs[0] - 128 + 128 * rest.value.0, rest.value.1))
  }

  lemma {:induction false} ReadsBack(n: nat, rest: seq<byte>)
    ensures ReadCompact(Compact(n) + rest) == Some((n, rest))
    decreases n
  {
    var bs := Compact(n) + rest;
    if n < 128 {
      assert bs[1..] == rest;
    } else {
      assert bs[1..] == Compact(n / 128) + rest;
      ReadsBack(n / 128, rest);
    }
  }

  lemma {:induction false} ReadIsCompact(bs: seq<byte>)
    requires ReadCompact(bs).Some?
    ensures bs == Compact(ReadCompact(bs).value.0) + ReadCompact(bs).value.1
  {
    if bs[0] >= 128 {
      ReadIsCompact(bs[1..]);
      assert bs == [bs[0]] + bs[1..];
    }
  }

  /** The decoder inverts the encoder, in both directions, for every number and continuation. */
  lemma {:induction false} CompactInverse(bs: seq<byte>, n: nat, rest: seq<byte>)
    ensures ReadCompact(bs) == Some((n, rest)) <==> bs == Compact(n) + rest
  {
    if bs == Compact(n) + rest {
      ReadsBack(n, rest);
    }
    if ReadCompact(bs).Some? {
      ReadIsCompact(bs);
    }
  }

  /** No encoding is a prefix of another one's. */
  lemma PrefixFree(m: nat, n: nat)
    requires Compact(m) <= Compact(n)
    ensures m == n
  {
    var rest := Compact(n)[|Compact(m)|..];
    assert Compact(n) == Compact(m) + rest && Compact(n) == Compact(n) + [];
    CompactInverse(Compact(n), m, rest);
    CompactInverse(Compact(n), n, []);
  }

  /** A number fits in k groups exactly when it is below 128^k. */
  lemma {:induction false} CompactLength(n: nat, k: nat)
    requires k >= 1
    ensures |Compact(n)| <= k <==> n < Pow(128, k)
    decreases k
  {
    if k == 1 {
      assert Pow(128, 1) == 128 * Pow(128, 0);
    } else if n >= 128 {
      CompactLength(n / 128, k - 1);
    } else {
      assert Pow(128, k - 1) >= 1;
    }
  }

  /** Every 16-bit length takes at most three bytes. */
  lemma CompactOfU16(n: nat)
    requires n < 65536
    ensures 1 <= |Compact(n)| <= 3
  {
    assert Pow(128, 3) == 2097152;
    CompactLength(n, 3);
  }

  // ---------------------------------------------------------------------------
  // The message
  // ---------------------------------------------------------------------------

  const MEMO_PROGRAM: string := "MemoSq4gqABAXKb96qnH8T" + "ysNcWxMyWCqXgDLGmfcHr"

  /** What a memo message carries. */
  datatype Message = Message(signer: seq<byte>, program: seq<byte>, blockhash: seq<byte>, memo: seq<byte>) {
    ghost predicate WellSized() {
      |signer| == 32 && |program| == 32 && |blockhash| == 32
    }
  }

  const HEADER: seq<byte> := [1, 0, 1]

  function Instruction(memo: seq<byte>): seq<byte> {
    [1] + (Compact(0) + (Compact(|memo|) + memo))
  }

  function Serialized(m: Message): seq<byte> {
    HEADER + (Compact(2) + (m.signer + (m.program + (m.blockhash + (Compact(1) + Instruction(m.memo))))))
  }

  lemma Nest(a: seq<byte>, b: seq<byte>, c: seq<byte>, d: seq<byte>)
    ensures a + b + c + d == a + (b + (c + d))
  {
  }

  /** _build_memo_tx, on the UTF-8 bytes of the memo. */
  method BuildMemoTx(signer: seq<byte>, memo: seq<byte>, blockhash: seq<byte>) returns (result: Result<seq<byte>>)
    ensures result == match Decoded(MEMO_PROGRAM)
                      case Err(e) => Err(e)
                      case Ok(program) => Ok(Serialized(Message(signer, program, blockhash, memo)))
  {
    var program := B58Decode(MEMO_PROGRAM);
    if program.Err? {
      return program;
    }
    var accountKeys := signer + program.value;
    var noAccounts := EncodeCompactU16(0);
    var dataLength := EncodeCompactU16(|memo|);
    var instruction := [1] + noAccounts + dataLength + memo;
    Nest([1], noAccounts, dataLength, memo);
    var keyCount := EncodeCompactU16(2);
    var instructionCount := EncodeCompactU16(1);
    var message := HEADER + keyCount + accountKeys + blockhash + instructionCount + instruction;
    Flatten(HEADER, keyCount, signer, program.value, blockhash, instructionCount, instruction);
    return Ok(message);
  }

  lemma Flatten(a: seq<byte>, b: seq<byte>, c: seq<byte>, d: seq<byte>, e: seq<byte>, f: seq<byte>, g: seq<byte>)
    ensures a + b + (c + d) + e + f + g == a + (b + (c + (d + (e + (f + g)))))
  {
  }

  /** Cutting off exactly the given bytes. */
  function Expect(bs: seq<byte>, prefix: seq<byte>): Option<seq<byte>> {
    if prefix <= bs then Some(bs[|prefix|..]) else None
  }

  /** The memo carried by an instruction that fills the rest of the message. */
  function ParseInstruction(bs: seq<byte>): Option<seq<byte>> {
    var body := Expect(bs, [1, 0]);
    if body.None? then None else
    var data := ReadCompact(body.value);
    if data.None? || data.value.0 != |data.value.1| then None else Some(data.value.1)
  }

  function ParseMessage(bs: seq<byte>): Option<Message> {
    var keys := Expect(bs, [1, 0, 1, 2]);
    if keys.None? || |keys.value| < 96 then None else
    var tail := Expect(keys.value[96..], [1]);
    if tail.None? then None else
    var memo := ParseInstruction(tail.value);
    if memo.None? then None
    else Some(Message(keys.value[..32], keys.value[32..64], keys.value[64..96], memo.value))
  }

  lemma InstructionParses(bs: seq<byte>, memo: seq<byte>)
    ensures ParseInstruction(bs) == Some(memo) <==> bs == Instruction(memo)
  {
    var tail := Compact(|memo|) + memo;
    assert Instruction(memo) == [1, 0] + tail;
    if bs == Instruction(memo) {
      assert [1, 0] <= bs && bs[2..] == tail;
      CompactInverse(tail, |memo|, memo);
    }
    if ParseInstruction(bs) == Some(memo) {
      assert bs == [1, 0] + bs[2..];
      CompactInverse(bs[2..], |memo|, memo);
    }
  }

  lemma SerializedShape(m: Message)
    ensures Serialized(m) == [1, 0, 1, 2] + ((m.signer + m.program + m.blockhash) + ([1] + Instruction(m.memo)))
  {
    assert HEADER + Compact(2) == [1, 0, 1, 2];
    assert Compact(1) == [1];
  }

  lemma SplitKeys(m: Message, keys: seq<byte>, tail: seq<byte>)
    requires m.WellSized() && keys == (m.signer + m.program + m.blockhash) + tail
    ensures keys[..32] == m.signer && keys[32..64] == m.program && keys[64..96] == m.blockhash && keys[96..] == tail
  {
  }

  lemma JoinKeys(keys: seq<byte>)
    requires |keys| >= 96
    ensures keys == (keys[..32] + keys[32..64] + keys[64..96]) + keys[96..]
  {
  }

  /** Parsing recovers signer, program, blockhash and memo from exactly the built messages. */
  lemma MessageRoundTrip(bs: seq<byte>, m: Message)
    ensures ParseMessage(bs) == Some(m) <==> bs == Serialized(m) && m.WellSized()
  {
    SerializedShape(m);
    if bs == Serialized(m) && m.WellSized() {
      var keys := bs[4..];
      assert keys == (m.signer + m.program + m.blockhash) + ([1] + Instruction(m.memo));
      SplitKeys(m, keys, [1] + Instruction(m.memo));
      assert Expect(bs, [1, 0, 1, 2]) == Some(keys);
      assert keys[96..][1..] == Instruction(m.memo);
      InstructionParses(Instruction(m.memo), m.memo);
    }
    if ParseMessage(bs) == Some(m) {
      var keys := bs[4..];
      assert bs == [1, 0, 1, 2] + keys;
      JoinKeys(keys);
      var tail := keys[96..][1..];
      assert keys[96..] == [1] + tail;
      InstructionParses(tail, m.memo);
    }
  }

  // ---------------------------------------------------------------------------
  // The program key
  // ---------------------------------------------------------------------------

  /** A number written with k digits after its first one lies between that digit and the next, times base^k. */
  lemma {:induction false} ValueBounds(base: nat, ds: seq<int>)
    requires base >= 2 && InBase(base, ds) && ds != []
    ensures ds[0] * Pow(base, |ds| - 1) <= Value(base, ds) < (ds[0] + 1) * Pow(base, |ds| - 1)
  {
    if |ds| > 1 {
      var init, last := ds[..|ds| - 1], ds[|ds| - 1];
      ValueBounds(base, init);
      ScaledBounds(base, ds[0], Pow(base, |init| - 1), Value(base, init), last);
    } else {
      assert ds[..0] == [] && Value(base, ds[..0]) == 0;
    }
  }

  lemma ScaledBounds(base: int, d: int, p: int, v: int, last: int)
    requires base >= 2 && d * p <= v < (d + 1) * p && 0 <= last < base
    ensures d * (base * p) <= v * base + last < (d + 1) * (base * p)
  {
    var low, high := v - d * p, (d + 1) * p - v - 1;
    assert d * (base * p) == (d * p) * base && (d + 1) * (base * p) == ((d + 1) * p) * base;
    assert v * base == (d * p) * base + low * base;
    assert ((d + 1) * p) * base == v * base + high * base + base;
    assert low * base >= 0 && high * base >= 0;
  }

  /** A number has k + 1 digits exactly when it lies between base^k and base^(k+1). */
  lemma {:induction false} DigitCount(base: nat, n: nat, k: nat)
    requires base >= 2 && Pow(base, k) <= n < Pow(base, k + 1)
    ensures |Digits(base, n)| == k + 1
    decreases k
  {
    var q, r := DivMod(base, n);
    if k == 0 {
      assert Pow(base, 1) == base * Pow(base, 0);
      QuotientUnique(base, 0, n);
      assert Digits(base, 0) == [];
    } else {
      var p := Pow(base, k - 1);
      assert Pow(base, k + 1) == base * Pow(base, k);
      QuotientBounds(base, p, q, r);
      DigitCount(base, q, k - 1);
    }
  }

  lemma QuotientBounds(base: int, p: int, q: int, r: int)
    requires base >= 2 && 0 <= r < base
    requires base * p <= q * base + r < base * (base * p)
    ensures p <= q < base * p
  {
    assert (q - p) * base == q * base - base * p;
    assert q - p <= -1 ==> (q - p) * base <= -1 * base;
    var e := q - base * p;
    assert e * base == q * base - base * (base * p);
    assert e >= 0 ==> e * base >= 0;
  }

  lemma {:induction false} PowAdd(b: nat, i: nat, j: nat)
    ensures Pow(b, i + j) == Pow(b, i) * Pow(b, j)
  {
    if i > 0 {
      PowAdd(b, i - 1, j);
    }
  }

  lemma ProgramLetters(i: nat)
    requires i < 43
    ensures |MEMO_PROGRAM| == 43 && Index(MEMO_PROGRAM[i]).Some?
  {
    if i < 22 {
      assert MEMO_PROGRAM[i] == "MemoSq4gqABAXKb96qnH8T"[i];
    } else {
      assert MEMO_PROGRAM[i] == "ysNcWxMyWCqXgDLGmfcHr"[i - 22];
    }
  }

  /** A text of 43 letters that starts with 'M' decodes to 32 bytes. */
  lemma KeySize(s: string)
    requires InAlphabet(s) && |s| == 43
    requires Indices(s)[0] == 20 && Leading(Indices(s), 0) == 0
    ensures Decoded(s).Ok? && |Decoded(s).value| == 32
  {
    ValueBounds(58, Indices(s));
    NumberSize(Value(58, Indices(s)));
    LeadingOnes(s);
  }

  lemma NumberSize(n: nat)
    requires 20 * Pow(58, 42) <= n < 21 * Pow(58, 42)
    ensures |Digits(256, n)| == 32
  {
    KeyBounds();
    DigitCount(256, n, 31);
  }

  /** The memo program's address decodes to a 32-byte key. */
  lemma ProgramKeySize()
    ensures Decoded(MEMO_PROGRAM).Ok? && |Decoded(MEMO_PROGRAM).value| == 32
  {
    ProgramDigits();
    KeySize(MEMO_PROGRAM);
  }

  lemma ProgramDigits()
    ensures InAlphabet(MEMO_PROGRAM) && |MEMO_PROGRAM| == 43
    ensures Indices(MEMO_PROGRAM)[0] == 20 && Leading(Indices(MEMO_PROGRAM), 0) == 0
  {
    forall i | 0 <= i < |MEMO_PROGRAM|
      ensures Index(MEMO_PROGRAM[i]).Some?
    {
      ProgramLetters(i);
    }
    ProgramLetters(0);
    LeadingUnique(Indices(MEMO_PROGRAM), 0, 0);
  }

  lemma KeyBounds()
    ensures Pow(256, 31) <= 20 * Pow(58, 42) && 21 * Pow(58, 42) < Pow(256, 32)
  {
    LettersPower();
    BytesPower();
  }

  lemma LettersPower()
    ensures Pow(58, 42) == 4875194084160298409672704 * 23767517358231570773047645414309870043308402671616
  {
    PowAdd(58, 7, 7);
    PowAdd(58, 14, 14);
    PowAdd(58, 14, 28);
    assert Pow(58, 7) == 2207984167552;
  }

  lemma BytesPower()
    ensures Pow(256, 31) == 0x100000000000000000000000000000000000000000000000000000000000000
    ensures Pow(256, 32) == 0x10000000000000000000000000000000000000000000000000000000000000000
  {
    PowAdd(256, 8, 8);
    PowAdd(256, 16, 8);
    PowAdd(256, 24, 7);
    PowAdd(256, 31, 1);
    assert Pow(256, 8) == 0x10000000000000000 && Pow(256, 7) == 0x100000000000000;
  }
}
