/** The file SKU codec (backend/filelife/sku.py). `upper` is str.upper and `sha` the SHA-256 hex digest. */
module Sku {
  import opened Common
  import opened Positional
  import opened Text

  datatype Fields = Fields(
    category: string, subcategory: string, kind: string, stage: int, version: int, jurisdiction: string,
    repoAlias: string, commit: string, tx: string, kpi: int, collateral: bool)

  /** The text functions the codec calls. */
  datatype Functions = Functions(upper: string -> string, sha: string -> string)

  /** s[:n]. */
  function Take(s: string, n: nat): string {
    if |s| <= n then s else s[..n]
  }

  lemma TakeIsPrefix(s: string, n: nat)
    ensures Take(s, n) <= s && |Take(s, n)| <= n && (|Take(s, n)| < n ==> Take(s, n) == s)
  {
  }

  function Clamp(low: int, high: int, x: int): int {
    if x < low then low else if x > high then high else x
  }

  function AtLeast(low: int, x: int): int {
    if x < low then low else x
  }

  /** _repo_alias. */
  function RepoPart(fn: Functions, alias: string): string {
    if alias == "" || alias == "NOREPO" then "NOREPO" else fn.upper(Take(fn.sha(alias), 5))
  }

  /** The commit and transaction segments: eight characters, or eight zeros when there is none. */
  function ShortPart(fn: Functions, text: string): string {
    if text != "" && text != "00000000" then fn.upper(Take(text, 8)) else "00000000"
  }

  /** The i-th segment, before the checksum. */
  function Segment(fn: Functions, f: Fields, i: nat): string {
    match i
    case 0 => "MBR"
    case 1 => "FIL"
    case 2 => Take(fn.upper(f.category), 3)
    case 3 => Take(fn.upper(f.subcategory), 3)
    case 4 => Take(fn.upper(f.kind), 3)
    case 5 => "LC" + Decimal(Clamp(0, 9, f.stage))
    case 6 => "V" + Padded(AtLeast(1, f.version), 4)
    case 7 => Take(fn.upper(f.jurisdiction), 6)
    case 8 => "GH" + RepoPart(fn, f.repoAlias)
    case 9 => ShortPart(fn, f.commit)
    case 10 => "SDV"
    case 11 => ShortPart(fn, f.tx)
    case 12 => "KPI" + Decimal(Clamp(0, 9, f.kpi))
    case _ => if f.collateral then "COL" else "NCL"
  }

  function Segments(fn: Functions, f: Fields): (r: seq<string>)
    ensures |r| == 14
  {
    seq(14, i requires 0 <= i < 14 => Segment(fn, f, i))
  }

  function Checksum(fn: Functions, base: string): string {
    fn.upper(Take(fn.sha(base), 4))
  }

  /** generate_sku. */
  function GenerateSku(fn: Functions, f: Fields): string {
    var base := Join('-', Segments(fn, f));
    base + ("-" + Checksum(fn, base))
  }

  /** validate_sku_checksum. */
  function ValidateChecksum(fn: Functions, sku: string): bool {
    var parts := Split('-', sku);
    if |parts| < 15 then false
    else parts[|parts| - 1] == Checksum(fn, Join('-', parts[..|parts| - 1]))
  }

  /** s.replace(pattern, "") for a non-empty pattern. */
  function RemoveAll(s: string, pattern: string): string
    requires pattern != ""
    decreases |s|
  {
    if s == "" then ""
    else if pattern <= s then RemoveAll(s[|pattern|..], pattern)
    else [s[0]] + RemoveAll(s[1..], pattern)
  }

  /** s.replace(pattern, "", 1) for a non-empty pattern. */
  function RemoveFirst(s: string, pattern: string): string
    requires pattern != ""
  {
    if s == "" then ""
    else if pattern <= s then s[|pattern|..]
    else [s[0]] + RemoveFirst(s[1..], pattern)
  }

  /** A numbered segment: its number, a default without the prefix, None for the ValueError. */
  function Numbered(segment: string, prefix: string, default_: int): Option<int>
    requires prefix != ""
  {
    if prefix <= segment then ParseInt(RemoveAll(segment, prefix)) else Some(default_)
  }

  datatype Parsed = Parsed(
    valid: bool, checksumValid: bool, namespace_: string, objectType: string,
    category: string, subcategory: string, kind: string, stage: int, version: int, jurisdiction: string,
    repoAlias: string, commit: string, network: string, tx: string, kpi: int, flag: string, checksum: string)

  datatype Disassembly = TooShort(count: nat) | ValueError | Disassembled(parsed: Parsed)

  /** disassemble_sku, without its descriptive texts. */
  function Disassemble(fn: Functions, sku: string): Disassembly {
    var parts := Split('-', sku);
    if |parts| < 15 then TooShort(|parts|)
    else if |parts| > 15 then ValueError
    else FromParts(parts, ValidateChecksum(fn, sku))
  }

  function FromParts(parts: seq<string>, valid: bool): Disassembly
    requires |parts| == 15
  {
    var stage, version, kpi := Numbered(parts[5], "LC", -1), Numbered(parts[6], "V", 0), Numbered(parts[12], "KPI", 0);
    if stage.None? || version.None? || kpi.None? then ValueError
    else Disassembled(Parsed(
      valid, valid, parts[0], parts[1], parts[2], parts[3], parts[4], stage.value, version.value, parts[7],
      RemoveFirst(parts[8], "GH"), parts[9], parts[10], parts[11], kpi.value, parts[13], parts[14]))
  }

  // ---------------------------------------------------------------------------
  // Checksum
  // ---------------------------------------------------------------------------

  /** Digests are dash-free hex, and upper-casing never makes a dash. */
  ghost predicate WellBehaved(fn: Functions) {
    && (forall s :: Free('-', fn.sha(s)))
    && (forall s :: Free('-', s) ==> Free('-', fn.upper(s)))
  }

  lemma ChecksumFree(fn: Functions, base: string)
    requires WellBehaved(fn)
    ensures Free('-', Checksum(fn, base))
  {
    assert Free('-', fn.sha(base));
  }

  /** Splitting a sealed text gives the split of what was sealed, and then the checksum. */
  lemma SealedParts(fn: Functions, base: string)
    requires WellBehaved(fn)
    ensures var parts := Split('-', base + ("-" + Checksum(fn, base)));
            && parts == Split('-', base) + [Checksum(fn, base)]
            && Join('-', parts[..|parts| - 1]) == base
  {
    ChecksumFree(fn, base);
    SplitAt('-', base, Checksum(fn, base));
    SplitFree('-', Checksum(fn, base));
    assert "-" == ['-'];
    JoinSplit('-', base);
    var parts := Split('-', base) + [Checksum(fn, base)];
    assert parts[..|parts| - 1] == Split('-', base);
  }

  /** Every generated SKU passes its checksum, whatever the fields hold, dashes included. */
  lemma {:induction false} GeneratedIsAccepted(fn: Functions, f: Fields)
    requires WellBehaved(fn)
    ensures ValidateChecksum(fn, GenerateSku(fn, f))
  {
    SealedParts(fn, Join('-', Segments(fn, f)));
    SplitJoinCount('-', Segments(fn, f));
  }

  /** The text is another and, after a dash, the first four digits, in capitals, of that one's digest. */
  ghost predicate Seals(fn: Functions, sku: string, checksum: string) {
    exists base :: sku == base + ("-" + checksum) && checksum == fn.upper(Take(fn.sha(base), 4))
  }

  function Dashes(s: string): nat {
    if s == "" then 0 else (if s[0] == '-' then 1 else 0) + Dashes(s[1..])
  }

  lemma {:induction false} PartsAreDashes(s: string)
    ensures |Split('-', s)| == Dashes(s) + 1
  {
    if s != "" {
      PartsAreDashes(s[1..]);
    }
  }

  /** A text is accepted exactly when it has fourteen dashes or more, and what follows the last one seals
      what comes before it. */
  lemma ValidIff(fn: Functions, sku: string)
    requires WellBehaved(fn)
    ensures ValidateChecksum(fn, sku) <==> Dashes(sku) >= 14 && exists checksum :: Seals(fn, sku, checksum)
  {
    PartsAreDashes(sku);
    var parts := Split('-', sku);
    if ValidateChecksum(fn, sku) {
      var base, checksum := Join('-', parts[..|parts| - 1]), parts[|parts| - 1];
      JoinLast(parts);
      JoinSplit('-', sku);
      assert sku == base + ("-" + checksum) && checksum == Checksum(fn, base);
      assert Seals(fn, sku, checksum);
    }
    if checksum :| Seals(fn, sku, checksum) {
      var base :| sku == base + ("-" + checksum) && checksum == fn.upper(Take(fn.sha(base), 4));
      SealedParts(fn, base);
      assert checksum == Checksum(fn, base);
    }
  }

  lemma {:induction false} JoinLast(parts: seq<string>)
    requires |parts| > 1
    ensures Join('-', parts) == Join('-', parts[..|parts| - 1]) + ("-" + parts[|parts| - 1])
  {
    var n := |parts| - 1;
    if n > 1 {
      JoinLast(parts[1..]);
      assert parts[1..][..n - 1] == parts[..n][1..];
      assert parts[0] + (['-'] + (Join('-', parts[..n][1..]) + ("-" + parts[n]))) ==
             (parts[0] + (['-'] + Join('-', parts[..n][1..]))) + ("-" + parts[n]);
    } else {
      assert parts[1..] == [parts[1]] && parts[..1] == [parts[0]];
    }
  }

  // ---------------------------------------------------------------------------
  // Which segments hold no dash
  // ---------------------------------------------------------------------------

  /** The text fields hold no dash once cut to the width of their segment. */
  ghost predicate CutDashFree(fn: Functions, f: Fields) {
    && NoDashWithin(fn.upper(f.category), 3) && NoDashWithin(fn.upper(f.subcategory), 3)
    && NoDashWithin(fn.upper(f.kind), 3) && NoDashWithin(fn.upper(f.jurisdiction), 6)
    && (Anchored(f.commit) ==> Free('-', fn.upper(Take(f.commit, 8))))
    && (Anchored(f.tx) ==> Free('-', fn.upper(Take(f.tx, 8))))
  }

  ghost predicate NoDashWithin(s: string, n: nat) {
    forall i :: 0 <= i < |s| && i < n ==> s[i] != '-'
  }

  /** The commit or transaction is given, and not as the eight zeros that stand for none. */
  ghost predicate Anchored(text: string) {
    text != "" && text != "00000000"
  }

  ghost predicate DashFree(f: Fields) {
    && Free('-', f.category) && Free('-', f.subcategory) && Free('-', f.kind) && Free('-', f.jurisdiction)
    && Free('-', f.commit) && Free('-', f.tx)
  }

  lemma TakeFree(s: string, n: nat)
    requires Free('-', s)
    ensures Free('-', Take(s, n))
  {
  }

  lemma TextFieldFree(fn: Functions, s: string, n: nat)
    requires WellBehaved(fn) && Free('-', s)
    ensures Free('-', Take(fn.upper(s), n))
  {
    TakeFree(fn.upper(s), n);
  }

  lemma ShortPartFree(fn: Functions, text: string)
    requires WellBehaved(fn) && Free('-', text)
    ensures Free('-', ShortPart(fn, text))
  {
    TakeFree(text, 8);
  }

  lemma DashFreeFieldsCut(fn: Functions, f: Fields)
    requires WellBehaved(fn) && DashFree(f)
    ensures CutDashFree(fn, f)
  {
    TextFieldFree(fn, f.category, 3);
    TextFieldFree(fn, f.subcategory, 3);
    TextFieldFree(fn, f.kind, 3);
    TextFieldFree(fn, f.jurisdiction, 6);
    ShortPartFree(fn, f.commit);
    ShortPartFree(fn, f.tx);
  }

  lemma PrefixedFree(prefix: string, s: string)
    requires Free('-', prefix) && Free('-', s)
    ensures Free('-', prefix + s)
  {
  }

  lemma NumberFree(prefix: string, n: nat, width: nat)
    requires Free('-', prefix)
    ensures Free('-', prefix + Decimal(n)) && Free('-', prefix + Padded(n, width))
  {
    DecimalDigits(n);
    PrefixedFree(prefix, Decimal(n));
    PrefixedFree(prefix, Padded(n, width));
  }

  lemma AliasFree(fn: Functions, alias: string)
    requires WellBehaved(fn)
    ensures Free('-', "GH" + RepoPart(fn, alias))
  {
    TakeFree(fn.sha(alias), 5);
    PrefixedFree("GH", RepoPart(fn, alias));
  }

  lemma NumbersFree(stage: nat, version: nat, kpi: nat)
    ensures Free('-', "LC" + Decimal(stage)) && Free('-', "V" + Padded(version, 4)) && Free('-', "KPI" + Decimal(kpi))
  {
    NumberFree("LC", stage, 0);
    NumberFree("V", version, 4);
    NumberFree("KPI", kpi, 0);
  }

  lemma FixedTextsFree()
    ensures Free('-', "MBR") && Free('-', "FIL") && Free('-', "SDV") && Free('-', "COL") && Free('-', "NCL")
  {
  }

  lemma CutTexts(fn: Functions, f: Fields)
    ensures CutDashFree(fn, f) <==>
            && Free('-', Take(fn.upper(f.category), 3)) && Free('-', Take(fn.upper(f.subcategory), 3))
            && Free('-', Take(fn.upper(f.kind), 3)) && Free('-', Take(fn.upper(f.jurisdiction), 6))
            && Free('-', ShortPart(fn, f.commit)) && Free('-', ShortPart(fn, f.tx))
  {
    CutText(fn.upper(f.category), 3);
    CutText(fn.upper(f.subcategory), 3);
    CutText(fn.upper(f.kind), 3);
    CutText(fn.upper(f.jurisdiction), 6);
    ZerosFree();
  }

  lemma CutText(s: string, n: nat)
    ensures NoDashWithin(s, n) <==> Free('-', Take(s, n))
  {
  }

  lemma ZerosFree()
    ensures Free('-', "00000000")
  {
  }

  /** The segment comes from a text field. */
  predicate FromText(i: nat) {
    i == 2 || i == 3 || i == 4 || i == 7 || i == 9 || i == 11
  }

  lemma OthersFree(fn: Functions, f: Fields, i: nat)
    requires WellBehaved(fn) && i < 14 && !FromText(i)
    ensures Free('-', Segment(fn, f, i))
  {
    NumbersFree(Clamp(0, 9, f.stage), AtLeast(1, f.version), Clamp(0, 9, f.kpi));
    FixedTextsFree();
    AliasFree(fn, f.repoAlias);
  }

  /** Only the six text fields can bring a dash into a segment. */
  lemma SegmentsFreeIff(fn: Functions, f: Fields)
    requires WellBehaved(fn)
    ensures (forall i :: 0 <= i < 14 ==> Free('-', Segments(fn, f)[i])) <==> CutDashFree(fn, f)
  {
    CutTexts(fn, f);
    var s := Segments(fn, f);
    if CutDashFree(fn, f) {
      forall i | 0 <= i < 14
        ensures Free('-', s[i])
      {
        if !FromText(i) {
          OthersFree(fn, f, i);
        }
      }
    } else {
      assert !Free('-', s[2]) || !Free('-', s[3]) || !Free('-', s[4]) || !Free('-', s[7]) || !Free('-', s[9])
             || !Free('-', s[11]);
    }
  }

  // ---------------------------------------------------------------------------
  // Reading the segments back
  // ---------------------------------------------------------------------------

  lemma {:induction false} RemoveNothing(s: string, pattern: string)
    requires pattern != "" && Free(pattern[0], s)
    ensures RemoveAll(s, pattern) == s
    decreases |s|
  {
    if s != "" {
      assert !(pattern <= s);
      RemoveNothing(s[1..], pattern);
      assert [s[0]] + s[1..] == s;
    }
  }

  /** A numbered segment gives back its number, padded or not. */
  lemma NumberedReadsBack(prefix: string, n: nat, width: nat, default_: int)
    requires prefix != "" && !('0' <= prefix[0] <= '9')
    ensures Numbered(prefix + Padded(n, width), prefix, default_) == Some(n)
  {
    var digits := Padded(n, width);
    DecimalDigits(n);
    assert (prefix + digits)[|prefix|..] == digits;
    RemoveNothing(digits, prefix);
    ParsePadded(if |Decimal(n)| < width then width - |Decimal(n)| else 0, n);
  }

  lemma PlainReadsBack(prefix: string, n: nat, default_: int)
    requires prefix != "" && !('0' <= prefix[0] <= '9')
    ensures Numbered(prefix + Decimal(n), prefix, default_) == Some(n)
  {
    NumberedReadsBack(prefix, n, 0, default_);
    assert Padded(n, 0) == Decimal(n);
  }

  lemma AliasReadsBack(alias: string)
    ensures RemoveFirst("GH" + alias, "GH") == alias
  {
    assert "GH" <= "GH" + alias && ("GH" + alias)[2..] == alias;
  }

  /** The number that was clamped into [low, high]. */
  ghost predicate IsClamped(x: int, low: int, high: int, r: int) {
    (low <= x <= high ==> r == x) && (x < low ==> r == low) && (x > high ==> r == high)
  }

  /** The eight-character segment a commit or transaction was written as. */
  ghost predicate IsAnchor(fn: Functions, text: string, r: string) {
    r == if Anchored(text) then fn.upper(Take(text, 8)) else "00000000"
  }

  /** What a SKU generated from some fields says about them: the texts upper-cased and cut, the stage
      and KPI profile clamped to 0..9, the version if it is positive, the flag, and eight zeros or
      NOREPO for what is missing. */
  ghost predicate Recovers(fn: Functions, f: Fields, p: Parsed) {
    && p.valid && p.checksumValid && p.namespace_ == "MBR" && p.objectType == "FIL" && p.network == "SDV"
    && p.category == Take(fn.upper(f.category), 3) && p.subcategory == Take(fn.upper(f.subcategory), 3)
    && p.kind == Take(fn.upper(f.kind), 3) && p.jurisdiction == Take(fn.upper(f.jurisdiction), 6)
    && IsClamped(f.stage, 0, 9, p.stage) && IsClamped(f.kpi, 0, 9, p.kpi)
    && (f.version >= 1 ==> p.version == f.version) && (f.version < 1 ==> p.version == 1)
    && p.repoAlias == (if f.repoAlias == "" || f.repoAlias == "NOREPO" then "NOREPO"
                       else fn.upper(Take(fn.sha(f.repoAlias), 5)))
    && IsAnchor(fn, f.commit, p.commit) && IsAnchor(fn, f.tx, p.tx)
    && p.flag == (if f.collateral then "COL" else "NCL")
  }

  lemma NumbersReadBack(fn: Functions, f: Fields)
    ensures Numbered(Segment(fn, f, 5), "LC", -1) == Some(Clamp(0, 9, f.stage))
    ensures Numbered(Segment(fn, f, 6), "V", 0) == Some(AtLeast(1, f.version))
    ensures Numbered(Segment(fn, f, 12), "KPI", 0) == Some(Clamp(0, 9, f.kpi))
  {
    PlainReadsBack("LC", Clamp(0, 9, f.stage), -1);
    NumberedReadsBack("V", AtLeast(1, f.version), 4, 0);
    PlainReadsBack("KPI", Clamp(0, 9, f.kpi), 0);
  }

  lemma PartsReadBack(fn: Functions, f: Fields, parts: seq<string>)
    requires |parts| == 15 && parts[..14] == Segments(fn, f)
    ensures FromParts(parts, true).Disassembled? && Recovers(fn, f, FromParts(parts, true).parsed)
    ensures FromParts(parts, true).parsed.checksum == parts[14]
  {
    PartsAreSegments(fn, f, parts);
    NumbersReadBack(fn, f);
    AliasReadsBack(RepoPart(fn, f.repoAlias));
  }

  lemma PartsAreSegments(fn: Functions, f: Fields, parts: seq<string>)
    requires |parts| == 15 && parts[..14] == Segments(fn, f)
    ensures forall i :: 0 <= i < 14 ==> parts[i] == Segment(fn, f, i)
  {
    forall i | 0 <= i < 14
      ensures parts[i] == Segment(fn, f, i)
    {
      assert parts[i] == Segments(fn, f)[i];
    }
  }

  /** A numbered segment that lacks its prefix counts as stage -1, version 0 or profile 0. */
  lemma DefaultsWithoutPrefix(parts: seq<string>, valid: bool)
    requires |parts| == 15 && FromParts(parts, valid).Disassembled?
    ensures var p := FromParts(parts, valid).parsed;
            && (!("LC" <= parts[5]) ==> p.stage == -1)
            && (!("V" <= parts[6]) ==> p.version == 0)
            && (!("KPI" <= parts[12]) ==> p.kpi == 0)
  {
  }

  /** A bare prefix is no number. */
  lemma BarePrefixFails(parts: seq<string>, valid: bool)
    requires |parts| == 15 && (parts[5] == "LC" || parts[6] == "V" || parts[12] == "KPI")
    ensures FromParts(parts, valid) == ValueError
  {
    RemoveWhole("LC");
    RemoveWhole("V");
    RemoveWhole("KPI");
  }

  lemma RemoveWhole(pattern: string)
    requires pattern != ""
    ensures RemoveAll(pattern, pattern) == ""
  {
    assert pattern[|pattern|..] == "";
  }

  /** The stage and the profile take one digit, and the version four, or as many more as it needs. */
  lemma SegmentWidths(fn: Functions, f: Fields)
    ensures var s := Segments(fn, f);
            && |s[5]| == |"LC"| + 1 && |s[12]| == |"KPI"| + 1
            && |s[6]| >= |"V"| + 4 && (|s[6]| > |"V"| + 4 ==> s[6][1] != '0')
  {
    OneDigit(Clamp(0, 9, f.stage));
    OneDigit(Clamp(0, 9, f.kpi));
    PaddedShortest(AtLeast(1, f.version), 4);
  }

  lemma OneDigit(n: nat)
    requires n < 10
    ensures |Decimal(n)| == 1
  {
    assert n > 0 ==> Digits(10, n) == Digits(10, 0) + [n];
  }

  lemma PaddedShortest(n: nat, width: nat)
    requires n > 0
    ensures |Padded(n, width)| >= width && (|Padded(n, width)| > width ==> Padded(n, width)[0] != '0')
  {
    assert Padded(n, |Decimal(n)|) == Decimal(n);
  }

  // ---------------------------------------------------------------------------
  // Round trip
  // ---------------------------------------------------------------------------

  /** A SKU splits into its fourteen segments and the checksum exactly when no cut text holds a dash. */
  lemma SkuPartsIff(fn: Functions, f: Fields)
    requires WellBehaved(fn)
    ensures var segments, parts := Segments(fn, f), Split('-', GenerateSku(fn, f));
            && (CutDashFree(fn, f) ==> parts == segments + [Checksum(fn, Join('-', segments))])
            && (!CutDashFree(fn, f) ==> |parts| > 15)
  {
    var segments := Segments(fn, f);
    SegmentsFreeIff(fn, f);
    SealedParts(fn, Join('-', segments));
    SplitJoinCount('-', segments);
    if CutDashFree(fn, f) {
      SplitJoin('-', segments);
    }
  }

  /** Round trip: disassembling a generated SKU gives its fields back, as far as it carries them, exactly
      when no cut text holds a dash; with one, the sixteenth segment makes the unpacking fail. */
  lemma SkuRoundTrip(fn: Functions, f: Fields)
    requires WellBehaved(fn)
    ensures var sku := GenerateSku(fn, f);
            match Disassemble(fn, sku)
            case Disassembled(p) => CutDashFree(fn, f) && Recovers(fn, f, p) && Seals(fn, sku, p.checksum)
            case ValueError => !CutDashFree(fn, f)
            case TooShort(_) => false
  {
    SkuPartsIff(fn, f);
    GeneratedIsAccepted(fn, f);
    if CutDashFree(fn, f) {
      var base := Join('-', Segments(fn, f));
      PartsReadBack(fn, f, Segments(fn, f) + [Checksum(fn, base)]);
      assert GenerateSku(fn, f) == base + ("-" + Checksum(fn, base));
    }
  }

  /** In particular for fields that hold no dash at all. */
  lemma DashFreeRoundTrip(fn: Functions, f: Fields)
    requires WellBehaved(fn) && DashFree(f)
    ensures var d := Disassemble(fn, GenerateSku(fn, f)); d.Disassembled? && Recovers(fn, f, d.parsed)
  {
    DashFreeFieldsCut(fn, f);
    SkuRoundTrip(fn, f);
  }
}
