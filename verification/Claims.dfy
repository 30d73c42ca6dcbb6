/** The bearer-claim lifecycle (backend/services/claimnote_service.py). */
module Claims {
  import opened Common
  import opened MapSums

  datatype ClaimState = Created | Transferred | Redeemed | Burned | Revoked

  /** A claim record. `asset` is None only for a merge of no claims. */
  datatype Claim = Claim(
    issuer: Name, asset: Option<Name>, denomination: int, owner: Name, nullifier: Name,
    replayNonce: nat, expiry: Option<real>, policy: Name, state: ClaimState, version: nat)

  /** What the service stores, and the ids drawn so far. */
  datatype Book = Book(claims: map<Id, Claim>, nullifiers: set<Name>, issued: set<Id>)

  /** The uuid and the nullifier drawn for one new claim. */
  datatype Draw = Draw(id: Id, nullifier: Name)

  predicate Live(state: ClaimState) {
    state == Created || state == Transferred
  }

  predicate Consumed(state: ClaimState) {
    state == Redeemed || state == Burned || state == Revoked
  }

  predicate Expired(c: Claim, now: real) {
    Truthy(c.expiry) && now > c.expiry.value
  }

  function Without(b: Book, id: Id): Book {
    if id in b.claims then b.(claims := b.claims - {id}, nullifiers := b.nullifiers - {b.claims[id].nullifier}) else b
  }

  function Put(b: Book, id: Id, c: Claim): Book {
    b.(claims := b.claims[id := c])
  }

  // ---------------------------------------------------------------------------
  // Operations: the new book and what is returned or raised
  // ---------------------------------------------------------------------------

  function NewClaim(issuer: Name, asset: Option<Name>, denomination: int, owner: Name, minutes: Option<real>,
                    policy: Name, draw: Draw, now: real): Claim {
    Claim(issuer, asset, denomination, owner, draw.nullifier, 0,
          if Truthy(minutes) then Some(now + minutes.value * 60.0) else None, policy, Created, 1)
  }

  function Create(b: Book, issuer: Name, asset: Option<Name>, denomination: int, owner: Name, minutes: Option<real>,
                  policy: Name, draw: Draw, now: real): (Book, Result<Claim>) {
    var drawn := b.(issued := b.issued + {draw.id});
    if draw.nullifier in b.nullifiers then (drawn, Err(NullifierCollision))
    else
      var c := NewClaim(issuer, asset, denomination, owner, minutes, policy, draw, now);
      (Put(drawn, draw.id, c).(nullifiers := b.nullifiers + {draw.nullifier}), Ok(c))
  }

  function Transfer(b: Book, id: Id, fromUser: Name, toUser: Name, now: real): (Book, Result<Claim>) {
    if id !in b.claims then (b, Err(ClaimNotFound)) else
    var c := b.claims[id];
    if c.state != Created then (b, Err(ClaimNotTransferable))
    else if c.owner != fromUser then (b, Err(NotOwner))
    else if Expired(c, now) then (b, Err(ClaimExpired))
    else
      var c' := c.(owner := toUser, state := Transferred, replayNonce := c.replayNonce + 1, version := c.version + 1);
      (Put(b, id, c'), Ok(c'))
  }

  function Total(amounts: seq<int>): int {
    if amounts == [] then 0 else amounts[0] + Total(amounts[1..])
  }

  /** Creating the parts of a split claim; the parent's absolute expiry is passed on as a minute count. */
  function CreateParts(b: Book, parent: Claim, amounts: seq<int>, draws: seq<Draw>, now: real)
    : (Book, Result<seq<Claim>>)
    requires |draws| == |amounts|
    decreases |amounts|
  {
    if amounts == [] then (b, Ok([])) else
    var (b1, first) := Create(b, parent.issuer, parent.asset, amounts[0], parent.owner, parent.expiry, parent.policy,
                              draws[0], now);
    if first.Err? then (b1, Err(first.error)) else
    var (b2, rest) := CreateParts(b1, parent, amounts[1..], draws[1..], now);
    After([first.value], (b2, rest))
  }

  /** The outcome of the remaining parts, with the parts already made in front. */
  function After(done: seq<Claim>, outcome: (Book, Result<seq<Claim>>)): (Book, Result<seq<Claim>>) {
    (outcome.0, if outcome.1.Err? then outcome.1 else Ok(done + outcome.1.value))
  }

  lemma AfterAfter(done: seq<Claim>, c: Claim, outcome: (Book, Result<seq<Claim>>))
    ensures After(done, After([c], outcome)) == After(done + [c], outcome)
    ensures After([], outcome) == outcome
  {
    if outcome.1.Ok? {
      assert done + ([c] + outcome.1.value) == (done + [c]) + outcome.1.value;
      assert [] + outcome.1.value == outcome.1.value;
    }
  }

  function Split(b: Book, id: Id, amounts: seq<int>, draws: seq<Draw>, now: real): (Book, Result<seq<Claim>>)
    requires |draws| == |amounts|
  {
    if id !in b.claims || b.claims[id].state != Created then (b, Err(InvalidClaim))
    else if Total(amounts) != b.claims[id].denomination then (b, Err(SplitAmountsMustSumToDenomination))
    else CreateParts(Without(b, id), b.claims[id], amounts, draws, now)
  }

  /** Python's truth of an asset name: None and the empty text are false. */
  predicate Named(asset: Option<Name>) {
    asset.Some? && asset.value != Name("")
  }

  /** Deleting the claims to merge, with the running total and the asset of the last one. */
  function Absorb(b: Book, ids: seq<Id>, total: int, asset: Option<Name>): (Book, Result<(int, Option<Name>)>)
    decreases |ids|
  {
    if ids == [] then (b, Ok((total, asset)))
    else if ids[0] !in b.claims || b.claims[ids[0]].state != Created then (b, Err(InvalidClaim))
    else if Named(asset) && b.claims[ids[0]].asset != asset then (b, Err(AssetTypeMismatch))
    else Absorb(Without(b, ids[0]), ids[1..], total + b.claims[ids[0]].denomination, b.claims[ids[0]].asset)
  }

  function Merge(b: Book, ids: seq<Id>, newOwner: Name, draw: Draw, now: real): (Book, Result<Claim>) {
    var (b1, merged) := Absorb(b, ids, 0, None);
    if merged.Err? then (b1, Err(merged.error))
    else Create(b1, Name("system"), merged.value.1, merged.value.0, newOwner, None, Name("immediate"), draw, now)
  }

  function Burn(b: Book, id: Id): (Book, Result<Claim>) {
    if id !in b.claims then (b, Err(ClaimNotFound)) else
    var c := b.claims[id].(state := Burned);
    (Put(b, id, c), Ok(c))
  }

  function Revoke(b: Book, id: Id, issuer: Name): (Book, Result<Claim>) {
    if id !in b.claims then (b, Err(ClaimNotFound))
    else if b.claims[id].issuer != issuer then (b, Err(OnlyIssuerCanRevoke))
    else if Consumed(b.claims[id].state) then (b, Err(ClaimAlreadyConsumed))
    else
      var c := b.claims[id].(state := Revoked);
      (Put(b, id, c), Ok(c))
  }

  // ---------------------------------------------------------------------------
  // The service
  // ---------------------------------------------------------------------------

  class ClaimNoteService {
    var claims: map<Id, Claim>
    var nullifiers: set<Name>
    ghost var issued: set<Id>

    ghost function Model(): Book
      reads this
    {
      Book(claims, nullifiers, issued)
    }

    constructor ()
      ensures Model() == Book(map[], {}, {})
    {
      claims, nullifiers, issued := map[], {}, {};
    }

    method CreateClaim(issuer: Name, asset: Option<Name>, denomination: int, owner: Name, minutes: Option<real>,
                       policy: Name, draw: Draw, now: real) returns (r: Result<Claim>)
      modifies this
      ensures (Model(), r) == Create(old(Model()), issuer, asset, denomination, owner, minutes, policy, draw, now)
    {
      issued := issued + {draw.id};
      if draw.nullifier in nullifiers {
        return Err(NullifierCollision);
      }
      nullifiers := nullifiers + {draw.nullifier};
      var expiresAt: Option<real> := None;
      if Truthy(minutes) {
        expiresAt := Some(now + minutes.value * 60.0);
      }
      var claim := Claim(issuer, asset, denomination, owner, draw.nullifier, 0, expiresAt, policy, Created, 1);
      claims := claims[draw.id := claim];
      return Ok(claim);
    }

    method TransferClaim(id: Id, fromUser: Name, toUser: Name, now: real) returns (r: Result<Claim>)
      modifies this
      ensures (Model(), r) == Transfer(old(Model()), id, fromUser, toUser, now)
    {
      if id !in claims {
        return Err(ClaimNotFound);
      }
      var claim := claims[id];
      if claim.state != Created {
        return Err(ClaimNotTransferable);
      }
      if claim.owner != fromUser {
        return Err(NotOwner);
      }
      if Truthy(claim.expiry) && now > claim.expiry.value {
        return Err(ClaimExpired);
      }
      claim := claim.(owner := toUser, state := Transferred);
      claim := claim.(replayNonce := claim.replayNonce + 1, version := claim.version + 1);
      claims := claims[id := claim];
      return Ok(claim);
    }

    method SplitClaim(id: Id, amounts: seq<int>, draws: seq<Draw>, now: real) returns (r: Result<seq<Claim>>)
      requires |draws| == |amounts|
      modifies this
      ensures (Model(), r) == Split(old(Model()), id, amounts, draws, now)
    {
      if id !in claims || claims[id].state != Created {
        return Err(InvalidClaim);
      }
      var claim := claims[id];
      var sum := 0;
      for i := 0 to |amounts|
        invariant Total(amounts) == sum + Total(amounts[i..])
      {
        assert amounts[i..][1..] == amounts[i + 1..];
        sum := sum + amounts[i];
      }
      if sum != claim.denomination {
        return Err(SplitAmountsMustSumToDenomination);
      }
      claims := claims - {id};
      nullifiers := nullifiers - {claim.nullifier};
      ghost var whole := CreateParts(Model(), claim, amounts, draws, now);
      var parts := [];
      AfterAfter([], claim, whole);
      assert amounts[0..] == amounts && draws[0..] == draws;
      for i := 0 to |amounts|
        invariant whole == After(parts, CreateParts(Model(), claim, amounts[i..], draws[i..], now))
      {
        assert amounts[i..][1..] == amounts[i + 1..] && draws[i..][1..] == draws[i + 1..];
        var part := CreateClaim(claim.issuer, claim.asset, amounts[i], claim.owner, claim.expiry, claim.policy,
                                draws[i], now);
        if part.Err? {
          return Err(part.error);
        }
        AfterAfter(parts, part.value, CreateParts(Model(), claim, amounts[i + 1..], draws[i + 1..], now));
        parts := parts + [part.value];
      }
      assert parts + [] == parts;
      return Ok(parts);
    }

    method MergeClaims(ids: seq<Id>, newOwner: Name, draw: Draw, now: real) returns (r: Result<Claim>)
      modifies this
      ensures (Model(), r) == Merge(old(Model()), ids, newOwner, draw, now)
    {
      var total, asset: Option<Name> := 0, None;
      for i := 0 to |ids|
        invariant Absorb(old(Model()), ids, 0, None) == Absorb(Model(), ids[i..], total, asset)
      {
        assert ids[i..][1..] == ids[i + 1..];
        if ids[i] !in claims || claims[ids[i]].state != Created {
          return Err(InvalidClaim);
        }
        var c := claims[ids[i]];
        if Named(asset) && c.asset != asset {
          return Err(AssetTypeMismatch);
        }
        asset := c.asset;
        total := total + c.denomination;
        claims := claims - {ids[i]};
        nullifiers := nullifiers - {c.nullifier};
      }
      r := CreateClaim(Name("system"), asset, total, newOwner, None, Name("immediate"), draw, now);
    }

    method BurnClaim(id: Id) returns (r: Result<Claim>)
      modifies this
      ensures (Model(), r) == Burn(old(Model()), id)
    {
      if id !in claims {
        return Err(ClaimNotFound);
      }
      claims := claims[id := claims[id].(state := Burned)];
      return Ok(claims[id]);
    }

    method RevokeClaim(id: Id, issuer: Name) returns (r: Result<Claim>)
      modifies this
      ensures (Model(), r) == Revoke(old(Model()), id, issuer)
    {
      if id !in claims {
        return Err(ClaimNotFound);
      }
      if claims[id].issuer != issuer {
        return Err(OnlyIssuerCanRevoke);
      }
      if Consumed(claims[id].state) {
        return Err(ClaimAlreadyConsumed);
      }
      claims := claims[id := claims[id].(state := Revoked)];
      return Ok(claims[id]);
    }
  }

  // ---------------------------------------------------------------------------
  // Nullifiers
  // ---------------------------------------------------------------------------

  /** The nullifier set is exactly the nullifiers of the stored claims, and no two claims share one. */
  ghost predicate Consistent(b: Book) {
    && b.claims.Keys <= b.issued
    && b.nullifiers == (set id | id in b.claims :: b.claims[id].nullifier)
    && forall i, j :: i in b.claims && j in b.claims && i != j ==> b.claims[i].nullifier != b.claims[j].nullifier
  }

  lemma PutConsistent(b: Book, id: Id, c: Claim)
    requires Consistent(b) && id in b.claims && c.nullifier == b.claims[id].nullifier
    ensures Consistent(Put(b, id, c))
  {
    var b' := Put(b, id, c);
    forall j | j in b.claims
      ensures b'.claims[j].nullifier == b.claims[j].nullifier
    {
    }
    forall n | n in b.nullifiers
      ensures n in (set j | j in b'.claims :: b'.claims[j].nullifier)
    {
      var j :| j in b.claims && b.claims[j].nullifier == n;
      assert j in b'.claims;
    }
  }

  lemma WithoutConsistent(b: Book, id: Id)
    requires Consistent(b)
    ensures Consistent(Without(b, id))
  {
    if id in b.claims {
      var b' := Without(b, id);
      forall n | n in b'.nullifiers
        ensures n in (set j | j in b'.claims :: b'.claims[j].nullifier)
      {
        var j :| j in b.claims && b.claims[j].nullifier == n;
        assert j in b'.claims;
      }
    }
  }

  lemma CreateConsistent(b: Book, issuer: Name, asset: Option<Name>, denomination: int, owner: Name,
                         minutes: Option<real>, policy: Name, draw: Draw, now: real)
    requires Consistent(b) && draw.id !in b.issued
    ensures Consistent(Create(b, issuer, asset, denomination, owner, minutes, policy, draw, now).0)
  {
    var b' := Create(b, issuer, asset, denomination, owner, minutes, policy, draw, now).0;
    if draw.nullifier !in b.nullifiers {
      forall n | n in b'.nullifiers
        ensures n in (set j | j in b'.claims :: b'.claims[j].nullifier)
      {
        if n == draw.nullifier {
          assert b'.claims[draw.id].nullifier == n;
        } else {
          var j :| j in b.claims && b.claims[j].nullifier == n;
          assert b'.claims[j].nullifier == n;
        }
      }
    }
  }

  /** The ids drawn for a split are new and different. */
  ghost predicate FreshDraws(b: Book, draws: seq<Draw>) {
    && (forall i :: 0 <= i < |draws| ==> draws[i].id !in b.issued)
    && (forall i, j :: 0 <= i < j < |draws| ==> draws[i].id != draws[j].id)
  }

  lemma {:induction false} CreatePartsConsistent(b: Book, parent: Claim, amounts: seq<int>, draws: seq<Draw>, now: real)
    requires |draws| == |amounts| && Consistent(b) && FreshDraws(b, draws)
    ensures Consistent(CreateParts(b, parent, amounts, draws, now).0)
    decreases |amounts|
  {
    if amounts != [] {
      var (b1, first) := Create(b, parent.issuer, parent.asset, amounts[0], parent.owner, parent.expiry, parent.policy,
                                draws[0], now);
      CreateConsistent(b, parent.issuer, parent.asset, amounts[0], parent.owner, parent.expiry, parent.policy,
                       draws[0], now);
      CreatePartsConsistent(b1, parent, amounts[1..], draws[1..], now);
    }
  }

  lemma {:induction false} AbsorbConsistent(b: Book, ids: seq<Id>, total: int, asset: Option<Name>)
    requires Consistent(b)
    ensures Consistent(Absorb(b, ids, total, asset).0)
    ensures Absorb(b, ids, total, asset).0.issued == b.issued
    decreases |ids|
  {
    if ids != [] && ids[0] in b.claims {
      WithoutConsistent(b, ids[0]);
      AbsorbConsistent(Without(b, ids[0]), ids[1..], total + b.claims[ids[0]].denomination, b.claims[ids[0]].asset);
    }
  }

  // ---------------------------------------------------------------------------
  // Runs
  // ---------------------------------------------------------------------------

  datatype Op =
    | OpCreate(issuer: Name, asset: Name, denomination: int, owner: Name, minutes: Option<real>, policy: Name,
               draw: Draw, now: real)
    | OpTransfer(id: Id, fromUser: Name, toUser: Name, now: real)
    | OpSplit(id: Id, amounts: seq<int>, draws: seq<Draw>, now: real)
    | OpMerge(ids: seq<Id>, newOwner: Name, draw: Draw, now: real)
    | OpBurn(id: Id)
    | OpRevoke(id: Id, issuer: Name)

  /** uuid4 never repeats a value. */
  ghost predicate Fresh(b: Book, op: Op) {
    match op
    case OpCreate(_, _, _, _, _, _, draw, _) => draw.id !in b.issued
    case OpSplit(_, amounts, draws, _) => |draws| == |amounts| && FreshDraws(b, draws)
    case OpMerge(_, _, draw, _) => draw.id !in b.issued
    case _ => true
  }

  ghost function Step(b: Book, op: Op): Book
    requires Fresh(b, op)
  {
    match op
    case OpCreate(issuer, asset, denomination, owner, minutes, policy, draw, now) =>
      Create(b, issuer, Some(asset), denomination, owner, minutes, policy, draw, now).0
    case OpTransfer(id, fromUser, toUser, now) => Transfer(b, id, fromUser, toUser, now).0
    case OpSplit(id, amounts, draws, now) => Split(b, id, amounts, draws, now).0
    case OpMerge(ids, newOwner, draw, now) => Merge(b, ids, newOwner, draw, now).0
    case OpBurn(id) => Burn(b, id).0
    case OpRevoke(id, issuer) => Revoke(b, id, issuer).0
  }

  /** Every operation, failed ones included, keeps the nullifier set exact. */
  lemma StepConsistent(b: Book, op: Op)
    requires Consistent(b) && Fresh(b, op)
    ensures Consistent(Step(b, op))
  {
    match op
    case OpCreate(issuer, asset, denomination, owner, minutes, policy, draw, now) =>
      CreateConsistent(b, issuer, Some(asset), denomination, owner, minutes, policy, draw, now);
    case OpTransfer(id, _, toUser, _) =>
      if id in b.claims {
        var c := b.claims[id];
        PutConsistent(b, id, c.(owner := toUser, state := Transferred, replayNonce := c.replayNonce + 1,
                                version := c.version + 1));
      }
    case OpSplit(id, amounts, draws, now) =>
      WithoutConsistent(b, id);
      if id in b.claims {
        CreatePartsConsistent(Without(b, id), b.claims[id], amounts, draws, now);
      }
    case OpMerge(ids, newOwner, draw, now) =>
      AbsorbConsistent(b, ids, 0, None);
      var (b1, merged) := Absorb(b, ids, 0, None);
      if merged.Ok? {
        CreateConsistent(b1, Name("system"), merged.value.1, merged.value.0, newOwner, None, Name("immediate"), draw,
                         now);
      }
    case OpBurn(id) =>
      if id in b.claims {
        PutConsistent(b, id, b.claims[id].(state := Burned));
      }
    case OpRevoke(id, _) =>
      if id in b.claims {
        PutConsistent(b, id, b.claims[id].(state := Revoked));
      }
  }

  ghost predicate IsRun(books: seq<Book>, ops: seq<Op>) {
    && |books| == |ops| + 1
    && books[0] == Book(map[], {}, {})
    && forall i :: 0 <= i < |ops| ==> Fresh(books[i], ops[i]) && books[i + 1] == Step(books[i], ops[i])
  }

  /** In every reachable state the nullifier set is exact. */
  lemma {:induction false} RunConsistent(books: seq<Book>, ops: seq<Op>, n: nat)
    requires IsRun(books, ops) && n <= |ops|
    ensures Consistent(books[n])
  {
    if n > 0 {
      RunConsistent(books, ops, n - 1);
      StepConsistent(books[n - 1], ops[n - 1]);
    }
  }

  // ---------------------------------------------------------------------------
  // Conservation of value
  // ---------------------------------------------------------------------------

  function LiveAmount(c: Claim, asset: Option<Name>): int {
    if Live(c.state) && c.asset == asset then c.denomination else 0
  }

  function LiveIn(asset: Option<Name>): Claim -> int {
    (c: Claim) => LiveAmount(c, asset)
  }

  /** The total denomination of the live claims of an asset. */
  ghost function Value(b: Book, asset: Option<Name>): int {
    Sum(b.claims, LiveIn(asset))
  }

  lemma PutValue(b: Book, id: Id, c: Claim, asset: Option<Name>)
    requires id in b.claims
    ensures Value(Put(b, id, c), asset) == Value(b, asset) - LiveAmount(b.claims[id], asset) + LiveAmount(c, asset)
  {
    SumReplace(b.claims, LiveIn(asset), id, c);
  }

  lemma WithoutValue(b: Book, id: Id, asset: Option<Name>)
    requires id in b.claims
    ensures Value(Without(b, id), asset) == Value(b, asset) - LiveAmount(b.claims[id], asset)
  {
    SumTake(b.claims, LiveIn(asset), id);
  }

  /** Value grows by creation alone, by the denomination, in the created asset only. */
  lemma CreateValue(b: Book, issuer: Name, asset: Option<Name>, denomination: int, owner: Name, minutes: Option<real>,
                    policy: Name, draw: Draw, now: real, a: Option<Name>)
    requires Consistent(b) && draw.id !in b.issued
    ensures var (b', r) := Create(b, issuer, asset, denomination, owner, minutes, policy, draw, now);
            Value(b', a) == Value(b, a) + (if r.Ok? && a == asset then denomination else 0)
  {
    if draw.nullifier !in b.nullifiers {
      SumInsert(b.claims, LiveIn(a), draw.id, NewClaim(issuer, asset, denomination, owner, minutes, policy, draw, now));
    }
  }

  /** A transfer keeps every asset's value, and the failing one keeps the book. */
  lemma TransferValue(b: Book, id: Id, fromUser: Name, toUser: Name, now: real, a: Option<Name>)
    ensures Value(Transfer(b, id, fromUser, toUser, now).0, a) == Value(b, a)
  {
    var (b', r) := Transfer(b, id, fromUser, toUser, now);
    if r.Ok? {
      PutValue(b, id, r.value, a);
    }
  }

  /** A draw whose nullifier is already in use, by a stored claim or by an earlier draw. */
  ghost predicate CollidesAt(nullifiers: set<Name>, draws: seq<Draw>, j: nat)
    requires j < |draws|
  {
    draws[j].nullifier in nullifiers || exists i :: 0 <= i < j && draws[i].nullifier == draws[j].nullifier
  }

  /** How many parts are created before a nullifier collides. */
  function PartsMade(nullifiers: set<Name>, draws: seq<Draw>): (k: nat)
    ensures k <= |draws|
    decreases |draws|
  {
    if draws == [] || draws[0].nullifier in nullifiers then 0
    else 1 + PartsMade(nullifiers + {draws[0].nullifier}, draws[1..])
  }

  lemma CollidesLater(nullifiers: set<Name>, draws: seq<Draw>, j: nat)
    requires 0 < j < |draws|
    ensures CollidesAt(nullifiers + {draws[0].nullifier}, draws[1..], j - 1) <==> CollidesAt(nullifiers, draws, j)
  {
    if i :| 0 <= i < j && draws[i].nullifier == draws[j].nullifier {
      assert i > 0 ==> draws[1..][i - 1] == draws[i];
    }
    assert forall i :: 0 <= i < j - 1 ==> draws[1..][i] == draws[i + 1];
  }

  /** The first part that fails is the first whose nullifier collides. */
  lemma {:induction false} PartsMadeIsFirstCollision(nullifiers: set<Name>, draws: seq<Draw>, j: nat)
    requires j < |draws|
    ensures var k := PartsMade(nullifiers, draws);
            && (j < k ==> !CollidesAt(nullifiers, draws, j))
            && (j == k ==> CollidesAt(nullifiers, draws, j))
    decreases |draws|
  {
    if j > 0 && draws[0].nullifier !in nullifiers {
      PartsMadeIsFirstCollision(nullifiers + {draws[0].nullifier}, draws[1..], j - 1);
      CollidesLater(nullifiers, draws, j);
    }
  }

  lemma {:induction false} TotalSplits(amounts: seq<int>, k: nat)
    requires k <= |amounts|
    ensures Total(amounts) == Total(amounts[..k]) + Total(amounts[k..])
  {
    if k > 0 {
      TotalSplits(amounts[1..], k - 1);
      assert amounts[..k][1..] == amounts[1..][..k - 1] && amounts[1..][k - 1..] == amounts[k..];
    } else {
      assert amounts[..0] == [] && amounts[0..] == amounts;
    }
  }

  /** Creating parts adds the amounts of those made, whether or not the rest then fails. */
  lemma {:induction false} CreatePartsValue(b: Book, parent: Claim, amounts: seq<int>, draws: seq<Draw>, now: real,
                                            a: Option<Name>)
    requires |draws| == |amounts| && Consistent(b) && FreshDraws(b, draws)
    ensures var (b', r), k := CreateParts(b, parent, amounts, draws, now), PartsMade(b.nullifiers, draws);
            && (r.Ok? <==> k == |draws|)
            && Value(b', a) == Value(b, a) + (if a == parent.asset then Total(amounts[..k]) else 0)
    decreases |amounts|
  {
    if amounts != [] {
      CreateConsistent(b, parent.issuer, parent.asset, amounts[0], parent.owner, parent.expiry, parent.policy,
                       draws[0], now);
      CreateValue(b, parent.issuer, parent.asset, amounts[0], parent.owner, parent.expiry, parent.policy, draws[0],
                  now, a);
      if draws[0].nullifier !in b.nullifiers {
        var b1 := Create(b, parent.issuer, parent.asset, amounts[0], parent.owner, parent.expiry, parent.policy,
                         draws[0], now).0;
        CreatePartsValue(b1, parent, amounts[1..], draws[1..], now, a);
        var k := PartsMade(b1.nullifiers, draws[1..]);
        assert amounts[..k + 1][1..] == amounts[1..][..k];
      }
    }
  }

  /** What a split loses: nothing when it is refused, and otherwise the amounts from the first
      collision on. */
  ghost function SplitLoss(b: Book, id: Id, amounts: seq<int>, draws: seq<Draw>, a: Option<Name>): int
    requires |draws| == |amounts|
  {
    if Splittable(b, id, amounts) && a == b.claims[id].asset
    then Total(amounts[PartsMade(Without(b, id).nullifiers, draws)..]) else 0
  }

  /** The split passes its checks, and so deletes the claim. */
  predicate Splittable(b: Book, id: Id, amounts: seq<int>) {
    id in b.claims && b.claims[id].state == Created && Total(amounts) == b.claims[id].denomination
  }

  /** A split takes out of the parent's asset what it loses, and nothing else; a successful one loses
      nothing. */
  lemma SplitMoves(b: Book, id: Id, amounts: seq<int>, draws: seq<Draw>, now: real, a: Option<Name>)
    requires |draws| == |amounts| && Consistent(b) && FreshDraws(b, draws)
    ensures var (b', r) := Split(b, id, amounts, draws, now);
            && Value(b', a) == Value(b, a) - SplitLoss(b, id, amounts, draws, a)
            && (r.Ok? <==> Splittable(b, id, amounts) && PartsMade(Without(b, id).nullifiers, draws) == |draws|)
            && (r.Ok? ==> SplitLoss(b, id, amounts, draws, a) == 0)
  {
    if Splittable(b, id, amounts) {
      WithoutConsistent(b, id);
      WithoutValue(b, id, a);
      CreatePartsValue(Without(b, id), b.claims[id], amounts, draws, now, a);
      TotalSplits(amounts, PartsMade(Without(b, id).nullifiers, draws));
    }
  }

  /** A successful split into any number of parts keeps every asset's value. */
  lemma SplitValue(b: Book, id: Id, amounts: seq<int>, draws: seq<Draw>, now: real, a: Option<Name>)
    requires |draws| == |amounts| && Consistent(b) && FreshDraws(b, draws)
    requires Split(b, id, amounts, draws, now).1.Ok?
    ensures Value(Split(b, id, amounts, draws, now).0, a) == Value(b, a)
  {
    SplitMoves(b, id, amounts, draws, now, a);
  }

  /** A claim made at a given time to last some minutes; no minutes, or zero, is for ever. */
  ghost predicate Lasts(c: Claim, minutes: Option<real>, now: real) {
    c.expiry == if minutes == None || minutes == Some(0.0) then None else Some(now + 60.0 * minutes.value)
  }

  /** A claim as it is stored first. */
  predicate Born(c: Claim) {
    c.state == Created && c.replayNonce == 0 && c.version == 1
  }

  /** One part of a split: its own amount and nullifier, and all else from the parent, whose expiry is
      taken for a number of minutes. */
  ghost predicate IsPart(parent: Claim, amount: int, draw: Draw, now: real, c: Claim) {
    && c.denomination == amount && c.nullifier == draw.nullifier && Lasts(c, parent.expiry, now)
    && c.issuer == parent.issuer && c.owner == parent.owner && c.asset == parent.asset && c.policy == parent.policy
  }

  /** The parts of a split: one per amount, in order, each stored under its own id. */
  lemma {:induction false} SplitParts(b: Book, parent: Claim, amounts: seq<int>, draws: seq<Draw>, now: real, i: nat)
    requires |draws| == |amounts| && FreshDraws(b, draws) && i < |amounts|
    requires CreateParts(b, parent, amounts, draws, now).1.Ok?
    ensures var (b', r) := CreateParts(b, parent, amounts, draws, now);
            && |r.value| == |amounts|
            && draws[i].id in b'.claims && b'.claims[draws[i].id] == r.value[i]
            && Born(r.value[i]) && IsPart(parent, amounts[i], draws[i], now, r.value[i])
    decreases |amounts|
  {
    var b1 := Create(b, parent.issuer, parent.asset, amounts[0], parent.owner, parent.expiry, parent.policy, draws[0],
                     now).0;
    if i > 0 {
      SplitParts(b1, parent, amounts[1..], draws[1..], now, i - 1);
    } else {
      PartsKeep(b1, parent, amounts[1..], draws[1..], now, draws[0].id);
    }
  }

  /** Every claim that appears while parts are created, also when they then fail, is one of the parts. */
  lemma {:induction false} PartsAppear(b: Book, parent: Claim, amounts: seq<int>, draws: seq<Draw>, now: real, id: Id)
    returns (i: nat)
    requires |draws| == |amounts| && FreshDraws(b, draws)
    requires id !in b.claims && id in CreateParts(b, parent, amounts, draws, now).0.claims
    ensures i < |amounts| && draws[i].id == id
    ensures var c := CreateParts(b, parent, amounts, draws, now).0.claims[id];
            Born(c) && IsPart(parent, amounts[i], draws[i], now, c)
    decreases |amounts|
  {
    var b1 := Create(b, parent.issuer, parent.asset, amounts[0], parent.owner, parent.expiry, parent.policy, draws[0],
                     now).0;
    if id in b1.claims {
      PartsKeep(b1, parent, amounts[1..], draws[1..], now, id);
      i := 0;
    } else {
      i := PartsAppear(b1, parent, amounts[1..], draws[1..], now, id);
      i := i + 1;
    }
  }

  /** Creating parts never touches a claim under another id. */
  lemma {:induction false} PartsKeep(b: Book, parent: Claim, amounts: seq<int>, draws: seq<Draw>, now: real, id: Id)
    requires |draws| == |amounts| && id in b.claims && forall i :: 0 <= i < |draws| ==> draws[i].id != id
    ensures var (b', r) := CreateParts(b, parent, amounts, draws, now);
            && id in b'.claims && b'.claims[id] == b.claims[id]
            && (r.Ok? ==> |r.value| == |amounts|)
    decreases |amounts|
  {
    if amounts != [] {
      var b1 := Create(b, parent.issuer, parent.asset, amounts[0], parent.owner, parent.expiry, parent.policy,
                       draws[0], now).0;
      PartsKeep(b1, parent, amounts[1..], draws[1..], now, id);
    }
  }

  // ---------------------------------------------------------------------------
  // Merging
  // ---------------------------------------------------------------------------

  /** The denominations of an asset among the claims named by ids. */
  function DenominationsOf(claims: map<Id, Claim>, ids: seq<Id>, asset: Option<Name>): int {
    if ids == [] then 0
    else (if ids[0] in claims && claims[ids[0]].asset == asset then claims[ids[0]].denomination else 0)
         + DenominationsOf(claims, ids[1..], asset)
  }

  function Denominations(claims: map<Id, Claim>, ids: seq<Id>): int {
    if ids == [] then 0
    else (if ids[0] in claims then claims[ids[0]].denomination else 0) + Denominations(claims, ids[1..])
  }

  lemma {:induction false} DenominationsWithout(claims: map<Id, Claim>, ids: seq<Id>, id: Id, asset: Option<Name>)
    requires id !in ids
    ensures DenominationsOf(claims - {id}, ids, asset) == DenominationsOf(claims, ids, asset)
    ensures Denominations(claims - {id}, ids) == Denominations(claims, ids)
  {
    if ids != [] {
      DenominationsWithout(claims, ids[1..], id, asset);
    }
  }

  /** A merge cannot take the claim at position i: it is not stored and created, was named before, or
      is of another asset than the one before it, which has a name. */
  ghost predicate StopsAt(claims: map<Id, Claim>, ids: seq<Id>, asset: Option<Name>, i: nat)
    requires i < |ids|
  {
    || ids[i] !in claims || claims[ids[i]].state != Created || ids[i] in ids[..i]
    || (i == 0 && Named(asset) && claims[ids[i]].asset != asset)
    || (i > 0 && ids[i - 1] in claims && Named(claims[ids[i - 1]].asset)
        && claims[ids[i]].asset != claims[ids[i - 1]].asset)
  }

  /** How many claims a merge deletes before it is done with them or stops. */
  function Absorbed(b: Book, ids: seq<Id>, asset: Option<Name>): (k: nat)
    ensures k <= |ids|
    decreases |ids|
  {
    if ids == [] || ids[0] !in b.claims || b.claims[ids[0]].state != Created then 0
    else if Named(asset) && b.claims[ids[0]].asset != asset then 0
    else 1 + Absorbed(Without(b, ids[0]), ids[1..], b.claims[ids[0]].asset)
  }

  lemma StopsLater(claims: map<Id, Claim>, ids: seq<Id>, asset: Option<Name>, i: nat)
    requires 0 < i < |ids| && ids[0] in claims && (i > 1 ==> ids[i - 1] != ids[0])
    ensures StopsAt(claims - {ids[0]}, ids[1..], claims[ids[0]].asset, i - 1) <==> StopsAt(claims, ids, asset, i)
  {
    assert ids[i] in ids[..i] <==> ids[i] == ids[0] || ids[i] in ids[1..][..i - 1] by {
      assert ids[..i] == [ids[0]] + ids[1..][..i - 1];
    }
  }

  /** A merge stops at the first claim it cannot take. */
  lemma {:induction false} AbsorbedIsFirstStop(b: Book, ids: seq<Id>, asset: Option<Name>, i: nat)
    requires i < |ids|
    ensures var k := Absorbed(b, ids, asset);
            (i < k ==> !StopsAt(b.claims, ids, asset, i)) && (i == k ==> StopsAt(b.claims, ids, asset, i))
    decreases |ids|
  {
    if 0 < i <= Absorbed(b, ids, asset) {
      var b1, next := Without(b, ids[0]), b.claims[ids[0]].asset;
      AbsorbedIsFirstStop(b1, ids[1..], next, i - 1);
      if i > 1 {
        AbsorbedIsFirstStop(b1, ids[1..], next, i - 2);
      }
      StopsLater(b.claims, ids, asset, i);
    }
  }

  lemma {:induction false} AbsorbedStored(b: Book, ids: seq<Id>, asset: Option<Name>, i: nat)
    requires i < Absorbed(b, ids, asset)
    ensures ids[i] in b.claims && b.claims[ids[i]].state == Created
    decreases |ids|
  {
    if i > 0 {
      AbsorbedStored(Without(b, ids[0]), ids[1..], b.claims[ids[0]].asset, i - 1);
    }
  }

  lemma {:induction false} AbsorbedResult(b: Book, ids: seq<Id>, total: int, asset: Option<Name>)
    ensures Absorb(b, ids, total, asset).1.Ok? <==> Absorbed(b, ids, asset) == |ids|
    decreases |ids|
  {
    if Absorbed(b, ids, asset) > 0 {
      AbsorbedResult(Without(b, ids[0]), ids[1..], total + b.claims[ids[0]].denomination, b.claims[ids[0]].asset);
    }
  }

  /** The asset of the last claim to merge. */
  function MergeTarget(b: Book, ids: seq<Id>): Option<Name> {
    if ids != [] && ids[|ids| - 1] in b.claims then b.claims[ids[|ids| - 1]].asset else None
  }

  /** Each claim a merge deletes is taken out of its own asset, whether or not the merge then fails; the
      total is that of them all. */
  lemma {:induction false} AbsorbValue(b: Book, ids: seq<Id>, total: int, asset: Option<Name>, a: Option<Name>)
    ensures var (b', r), k := Absorb(b, ids, total, asset), Absorbed(b, ids, asset);
            && Value(b', a) == Value(b, a) - DenominationsOf(b.claims, ids[..k], a)
            && (r.Ok? ==> k == |ids| && r.value.0 == total + Denominations(b.claims, ids[..k])
                          && r.value.1 == (if ids == [] then asset else MergeTarget(b, ids)))
    decreases |ids|
  {
    var k := Absorbed(b, ids, asset);
    AllAbsorbedStored(b, ids, asset);
    if k == 0 {
      assert ids[..0] == [];
    } else {
      var c, b1 := b.claims[ids[0]], Without(b, ids[0]);
      AbsorbValue(b1, ids[1..], total + c.denomination, c.asset, a);
      WithoutValue(b, ids[0], a);
      AllAbsorbedStored(b1, ids[1..], c.asset);
      DenominationsWithout(b.claims, ids[1..][..k - 1], ids[0], a);
      assert ids[..k][0] == ids[0] && ids[..k][1..] == ids[1..][..k - 1];
    }
  }

  lemma AllAbsorbedStored(b: Book, ids: seq<Id>, asset: Option<Name>)
    ensures forall i :: 0 <= i < Absorbed(b, ids, asset) ==> ids[i] in b.claims && b.claims[ids[i]].state == Created
  {
    forall i | 0 <= i < Absorbed(b, ids, asset)
      ensures ids[i] in b.claims && b.claims[ids[i]].state == Created
    {
      AbsorbedStored(b, ids, asset, i);
    }
  }

  ghost predicate OneAsset(claims: map<Id, Claim>, ids: seq<Id>) {
    forall i :: 0 <= i < |ids| && ids[i] in claims && ids[|ids| - 1] in claims ==>
      claims[ids[i]].asset == claims[ids[|ids| - 1]].asset
  }

  lemma {:induction false} OneAssetDenominations(claims: map<Id, Claim>, ids: seq<Id>, asset: Option<Name>,
                                                 a: Option<Name>)
    requires forall i :: 0 <= i < |ids| ==> ids[i] in claims && claims[ids[i]].asset == asset
    ensures DenominationsOf(claims, ids, a) == if a == asset then Denominations(claims, ids) else 0
  {
    if ids != [] {
      OneAssetDenominations(claims, ids[1..], asset, a);
    }
  }

  lemma {:induction false} OtherAssetDenominations(claims: map<Id, Claim>, ids: seq<Id>, asset: Option<Name>, k: nat)
    requires forall i :: 0 <= i < |ids| ==> ids[i] in claims && claims[ids[i]].denomination > 0
    ensures DenominationsOf(claims, ids, asset) <= Denominations(claims, ids)
    ensures k < |ids| && claims[ids[k]].asset != asset ==>
            DenominationsOf(claims, ids, asset) < Denominations(claims, ids)
  {
    if ids != [] {
      OtherAssetDenominations(claims, ids[1..], asset, if k == 0 then 0 else k - 1);
    }
  }

  /** How a merge moves value: each claim it deletes leaves its own asset, also when it then fails; when
      it succeeds, it deleted them all, and the total arrives in the asset of the last one. */
  lemma {:induction false} MergeMoves(b: Book, ids: seq<Id>, newOwner: Name, draw: Draw, now: real, a: Option<Name>)
    requires Consistent(b) && draw.id !in b.issued
    ensures var (b', r), k := Merge(b, ids, newOwner, draw, now), Absorbed(b, ids, None);
            && (forall i :: 0 <= i < k ==> ids[i] in b.claims && b.claims[ids[i]].state == Created)
            && (r.Ok? <==> k == |ids| && draw.nullifier !in Absorb(b, ids, 0, None).0.nullifiers)
            && Value(b', a) == Value(b, a) - DenominationsOf(b.claims, ids[..k], a)
                               + (if r.Ok? && a == MergeTarget(b, ids) then Denominations(b.claims, ids[..k]) else 0)
  {
    var (b1, merged) := Absorb(b, ids, 0, None);
    AllAbsorbedStored(b, ids, None);
    AbsorbedResult(b, ids, 0, None);
    AbsorbValue(b, ids, 0, None, a);
    AbsorbConsistent(b, ids, 0, None);
    if merged.Ok? {
      CreateValue(b1, Name("system"), merged.value.1, merged.value.0, newOwner, None, Name("immediate"), draw, now, a);
    }
  }

  /** A successful merge takes all the named claims, and only moves value between assets. */
  lemma MergedMoves(b: Book, ids: seq<Id>, newOwner: Name, draw: Draw, now: real, a: Option<Name>)
    requires Consistent(b) && draw.id !in b.issued && Merge(b, ids, newOwner, draw, now).1.Ok?
    ensures forall i :: 0 <= i < |ids| ==> ids[i] in b.claims
    ensures Value(Merge(b, ids, newOwner, draw, now).0, a) == Value(b, a) + Conversion(b, ids, a)
  {
    MergeMoves(b, ids, newOwner, draw, now, a);
    assert ids[..|ids|] == ids;
  }

  /** What merging the claims brings into an asset: the total, into that of the last claim, less the
      claims of the asset itself. */
  function Conversion(b: Book, ids: seq<Id>, a: Option<Name>): int {
    (if a == MergeTarget(b, ids) then Denominations(b.claims, ids) else 0) - DenominationsOf(b.claims, ids, a)
  }

  /** A successful merge of claims of one asset keeps every asset's value. */
  lemma MergeValue(b: Book, ids: seq<Id>, newOwner: Name, draw: Draw, now: real, a: Option<Name>)
    requires Consistent(b) && draw.id !in b.issued && Merge(b, ids, newOwner, draw, now).1.Ok?
    requires OneAsset(b.claims, ids)
    ensures Value(Merge(b, ids, newOwner, draw, now).0, a) == Value(b, a)
  {
    MergedMoves(b, ids, newOwner, draw, now, a);
    if ids != [] {
      OneAssetDenominations(b.claims, ids, b.claims[ids[|ids| - 1]].asset, a);
    }
  }

  /** With positive denominations, that is the only way every asset's value is kept. */
  lemma MergeConservesIff(b: Book, ids: seq<Id>, newOwner: Name, draw: Draw, now: real)
    requires Consistent(b) && draw.id !in b.issued && Merge(b, ids, newOwner, draw, now).1.Ok?
    requires forall i :: 0 <= i < |ids| && ids[i] in b.claims ==> b.claims[ids[i]].denomination > 0
    ensures OneAsset(b.claims, ids) <==> forall a :: Value(Merge(b, ids, newOwner, draw, now).0, a) == Value(b, a)
  {
    if OneAsset(b.claims, ids) {
      forall a
        ensures Value(Merge(b, ids, newOwner, draw, now).0, a) == Value(b, a)
      {
        MergeValue(b, ids, newOwner, draw, now, a);
      }
    } else {
      var target := b.claims[ids[|ids| - 1]].asset;
      var k: nat :| k < |ids| && ids[k] in b.claims && b.claims[ids[k]].asset != target;
      MergedMoves(b, ids, newOwner, draw, now, target);
      OtherAssetDenominations(b.claims, ids, target, k);
      assert Value(Merge(b, ids, newOwner, draw, now).0, target) != Value(b, target);
    }
  }

  /** The mismatch check sees to one asset as soon as the first claim's asset has a name. */
  lemma {:induction false} AbsorbChecksAsset(b: Book, ids: seq<Id>, total: int, asset: Option<Name>, i: nat)
    requires Absorb(b, ids, total, asset).1.Ok? && Named(asset) && i < |ids|
    ensures ids[i] in b.claims && b.claims[ids[i]].asset == asset
    decreases |ids|
  {
    if i > 0 {
      AbsorbChecksAsset(Without(b, ids[0]), ids[1..], total + b.claims[ids[0]].denomination, b.claims[ids[0]].asset,
                        i - 1);
    }
  }

  lemma NamedMergeIsOneAsset(b: Book, ids: seq<Id>, newOwner: Name, draw: Draw, now: real)
    requires Merge(b, ids, newOwner, draw, now).1.Ok?
    requires ids != [] ==> ids[0] in b.claims && Named(b.claims[ids[0]].asset)
    ensures OneAsset(b.claims, ids)
  {
    forall i | 1 <= i < |ids|
      ensures ids[i] in b.claims && b.claims[ids[i]].asset == b.claims[ids[0]].asset
    {
      var c := b.claims[ids[0]];
      assert ids[1..][i - 1] == ids[i];
      AbsorbChecksAsset(Without(b, ids[0]), ids[1..], c.denomination, c.asset, i - 1);
    }
  }

  /** An unnamed asset in front slips past the check: five units turn into another asset. */
  lemma UnnamedAssetIsConverted(now: real)
    ensures var c1 := NewClaim(Name("i"), Some(Name("")), 5, Name("u"), None, Name("p"), Draw(1, Name("n1")), now);
            var c2 := NewClaim(Name("i"), Some(Name("btc")), 7, Name("u"), None, Name("p"), Draw(2, Name("n2")), now);
            var b := Book(map[1 := c1, 2 := c2], {Name("n1"), Name("n2")}, {1, 2});
            var (b', r) := Merge(b, [1, 2], Name("v"), Draw(3, Name("n3")), now);
            r.Ok? && r.value.denomination == 12 && r.value.asset == Some(Name("btc"))
  {
    var c1 := NewClaim(Name("i"), Some(Name("")), 5, Name("u"), None, Name("p"), Draw(1, Name("n1")), now);
    var c2 := NewClaim(Name("i"), Some(Name("btc")), 7, Name("u"), None, Name("p"), Draw(2, Name("n2")), now);
    var b := Book(map[1 := c1, 2 := c2], {Name("n1"), Name("n2")}, {1, 2});
    assert [1, 2][1..] == [2] && [2][1..] == [];
    var b1 := Without(b, 1);
    assert 2 in b1.claims && b1.claims[2] == c2;
    assert Absorb(b, [1, 2], 0, None) == Absorb(b1, [2], 5, c1.asset);
    assert Absorb(b1, [2], 5, c1.asset) == Absorb(Without(b1, 2), [], 12, c2.asset);
    assert Absorb(b, [1, 2], 0, None).1 == Ok((12, Some(Name("btc"))));
    assert Name("n1") !in Absorb(b, [1, 2], 0, None).0.nullifiers;
    assert Name("n3").text[1] != Name("n2").text[1] && Name("n3").text[1] != Name("n1").text[1];
  }

  /** Burning and revoking take out exactly the claim's own live value. */
  lemma BurnRevokeValue(b: Book, id: Id, issuer: Name, a: Option<Name>)
    requires id in b.claims
    ensures Value(Burn(b, id).0, a) == Value(b, a) - LiveAmount(b.claims[id], a)
    ensures Value(Revoke(b, id, issuer).0, a) ==
            Value(b, a) - (if Revoke(b, id, issuer).1.Ok? then LiveAmount(b.claims[id], a) else 0)
  {
    PutValue(b, id, b.claims[id].(state := Burned), a);
    PutValue(b, id, b.claims[id].(state := Revoked), a);
  }

  /** What one operation adds to an asset's value. */
  ghost function Added(b: Book, op: Op, a: Option<Name>): int
    requires Fresh(b, op)
  {
    if op.OpCreate? && Some(op.asset) == a && op.draw.nullifier !in b.nullifiers then op.denomination else 0
  }

  /** What one operation takes out of an asset's value on purpose. */
  ghost function Removed(b: Book, op: Op, a: Option<Name>): int
    requires Fresh(b, op)
  {
    match op
    case OpBurn(id) => if id in b.claims then LiveAmount(b.claims[id], a) else 0
    case OpRevoke(id, issuer) => if Revoke(b, id, issuer).1.Ok? then LiveAmount(b.claims[id], a) else 0
    case _ => 0
  }

  /** The operation raises an exception. */
  ghost predicate Fails(b: Book, op: Op)
    requires Fresh(b, op)
  {
    match op
    case OpCreate(_, _, _, _, _, _, draw, _) => draw.nullifier in b.nullifiers
    case OpTransfer(id, fromUser, toUser, now) => Transfer(b, id, fromUser, toUser, now).1.Err?
    case OpSplit(id, amounts, draws, now) => Split(b, id, amounts, draws, now).1.Err?
    case OpMerge(ids, newOwner, draw, now) => Merge(b, ids, newOwner, draw, now).1.Err?
    case OpBurn(id) => id !in b.claims
    case OpRevoke(id, issuer) => Revoke(b, id, issuer).1.Err?
  }

  /** What an asset loses to an operation that fails after deleting claims. */
  ghost function Lost(b: Book, op: Op, a: Option<Name>): int
    requires Fresh(b, op)
  {
    match op
    case OpSplit(id, amounts, draws, _) => SplitLoss(b, id, amounts, draws, a)
    case OpMerge(ids, _, _, _) =>
      if Fails(b, op) then DenominationsOf(b.claims, ids[..Absorbed(b, ids, None)], a) else 0
    case _ => 0
  }

  /** What a successful merge moves into an asset from others. */
  ghost function Converted(b: Book, op: Op, a: Option<Name>): int
    requires Fresh(b, op)
  {
    if op.OpMerge? && !Fails(b, op) then Conversion(b, op.ids, a) else 0
  }

  /** Every operation, failed ones included, changes an asset's value by exactly these four. */
  lemma StepValue(b: Book, op: Op, a: Option<Name>)
    requires Consistent(b) && Fresh(b, op)
    ensures Value(Step(b, op), a) ==
            Value(b, a) + Added(b, op, a) - Removed(b, op, a) - Lost(b, op, a) + Converted(b, op, a)
  {
    match op
    case OpCreate(issuer, asset, denomination, owner, minutes, policy, draw, now) =>
      CreateValue(b, issuer, Some(asset), denomination, owner, minutes, policy, draw, now, a);
    case OpTransfer(id, fromUser, toUser, now) => TransferValue(b, id, fromUser, toUser, now, a);
    case OpSplit(id, amounts, draws, now) => SplitMoves(b, id, amounts, draws, now, a);
    case OpMerge(ids, newOwner, draw, now) =>
      if Fails(b, op) {
        MergeMoves(b, ids, newOwner, draw, now, a);
      } else {
        MergedMoves(b, ids, newOwner, draw, now, a);
      }
    case OpBurn(id) =>
      if id in b.claims {
        BurnRevokeValue(b, id, Name(""), a);
      }
    case OpRevoke(id, issuer) =>
      if id in b.claims {
        BurnRevokeValue(b, id, issuer, a);
      }
  }

  /** The operation passed the point where it deletes its first claim: a split its checks, a merge the
      first of its claims. */
  predicate Committed(b: Book, op: Op) {
    match op
    case OpSplit(id, amounts, _, _) => Splittable(b, id, amounts)
    case OpMerge(ids, _, _, _) => ids != [] && ids[0] in b.claims && b.claims[ids[0]].state == Created
    case _ => false
  }

  /** The amounts of a split, and the claims to merge, are worth something. */
  predicate PositiveParts(b: Book, op: Op) {
    match op
    case OpSplit(_, amounts, _, _) => forall i :: 0 <= i < |amounts| ==> amounts[i] > 0
    case OpMerge(ids, _, _, _) => forall i :: 0 <= i < |ids| && ids[i] in b.claims ==> b.claims[ids[i]].denomination > 0
    case _ => true
  }

  lemma {:induction false} PositiveTotal(amounts: seq<int>)
    requires forall i :: 0 <= i < |amounts| ==> amounts[i] > 0
    ensures Total(amounts) >= 0 && (amounts != [] ==> Total(amounts) > 0)
  {
    if amounts != [] {
      PositiveTotal(amounts[1..]);
    }
  }

  lemma {:induction false} PositiveDenominations(claims: map<Id, Claim>, ids: seq<Id>, a: Option<Name>)
    requires forall i :: 0 <= i < |ids| && ids[i] in claims ==> claims[ids[i]].denomination > 0
    ensures DenominationsOf(claims, ids, a) >= 0
    ensures ids != [] && ids[0] in claims && claims[ids[0]].asset == a ==> DenominationsOf(claims, ids, a) > 0
  {
    if ids != [] {
      PositiveDenominations(claims, ids[1..], a);
    }
  }

  lemma SplitLosesIff(b: Book, op: Op)
    requires Consistent(b) && Fresh(b, op) && Fails(b, op) && PositiveParts(b, op) && op.OpSplit?
    ensures if Committed(b, op) then Lost(b, op, b.claims[op.id].asset) > 0 else forall a :: Lost(b, op, a) == 0
  {
    if Committed(b, op) {
      SplitMoves(b, op.id, op.amounts, op.draws, op.now, b.claims[op.id].asset);
      var k := PartsMade(Without(b, op.id).nullifiers, op.draws);
      PositiveTotal(op.amounts[k..]);
    }
  }

  lemma MergeLosesIff(b: Book, op: Op)
    requires Consistent(b) && Fresh(b, op) && Fails(b, op) && PositiveParts(b, op) && op.OpMerge?
    ensures if Committed(b, op) then Lost(b, op, b.claims[op.ids[0]].asset) > 0 else forall a :: Lost(b, op, a) == 0
  {
    var k := Absorbed(b, op.ids, None);
    assert k > 0 <==> Committed(b, op);
    if k > 0 {
      assert op.ids[..k][0] == op.ids[0];
      PositiveDenominations(b.claims, op.ids[..k], b.claims[op.ids[0]].asset);
    } else {
      assert op.ids[..k] == [];
    }
  }

  /** A failed operation keeps every asset's value exactly when it failed before deleting a claim. */
  lemma FailureKeepsIff(b: Book, op: Op)
    requires Consistent(b) && Fresh(b, op) && Fails(b, op) && PositiveParts(b, op)
    ensures (forall a :: Value(Step(b, op), a) == Value(b, a)) <==> !Committed(b, op)
  {
    forall a
      ensures Value(Step(b, op), a) == Value(b, a) - Lost(b, op, a)
    {
      StepValue(b, op, a);
    }
    if op.OpSplit? {
      SplitLosesIff(b, op);
      if Committed(b, op) {
        var a := b.claims[op.id].asset;
        assert Value(Step(b, op), a) != Value(b, a);
      }
    } else if op.OpMerge? {
      MergeLosesIff(b, op);
      if Committed(b, op) {
        var a := b.claims[op.ids[0]].asset;
        assert Value(Step(b, op), a) != Value(b, a);
      }
    }
  }

  ghost function AddedBy(books: seq<Book>, ops: seq<Op>, n: nat, a: Option<Name>): int
    requires IsRun(books, ops) && n <= |ops|
  {
    if n == 0 then 0 else AddedBy(books, ops, n - 1, a) + Added(books[n - 1], ops[n - 1], a)
  }

  ghost function RemovedBy(books: seq<Book>, ops: seq<Op>, n: nat, a: Option<Name>): int
    requires IsRun(books, ops) && n <= |ops|
  {
    if n == 0 then 0 else RemovedBy(books, ops, n - 1, a) + Removed(books[n - 1], ops[n - 1], a)
  }

  ghost function LostBy(books: seq<Book>, ops: seq<Op>, n: nat, a: Option<Name>): int
    requires IsRun(books, ops) && n <= |ops|
  {
    if n == 0 then 0 else LostBy(books, ops, n - 1, a) + Lost(books[n - 1], ops[n - 1], a)
  }

  ghost function ConvertedBy(books: seq<Book>, ops: seq<Op>, n: nat, a: Option<Name>): int
    requires IsRun(books, ops) && n <= |ops|
  {
    if n == 0 then 0 else ConvertedBy(books, ops, n - 1, a) + Converted(books[n - 1], ops[n - 1], a)
  }

  /** Conservation over every run: live value is what was created, less what was burned or revoked, less
      what failed splits and merges lost, plus what merges converted from other assets. */
  lemma {:induction false} RunValue(books: seq<Book>, ops: seq<Op>, n: nat, a: Option<Name>)
    requires IsRun(books, ops) && n <= |ops|
    ensures Value(books[n], a) ==
            AddedBy(books, ops, n, a) - RemovedBy(books, ops, n, a)
            - LostBy(books, ops, n, a) + ConvertedBy(books, ops, n, a)
  {
    if n > 0 {
      RunValue(books, ops, n - 1, a);
      RunConsistent(books, ops, n - 1);
      StepValue(books[n - 1], ops[n - 1], a);
    }
  }
}
