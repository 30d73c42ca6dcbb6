/** What the history of a claim can be: whose it was, how often it moved, and that ids are not reused. */
module ClaimHistory {
  import opened Common
  import Claims

  // ---------------------------------------------------------------------------
  // What a step of the claim book leaves alone
  // ---------------------------------------------------------------------------

  /** A burned claim stays; a claim under a used id keeps its denomination and asset; ids are never reused. */
  ghost predicate Evolves(b: Claims.Book, b': Claims.Book) {
    && b.issued <= b'.issued
    && (forall id :: id in b.claims && b.claims[id].state == Claims.Burned ==>
          id in b'.claims && b'.claims[id].state == Claims.Burned)
    && (forall id :: id in b.issued && id in b'.claims ==>
          && id in b.claims && b'.claims[id].denomination == b.claims[id].denomination
          && b'.claims[id].asset == b.claims[id].asset)
  }

  lemma CreateEvolves(b: Claims.Book, issuer: Name, asset: Option<Name>, denomination: int, owner: Name,
                      minutes: Option<real>, policy: Name, draw: Claims.Draw, now: real)
    requires Claims.Consistent(b) && draw.id !in b.issued
    ensures Evolves(b, Claims.Create(b, issuer, asset, denomination, owner, minutes, policy, draw, now).0)
  {
  }

  lemma {:induction false} CreatePartsEvolves(b: Claims.Book, parent: Claims.Claim, amounts: seq<int>,
                                              draws: seq<Claims.Draw>, now: real)
    requires |draws| == |amounts| && Claims.Consistent(b) && Claims.FreshDraws(b, draws)
    ensures Evolves(b, Claims.CreateParts(b, parent, amounts, draws, now).0)
    decreases |amounts|
  {
    if amounts != [] {
      var (b1, first) := Claims.Create(b, parent.issuer, parent.asset, amounts[0], parent.owner, parent.expiry,
                                       parent.policy, draws[0], now);
      CreateEvolves(b, parent.issuer, parent.asset, amounts[0], parent.owner, parent.expiry, parent.policy,
                    draws[0], now);
      Claims.CreateConsistent(b, parent.issuer, parent.asset, amounts[0], parent.owner, parent.expiry, parent.policy,
                              draws[0], now);
      CreatePartsEvolves(b1, parent, amounts[1..], draws[1..], now);
    }
  }

  lemma {:induction false} AbsorbEvolves(b: Claims.Book, ids: seq<Id>, total: int, asset: Option<Name>)
    ensures Evolves(b, Claims.Absorb(b, ids, total, asset).0)
    decreases |ids|
  {
    if ids != [] && ids[0] in b.claims && b.claims[ids[0]].state == Claims.Created {
      AbsorbEvolves(Claims.Without(b, ids[0]), ids[1..], total + b.claims[ids[0]].denomination, b.claims[ids[0]].asset);
    }
  }

  lemma ClaimStepEvolves(b: Claims.Book, op: Claims.Op)
    requires Claims.Consistent(b) && Claims.Fresh(b, op)
    ensures Evolves(b, Claims.Step(b, op))
  {
    match op
    case OpCreate(issuer, asset, denomination, owner, minutes, policy, draw, now) =>
      CreateEvolves(b, issuer, Some(asset), denomination, owner, minutes, policy, draw, now);
    case OpTransfer(id, fromUser, toUser, now) =>
      var (b', r) := Claims.Transfer(b, id, fromUser, toUser, now);
      if r.Ok? {
        PutEvolves(b, id, r.value);
      }
    case OpSplit(id, amounts, draws, now) => SplitEvolves(b, id, amounts, draws, now);
    case OpMerge(ids, newOwner, draw, now) => MergeEvolves(b, ids, newOwner, draw, now);
    case OpBurn(id) =>
      if id in b.claims {
        PutEvolves(b, id, b.claims[id].(state := Claims.Burned));
      }
    case OpRevoke(id, issuer) =>
      if Claims.Revoke(b, id, issuer).1.Ok? {
        PutEvolves(b, id, b.claims[id].(state := Claims.Revoked));
      }
  }

  lemma PutEvolves(b: Claims.Book, id: Id, c: Claims.Claim)
    requires id in b.claims && c.denomination == b.claims[id].denomination && c.asset == b.claims[id].asset
    requires b.claims[id].state == Claims.Burned ==> c.state == Claims.Burned
    ensures Evolves(b, Claims.Put(b, id, c))
  {
  }

  lemma SplitEvolves(b: Claims.Book, id: Id, amounts: seq<int>, draws: seq<Claims.Draw>, now: real)
    requires Claims.Consistent(b) && |draws| == |amounts| && Claims.FreshDraws(b, draws)
    ensures Evolves(b, Claims.Split(b, id, amounts, draws, now).0)
  {
    if id in b.claims && b.claims[id].state == Claims.Created {
      Claims.WithoutConsistent(b, id);
      CreatePartsEvolves(Claims.Without(b, id), b.claims[id], amounts, draws, now);
    }
  }

  lemma MergeEvolves(b: Claims.Book, ids: seq<Id>, newOwner: Name, draw: Claims.Draw, now: real)
    requires Claims.Consistent(b) && draw.id !in b.issued
    ensures Evolves(b, Claims.Merge(b, ids, newOwner, draw, now).0)
  {
    AbsorbEvolves(b, ids, 0, None);
    Claims.AbsorbConsistent(b, ids, 0, None);
    var (b1, merged) := Claims.Absorb(b, ids, 0, None);
    if merged.Ok? {
      CreateEvolves(b1, Name("system"), merged.value.1, merged.value.0, newOwner, None, Name("immediate"), draw, now);
    }
  }

  // ---------------------------------------------------------------------------
  // Ownership
  // ---------------------------------------------------------------------------

  /** Stored claims are kept as they are or deleted, and new ones are stored under new ids. */
  ghost predicate Grows(b: Claims.Book, b': Claims.Book) {
    && b.issued <= b'.issued
    && forall id :: id in b'.claims ==>
         (id in b.claims && b'.claims[id] == b.claims[id]) || (id !in b.issued && Claims.Born(b'.claims[id]))
  }

  lemma {:induction false} CreatePartsGrows(b: Claims.Book, parent: Claims.Claim, amounts: seq<int>,
                                            draws: seq<Claims.Draw>, now: real)
    requires |draws| == |amounts| && Claims.FreshDraws(b, draws)
    ensures Grows(b, Claims.CreateParts(b, parent, amounts, draws, now).0)
    decreases |amounts|
  {
    if amounts != [] {
      var b1 := Claims.Create(b, parent.issuer, parent.asset, amounts[0], parent.owner, parent.expiry, parent.policy,
                              draws[0], now).0;
      CreatePartsGrows(b1, parent, amounts[1..], draws[1..], now);
    }
  }

  lemma {:induction false} AbsorbGrows(b: Claims.Book, ids: seq<Id>, total: int, asset: Option<Name>)
    ensures Grows(b, Claims.Absorb(b, ids, total, asset).0)
    ensures Claims.Absorb(b, ids, total, asset).0.claims.Keys <= b.claims.Keys
    decreases |ids|
  {
    if ids != [] && ids[0] in b.claims {
      AbsorbGrows(Claims.Without(b, ids[0]), ids[1..], total + b.claims[ids[0]].denomination, b.claims[ids[0]].asset);
    }
  }

  /** Creating, splitting and merging delete claims or add new ones, and change none. */
  lemma StepGrows(b: Claims.Book, op: Claims.Op)
    requires Claims.Fresh(b, op) && (op.OpCreate? || op.OpSplit? || op.OpMerge?)
    ensures Grows(b, Claims.Step(b, op))
  {
    match op
    case OpSplit(id, amounts, draws, now) =>
      if id in b.claims {
        CreatePartsGrows(Claims.Without(b, id), b.claims[id], amounts, draws, now);
      }
    case OpMerge(ids, newOwner, draw, now) => AbsorbGrows(b, ids, 0, None);
    case _ =>
  }

  /** The expiry is set, not to zero, and has passed. */
  predicate Past(expiry: Option<real>, now: real) {
    expiry != None && expiry != Some(0.0) && expiry.value < now
  }

  /** The operation is a transfer that moves the claim: by its owner, the first one, and in time. */
  ghost predicate Moves(b: Claims.Book, op: Claims.Op, id: Id) {
    && op.OpTransfer? && op.id == id && id in b.claims && b.claims[id].state == Claims.Created
    && b.claims[id].owner == op.fromUser && !Past(b.claims[id].expiry, op.now)
  }

  /** The operation is its issuer's revocation of a claim still in circulation. */
  ghost predicate Revokes(b: Claims.Book, op: Claims.Op, id: Id) {
    && op.OpRevoke? && op.id == id && id in b.claims && op.issuer == b.claims[id].issuer
    && (b.claims[id].state == Claims.Created || b.claims[id].state == Claims.Transferred)
  }

  /** What an operation does to a claim that stays stored. Its owner changes by a transfer alone, to the
      one it names. Burning, or revoking by its issuer, and nothing else, takes it out of circulation.
      Nothing ever changes its issuer, asset, denomination, nullifier, expiry or policy. */
  ghost predicate ProperChange(b: Claims.Book, op: Claims.Op, id: Id, c: Claims.Claim, c': Claims.Claim) {
    && c' == c.(owner := c'.owner, state := c'.state, replayNonce := c'.replayNonce, version := c'.version)
    && (if Moves(b, op, id) then
          && c'.owner == op.toUser && c'.state == Claims.Transferred
          && c'.replayNonce == c.replayNonce + 1 && c'.version == c.version + 1
        else
          && c'.owner == c.owner && c'.replayNonce == c.replayNonce && c'.version == c.version
          && c'.state == (if op == Claims.OpBurn(id) then Claims.Burned
                          else if Revokes(b, op, id) then Claims.Revoked else c.state))
  }

  lemma StepChangesProperly(b: Claims.Book, op: Claims.Op, id: Id)
    requires Claims.Consistent(b) && Claims.Fresh(b, op) && id in b.claims && id in Claims.Step(b, op).claims
    ensures ProperChange(b, op, id, b.claims[id], Claims.Step(b, op).claims[id])
  {
    if op.OpCreate? || op.OpSplit? || op.OpMerge? {
      StepGrows(b, op);
    }
  }

  // ---------------------------------------------------------------------------
  // Where a claim comes from
  // ---------------------------------------------------------------------------

  /** The terms an operation names for the claim it creates under an id: a creation its own, a split those
      of the parent with one of the amounts, and a merge those of the system and the sum of the claims. */
  ghost predicate NamesTerms(b: Claims.Book, op: Claims.Op, id: Id, c: Claims.Claim) {
    match op
    case OpCreate(issuer, asset, denomination, owner, minutes, policy, draw, now) =>
      && draw.id == id && c.nullifier == draw.nullifier && Claims.Lasts(c, minutes, now)
      && c.issuer == issuer && c.asset == Some(asset) && c.denomination == denomination && c.policy == policy
    case OpSplit(parent, amounts, draws, now) =>
      && |draws| == |amounts| && parent in b.claims
      && exists i :: 0 <= i < |amounts| && draws[i].id == id
                     && Claims.IsPart(b.claims[parent], amounts[i], draws[i], now, c.(owner := b.claims[parent].owner))
    case OpMerge(ids, _, draw, _) =>
      && draw.id == id && c.nullifier == draw.nullifier && c.expiry == None && c.policy == Name("immediate")
      && c.issuer == Name("system") && c.denomination == Claims.Denominations(b.claims, ids)
      && c.asset == (if ids != [] && ids[|ids| - 1] in b.claims then b.claims[ids[|ids| - 1]].asset else None)
    case _ => false
  }

  /** The first owner an operation names. */
  ghost predicate NamesOwner(b: Claims.Book, op: Claims.Op, owner: Name) {
    match op
    case OpCreate(_, _, _, first, _, _, _, _) => owner == first
    case OpSplit(parent, _, _, _) => parent in b.claims && owner == b.claims[parent].owner
    case OpMerge(_, newOwner, _, _) => owner == newOwner
    case _ => false
  }

  lemma MergeAppears(b: Claims.Book, op: Claims.Op, id: Id)
    requires op.OpMerge? && Claims.Fresh(b, op) && id !in b.claims && id in Claims.Step(b, op).claims
    ensures var c := Claims.Step(b, op).claims[id]; NamesTerms(b, op, id, c) && NamesOwner(b, op, c.owner)
  {
    AbsorbGrows(b, op.ids, 0, None);
    Claims.AbsorbValue(b, op.ids, 0, None, None);
    assert op.ids[..|op.ids|] == op.ids;
  }

  /** A claim that appears is a new one, under a new id, with the terms and the owner its operation names. */
  lemma AppearsNamed(b: Claims.Book, op: Claims.Op, id: Id)
    requires Claims.Fresh(b, op) && id !in b.claims && id in Claims.Step(b, op).claims
    ensures var c := Claims.Step(b, op).claims[id];
            id !in b.issued && Claims.Born(c) && NamesTerms(b, op, id, c) && NamesOwner(b, op, c.owner)
  {
    if op.OpCreate? || op.OpSplit? || op.OpMerge? {
      StepGrows(b, op);
      if op.OpSplit? {
        var i := Claims.PartsAppear(Claims.Without(b, op.id), b.claims[op.id], op.amounts, op.draws, op.now, id);
        assert Claims.IsPart(b.claims[op.id], op.amounts[i], op.draws[i], op.now, Claims.Step(b, op).claims[id]);
      } else if op.OpMerge? {
        MergeAppears(b, op, id);
      }
    }
  }

  /** The last of operations k + 1 to n - 1 that moved the claim named its owner, or else operation k did. */
  ghost predicate OwnerNamed(books: seq<Claims.Book>, ops: seq<Claims.Op>, k: nat, n: nat, id: Id, owner: Name)
    requires k < n <= |ops| < |books|
    decreases n
  {
    if n == k + 1 then NamesOwner(books[k], ops[k], owner)
    else if Moves(books[n - 1], ops[n - 1], id) then owner == ops[n - 1].toUser
    else OwnerNamed(books, ops, k, n - 1, id, owner)
  }

  /** Operation k created the claim, with the terms it still has after n operations. */
  ghost predicate StemsFrom(books: seq<Claims.Book>, ops: seq<Claims.Op>, k: nat, n: nat, id: Id)
    requires k < n <= |ops| < |books| && id in books[n].claims
  {
    && id !in books[k].issued && NamesTerms(books[k], ops[k], id, books[n].claims[id])
    && OwnerNamed(books, ops, k, n, id, books[n].claims[id].owner)
  }

  /** In every reachable state a claim has the terms its creation named, and the owner its creation or
      its transfer named. */
  lemma {:induction false} RunNamed(books: seq<Claims.Book>, ops: seq<Claims.Op>, n: nat, id: Id)
    requires Claims.IsRun(books, ops) && n <= |ops| && id in books[n].claims
    ensures exists k :: 0 <= k < n && StemsFrom(books, ops, k, n, id)
  {
    var m := n - 1;
    Claims.RunConsistent(books, ops, m);
    if id in books[m].claims {
      RunNamed(books, ops, m, id);
      var k :| 0 <= k < m && StemsFrom(books, ops, k, m, id);
      StepChangesProperly(books[m], ops[m], id);
      assert StemsFrom(books, ops, k, n, id);
    } else {
      AppearsNamed(books[m], ops[m], id);
      assert StemsFrom(books, ops, m, n, id);
    }
  }

  /** How many of the first n operations moved a claim. */
  ghost function Transfers(books: seq<Claims.Book>, ops: seq<Claims.Op>, n: nat, id: Id): nat
    requires n <= |ops| < |books|
  {
    if n == 0 then 0 else Transfers(books, ops, n - 1, id) + (if Moves(books[n - 1], ops[n - 1], id) then 1 else 0)
  }

  ghost predicate MovedAsCounted(c: Claims.Claim, transfers: nat) {
    && c.replayNonce == transfers <= 1 && c.version == transfers + 1
    && (c.state == Claims.Created ==> transfers == 0)
    && (c.state == Claims.Transferred ==> transfers == 1)
  }

  /** In every reachable state a claim's nonce is the number of times it was transferred, which is at
      most once: none while it is Created, and one when it is Transferred. */
  lemma {:induction false} RunMovesOnce(books: seq<Claims.Book>, ops: seq<Claims.Op>, n: nat, id: Id)
    requires Claims.IsRun(books, ops) && n <= |ops|
    ensures id in books[n].claims ==> MovedAsCounted(books[n].claims[id], Transfers(books, ops, n, id))
    ensures id !in books[n].issued ==> Transfers(books, ops, n, id) == 0
  {
    if n > 0 {
      var b, op := books[n - 1], ops[n - 1];
      RunMovesOnce(books, ops, n - 1, id);
      Claims.RunConsistent(books, ops, n - 1);
      ClaimStepEvolves(b, op);
      if id in books[n].claims {
        if id in b.claims {
          StepChangesProperly(b, op, id);
        } else {
          AppearsNamed(b, op, id);
        }
      }
    }
  }

  // ---------------------------------------------------------------------------
  // What the outcome of an operation says
  // ---------------------------------------------------------------------------

  /** A transfer goes through exactly when the claim's owner makes it, in time and as the first one, and
      then returns the claim as stored; each error says what was wrong, and nothing was changed. */
  lemma TransferOutcome(b: Claims.Book, id: Id, fromUser: Name, toUser: Name, now: real)
    ensures var (b', r) := Claims.Transfer(b, id, fromUser, toUser, now);
            match r
            case Ok(c) => Moves(b, Claims.OpTransfer(id, fromUser, toUser, now), id) && b' == Claims.Put(b, id, c)
            case Err(e) =>
              && b' == b
              && match e
                 case ClaimNotFound => id !in b.claims
                 case ClaimNotTransferable => id in b.claims && b.claims[id].state != Claims.Created
                 case NotOwner =>
                   id in b.claims && b.claims[id].state == Claims.Created && b.claims[id].owner != fromUser
                 case ClaimExpired =>
                   && id in b.claims && b.claims[id].state == Claims.Created && b.claims[id].owner == fromUser
                   && Past(b.claims[id].expiry, now)
                 case _ => false
  {
  }

  /** Likewise for burning, which only needs the claim to be stored, and for revoking. */
  lemma BurnRevokeOutcome(b: Claims.Book, id: Id, issuer: Name)
    ensures var (b', r) := Claims.Burn(b, id);
            match r
            case Ok(c) => id in b.claims && c == b.claims[id].(state := Claims.Burned) && b' == Claims.Put(b, id, c)
            case Err(e) => b' == b && e == ClaimNotFound && id !in b.claims
    ensures var (b', r) := Claims.Revoke(b, id, issuer);
            match r
            case Ok(c) =>
              && Revokes(b, Claims.OpRevoke(id, issuer), id) && c == b.claims[id].(state := Claims.Revoked)
              && b' == Claims.Put(b, id, c)
            case Err(e) =>
              && b' == b
              && match e
                 case ClaimNotFound => id !in b.claims
                 case OnlyIssuerCanRevoke => id in b.claims && b.claims[id].issuer != issuer
                 case ClaimAlreadyConsumed =>
                   && id in b.claims && b.claims[id].issuer == issuer
                   && b.claims[id].state != Claims.Created && b.claims[id].state != Claims.Transferred
                 case _ => false
  {
  }

  /** Creating fails exactly when its nullifier is in use, and otherwise stores the claim it returns. */
  lemma CreateOutcome(b: Claims.Book, issuer: Name, asset: Option<Name>, denomination: int, owner: Name,
                      minutes: Option<real>, policy: Name, draw: Claims.Draw, now: real)
    requires Claims.Consistent(b)
    ensures var (b', r) := Claims.Create(b, issuer, asset, denomination, owner, minutes, policy, draw, now);
            match r
            case Ok(c) =>
              && (forall id :: id in b.claims ==> b.claims[id].nullifier != draw.nullifier)
              && b'.claims == b.claims[draw.id := c]
            case Err(e) =>
              && e == NullifierCollision && b'.claims == b.claims
              && exists id :: id in b.claims && b.claims[id].nullifier == draw.nullifier
  {
  }

  /** A split fails before it deletes the claim when that is not stored and new, or the amounts do not add
      up to it; and after that only at a collision of nullifiers. */
  lemma SplitOutcome(b: Claims.Book, id: Id, amounts: seq<int>, draws: seq<Claims.Draw>, now: real)
    requires |draws| == |amounts| && Claims.Consistent(b) && Claims.FreshDraws(b, draws)
    ensures var (b', r) := Claims.Split(b, id, amounts, draws, now);
            match r
            case Ok(parts) =>
              && id in b.claims && b.claims[id].state == Claims.Created
              && Claims.Total(amounts) == b.claims[id].denomination
            case Err(e) =>
              match e
              case InvalidClaim => b' == b && (id !in b.claims || b.claims[id].state != Claims.Created)
              case SplitAmountsMustSumToDenomination =>
                && b' == b && id in b.claims && b.claims[id].state == Claims.Created
                && Claims.Total(amounts) != b.claims[id].denomination
              case NullifierCollision => Claims.Splittable(b, id, amounts)
              case _ => false
  {
    if Claims.Splittable(b, id, amounts) {
      CreatePartsErrors(Claims.Without(b, id), b.claims[id], amounts, draws, now);
    }
  }

  lemma {:induction false} CreatePartsErrors(b: Claims.Book, parent: Claims.Claim, amounts: seq<int>,
                                             draws: seq<Claims.Draw>, now: real)
    requires |draws| == |amounts|
    ensures var r := Claims.CreateParts(b, parent, amounts, draws, now).1; r.Err? ==> r.error == NullifierCollision
    decreases |amounts|
  {
    if amounts != [] {
      var b1 := Claims.Create(b, parent.issuer, parent.asset, amounts[0], parent.owner, parent.expiry, parent.policy,
                              draws[0], now).0;
      CreatePartsErrors(b1, parent, amounts[1..], draws[1..], now);
    }
  }

  /** What a merge says when it stops at a claim: whether that one is not stored and new, or of another
      asset; and a merge that took them all can only fail for its own nullifier. */
  lemma MergeOutcome(b: Claims.Book, ids: seq<Id>, newOwner: Name, draw: Claims.Draw, now: real)
    ensures var (b', r) := Claims.Merge(b, ids, newOwner, draw, now);
            var k := Claims.Absorbed(b, ids, None);
            match r
            case Ok(c) => k == |ids| && draw.id in b'.claims && b'.claims[draw.id] == c
            case Err(e) =>
              match e
              case InvalidClaim => k < |ids| && !Fit(b, ids, k)
              case AssetTypeMismatch => k < |ids| && Fit(b, ids, k)
              case NullifierCollision => k == |ids|
              case _ => false
  {
    AbsorbErrors(b, ids, 0, None);
  }

  /** The claim at position k is stored and new, and was not named before. */
  ghost predicate Fit(b: Claims.Book, ids: seq<Id>, k: nat)
    requires k < |ids|
  {
    ids[k] in b.claims && b.claims[ids[k]].state == Claims.Created && ids[k] !in ids[..k]
  }

  lemma {:induction false} AbsorbErrors(b: Claims.Book, ids: seq<Id>, total: int, asset: Option<Name>)
    ensures var r, k := Claims.Absorb(b, ids, total, asset).1, Claims.Absorbed(b, ids, asset);
            if r.Ok? then k == |ids|
            else k < |ids| && r.error == if Fit(b, ids, k) then AssetTypeMismatch else InvalidClaim
    decreases |ids|
  {
    var k := Claims.Absorbed(b, ids, asset);
    if k > 0 {
      var b1 := Claims.Without(b, ids[0]);
      AbsorbErrors(b1, ids[1..], total + b.claims[ids[0]].denomination, b.claims[ids[0]].asset);
      if k < |ids| {
        assert ids[..k] == [ids[0]] + ids[1..][..k - 1];
        assert Fit(b, ids, k) <==> Fit(b1, ids[1..], k - 1);
      }
    }
  }
}
