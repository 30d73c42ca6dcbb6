/** The redemption flow (backend/services/redemption_service.py), together with the claim book and
    the settlement engine it drives. */
module Redemption {
  import opened Arithmetic
  import opened Common
  import opened SlidingWindow
  import Claims
  import Settlement

  const LARGE_TX_SATS := 1_000_000_000
  const HIGH_VELOCITY_SATS := 10_000_000_000
  const FRAUD_BLOCK_SCORE := 50

  datatype Status = Processing | PendingApproval | Rejected

  datatype Fees = Fees(network: int, service: int, total: int, netToUser: int)

  datatype Receipt = Receipt(
    claim: Id, key: Name, user: Name, destination: Name, amount: int, asset: Option<Name>, chain: Name,
    fees: Fees, createdAt: real, status: Status, request: Option<Id>)

  datatype Approval = Approval(approvals: seq<Name>, rejections: seq<(Name, Name)>)

  /** The service's own state. The last three fields are history the service does not keep: the
      receipt ids drawn, each user's full record, and the latest clock reading. */
  datatype Desk = Desk(
    receipts: map<Id, Receipt>, idempotency: map<Name, Id>, pending: map<Id, Approval>, quarantine: set<Id>,
    timestamps: map<Name, seq<real>>, issued: set<Id>, records: map<Name, seq<Record>>, clock: real)

  datatype World = World(book: Claims.Book, engine: Settlement.Engine, desk: Desk)

  // ---------------------------------------------------------------------------
  // Checks and quotes
  // ---------------------------------------------------------------------------

  function TimesOf<T>(times: map<Name, seq<T>>, user: Name): seq<T> {
    if user in times then times[user] else []
  }

  /** The error validate_claim raises, if any. */
  function Invalid(book: Claims.Book, claim: Id, user: Name, now: real): Option<Error> {
    if claim !in book.claims then Some(ClaimNotFound)
    else if Claims.Expired(book.claims[claim], now) then Some(ClaimExpired)
    else if Claims.Consumed(book.claims[claim].state) then Some(ClaimAlreadyConsumed)
    else if book.claims[claim].owner != user then Some(NotOwner)
    else None
  }

  /** fraud_check's score. */
  function FraudScore(amount: int, velocity24h: int): int {
    (if velocity24h > HIGH_VELOCITY_SATS then 30 else 0) + (if amount > LARGE_TX_SATS then 20 else 0)
  }

  predicate KycRequired(amount: int) {
    amount > LARGE_TX_SATS
  }

  /** fee_quote. */
  function FeeQuote(amount: int, chain: Name): Fees {
    var network := Settlement.EstimateFee(chain);
    var service := Max(1, amount / 10_000);
    Fees(network, service, network + service, amount - network - service)
  }

  /** The score tells which of the two signals were raised, and blocks exactly when both were. */
  lemma FraudScoreTells(amount: int, velocity24h: int)
    ensures var score := FraudScore(amount, velocity24h);
            && score in {0, 20, 30, 50}
            && (score in {30, 50} <==> velocity24h > 10_000_000_000)
            && (score in {20, 50} <==> amount > 1_000_000_000)
            && (score >= FRAUD_BLOCK_SCORE <==> score == 50)
    ensures KycRequired(amount) <==> amount > 1_000_000_000
  {
  }

  /** Redemption asks for a velocity of zero, so the fraud check never blocks it. */
  lemma FraudNeverBlocks(amount: int)
    ensures FraudScore(amount, 0) < FRAUD_BLOCK_SCORE
  {
  }

  // ---------------------------------------------------------------------------
  // Operations
  // ---------------------------------------------------------------------------

  /** The desk after a new receipt was filed, its key bound and the action counted. */
  function File(d: Desk, id: Id, receipt: Receipt, t: Readings): Desk {
    d.(receipts := d.receipts[id := receipt],
       idempotency := d.idempotency[receipt.key := id],
       timestamps := d.timestamps[receipt.user := TimesOf(d.timestamps, receipt.user) + [t.record]],
       issued := d.issued + {id},
       records := d.records[receipt.user := TimesOf(d.records, receipt.user) + [Record(id, t.create, t.record)]])
  }

  function NewReceipt(book: Claims.Book, claim: Id, user: Name, destination: Name, chain: Name, key: Name,
                      now: real): Receipt
    requires claim in book.claims
  {
    var c := book.claims[claim];
    Receipt(claim, key, user, destination, c.denomination, c.asset, chain, FeeQuote(c.denomination, chain), now,
            PendingApproval, None)
  }

  predicate RequiresApproval(amount: int) {
    amount >= LARGE_TX_SATS || KycRequired(amount)
  }

  /** Burning the claim of a receipt and submitting its settlement request. */
  function Settle(w: World, receipt: Receipt, requestId: Id): (World, Receipt) {
    var (engine, request) := Settlement.Submit(w.engine, receipt.user, receipt.destination, receipt.amount,
                                               receipt.asset, receipt.chain, requestId);
    (w.(book := Claims.Burn(w.book, receipt.claim).0, engine := engine),
     receipt.(status := Processing, request := Some(requestId)))
  }

  /** The part of redeem after the rate-limit check. */
  function Admit(w: World, claim: Id, user: Name, destination: Name, chain: Name, key: Name,
                 receiptId: Id, requestId: Id, t: Readings): (World, Result<Receipt>) {
    var invalid := Invalid(w.book, claim, user, t.validate);
    if invalid.Some? then (w, Err(invalid.value)) else
    var receipt := NewReceipt(w.book, claim, user, destination, chain, key, t.create);
    if FraudScore(receipt.amount, 0) >= FRAUD_BLOCK_SCORE then
      (w.(desk := w.desk.(quarantine := w.desk.quarantine + {claim})), Err(FraudCheckFailed))
    else if RequiresApproval(receipt.amount) then
      var desk := w.desk.(pending := w.desk.pending[receiptId := Approval([], [])]);
      (w.(desk := File(desk, receiptId, receipt, t)), Ok(receipt))
    else
      var (w', settled) := Settle(w, receipt, requestId);
      (w'.(desk := File(w'.desk, receiptId, settled, t)), Ok(settled))
  }

  /** The desk after the rate-limit check pruned the user's timestamps. */
  function Checked(d: Desk, user: Name, t: Readings): Desk {
    d.(clock := t.record, timestamps := d.timestamps[user := Recent(TimesOf(d.timestamps, user), t.check - HOUR)])
  }

  function Redeem(w: World, claim: Id, user: Name, destination: Name, chain: Name, key: Name,
                  receiptId: Id, requestId: Id, t: Readings): (World, Result<Receipt>) {
    if key in w.desk.idempotency then
      var existing := w.desk.idempotency[key];
      (w.(desk := w.desk.(clock := t.record)),
       if existing in w.desk.receipts then Ok(w.desk.receipts[existing]) else Err(KeyError))
    else
      var checked := w.(desk := Checked(w.desk, user, t));
      if |TimesOf(checked.desk.timestamps, user)| >= RATE_LIMIT_PER_HOUR
          then (checked, Err(RateLimitExceeded))
      else Admit(checked, claim, user, destination, chain, key, receiptId, requestId, t)
  }

  /** The world with one more approval on record. */
  function Counted(w: World, id: Id, operator: Name): World
    requires id in w.desk.pending
  {
    var approval := w.desk.pending[id].(approvals := w.desk.pending[id].approvals + [operator]);
    w.(desk := w.desk.(pending := w.desk.pending[id := approval]))
  }

  /** Settling a queued receipt; burning fails when the claim has since been split or merged away. */
  function Release(w: World, id: Id, requestId: Id): (World, Result<Receipt>)
    requires id in w.desk.receipts
  {
    if w.desk.receipts[id].claim !in w.book.claims then (w, Err(ClaimNotFound))
    else
      var (w1, settled) := Settle(w, w.desk.receipts[id], requestId);
      (w1.(desk := w1.desk.(receipts := w1.desk.receipts[id := settled])), Ok(settled))
  }

  /** The error that stops an approval before it is counted, if any. An operator's name never equals a
      rejection record, so that check cannot fire. */
  function ApprovalRefusal(d: Desk, id: Id, operator: Name): Option<Error> {
    if id !in d.pending || id !in d.receipts then Some(ApprovalRequestNotFound)
    else if d.receipts[id].status != PendingApproval then Some(ReceiptNotPendingApproval)
    else if operator in d.pending[id].approvals then Some(OperatorAlreadyApproved)
    else None
  }

  /** approve_redemption. The approval stays on record even when the release then fails. */
  function Approve(w: World, id: Id, operator: Name, required: int, requestId: Id): (World, Result<Receipt>) {
    var refusal := ApprovalRefusal(w.desk, id, operator);
    if refusal.Some? then (w, Err(refusal.value))
    else if |w.desk.pending[id].approvals| + 1 < required then (Counted(w, id, operator), Ok(w.desk.receipts[id]))
    else Release(Counted(w, id, operator), id, requestId)
  }

  function Reject(w: World, id: Id, operator: Name, reason: Name): (World, Result<Receipt>) {
    if id !in w.desk.pending || id !in w.desk.receipts then (w, Err(ApprovalRequestNotFound))
    else if w.desk.receipts[id].status != PendingApproval then (w, Err(ReceiptNotPendingApproval))
    else
      var approval := w.desk.pending[id].(rejections := w.desk.pending[id].rejections + [(operator, reason)]);
      var receipt := w.desk.receipts[id].(status := Rejected);
      (w.(desk := w.desk.(pending := w.desk.pending[id := approval], receipts := w.desk.receipts[id := receipt])),
       Ok(receipt))
  }

  // ---------------------------------------------------------------------------
  // The service
  // ---------------------------------------------------------------------------

  class RedemptionService {
    const claims: Claims.ClaimNoteService
    const settlement: Settlement.SettlementEngine
    var receipts: map<Id, Receipt>
    var idempotency: map<Name, Id>
    var pending: map<Id, Approval>
    var quarantine: set<Id>
    var timestamps: map<Name, seq<real>>
    ghost var issued: set<Id>
    ghost var records: map<Name, seq<Record>>
    ghost var clock: real

    ghost function Own(): Desk
      reads this
    {
      Desk(receipts, idempotency, pending, quarantine, timestamps, issued, records, clock)
    }

    ghost function Model(): World
      reads this, claims, settlement
    {
      World(claims.Model(), settlement.Model(), Own())
    }

    constructor (claimService: Claims.ClaimNoteService, engine: Settlement.SettlementEngine, ghost now: real)
      ensures claims == claimService && settlement == engine
      ensures Own() == Desk(map[], map[], map[], {}, map[], {}, map[], now)
    {
      claims, settlement := claimService, engine;
      receipts, idempotency, pending, quarantine, timestamps := map[], map[], map[], {}, map[];
      issued, records, clock := {}, map[], now;
    }

    method ValidateClaim(claim: Id, user: Name, now: real) returns (invalid: Option<Error>)
      ensures invalid == Invalid(claims.Model(), claim, user, now)
    {
      if claim !in claims.claims {
        return Some(ClaimNotFound);
      }
      var c := claims.claims[claim];
      if Truthy(c.expiry) && now > c.expiry.value {
        return Some(ClaimExpired);
      }
      if Claims.Consumed(c.state) {
        return Some(ClaimAlreadyConsumed);
      }
      if c.owner != user {
        return Some(NotOwner);
      }
      return None;
    }

    method CheckRateLimit(user: Name, now: real) returns (exceeded: bool)
      modifies this`timestamps
      ensures timestamps == old(timestamps)[user := Recent(TimesOf(old(timestamps), user), now - HOUR)]
      ensures exceeded == (|TimesOf(timestamps, user)| >= RATE_LIMIT_PER_HOUR)
    {
      var all := TimesOf(timestamps, user);
      var recent := [];
      assert all[0..] == all;
      for i := 0 to |all|
        invariant Recent(all, now - HOUR) == recent + Recent(all[i..], now - HOUR)
      {
        assert all[i..][1..] == all[i + 1..];
        if all[i] > now - HOUR {
          assert recent + ([all[i]] + Recent(all[i + 1..], now - HOUR)) ==
                 (recent + [all[i]]) + Recent(all[i + 1..], now - HOUR);
          recent := recent + [all[i]];
        }
      }
      assert recent + [] == recent;
      timestamps := timestamps[user := recent];
      exceeded := |recent| >= RATE_LIMIT_PER_HOUR;
    }

    method RecordUserAction(user: Name, now: real)
      modifies this`timestamps
      ensures timestamps == old(timestamps)[user := TimesOf(old(timestamps), user) + [now]]
    {
      timestamps := timestamps[user := TimesOf(timestamps, user) + [now]];
    }

    method RedeemClaim(claim: Id, user: Name, destination: Name, chain: Name, key: Name,
                       receiptId: Id, requestId: Id, t: Readings) returns (r: Result<Receipt>)
      modifies this, claims, settlement
      ensures (Model(), r) == Redeem(old(Model()), claim, user, destination, chain, key, receiptId, requestId, t)
    {
      clock := t.record;
      if key in idempotency {
        var existing := idempotency[key];
        return if existing in receipts then Ok(receipts[existing]) else Err(KeyError);
      }
      var exceeded := CheckRateLimit(user, t.check);
      if exceeded {
        return Err(RateLimitExceeded);
      }
      r := AdmitClaim(claim, user, destination, chain, key, receiptId, requestId, t);
    }

    method AdmitClaim(claim: Id, user: Name, destination: Name, chain: Name, key: Name,
                      receiptId: Id, requestId: Id, t: Readings) returns (r: Result<Receipt>)
      modifies this, claims, settlement
      ensures (Model(), r) == Admit(old(Model()), claim, user, destination, chain, key, receiptId, requestId, t)
    {
      var invalid := ValidateClaim(claim, user, t.validate);
      if invalid.Some? {
        return Err(invalid.value);
      }
      var c := claims.claims[claim];
      var amount := c.denomination;
      // The quarantine branch is never taken.
      FraudNeverBlocks(amount);
      var fees := FeeQuote(amount, chain);
      var requiresApproval := amount >= LARGE_TX_SATS || KycRequired(amount);
      var receipt := Receipt(claim, key, user, destination, amount, c.asset, chain, fees, t.create, PendingApproval,
                             None);
      if requiresApproval {
        pending := pending[receiptId := Approval([], [])];
      } else {
        var burned := claims.BurnClaim(claim);
        var request := settlement.SubmitRequest(user, destination, amount, c.asset, chain, requestId);
        receipt := receipt.(status := Processing, request := Some(request.id));
      }
      receipts := receipts[receiptId := receipt];
      idempotency := idempotency[key := receiptId];
      issued := issued + {receiptId};
      records := records[user := TimesOf(records, user) + [Record(receiptId, t.create, t.record)]];
      RecordUserAction(user, t.record);
      return Ok(receipt);
    }

    method ApproveRedemption(id: Id, operator: Name, required: int, requestId: Id) returns (r: Result<Receipt>)
      modifies this, claims, settlement
      ensures (Model(), r) == Approve(old(Model()), id, operator, required, requestId)
    {
      if id !in pending || id !in receipts {
        return Err(ApprovalRequestNotFound);
      }
      var receipt := receipts[id];
      if receipt.status != PendingApproval {
        return Err(ReceiptNotPendingApproval);
      }
      if operator in pending[id].approvals {
        return Err(OperatorAlreadyApproved);
      }
      pending := pending[id := pending[id].(approvals := pending[id].approvals + [operator])];
      if |pending[id].approvals| >= required {
        var burned := claims.BurnClaim(receipt.claim);
        if burned.Err? {
          return Err(burned.error);
        }
        var request := settlement.SubmitRequest(receipt.user, receipt.destination, receipt.amount, receipt.asset,
                                                receipt.chain, requestId);
        receipt := receipt.(status := Processing, request := Some(request.id));
        receipts := receipts[id := receipt];
      }
      return Ok(receipt);
    }

    method RejectRedemption(id: Id, operator: Name, reason: Name) returns (r: Result<Receipt>)
      modifies this
      ensures (Model(), r) == Reject(old(Model()), id, operator, reason)
    {
      if id !in pending || id !in receipts {
        return Err(ApprovalRequestNotFound);
      }
      if receipts[id].status != PendingApproval {
        return Err(ReceiptNotPendingApproval);
      }
      pending := pending[id := pending[id].(rejections := pending[id].rejections + [(operator, reason)])];
      receipts := receipts[id := receipts[id].(status := Rejected)];
      return Ok(receipts[id]);
    }
  }
}
