/** Safety of redemption over every interleaving with claim and settlement operations. */
module RedemptionSafety {
  import opened Common
  import opened ClaimHistory
  import opened Redemption
  import opened SlidingWindow
  import Claims
  import Settlement

  // ---------------------------------------------------------------------------
  // The invariant
  // ---------------------------------------------------------------------------

  /** The engine holds the request a receipt names, with the receipt's own terms. */
  ghost predicate Backed(e: Settlement.Engine, r: Receipt) {
    r.request.Some? && exists i :: 0 <= i < |e.requests| && Carries(e.requests[i], r)
  }

  ghost predicate Carries(q: Settlement.Request, r: Receipt) {
    && r.request == Some(q.id) && q.user == r.user && q.destination == r.destination
    && q.amount == r.amount && q.asset == r.asset && q.chain == r.chain
  }

  ghost predicate ReceiptOk(w: World, id: Id)
    requires id in w.desk.receipts
  {
    var r := w.desk.receipts[id];
    && r.claim in w.book.issued
    && (r.claim in w.book.claims ==>
          r.amount == w.book.claims[r.claim].denomination && r.asset == w.book.claims[r.claim].asset)
    && (r.status == Processing <==> r.request.Some?)
    && (r.status == Processing ==>
          r.claim in w.book.claims && w.book.claims[r.claim].state == Claims.Burned && Backed(w.engine, r))
    && (if id in w.desk.pending then r.amount >= LARGE_TX_SATS else r.status == Processing && r.amount < LARGE_TX_SATS)
    && r.key in w.desk.idempotency && w.desk.idempotency[r.key] == id
  }

  ghost predicate ReceiptsOk(w: World) {
    forall id :: id in w.desk.receipts ==> ReceiptOk(w, id)
  }

  /** Keys and receipts correspond one to one. */
  ghost predicate KeysOk(d: Desk) {
    && d.receipts.Keys <= d.issued && d.pending.Keys <= d.receipts.Keys
    && forall k :: k in d.idempotency ==> d.idempotency[k] in d.receipts && d.receipts[d.idempotency[k]].key == k
  }

  /** No two receipts share a settlement request. */
  ghost predicate OwnRequests(d: Desk) {
    forall i, j :: i in d.receipts && j in d.receipts && i != j && d.receipts[i].request.Some? ==>
      d.receipts[i].request != d.receipts[j].request
  }

  /** Every settlement request was submitted for a receipt. */
  ghost predicate RequestsOwned(w: World) {
    forall i :: 0 <= i < |w.engine.requests| ==> Owned(w.desk, w.engine.requests[i].id)
  }

  ghost predicate Owned(d: Desk, request: Id) {
    exists id :: id in d.receipts && d.receipts[id].request == Some(request)
  }

  /** Two processing receipts on one claim are both large. */
  ghost predicate SmallOnce(d: Desk) {
    forall i, j :: i in d.receipts && j in d.receipts && i != j && SettleSameClaim(d.receipts[i], d.receipts[j]) ==>
      d.receipts[i].amount >= LARGE_TX_SATS
  }

  ghost predicate SettleSameClaim(r: Receipt, s: Receipt) {
    r.status == Processing && s.status == Processing && r.claim == s.claim
  }

  ghost predicate Safe(w: World) {
    && Claims.Consistent(w.book) && Settlement.Partitioned(w.engine)
    && KeysOk(w.desk) && ReceiptsOk(w) && OwnRequests(w.desk) && RequestsOwned(w) && SmallOnce(w.desk)
  }

  // ---------------------------------------------------------------------------
  // Claim and settlement steps
  // ---------------------------------------------------------------------------

  ghost predicate KeepsRequests(e: Settlement.Engine, e': Settlement.Engine) {
    && |e.requests| <= |e'.requests|
    && forall i :: 0 <= i < |e.requests| ==> e'.requests[i] == e.requests[i].(batched := e'.requests[i].batched)
  }

  /** A receipt stays fine when the book evolves and the engine keeps its requests. */
  lemma ReceiptKept(w: World, w': World, id: Id)
    requires id in w.desk.receipts && ReceiptOk(w, id)
    requires Evolves(w.book, w'.book) && KeepsRequests(w.engine, w'.engine)
    requires id in w'.desk.receipts && w'.desk.receipts[id] == w.desk.receipts[id]
    requires id in w'.desk.pending <==> id in w.desk.pending
    requires w.desk.receipts[id].key in w'.desk.idempotency && w'.desk.idempotency[w.desk.receipts[id].key] == id
    ensures ReceiptOk(w', id)
  {
    var r := w.desk.receipts[id];
    if r.status == Processing {
      var i :| 0 <= i < |w.engine.requests| && Carries(w.engine.requests[i], r);
      assert Carries(w'.engine.requests[i], r);
    }
  }

  lemma AllReceiptsKept(w: World, w': World)
    requires ReceiptsOk(w) && w'.desk == w.desk
    requires Evolves(w.book, w'.book) && KeepsRequests(w.engine, w'.engine)
    ensures ReceiptsOk(w')
  {
    forall id | id in w.desk.receipts
      ensures ReceiptOk(w', id)
    {
      ReceiptKept(w, w', id);
    }
  }

  lemma ClaimStepSafe(w: World, op: Claims.Op)
    requires Safe(w) && Claims.Fresh(w.book, op)
    ensures Safe(w.(book := Claims.Step(w.book, op)))
  {
    Claims.StepConsistent(w.book, op);
    ClaimStepEvolves(w.book, op);
    AllReceiptsKept(w, w.(book := Claims.Step(w.book, op)));
  }

  lemma BuildKeeps(e: Settlement.Engine, asset: Option<Name>, chain: Name, batchId: Id)
    ensures KeepsRequests(e, Settlement.Build(e, asset, chain, batchId).0)
    ensures |Settlement.Build(e, asset, chain, batchId).0.requests| == |e.requests|
  {
    forall i | 0 <= i < |e.requests|
      ensures Settlement.Marked(e.requests, asset, chain)[i] ==
              e.requests[i].(batched := Settlement.Marked(e.requests, asset, chain)[i].batched)
    {
      Settlement.MarkedAt(e.requests, asset, chain, i);
    }
  }

  lemma BuildSafe(w: World, asset: Option<Name>, chain: Name, batchId: Id)
    requires Safe(w) && batchId !in w.engine.issued
    ensures Safe(w.(engine := Settlement.Build(w.engine, asset, chain, batchId).0))
  {
    var w' := w.(engine := Settlement.Build(w.engine, asset, chain, batchId).0);
    Settlement.BuildPartitioned(w.engine, asset, chain, batchId);
    BuildKeeps(w.engine, asset, chain, batchId);
    AllReceiptsKept(w, w');
  }

  lemma ApproveBatchSafe(w: World, batchId: Id)
    requires Safe(w)
    ensures Safe(w.(engine := Settlement.Approve(w.engine, batchId).0))
  {
    Settlement.ApprovePartitioned(w.engine, batchId);
    AllReceiptsKept(w, w.(engine := Settlement.Approve(w.engine, batchId).0));
  }

  // ---------------------------------------------------------------------------
  // Redemption steps
  // ---------------------------------------------------------------------------

  ghost predicate SameFiles(d: Desk, d': Desk) {
    && d'.receipts == d.receipts && d'.idempotency == d.idempotency
    && d'.pending.Keys == d.pending.Keys && d'.issued == d.issued
  }

  lemma SameFilesReceipts(w: World, d: Desk)
    requires ReceiptsOk(w) && SameFiles(w.desk, d)
    ensures ReceiptsOk(w.(desk := d))
  {
    forall id | id in d.receipts
      ensures ReceiptOk(w.(desk := d), id)
    {
      ReceiptKept(w, w.(desk := d), id);
    }
  }

  lemma SameFilesOwned(w: World, d: Desk)
    requires RequestsOwned(w) && SameFiles(w.desk, d)
    ensures RequestsOwned(w.(desk := d))
  {
    forall i | 0 <= i < |w.engine.requests|
      ensures Owned(d, w.engine.requests[i].id)
    {
      assert Owned(w.desk, w.engine.requests[i].id);
    }
  }

  /** A desk step that changes neither receipts, keys nor who is in the approval queue. */
  lemma DeskStepSafe(w: World, d: Desk)
    requires Safe(w) && SameFiles(w.desk, d)
    ensures Safe(w.(desk := d))
  {
    SameFilesReceipts(w, d);
    SameFilesOwned(w, d);
  }

  /** Settling a receipt of the right amount burns its claim and backs it. */
  lemma SettleKeeps(w: World, receipt: Receipt, requestId: Id)
    requires Safe(w) && receipt.claim in w.book.claims && requestId !in w.engine.issued
    ensures var (w', settled) := Settle(w, receipt, requestId);
            && w'.desk == w.desk && Claims.Consistent(w'.book) && Settlement.Partitioned(w'.engine)
            && Evolves(w.book, w'.book) && KeepsRequests(w.engine, w'.engine)
            && receipt.claim in w'.book.claims && w'.book.claims[receipt.claim].state == Claims.Burned
            && Backed(w'.engine, settled)
            && |w'.engine.requests| == |w.engine.requests| + 1
            && w'.engine.requests[|w.engine.requests|].id == requestId
  {
    var (w', settled) := Settle(w, receipt, requestId);
    Claims.PutConsistent(w.book, receipt.claim, w.book.claims[receipt.claim].(state := Claims.Burned));
    Settlement.SubmitPartitioned(w.engine, receipt.user, receipt.destination, receipt.amount, receipt.asset,
                                 receipt.chain, requestId);
    assert Carries(w'.engine.requests[|w.engine.requests|], settled);
  }

  /** The request of a processing receipt has been issued. */
  lemma RequestIssued(w: World, id: Id)
    requires Safe(w) && id in w.desk.receipts && w.desk.receipts[id].request.Some?
    ensures w.desk.receipts[id].request.value in w.engine.issued
  {
    assert ReceiptOk(w, id);
  }

  lemma OwnedKept(w: World, d': Desk, changed: Id)
    requires Safe(w)
    requires forall id :: id in w.desk.receipts && id != changed ==>
               id in d'.receipts && d'.receipts[id] == w.desk.receipts[id]
    requires changed in w.desk.receipts ==> w.desk.receipts[changed].request.None?
    ensures forall i :: 0 <= i < |w.engine.requests| ==> Owned(d', w.engine.requests[i].id)
  {
    forall i | 0 <= i < |w.engine.requests|
      ensures Owned(d', w.engine.requests[i].id)
    {
      assert Owned(w.desk, w.engine.requests[i].id);
      var id :| id in w.desk.receipts && w.desk.receipts[id].request == Some(w.engine.requests[i].id);
      assert d'.receipts[id].request == Some(w.engine.requests[i].id);
    }
  }

  /** The desk d' holds the receipts of w with the one under id replaced (or added), its key bound to it. */
  ghost predicate Refiled(w: World, d': Desk, id: Id, r: Receipt) {
    && d'.receipts == w.desk.receipts[id := r]
    && (id in w.desk.receipts ==> w.desk.receipts[id].request.None?)
    && (forall j :: j in w.desk.receipts && j != id ==>
          (j in d'.pending <==> j in w.desk.pending) && w.desk.receipts[j].key != r.key)
    && (forall k :: k in w.desk.idempotency && k != r.key ==>
          k in d'.idempotency && d'.idempotency[k] == w.desk.idempotency[k])
    && r.key in d'.idempotency && d'.idempotency[r.key] == id
  }

  /** The other receipts stay fine when one is refiled. */
  lemma RefiledOthers(w: World, w': World, id: Id, r: Receipt)
    requires ReceiptsOk(w) && Refiled(w, w'.desk, id, r)
    requires Evolves(w.book, w'.book) && KeepsRequests(w.engine, w'.engine)
    ensures forall j :: j in w.desk.receipts && j != id ==> ReceiptOk(w', j)
  {
    forall j | j in w.desk.receipts && j != id
      ensures ReceiptOk(w', j)
    {
      assert ReceiptOk(w, j);
      ReceiptKept(w, w', j);
    }
  }

  lemma OwnRequestsKept(w: World, d': Desk, id: Id, r: Receipt, requestId: Id)
    requires Safe(w) && requestId !in w.engine.issued && d'.receipts == w.desk.receipts[id := r]
             && r.request == Some(requestId)
    ensures OwnRequests(d')
  {
    forall j | j in w.desk.receipts && w.desk.receipts[j].request.Some?
      ensures w.desk.receipts[j].request.value != requestId
    {
      RequestIssued(w, j);
    }
  }

  lemma RequestsOwnedKept(w: World, w': World, id: Id, r: Receipt, requestId: Id)
    requires Safe(w) && Refiled(w, w'.desk, id, r) && r.request == Some(requestId)
    requires KeepsRequests(w.engine, w'.engine)
    requires |w'.engine.requests| == |w.engine.requests| + 1 && w'.engine.requests[|w.engine.requests|].id == requestId
    ensures RequestsOwned(w')
  {
    OwnedKept(w, w'.desk, id);
    forall i | 0 <= i < |w'.engine.requests|
      ensures Owned(w'.desk, w'.engine.requests[i].id)
    {
      if i == |w.engine.requests| {
        assert w'.desk.receipts[id].request == Some(requestId);
      } else {
        assert w'.engine.requests[i].id == w.engine.requests[i].id;
      }
    }
  }

  /** Another receipt has settled the claim of this one only if this one is large. */
  ghost predicate LargeIfShared(d: Desk, id: Id, r: Receipt) {
    forall j :: j in d.receipts && j != id && d.receipts[j].status == Processing && d.receipts[j].claim == r.claim ==>
      r.amount >= LARGE_TX_SATS
  }

  /** Settling one receipt, new or queued, keeps the world safe. */
  lemma SettledReceiptSafe(w: World, receipt: Receipt, requestId: Id, id: Id, d': Desk)
    requires Safe(w) && receipt.claim in w.book.claims && requestId !in w.engine.issued
    requires receipt.amount == w.book.claims[receipt.claim].denomination
             && receipt.asset == w.book.claims[receipt.claim].asset
    requires Refiled(w, d', id, Settle(w, receipt, requestId).1) && KeysOk(d')
    requires if id in d'.pending then receipt.amount >= LARGE_TX_SATS else receipt.amount < LARGE_TX_SATS
    requires LargeIfShared(w.desk, id, receipt)
    ensures Safe(Settle(w, receipt, requestId).0.(desk := d'))
  {
    SettleKeeps(w, receipt, requestId);
    var (w1, settled) := Settle(w, receipt, requestId);
    var w' := w1.(desk := d');
    assert ReceiptsOk(w') by {
      RefiledOthers(w, w', id, settled);
      assert ReceiptOk(w', id);
    }
    OwnRequestsKept(w, d', id, settled, requestId);
    RequestsOwnedKept(w, w', id, settled, requestId);
    SmallOnceKept(w, d', id, settled);
  }

  lemma SmallOnceKept(w: World, d': Desk, id: Id, r: Receipt)
    requires Safe(w) && d'.receipts == w.desk.receipts[id := r]
    requires r.status == Processing ==> r.claim in w.book.claims && r.amount == w.book.claims[r.claim].denomination
    requires LargeIfShared(w.desk, id, r)
    ensures SmallOnce(d')
  {
    forall i, j | i in d'.receipts && j in d'.receipts && i != j && SettleSameClaim(d'.receipts[i], d'.receipts[j])
      ensures d'.receipts[i].amount >= LARGE_TX_SATS
    {
      if j == id {
        assert ReceiptOk(w, i);
      }
    }
  }

  lemma AdmitSafe(w: World, claim: Id, user: Name, destination: Name, chain: Name, key: Name, receiptId: Id,
                  requestId: Id, t: Readings)
    requires Safe(w) && receiptId !in w.desk.issued && requestId !in w.engine.issued && key !in w.desk.idempotency
    ensures Safe(Admit(w, claim, user, destination, chain, key, receiptId, requestId, t).0)
  {
    if Invalid(w.book, claim, user, t.validate).None? {
      var receipt := NewReceipt(w.book, claim, user, destination, chain, key, t.create);
      if RequiresApproval(receipt.amount) {
        QueuedSafe(w, receiptId, receipt, t);
      } else {
        NewSettledSafe(w, receiptId, receipt, requestId, t);
      }
    }
  }

  /** A claim that is not burned has no processing receipt. */
  lemma NotYetSettled(w: World, claim: Id)
    requires ReceiptsOk(w) && claim in w.book.claims && w.book.claims[claim].state != Claims.Burned
    ensures forall j :: j in w.desk.receipts && w.desk.receipts[j].status == Processing ==>
              w.desk.receipts[j].claim != claim
  {
    forall j | j in w.desk.receipts && w.desk.receipts[j].status == Processing
      ensures w.desk.receipts[j].claim != claim
    {
      assert ReceiptOk(w, j);
    }
  }

  lemma QueuedSafe(w: World, id: Id, receipt: Receipt, t: Readings)
    requires Safe(w) && id !in w.desk.issued && receipt.key !in w.desk.idempotency
    requires receipt.claim in w.book.claims && receipt.status == PendingApproval && receipt.request.None?
    requires receipt.amount == w.book.claims[receipt.claim].denomination
             && receipt.asset == w.book.claims[receipt.claim].asset
    requires receipt.amount >= LARGE_TX_SATS
    ensures Safe(w.(desk := File(w.desk.(pending := w.desk.pending[id := Approval([], [])]), id, receipt, t)))
  {
    var d := w.desk.(pending := w.desk.pending[id := Approval([], [])]);
    FileNew(w, d, id, receipt, t);
    UnsettledReceiptSafe(w, File(d, id, receipt, t), id, receipt);
  }

  /** Filing a receipt under a new id and key. */
  lemma FileNew(w: World, d: Desk, id: Id, r: Receipt, t: Readings)
    requires ReceiptsOk(w) && KeysOk(w.desk) && id !in w.desk.issued && r.key !in w.desk.idempotency
    requires d.receipts == w.desk.receipts && d.idempotency == w.desk.idempotency && d.issued == w.desk.issued
    requires d.pending.Keys == w.desk.pending.Keys || d.pending.Keys == w.desk.pending.Keys + {id}
    ensures Refiled(w, File(d, id, r, t), id, r) && KeysOk(File(d, id, r, t))
  {
    NewKey(w, r.key);
  }

  /** Filing a small receipt that settles at once. */
  lemma NewSettledSafe(w: World, id: Id, receipt: Receipt, requestId: Id, t: Readings)
    requires Safe(w) && id !in w.desk.issued && receipt.key !in w.desk.idempotency && requestId !in w.engine.issued
    requires receipt.claim in w.book.claims && w.book.claims[receipt.claim].state != Claims.Burned
    requires receipt.amount == w.book.claims[receipt.claim].denomination
             && receipt.asset == w.book.claims[receipt.claim].asset
    requires receipt.amount < LARGE_TX_SATS
    ensures var (w1, settled) := Settle(w, receipt, requestId); Safe(w1.(desk := File(w1.desk, id, settled, t)))
  {
    var settled := Settle(w, receipt, requestId).1;
    FileNew(w, w.desk, id, settled, t);
    NotYetSettled(w, receipt.claim);
    SettledReceiptSafe(w, receipt, requestId, id, File(w.desk, id, settled, t));
  }

  /** A key that is not bound yet is on no receipt. */
  lemma NewKey(w: World, key: Name)
    requires ReceiptsOk(w) && key !in w.desk.idempotency
    ensures forall j :: j in w.desk.receipts ==> w.desk.receipts[j].key != key
  {
    forall j | j in w.desk.receipts
      ensures w.desk.receipts[j].key != key
    {
      assert ReceiptOk(w, j);
    }
  }

  /** Filing a receipt that is not settled, queued or rejected. */
  lemma UnsettledReceiptSafe(w: World, d': Desk, id: Id, r: Receipt)
    requires Safe(w) && Refiled(w, d', id, r) && KeysOk(d')
    requires r.status != Processing && r.request.None? && id in d'.pending && r.amount >= LARGE_TX_SATS
             && r.claim in w.book.issued
    requires r.claim in w.book.claims ==>
               r.amount == w.book.claims[r.claim].denomination && r.asset == w.book.claims[r.claim].asset
    ensures Safe(w.(desk := d'))
  {
    var w' := w.(desk := d');
    assert ReceiptsOk(w') by {
      RefiledOthers(w, w', id, r);
      assert ReceiptOk(w', id);
    }
    OwnedKept(w, d', id);
    SmallOnceKept(w, d', id, r);
  }

  lemma RedeemSafe(w: World, claim: Id, user: Name, destination: Name, chain: Name, key: Name, receiptId: Id,
                   requestId: Id, t: Readings)
    requires Safe(w) && receiptId !in w.desk.issued && requestId !in w.engine.issued
    ensures Safe(Redeem(w, claim, user, destination, chain, key, receiptId, requestId, t).0)
  {
    if key in w.desk.idempotency {
      DeskStepSafe(w, w.desk.(clock := t.record));
    } else {
      var checked := w.(desk := Checked(w.desk, user, t));
      DeskStepSafe(w, checked.desk);
      AdmitSafe(checked, claim, user, destination, chain, key, receiptId, requestId, t);
    }
  }

  lemma CountedSafe(w: World, id: Id, operator: Name) returns (counted: World)
    requires Safe(w) && id in w.desk.pending
    ensures counted == Counted(w, id, operator) && Safe(counted)
    ensures counted.engine == w.engine && counted.desk.receipts == w.desk.receipts && id in counted.desk.pending
  {
    counted := Counted(w, id, operator);
    DeskStepSafe(w, counted.desk);
  }

  lemma ApproveSafe(w: World, id: Id, operator: Name, required: int, requestId: Id)
    requires Safe(w) && requestId !in w.engine.issued
    ensures Safe(Approve(w, id, operator, required, requestId).0)
  {
    if ApprovalRefusal(w.desk, id, operator).None? {
      CountedApprovalSafe(w, id, operator, required, requestId);
    }
  }

  lemma CountedApprovalSafe(w: World, id: Id, operator: Name, required: int, requestId: Id)
    requires Safe(w) && requestId !in w.engine.issued && ApprovalRefusal(w.desk, id, operator).None?
    ensures Safe(Approve(w, id, operator, required, requestId).0)
  {
    var approved := CountedSafe(w, id, operator);
    if |w.desk.pending[id].approvals| + 1 >= required {
      ReleaseSafe(approved, id, requestId);
      approved := Release(approved, id, requestId).0;
    }
    ApprovalLeaves(w, id, operator, required, requestId);
  }

  lemma ApprovalLeaves(w: World, id: Id, operator: Name, required: int, requestId: Id)
    requires ApprovalRefusal(w.desk, id, operator).None?
    ensures Approve(w, id, operator, required, requestId).0 ==
            if |w.desk.pending[id].approvals| + 1 >= required then Release(Counted(w, id, operator), id, requestId).0
            else Counted(w, id, operator)
  {
  }

  /** Settling a receipt out of the approval queue. */
  lemma ReleaseSafe(w: World, id: Id, requestId: Id)
    requires Safe(w) && requestId !in w.engine.issued && id in w.desk.pending
    requires id in w.desk.receipts && w.desk.receipts[id].status == PendingApproval
    ensures Safe(Release(w, id, requestId).0)
  {
    if w.desk.receipts[id].claim in w.book.claims {
      assert ReceiptOk(w, id);
      OtherKeys(w, id);
      var settled := Settle(w, w.desk.receipts[id], requestId).1;
      SettledReceiptSafe(w, w.desk.receipts[id], requestId, id, w.desk.(receipts := w.desk.receipts[id := settled]));
    }
  }

  lemma OtherKeys(w: World, id: Id)
    requires ReceiptsOk(w) && id in w.desk.receipts
    ensures forall j :: j in w.desk.receipts && j != id ==> w.desk.receipts[j].key != w.desk.receipts[id].key
  {
    assert ReceiptOk(w, id);
    forall j | j in w.desk.receipts && j != id
      ensures w.desk.receipts[j].key != w.desk.receipts[id].key
    {
      assert ReceiptOk(w, j);
    }
  }

  lemma RejectSafe(w: World, id: Id, operator: Name, reason: Name)
    requires Safe(w)
    ensures Safe(Reject(w, id, operator, reason).0)
  {
    if id in w.desk.pending && w.desk.receipts[id].status == PendingApproval {
      assert ReceiptOk(w, id);
      OtherKeys(w, id);
      UnsettledReceiptSafe(w, Reject(w, id, operator, reason).0.desk, id, w.desk.receipts[id].(status := Rejected));
    }
  }

  // ---------------------------------------------------------------------------
  // Runs
  // ---------------------------------------------------------------------------

  datatype Op =
    | ClaimOp(claimOp: Claims.Op)
    | RedeemOp(claim: Id, user: Name, destination: Name, chain: Name, key: Name, receiptId: Id, requestId: Id,
               t: Readings)
    | ApproveOp(receipt: Id, operator: Name, required: int, newRequest: Id)
    | RejectOp(receipt: Id, operator: Name, reason: Name)
    | BuildOp(asset: Option<Name>, chain: Name, batchId: Id)
    | ApproveBatchOp(batchId: Id)

  /** Ids drawn are new, and the clock does not run backwards. */
  ghost predicate Enabled(w: World, op: Op) {
    match op
    case ClaimOp(c) => Claims.Fresh(w.book, c)
    case RedeemOp(_, _, _, _, _, receiptId, requestId, t) =>
      receiptId !in w.desk.issued && requestId !in w.engine.issued && InOrder(w.desk.clock, t)
    case ApproveOp(_, _, _, requestId) => requestId !in w.engine.issued
    case BuildOp(_, _, batchId) => batchId !in w.engine.issued
    case _ => true
  }

  ghost function Step(w: World, op: Op): World
    requires Enabled(w, op)
  {
    match op
    case ClaimOp(c) => w.(book := Claims.Step(w.book, c))
    case RedeemOp(claim, user, destination, chain, key, receiptId, requestId, t) =>
      Redeem(w, claim, user, destination, chain, key, receiptId, requestId, t).0
    case ApproveOp(id, operator, required, requestId) => Approve(w, id, operator, required, requestId).0
    case RejectOp(id, operator, reason) => Reject(w, id, operator, reason).0
    case BuildOp(asset, chain, batchId) => w.(engine := Settlement.Build(w.engine, asset, chain, batchId).0)
    case ApproveBatchOp(batchId) => w.(engine := Settlement.Approve(w.engine, batchId).0)
  }

  ghost predicate Initial(w: World) {
    && w.book == Claims.Book(map[], {}, {})
    && w.engine == Settlement.Engine([], map[], {})
    && w.desk == Desk(map[], map[], map[], {}, map[], {}, map[], w.desk.clock)
  }

  ghost predicate IsRun(worlds: seq<World>, ops: seq<Op>) {
    && |worlds| == |ops| + 1 && Initial(worlds[0])
    && forall i :: 0 <= i < |ops| ==> Enabled(worlds[i], ops[i]) && worlds[i + 1] == Step(worlds[i], ops[i])
  }

  lemma {:induction false} StepSafe(w: World, op: Op)
    requires Safe(w) && Enabled(w, op)
    ensures Safe(Step(w, op))
  {
    match op
    case ClaimOp(c) => ClaimStepSafe(w, c);
    case RedeemOp(claim, user, destination, chain, key, receiptId, requestId, t) =>
      RedeemSafe(w, claim, user, destination, chain, key, receiptId, requestId, t);
    case ApproveOp(id, operator, required, requestId) => ApproveSafe(w, id, operator, required, requestId);
    case RejectOp(id, operator, reason) => RejectSafe(w, id, operator, reason);
    case BuildOp(asset, chain, batchId) => BuildSafe(w, asset, chain, batchId);
    case ApproveBatchOp(batchId) => ApproveBatchSafe(w, batchId);
  }

  lemma {:induction false} RunSafe(worlds: seq<World>, ops: seq<Op>, n: nat)
    requires IsRun(worlds, ops) && n <= |ops|
    ensures Safe(worlds[n])
  {
    if n > 0 {
      RunSafe(worlds, ops, n - 1);
      StepSafe(worlds[n - 1], ops[n - 1]);
    }
  }
}
