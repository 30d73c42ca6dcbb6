/** What the calls of a run say about receipts: where each comes from, who approved or rejected it, when
    it settles, and what each refusal means. */
module RedemptionHistory {
  import opened Common
  import opened Redemption
  import opened RedemptionLimits
  import opened RedemptionSafety
  import opened SlidingWindow
  import ClaimHistory
  import Claims
  import Settlement

  // ---------------------------------------------------------------------------
  // Rejection
  // ---------------------------------------------------------------------------

  /** The receipt is in the approval queue, neither settled nor rejected. */
  ghost predicate Waits(w: World, id: Id) {
    && id in w.desk.pending && id in w.desk.receipts
    && w.desk.receipts[id].status != Processing && w.desk.receipts[id].status != Rejected
  }

  /** A rejection goes through exactly for a waiting receipt, which it marks; it notes who rejected it and
      why, and changes nothing else. */
  lemma RejectOutcome(w: World, id: Id, operator: Name, reason: Name)
    ensures var (w', r) := Reject(w, id, operator, reason);
            match r
            case Ok(receipt) =>
              && Waits(w, id) && receipt == w.desk.receipts[id].(status := Rejected)
              && w' == w.(desk := w.desk.(receipts := w.desk.receipts[id := receipt], pending := w'.desk.pending))
              && w'.desk.pending == w.desk.pending[id := Approval(w.desk.pending[id].approvals,
                                                                  w.desk.pending[id].rejections + [(operator, reason)])]
            case Err(error) =>
              && w' == w
              && if id in w.desk.pending && id in w.desk.receipts
                 then error == ReceiptNotPendingApproval
                      && (w.desk.receipts[id].status == Processing || w.desk.receipts[id].status == Rejected)
                 else error == ApprovalRequestNotFound
  {
  }

  /** A rejected receipt in a safe world can no longer be approved. */
  lemma RejectedRefuses(w: World, id: Id, operator: Name, required: int, requestId: Id)
    requires Safe(w) && id in w.desk.receipts && w.desk.receipts[id].status == Rejected
    ensures w.desk.receipts[id].request == None
    ensures Approve(w, id, operator, required, requestId) == (w, Err(ReceiptNotPendingApproval))
  {
    assert ReceiptOk(w, id);
  }

  /** Over every run, rejecting a waiting receipt succeeds, and from then on the receipt is rejected, has no
      settlement request, and every approval of it is refused. */
  lemma RejectionIsFinal(worlds: seq<World>, ops: seq<Op>, m: nat, n: nat)
    requires IsRun(worlds, ops) && m < n <= |ops| && ops[m].RejectOp? && Waits(worlds[m], ops[m].receipt)
    ensures Reject(worlds[m], ops[m].receipt, ops[m].operator, ops[m].reason).1.Ok?
    ensures ops[m].receipt in worlds[n].desk.receipts
    ensures var r := worlds[n].desk.receipts[ops[m].receipt]; r.status == Rejected && r.request == None
    ensures forall operator, required, requestId ::
              Approve(worlds[n], ops[m].receipt, operator, required, requestId).1 == Err(ReceiptNotPendingApproval)
  {
    var id := ops[m].receipt;
    RejectOutcome(worlds[m], id, ops[m].operator, ops[m].reason);
    ReceiptsAreFinal(worlds, ops, m + 1, n, id);
    RunSafe(worlds, ops, n);
    forall operator, required, requestId
      ensures Approve(worlds[n], id, operator, required, requestId).1 == Err(ReceiptNotPendingApproval)
    {
      RejectedRefuses(worlds[n], id, operator, required, requestId);
    }
    RejectedRefuses(worlds[n], id, Name(""), 0, 0);
  }

  // ---------------------------------------------------------------------------
  // Approval
  // ---------------------------------------------------------------------------

  /** What settling a receipt leaves: it and its claim are marked, and its request stands last. */
  ghost predicate Settled(w: World, w': World, id: Id, requestId: Id)
    requires id in w.desk.receipts
  {
    var r := w.desk.receipts[id];
    && r.claim in w.book.claims
    && w'.book.claims == w.book.claims[r.claim := w.book.claims[r.claim].(state := Claims.Burned)]
    && w'.desk.receipts == w.desk.receipts[id := r.(status := Processing, request := Some(requestId))]
    && |w'.engine.requests| == |w.engine.requests| + 1 && w'.engine.requests[..|w.engine.requests|] == w.engine.requests
    && Carries(w'.engine.requests[|w.engine.requests|], w'.desk.receipts[id])
  }

  /** An approval counts exactly when the receipt waits and the operator is new to it. It settles the
      receipt exactly when it is the last one asked for and the claim is still stored. */
  lemma ApproveOutcome(w: World, id: Id, operator: Name, required: int, requestId: Id)
    ensures var (w', r) := Approve(w, id, operator, required, requestId);
            var waits := Waits(w, id);
            var new_ := waits && operator !in w.desk.pending[id].approvals;
            var enough := new_ && |w.desk.pending[id].approvals| + 1 >= required;
            && (new_ ==> w'.desk.pending == w.desk.pending[id := w.desk.pending[id].(approvals :=
                                                                  w.desk.pending[id].approvals + [operator])])
            && match r
               case Ok(receipt) =>
                 && new_ && id in w'.desk.receipts && receipt == w'.desk.receipts[id]
                 && (if enough then Settled(w, w', id, requestId)
                     else w' == w.(desk := w.desk.(pending := w'.desk.pending)))
               case Err(error) =>
                 && w' == w.(desk := w.desk.(pending := w'.desk.pending))
                 && match error
                    case ApprovalRequestNotFound => id !in w.desk.pending || id !in w.desk.receipts
                    case ReceiptNotPendingApproval => id in w.desk.pending && id in w.desk.receipts && !waits
                    case OperatorAlreadyApproved => waits && operator in w.desk.pending[id].approvals
                    case ClaimNotFound => enough && w.desk.receipts[id].claim !in w.book.claims
                    case _ => false
  {
  }

  /** The operators who approved a receipt while it waited, in order, each once. */
  ghost function Approvers(worlds: seq<World>, ops: seq<Op>, n: nat, id: Id): seq<Name>
    requires n <= |ops| < |worlds|
  {
    if n == 0 then [] else
    var before, op := Approvers(worlds, ops, n - 1, id), ops[n - 1];
    if op.ApproveOp? && op.receipt == id && Waits(worlds[n - 1], id) && op.operator !in before
    then before + [op.operator] else before
  }

  /** Who rejected a receipt while it waited, and why. */
  ghost function Rejecters(worlds: seq<World>, ops: seq<Op>, n: nat, id: Id): seq<(Name, Name)>
    requires n <= |ops| < |worlds|
  {
    if n == 0 then [] else
    var before, op := Rejecters(worlds, ops, n - 1, id), ops[n - 1];
    if op.RejectOp? && op.receipt == id && Waits(worlds[n - 1], id) then before + [(op.operator, op.reason)] else before
  }

  function OnRecord(d: Desk, id: Id): Approval {
    if id in d.pending then d.pending[id] else Approval([], [])
  }

  lemma RedeemKeepsRecord(w: World, op: Op, id: Id)
    requires op.RedeemOp? && Enabled(w, op) && KeysOk(w.desk)
    ensures OnRecord(Step(w, op).desk, id) == OnRecord(w.desk, id)
  {
    var base := w.(desk := Checked(w.desk, op.user, op.t));
    AdmitKeepsRecord(base, op, id);
  }

  lemma AdmitKeepsRecord(w: World, op: Op, id: Id)
    requires op.RedeemOp? && op.receiptId !in w.desk.pending
    ensures var w' := Admit(w, op.claim, op.user, op.destination, op.chain, op.key, op.receiptId, op.requestId, op.t).0;
            OnRecord(w'.desk, id) == OnRecord(w.desk, id)
  {
  }

  lemma ApproveRecords(w: World, op: Op, id: Id)
    requires op.ApproveOp? && Enabled(w, op)
    ensures var a, a' := OnRecord(w.desk, id), OnRecord(Step(w, op).desk, id);
            a' == if op.receipt == id && Waits(w, id) && op.operator !in a.approvals
                  then a.(approvals := a.approvals + [op.operator]) else a
  {
    ApproveOutcome(w, op.receipt, op.operator, op.required, op.newRequest);
  }

  lemma RejectRecords(w: World, op: Op, id: Id)
    requires op.RejectOp?
    ensures var a, a' := OnRecord(w.desk, id), OnRecord(Step(w, op).desk, id);
            a' == if op.receipt == id && Waits(w, id) then a.(rejections := a.rejections + [(op.operator, op.reason)])
                  else a
  {
    RejectOutcome(w, op.receipt, op.operator, op.reason);
  }

  lemma StepRecords(w: World, op: Op, id: Id)
    requires KeysOk(w.desk) && Enabled(w, op)
    ensures var a, a' := OnRecord(w.desk, id), OnRecord(Step(w, op).desk, id);
            && a'.approvals == (if op.ApproveOp? && op.receipt == id && Waits(w, id) && op.operator !in a.approvals
                                then a.approvals + [op.operator] else a.approvals)
            && a'.rejections == (if op.RejectOp? && op.receipt == id && Waits(w, id)
                                 then a.rejections + [(op.operator, op.reason)] else a.rejections)
  {
    if op.RedeemOp? {
      RedeemKeepsRecord(w, op, id);
    } else if op.ApproveOp? {
      ApproveRecords(w, op, id);
    } else if op.RejectOp? {
      RejectRecords(w, op, id);
    } else {
      assert Step(w, op).desk == w.desk;
    }
  }

  /** In every reachable state the queue has on record exactly the operators who approved or rejected a
      receipt while it waited. */
  lemma {:induction false} RunRecords(worlds: seq<World>, ops: seq<Op>, n: nat, id: Id)
    requires IsRun(worlds, ops) && n <= |ops|
    ensures OnRecord(worlds[n].desk, id) == Approval(Approvers(worlds, ops, n, id), Rejecters(worlds, ops, n, id))
  {
    if n > 0 {
      RunRecords(worlds, ops, n - 1, id);
      RunSafe(worlds, ops, n - 1);
      StepRecords(worlds[n - 1], ops[n - 1], id);
    }
  }

  // ---------------------------------------------------------------------------
  // Where a receipt comes from
  // ---------------------------------------------------------------------------

  /** The fees of an amount: the network's, one part in ten thousand but at least one unit for the service,
      and the rest for the user. */
  ghost predicate FeesAddUp(f: Fees, amount: int, chain: Name) {
    && Settlement.IsFee(chain, f.network)
    && f.service >= 1 && (f.service > 1 ==> 10_000 * f.service <= amount) && amount < 10_000 * (f.service + 1)
    && f.total == f.network + f.service && f.total + f.netToUser == amount
  }

  lemma QuoteAddsUp(amount: int, chain: Name)
    ensures FeesAddUp(FeeQuote(amount, chain), amount, chain)
  {
    Settlement.SubmitOutcome(Settlement.Engine([], map[], {}), chain, chain, amount, None, chain, 0);
  }

  /** The terms a redemption names for its receipt, the amount and the asset being those of the claim. */
  ghost predicate NamesReceipt(w: World, op: Op, id: Id, r: Receipt) {
    && op.RedeemOp? && op.receiptId == id && op.claim in w.book.claims
    && r.claim == op.claim && r.key == op.key && r.user == op.user && r.destination == op.destination
    && r.chain == op.chain && r.createdAt == op.t.create
    && r.amount == w.book.claims[op.claim].denomination && r.asset == w.book.claims[op.claim].asset
    && FeesAddUp(r.fees, r.amount, r.chain)
  }

  /** The claim is stored, in time, in circulation and the user's. */
  ghost predicate Redeemable(b: Claims.Book, claim: Id, user: Name, now: real) {
    && claim in b.claims && !ClaimHistory.Past(b.claims[claim].expiry, now) && b.claims[claim].owner == user
    && (b.claims[claim].state == Claims.Created || b.claims[claim].state == Claims.Transferred)
  }

  /** Past the rate limit, redeeming goes through exactly for a redeemable claim. From the threshold on its
      receipt is queued with nothing else done; below, it is settled at once. */
  lemma AdmitOutcome(w: World, op: Op)
    requires op.RedeemOp?
    ensures var (w', r) :=
              Admit(w, op.claim, op.user, op.destination, op.chain, op.key, op.receiptId, op.requestId, op.t);
            match r
            case Ok(receipt) =>
              && Redeemable(w.book, op.claim, op.user, op.t.validate) && NamesReceipt(w, op, op.receiptId, receipt)
              && w'.desk.receipts == w.desk.receipts[op.receiptId := receipt]
              && w'.desk.idempotency == w.desk.idempotency[op.key := op.receiptId]
              && w'.desk.quarantine == w.desk.quarantine
              && (if receipt.amount >= 1_000_000_000 then
                    && receipt.status == PendingApproval && receipt.request == None
                    && w'.desk.pending == w.desk.pending[op.receiptId := Approval([], [])]
                    && w'.book == w.book && w'.engine == w.engine
                  else
                    && receipt.status == Processing && receipt.request == Some(op.requestId)
                    && w'.desk.pending == w.desk.pending
                    && w'.book.claims == w.book.claims[op.claim := w.book.claims[op.claim].(state := Claims.Burned)]
                    && |w'.engine.requests| == |w.engine.requests| + 1
                    && w'.engine.requests[..|w.engine.requests|] == w.engine.requests
                    && Carries(w'.engine.requests[|w.engine.requests|], receipt))
            case Err(error) =>
              && w' == w
              && match error
                 case ClaimNotFound => op.claim !in w.book.claims
                 case ClaimExpired =>
                   op.claim in w.book.claims && ClaimHistory.Past(w.book.claims[op.claim].expiry, op.t.validate)
                 case ClaimAlreadyConsumed =>
                   && op.claim in w.book.claims && w.book.claims[op.claim].state != Claims.Created
                   && w.book.claims[op.claim].state != Claims.Transferred
                   && !ClaimHistory.Past(w.book.claims[op.claim].expiry, op.t.validate)
                 case NotOwner =>
                   && op.claim in w.book.claims && w.book.claims[op.claim].owner != op.user
                   && Redeemable(w.book, op.claim, w.book.claims[op.claim].owner, op.t.validate)
                 case _ => false
  {
    if op.claim in w.book.claims {
      QuoteAddsUp(w.book.claims[op.claim].denomination, op.chain);
    }
  }

  /** The user has ten redemptions on the full record that were counted in the hour before the reading. */
  ghost predicate TenInHour(records: seq<Record>, now: real) {
    |records| >= 10 && records[|records| - 10].recordedAt > now - 3600.0
  }

  lemma {:induction false} RecentIsAfter(times: seq<real>, cutoff: real, i: nat)
    requires i < |Recent(times, cutoff)|
    ensures Recent(times, cutoff)[i] > cutoff
  {
    if times[0] > cutoff && i > 0 {
      RecentIsAfter(times[1..], cutoff, i - 1);
    } else if times[0] <= cutoff {
      RecentIsAfter(times[1..], cutoff, i);
    }
  }

  lemma TenRecentIff(times: seq<real>, cutoff: real)
    requires Ascending(times)
    ensures |Recent(times, cutoff)| >= 10 <==> |times| >= 10 && times[|times| - 10] > cutoff
  {
    var cut := RecentIsSuffix(times, cutoff);
    var kept := Recent(times, cutoff);
    if |kept| >= 10 {
      RecentIsAfter(times, cutoff, |kept| - 10);
    }
  }

  /** The check on the pruned list finds the limit reached exactly when the full record has ten in the hour. */
  lemma LimitReachedIff(records: seq<Record>, times: seq<real>, clock: real, now: real)
    requires WindowOk(records, times, clock) && clock <= now
    ensures |Recent(times, now - HOUR)| >= RATE_LIMIT_PER_HOUR <==> TenInHour(records, now)
  {
    PrunedAnswersAsFull(records, times, clock, now);
    RecordsAscend(records, times, clock);
    TenRecentIff(Times(records), now - HOUR);
  }

  lemma RecordsAscend(records: seq<Record>, times: seq<real>, clock: real)
    requires WindowOk(records, times, clock)
    ensures Ascending(Times(records))
  {
  }

  /** In every reachable state, a redemption under a new key is turned away by the rate limit exactly when
      its user has ten on record in the last hour, and otherwise admitted or not on its merits. */
  lemma RateLimitIff(worlds: seq<World>, ops: seq<Op>, n: nat, op: Op)
    requires IsRun(worlds, ops) && n <= |ops| && op.RedeemOp? && Enabled(worlds[n], op)
    requires op.key !in worlds[n].desk.idempotency
    ensures var w := worlds[n];
            var (w', r) :=
              Redeem(w, op.claim, op.user, op.destination, op.chain, op.key, op.receiptId, op.requestId, op.t);
            var base := w.(desk := Checked(w.desk, op.user, op.t));
            if TenInHour(TimesOf(w.desk.records, op.user), op.t.check) then
              r == Err(RateLimitExceeded) && w' == base
            else
              (w', r) == Admit(base, op.claim, op.user, op.destination, op.chain, op.key, op.receiptId, op.requestId,
                               op.t)
  {
    RunWindows(worlds, ops, n);
    var d := worlds[n].desk;
    LimitReachedIff(TimesOf(d.records, op.user), TimesOf(d.timestamps, op.user), d.clock, op.t.check);
  }

  /** A new receipt has the terms its redemption names. */
  lemma NewReceiptNamed(w: World, op: Op, id: Id)
    requires Enabled(w, op) && id !in w.desk.receipts && id in Step(w, op).desk.receipts
    ensures NamesReceipt(w, op, id, Step(w, op).desk.receipts[id])
  {
    if op.RedeemOp? {
      var base := w.(desk := Checked(w.desk, op.user, op.t));
      AdmitOutcome(base, op);
    } else if op.ApproveOp? {
      ApproveOutcome(w, op.receipt, op.operator, op.required, op.newRequest);
    } else if op.RejectOp? {
      RejectOutcome(w, op.receipt, op.operator, op.reason);
    }
  }

  /** In every reachable state a receipt has the terms its redemption named, with fees that add up. */
  lemma {:induction false} RunReceiptNamed(worlds: seq<World>, ops: seq<Op>, n: nat, id: Id)
    requires IsRun(worlds, ops) && n <= |ops| && id in worlds[n].desk.receipts
    ensures exists k :: 0 <= k < n && NamesReceipt(worlds[k], ops[k], id, worlds[n].desk.receipts[id])
  {
    var m := n - 1;
    if id in worlds[m].desk.receipts {
      RunReceiptNamed(worlds, ops, m, id);
      var k :| 0 <= k < m && NamesReceipt(worlds[k], ops[k], id, worlds[m].desk.receipts[id]);
      RunStepKeepsReceipt(worlds, ops, m, id);
      assert NamesReceipt(worlds[k], ops[k], id, worlds[n].desk.receipts[id]);
    } else {
      NewReceiptNamed(worlds[m], ops[m], id);
    }
  }

  lemma StepKeepsQuarantine(w: World, op: Op)
    requires Enabled(w, op)
    ensures Step(w, op).desk.quarantine == w.desk.quarantine
  {
    if op.RedeemOp? {
      AdmitOutcome(w.(desk := Checked(w.desk, op.user, op.t)), op);
    } else if op.ApproveOp? {
      ApproveOutcome(w, op.receipt, op.operator, op.required, op.newRequest);
    } else if op.RejectOp? {
      RejectOutcome(w, op.receipt, op.operator, op.reason);
    } else {
      assert Step(w, op).desk == w.desk;
    }
  }

  /** The fraud check never quarantines a claim, over any run. */
  lemma {:induction false} RunNothingQuarantined(worlds: seq<World>, ops: seq<Op>, n: nat)
    requires IsRun(worlds, ops) && n <= |ops|
    ensures worlds[n].desk.quarantine == {}
  {
    if n > 0 {
      RunNothingQuarantined(worlds, ops, n - 1);
      StepKeepsQuarantine(worlds[n - 1], ops[n - 1]);
    }
  }

  // ---------------------------------------------------------------------------
  // Requests and batches
  // ---------------------------------------------------------------------------

  /** What an operation other than building and approving batches does to the engine. */
  ghost predicate Submits(e: Settlement.Engine, e': Settlement.Engine) {
    && e'.batches == e.batches
    && (e'.requests == e.requests
        || (|e'.requests| == |e.requests| + 1 && e'.requests[..|e.requests|] == e.requests
            && Settlement.IsFee(e'.requests[|e.requests|].chain, e'.requests[|e.requests|].fee)))
  }

  lemma SettleSubmits(w: World, r: Receipt, requestId: Id)
    ensures Submits(w.engine, Settle(w, r, requestId).0.engine)
  {
    Settlement.SubmitOutcome(w.engine, r.user, r.destination, r.amount, r.asset, r.chain, requestId);
  }

  lemma StepSubmits(w: World, op: Op)
    requires Enabled(w, op) && !op.BuildOp? && !op.ApproveBatchOp?
    ensures Submits(w.engine, Step(w, op).engine)
  {
    if op.RedeemOp? {
      if op.claim in w.book.claims {
        SettleSubmits(w, NewReceipt(w.book, op.claim, op.user, op.destination, op.chain, op.key, op.t.create),
                      op.requestId);
      }
    } else if op.ApproveOp? {
      if op.receipt in w.desk.receipts {
        SettleSubmits(w, w.desk.receipts[op.receipt], op.newRequest);
      }
    }
  }

  ghost predicate FeesPerChain(e: Settlement.Engine) {
    forall i :: 0 <= i < |e.requests| ==> Settlement.IsFee(e.requests[i].chain, e.requests[i].fee)
  }

  lemma StepKeepsFees(w: World, op: Op)
    requires Enabled(w, op) && FeesPerChain(w.engine)
    ensures FeesPerChain(Step(w, op).engine)
  {
    if op.BuildOp? {
      Settlement.BuildOutcome(w.engine, op.asset, op.chain, op.batchId);
    } else if op.ApproveBatchOp? {
      Settlement.ApproveOutcome(w.engine, op.batchId);
    } else {
      StepSubmits(w, op);
    }
  }

  /** In every reachable state each request has the fee of its chain. */
  lemma {:induction false} RunFees(worlds: seq<World>, ops: seq<Op>, n: nat)
    requires IsRun(worlds, ops) && n <= |ops|
    ensures FeesPerChain(worlds[n].engine)
  {
    if n > 0 {
      RunFees(worlds, ops, n - 1);
      StepKeepsFees(worlds[n - 1], ops[n - 1]);
    }
  }

  /** Operation k approves the batch, which is stored. */
  ghost predicate ApprovesBatch(worlds: seq<World>, ops: seq<Op>, k: nat, batchId: Id)
    requires k < |ops| < |worlds|
  {
    ops[k] == ApproveBatchOp(batchId) && batchId in worlds[k].engine.batches
  }

  /** Operation k builds the batch, for its asset and chain. */
  ghost predicate BuildsBatch(ops: seq<Op>, k: nat, batchId: Id, b: Settlement.Batch)
    requires k < |ops|
  {
    ops[k] == BuildOp(b.asset, b.chain, batchId)
  }

  lemma StepBatch(w: World, op: Op, batchId: Id)
    requires Enabled(w, op) && w.engine.batches.Keys <= w.engine.issued
    ensures var batches, batches' := w.engine.batches, Step(w, op).engine.batches;
            if batchId in batches then
              && batchId in batches'
              && batches'[batchId] == if op == ApproveBatchOp(batchId)
                                      then batches[batchId].(status := Settlement.Approved) else batches[batchId]
            else
              batchId in batches' ==> op == BuildOp(batches'[batchId].asset, batches'[batchId].chain, batchId)
                                      && batches'[batchId].status == Settlement.Collecting
  {
    if op.BuildOp? {
      Settlement.BuildOutcome(w.engine, op.asset, op.chain, op.batchId);
    } else if op.ApproveBatchOp? {
      Settlement.ApproveOutcome(w.engine, op.batchId);
    } else {
      StepSubmits(w, op);
    }
  }

  /** In every reachable state a batch is for the asset and chain it was built for, and is approved exactly
      when it was approved since. */
  lemma {:induction false} RunBatchNamed(worlds: seq<World>, ops: seq<Op>, n: nat, batchId: Id)
    requires IsRun(worlds, ops) && n <= |ops|
    ensures batchId in worlds[n].engine.batches ==>
              exists k :: 0 <= k < n && BuildsBatch(ops, k, batchId, worlds[n].engine.batches[batchId])
    ensures (exists k :: 0 <= k < n && ApprovesBatch(worlds, ops, k, batchId)) <==>
            batchId in worlds[n].engine.batches && worlds[n].engine.batches[batchId].status == Settlement.Approved
  {
    if n > 0 {
      var m := n - 1;
      RunBatchNamed(worlds, ops, m, batchId);
      RunSafe(worlds, ops, m);
      StepBatch(worlds[m], ops[m], batchId);
      if batchId in worlds[n].engine.batches {
        if batchId in worlds[m].engine.batches {
          var k :| 0 <= k < m && BuildsBatch(ops, k, batchId, worlds[m].engine.batches[batchId]);
          assert BuildsBatch(ops, k, batchId, worlds[n].engine.batches[batchId]);
        } else {
          assert BuildsBatch(ops, m, batchId, worlds[n].engine.batches[batchId]);
        }
      }
      assert ApprovesBatch(worlds, ops, m, batchId) <==>
             ops[m] == ApproveBatchOp(batchId) && batchId in worlds[m].engine.batches;
    }
  }

  // ---------------------------------------------------------------------------
  // The record
  // ---------------------------------------------------------------------------

  /** A user's record names receipts of the user, dated as they are, each once. */
  ghost predicate RecordsExact(d: Desk) {
    forall user, i :: 0 <= i < |TimesOf(d.records, user)| ==> RecordExact(d, user, i)
  }

  ghost predicate RecordExact(d: Desk, user: Name, i: nat)
    requires i < |TimesOf(d.records, user)|
  {
    var records := TimesOf(d.records, user);
    && records[i].receipt in d.receipts && d.receipts[records[i].receipt].user == user
    && d.receipts[records[i].receipt].createdAt == records[i].createdAt
    && forall j :: i < j < |records| ==> records[j].receipt != records[i].receipt
  }

  lemma FileKeepsExact(d: Desk, base: Desk, id: Id, r: Receipt, t: Readings)
    requires RecordsExact(d) && base.records == d.records && base.receipts == d.receipts
    requires id !in d.receipts && r.createdAt == t.create
    ensures RecordsExact(File(base, id, r, t))
  {
    var d' := File(base, id, r, t);
    forall user, i | 0 <= i < |TimesOf(d'.records, user)|
      ensures RecordExact(d', user, i)
    {
      if i < |TimesOf(d.records, user)| {
        assert RecordExact(d, user, i);
      }
    }
  }

  lemma SameHistoryExact(d: Desk, d': Desk)
    requires RecordsExact(d) && SameHistory(d, d')
    ensures RecordsExact(d')
  {
    forall user, i | 0 <= i < |TimesOf(d'.records, user)|
      ensures RecordExact(d', user, i)
    {
      assert RecordExact(d, user, i);
    }
  }

  lemma CheckKeepsExact(d: Desk, user: Name, t: Readings)
    requires RecordsExact(d)
    ensures RecordsExact(Checked(d, user, t)) && RecordsExact(d.(clock := t.record))
  {
    forall u, i | 0 <= i < |TimesOf(d.records, u)|
      ensures RecordExact(Checked(d, user, t), u, i) && RecordExact(d.(clock := t.record), u, i)
    {
      assert RecordExact(d, u, i);
    }
  }

  lemma RedeemKeepsExact(w: World, op: Op)
    requires op.RedeemOp? && Enabled(w, op) && RecordsExact(w.desk) && w.desk.receipts.Keys <= w.desk.issued
    ensures RecordsExact(Step(w, op).desk)
  {
    CheckKeepsExact(w.desk, op.user, op.t);
    if op.key !in w.desk.idempotency {
      var base, filed :=
        RedeemedDesk(w, op.claim, op.user, op.destination, op.chain, op.key, op.receiptId, op.requestId, op.t);
      if filed.Some? {
        FileKeepsExact(w.desk, base, op.receiptId, filed.value, op.t);
      }
    }
  }

  lemma StepKeepsExact(w: World, op: Op)
    requires Enabled(w, op) && RecordsExact(w.desk) && w.desk.receipts.Keys <= w.desk.issued
    ensures RecordsExact(Step(w, op).desk)
  {
    if op.RedeemOp? {
      RedeemKeepsExact(w, op);
    } else if op.ApproveOp? {
      ApproveKeepsHistory(w, op.receipt, op.operator, op.required, op.newRequest);
      SameHistoryExact(w.desk, Step(w, op).desk);
    } else if op.RejectOp? {
      RejectKeepsHistory(w, op.receipt, op.operator, op.reason);
      SameHistoryExact(w.desk, Step(w, op).desk);
    } else {
      assert Step(w, op).desk == w.desk;
    }
  }

  lemma {:induction false} RunKeepsExact(worlds: seq<World>, ops: seq<Op>, n: nat)
    requires IsRun(worlds, ops) && n <= |ops|
    ensures RecordsExact(worlds[n].desk)
  {
    if n > 0 {
      RunKeepsExact(worlds, ops, n - 1);
      RunStepKeepsExact(worlds, ops, n - 1);
    }
  }

  /** In every reachable state the records name exactly the receipts, each in its user's and dated as it is. */
  lemma RunRecordsExact(worlds: seq<World>, ops: seq<Op>, n: nat)
    requires IsRun(worlds, ops) && n <= |ops|
    ensures RecordsExact(worlds[n].desk) && Dated(worlds[n].desk)
  {
    RunKeepsExact(worlds, ops, n);
    RunWindows(worlds, ops, n);
  }

  lemma RunStepKeepsExact(worlds: seq<World>, ops: seq<Op>, n: nat)
    requires IsRun(worlds, ops) && n < |ops| && RecordsExact(worlds[n].desk)
    ensures RecordsExact(worlds[n + 1].desk)
  {
    RunSafe(worlds, ops, n);
    StepKeepsExact(worlds[n], ops[n]);
  }
}
