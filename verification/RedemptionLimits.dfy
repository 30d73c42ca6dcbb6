/** Whole-run limits on redemption: receipts that match their requests and are final, approved by enough
    operators, at most ten new receipts an hour, and no loss of submitted value. */
module RedemptionLimits {
  import opened Common
  import opened Redemption
  import opened RedemptionSafety
  import opened SlidingWindow
  import ClaimHistory
  import Claims
  import Settlement

  // ---------------------------------------------------------------------------
  // Receipts and settlement requests
  // ---------------------------------------------------------------------------

  /** In every reachable state a processing receipt has a request of its own with its terms, its
      claim is burned, and every request belongs to a receipt. */
  lemma ReceiptsMatchRequests(worlds: seq<World>, ops: seq<Op>, n: nat, id: Id)
    requires IsRun(worlds, ops) && n <= |ops|
    requires id in worlds[n].desk.receipts && worlds[n].desk.receipts[id].status == Processing
    ensures var w, r := worlds[n], worlds[n].desk.receipts[id];
            && (exists i :: 0 <= i < |w.engine.requests| && Carries(w.engine.requests[i], r))
            && (forall j :: j in w.desk.receipts && j != id ==> w.desk.receipts[j].request != r.request)
            && r.claim in w.book.claims && w.book.claims[r.claim].state == Claims.Burned
            && forall i :: 0 <= i < |w.engine.requests| ==> Owned(w.desk, w.engine.requests[i].id)
  {
    RunSafe(worlds, ops, n);
    assert ReceiptOk(worlds[n], id);
  }

  // ---------------------------------------------------------------------------
  // Idempotency
  // ---------------------------------------------------------------------------

  /** Repeating a key in a reachable state returns the receipt filed under it and changes nothing
      but the time. */
  lemma ReplayReturnsReceipt(worlds: seq<World>, ops: seq<Op>, n: nat, claim: Id, user: Name, destination: Name,
                             chain: Name, key: Name, receiptId: Id, requestId: Id, t: Readings)
    requires IsRun(worlds, ops) && n <= |ops| && key in worlds[n].desk.idempotency
    ensures var w := worlds[n];
            var (w', r) := Redeem(w, claim, user, destination, chain, key, receiptId, requestId, t);
            && r.Ok? && r.value.key == key
            && w' == w.(desk := w.desk.(clock := t.record))
            && forall id :: id in w.desk.receipts && w.desk.receipts[id].key == key ==> w.desk.receipts[id] == r.value
  {
    RunSafe(worlds, ops, n);
    var w := worlds[n];
    forall id | id in w.desk.receipts && w.desk.receipts[id].key == key
      ensures id == w.desk.idempotency[key]
    {
      assert ReceiptOk(w, id);
    }
  }

  // ---------------------------------------------------------------------------
  // Receipts are final
  // ---------------------------------------------------------------------------

  /** A receipt's terms never change, and a settled or rejected receipt does not change at all. */
  ghost predicate KeepsReceipt(d: Desk, d': Desk, id: Id) {
    id in d.receipts ==> id in d'.receipts && SameTerms(d.receipts[id], d'.receipts[id])
  }

  ghost predicate SameTerms(r: Receipt, r': Receipt) {
    && r'.(status := r.status, request := r.request) == r
    && (r.status != PendingApproval ==> r' == r)
  }

  lemma RedeemKeepsReceipt(w: World, claim: Id, user: Name, destination: Name, chain: Name, key: Name,
                           receiptId: Id, requestId: Id, t: Readings, id: Id)
    requires id in w.desk.receipts && receiptId != id
    ensures KeepsReceipt(w.desk, Redeem(w, claim, user, destination, chain, key, receiptId, requestId, t).0.desk, id)
  {
  }

  lemma StepKeepsReceipt(w: World, op: Op, id: Id)
    requires Enabled(w, op) && w.desk.receipts.Keys <= w.desk.issued
    ensures KeepsReceipt(w.desk, Step(w, op).desk, id)
  {
    if id in w.desk.receipts {
      match op
      case RedeemOp(claim, user, destination, chain, key, receiptId, requestId, t) =>
        RedeemKeepsReceipt(w, claim, user, destination, chain, key, receiptId, requestId, t, id);
      case ApproveOp(_, _, _, _) =>
      case RejectOp(_, _, _) =>
      case _ =>
        assert Step(w, op).desk == w.desk;
    }
  }

  lemma RunStepKeepsReceipt(worlds: seq<World>, ops: seq<Op>, n: nat, id: Id)
    requires IsRun(worlds, ops) && n < |ops|
    ensures KeepsReceipt(worlds[n].desk, worlds[n + 1].desk, id)
  {
    RunSafe(worlds, ops, n);
    StepKeepsReceipt(worlds[n], ops[n], id);
  }

  ghost predicate KeptByStep(worlds: seq<World>, k: nat, id: Id)
    requires k + 1 < |worlds|
  {
    KeepsReceipt(worlds[k].desk, worlds[k + 1].desk, id)
  }

  lemma {:induction false} KeptThroughout(worlds: seq<World>, m: nat, n: nat, id: Id)
    requires m <= n < |worlds| && forall k: nat :: m <= k < n ==> KeptByStep(worlds, k, id)
    ensures KeepsReceipt(worlds[m].desk, worlds[n].desk, id)
    decreases n
  {
    if m < n {
      KeptThroughout(worlds, m, n - 1, id);
      assert KeptByStep(worlds, n - 1, id);
    }
  }

  /** From any point of a run on, receipts keep their terms, and once rejected or settled stay as they
      are: a rejected receipt is never settled, and a settled one never changes its request. */
  lemma ReceiptsAreFinal(worlds: seq<World>, ops: seq<Op>, m: nat, n: nat, id: Id)
    requires IsRun(worlds, ops) && m <= n <= |ops|
    ensures KeepsReceipt(worlds[m].desk, worlds[n].desk, id)
  {
    forall k: nat | m <= k < n
      ensures KeptByStep(worlds, k, id)
    {
      RunStepKeepsReceipt(worlds, ops, k, id);
    }
    KeptThroughout(worlds, m, n, id);
  }

  // ---------------------------------------------------------------------------
  // Failed approvals
  // ---------------------------------------------------------------------------

  /** What a failed approval leaves: no claim burned, no request submitted and no receipt changed; and
      when it fails because the claim was split or merged away, the operator counted. */
  lemma FailedApproval(w: World, id: Id, operator: Name, required: int, requestId: Id)
    requires Approve(w, id, operator, required, requestId).1.Err?
    ensures var w' := Approve(w, id, operator, required, requestId).0;
            && w'.book == w.book && w'.engine == w.engine && w'.desk == w.desk.(pending := w'.desk.pending)
            && (if ApprovalRefusal(w.desk, id, operator).Some? then w' == w
                else w.desk.receipts[id].claim !in w.book.claims
                     && w'.desk.pending == w.desk.pending[id := Approval(w.desk.pending[id].approvals + [operator],
                                                                         w.desk.pending[id].rejections)])
  {
  }

  ghost predicate Gone(b: Claims.Book, claim: Id) {
    claim in b.issued && claim !in b.claims
  }

  lemma StepKeepsGone(w: World, op: Op, claim: Id)
    requires Claims.Consistent(w.book) && Enabled(w, op) && Gone(w.book, claim)
    ensures Gone(Step(w, op).book, claim)
  {
    if op.ClaimOp? {
      ClaimHistory.ClaimStepEvolves(w.book, op.claimOp);
    }
  }

  lemma RunStepKeepsGone(worlds: seq<World>, ops: seq<Op>, n: nat, claim: Id)
    requires IsRun(worlds, ops) && n < |ops| && Gone(worlds[n].book, claim)
    ensures Gone(worlds[n + 1].book, claim)
  {
    RunSafe(worlds, ops, n);
    StepKeepsGone(worlds[n], ops[n], claim);
  }

  lemma {:induction false} RunKeepsGone(worlds: seq<World>, ops: seq<Op>, m: nat, n: nat, claim: Id)
    requires IsRun(worlds, ops) && m <= n <= |ops| && Gone(worlds[m].book, claim)
    ensures Gone(worlds[n].book, claim)
    decreases n
  {
    if m < n {
      RunKeepsGone(worlds, ops, m, n - 1, claim);
      RunStepKeepsGone(worlds, ops, n - 1, claim);
    }
  }

  /** Such a receipt can never settle, however many operators approve it later: it stays in the queue
      until it is rejected. */
  lemma GoneNeverSettles(worlds: seq<World>, ops: seq<Op>, m: nat, n: nat, id: Id)
    requires IsRun(worlds, ops) && m <= n <= |ops| && id in worlds[m].desk.receipts
    requires worlds[m].desk.receipts[id].claim !in worlds[m].book.claims
    ensures id in worlds[n].desk.receipts && worlds[n].desk.receipts[id].status != Processing
  {
    RunSafe(worlds, ops, m);
    ClaimOfReceipt(worlds[m], id);
    RunKeepsGone(worlds, ops, m, n, worlds[m].desk.receipts[id].claim);
    ReceiptsAreFinal(worlds, ops, m, n, id);
    RunSafe(worlds, ops, n);
    ClaimOfReceipt(worlds[n], id);
  }

  lemma ClaimOfReceipt(w: World, id: Id)
    requires ReceiptsOk(w) && id in w.desk.receipts
    ensures w.desk.receipts[id].claim in w.book.issued
    ensures w.desk.receipts[id].status == Processing ==> w.desk.receipts[id].claim in w.book.claims
  {
    assert ReceiptOk(w, id);
  }

  // ---------------------------------------------------------------------------
  // Operator approvals
  // ---------------------------------------------------------------------------

  ghost predicate Distinct(names: seq<Name>) {
    forall i, j :: 0 <= i < j < |names| ==> names[i] != names[j]
  }

  /** Every large receipt that is processing was approved by `quorum` different operators. */
  ghost predicate ApprovedBy(d: Desk, quorum: int) {
    && d.pending.Keys <= d.receipts.Keys
    && forall id :: id in d.pending ==> EntryApprovedBy(d.pending[id], d.receipts[id], quorum)
  }

  ghost predicate EntryApprovedBy(a: Approval, r: Receipt, quorum: int) {
    Distinct(a.approvals) && (r.status == Processing ==> |a.approvals| >= quorum)
  }

  lemma ApproveKeepsQuorum(w: World, id: Id, operator: Name, required: int, requestId: Id, quorum: int)
    requires ApprovedBy(w.desk, quorum) && required >= quorum
    ensures ApprovedBy(Approve(w, id, operator, required, requestId).0.desk, quorum)
  {
    var d' := Approve(w, id, operator, required, requestId).0.desk;
    forall j | j in d'.pending
      ensures j in d'.receipts && EntryApprovedBy(d'.pending[j], d'.receipts[j], quorum)
    {
      assert EntryApprovedBy(w.desk.pending[j], w.desk.receipts[j], quorum);
    }
  }

  lemma RedeemKeepsQuorum(w: World, claim: Id, user: Name, destination: Name, chain: Name, key: Name,
                          receiptId: Id, requestId: Id, t: Readings, quorum: int)
    requires ApprovedBy(w.desk, quorum) && w.desk.receipts.Keys <= w.desk.issued && receiptId !in w.desk.issued
    ensures ApprovedBy(Redeem(w, claim, user, destination, chain, key, receiptId, requestId, t).0.desk, quorum)
  {
    var d' := Redeem(w, claim, user, destination, chain, key, receiptId, requestId, t).0.desk;
    forall j | j in d'.pending
      ensures j in d'.receipts && EntryApprovedBy(d'.pending[j], d'.receipts[j], quorum)
    {
      if j != receiptId {
        assert EntryApprovedBy(w.desk.pending[j], w.desk.receipts[j], quorum);
      }
    }
  }

  lemma StepKeepsQuorum(w: World, op: Op, quorum: int)
    requires Enabled(w, op) && ApprovedBy(w.desk, quorum) && w.desk.receipts.Keys <= w.desk.issued
    requires op.ApproveOp? ==> op.required >= quorum
    ensures ApprovedBy(Step(w, op).desk, quorum)
  {
    match op
    case ApproveOp(id, operator, required, requestId) =>
      ApproveKeepsQuorum(w, id, operator, required, requestId, quorum);
    case RedeemOp(claim, user, destination, chain, key, receiptId, requestId, t) =>
      RedeemKeepsQuorum(w, claim, user, destination, chain, key, receiptId, requestId, t, quorum);
    case RejectOp(id, operator, reason) =>
    case _ =>
      assert Step(w, op).desk == w.desk;
  }

  /** Dual control: when every approval call asks for at least `quorum` operators, every large
      receipt that is processing has that many different approvals on record. */
  lemma {:induction false} RunApprovedBy(worlds: seq<World>, ops: seq<Op>, n: nat, quorum: int)
    requires IsRun(worlds, ops) && n <= |ops|
    requires forall i :: 0 <= i < |ops| && ops[i].ApproveOp? ==> ops[i].required >= quorum
    ensures ApprovedBy(worlds[n].desk, quorum)
    ensures forall id :: id in worlds[n].desk.receipts && worlds[n].desk.receipts[id].amount >= LARGE_TX_SATS ==>
              id in worlds[n].desk.pending
  {
    if n > 0 {
      RunApprovedBy(worlds, ops, n - 1, quorum);
      RunStepKeepsQuorum(worlds, ops, n, quorum);
    }
    RunSafe(worlds, ops, n);
    LargeAreQueued(worlds[n]);
  }

  lemma RunStepKeepsQuorum(worlds: seq<World>, ops: seq<Op>, n: nat, quorum: int)
    requires IsRun(worlds, ops) && 0 < n <= |ops| && ApprovedBy(worlds[n - 1].desk, quorum)
    requires ops[n - 1].ApproveOp? ==> ops[n - 1].required >= quorum
    ensures ApprovedBy(worlds[n].desk, quorum)
  {
    RunSafe(worlds, ops, n - 1);
    StepKeepsQuorum(worlds[n - 1], ops[n - 1], quorum);
  }

  lemma LargeAreQueued(w: World)
    requires Safe(w)
    ensures forall id :: id in w.desk.receipts && w.desk.receipts[id].amount >= LARGE_TX_SATS ==> id in w.desk.pending
  {
    forall id | id in w.desk.receipts && w.desk.receipts[id].amount >= LARGE_TX_SATS
      ensures id in w.desk.pending
    {
      assert ReceiptOk(w, id);
    }
  }

  // ---------------------------------------------------------------------------
  // Submitted value
  // ---------------------------------------------------------------------------

  lemma SettleBalanced(w: World, r: Receipt, requestId: Id)
    requires Settlement.Balanced(w.engine)
    ensures Settlement.Balanced(Settle(w, r, requestId).0.engine)
  {
    Settlement.SubmitBalanced(w.engine, r.user, r.destination, r.amount, r.asset, r.chain, requestId);
  }

  lemma RedeemBalanced(w: World, claim: Id, user: Name, destination: Name, chain: Name, key: Name, receiptId: Id,
                       requestId: Id, t: Readings)
    requires Settlement.Balanced(w.engine)
    ensures Settlement.Balanced(Redeem(w, claim, user, destination, chain, key, receiptId, requestId, t).0.engine)
  {
    if claim in w.book.claims {
      SettleBalanced(w, NewReceipt(w.book, claim, user, destination, chain, key, t.create), requestId);
    }
  }

  lemma ApproveBalanced(w: World, id: Id, operator: Name, required: int, requestId: Id)
    requires Settlement.Balanced(w.engine)
    ensures Settlement.Balanced(Approve(w, id, operator, required, requestId).0.engine)
  {
    if id in w.desk.receipts {
      SettleBalanced(w, w.desk.receipts[id], requestId);
    }
  }

  lemma StepBalanced(w: World, op: Op)
    requires Enabled(w, op) && w.engine.batches.Keys <= w.engine.issued && Settlement.Balanced(w.engine)
    ensures Settlement.Balanced(Step(w, op).engine)
  {
    match op
    case RedeemOp(claim, user, destination, chain, key, receiptId, requestId, t) =>
      RedeemBalanced(w, claim, user, destination, chain, key, receiptId, requestId, t);
    case ApproveOp(id, operator, required, requestId) => ApproveBalanced(w, id, operator, required, requestId);
    case RejectOp(id, operator, reason) =>
    case BuildOp(asset, chain, batchId) => Settlement.BuildBalanced(w.engine, asset, chain, batchId);
    case ApproveBatchOp(batchId) => Settlement.ApproveBalanced(w.engine, batchId);
    case ClaimOp(c) =>
  }

  lemma RunEngine(worlds: seq<World>, ops: seq<Op>, n: nat)
    requires IsRun(worlds, ops) && n <= |ops|
    ensures Settlement.Partitioned(worlds[n].engine)
  {
    RunSafe(worlds, ops, n);
  }

  /** In every reachable state each request is pending or in exactly one batch slot, batch totals are
      exact, and submitted value is pending value plus the batch totals. */
  lemma {:induction false} RunPartitioned(worlds: seq<World>, ops: seq<Op>, n: nat)
    requires IsRun(worlds, ops) && n <= |ops|
    ensures Settlement.Partitioned(worlds[n].engine) && Settlement.Balanced(worlds[n].engine)
  {
    RunEngine(worlds, ops, n);
    if n > 0 {
      RunPartitioned(worlds, ops, n - 1);
      StepBalanced(worlds[n - 1], ops[n - 1]);
    }
  }

  // ---------------------------------------------------------------------------
  // The sliding window
  // ---------------------------------------------------------------------------

  ghost predicate WindowsOk(d: Desk) {
    forall user :: WindowOk(TimesOf(d.records, user), TimesOf(d.timestamps, user), d.clock)
  }

  /** Each receipt is dated in its user's record. */
  ghost predicate Dated(d: Desk) {
    forall id :: id in d.receipts ==> DatedIn(TimesOf(d.records, d.receipts[id].user), id, d.receipts[id].createdAt)
  }

  /** A clock that moves on. */
  lemma ClockKeepsWindows(d: Desk, later: real)
    requires WindowsOk(d) && d.clock <= later
    ensures WindowsOk(d.(clock := later))
  {
    forall user
      ensures WindowOk(TimesOf(d.records, user), TimesOf(d.timestamps, user), later)
    {
      LaterKeepsWindow(TimesOf(d.records, user), TimesOf(d.timestamps, user), d.clock, later);
    }
  }

  lemma CheckedTimes(d: Desk, user: Name, t: Readings, u: Name)
    ensures TimesOf(Checked(d, user, t).timestamps, u) ==
            if u == user then Recent(TimesOf(d.timestamps, u), t.check - HOUR) else TimesOf(d.timestamps, u)
  {
  }

  /** A check prunes one user's list and leaves the others. */
  lemma CheckKeepsWindow(d: Desk, user: Name, t: Readings, u: Name)
    requires WindowOk(TimesOf(d.records, u), TimesOf(d.timestamps, u), d.clock) && InOrder(d.clock, t)
    ensures WindowOk(TimesOf(d.records, u), TimesOf(Checked(d, user, t).timestamps, u), t.record)
  {
    CheckedTimes(d, user, t, u);
    CheckedWindow(TimesOf(d.records, u), TimesOf(d.timestamps, u), d.clock, t, u == user);
  }

  lemma CheckKeepsWindows(d: Desk, user: Name, t: Readings)
    requires WindowsOk(d) && InOrder(d.clock, t)
    ensures WindowsOk(Checked(d, user, t))
  {
    forall u
      ensures WindowOk(TimesOf(d.records, u), TimesOf(Checked(d, user, t).timestamps, u), t.record)
    {
      CheckKeepsWindow(d, user, t, u);
    }
  }

  /** The filed user's list and record both grow by one entry. */
  lemma FileKeepsOwnWindow(d: Desk, base: Desk, id: Id, r: Receipt, t: Readings)
    requires WindowOk(TimesOf(d.records, r.user), TimesOf(d.timestamps, r.user), d.clock) && InOrder(d.clock, t)
    requires base.records == d.records && base.timestamps == Checked(d, r.user, t).timestamps
    requires |TimesOf(base.timestamps, r.user)| < RATE_LIMIT_PER_HOUR
    ensures WindowOk(TimesOf(File(base, id, r, t).records, r.user), TimesOf(File(base, id, r, t).timestamps, r.user),
                     t.record)
  {
    var records := TimesOf(d.records, r.user);
    var kept := CheckPrunes(records, TimesOf(d.timestamps, r.user), d.clock, t);
    RecordKeepsWindow(records, kept, id, d.clock, t);
  }

  /** Filing a receipt after a check that was passed. */
  lemma FileKeepsWindows(d: Desk, base: Desk, id: Id, r: Receipt, t: Readings)
    requires WindowsOk(d) && InOrder(d.clock, t)
    requires base.records == d.records && base.timestamps == Checked(d, r.user, t).timestamps && base.clock == t.record
    requires |TimesOf(base.timestamps, r.user)| < RATE_LIMIT_PER_HOUR
    ensures WindowsOk(File(base, id, r, t))
  {
    var d' := File(base, id, r, t);
    forall u
      ensures WindowOk(TimesOf(d'.records, u), TimesOf(d'.timestamps, u), t.record)
    {
      if u == r.user {
        FileKeepsOwnWindow(d, base, id, r, t);
      } else {
        CheckKeepsWindow(d, r.user, t, u);
      }
    }
  }

  lemma FileKeepsDated(d: Desk, base: Desk, id: Id, r: Receipt, t: Readings)
    requires Dated(d) && base.records == d.records && base.receipts == d.receipts && r.createdAt == t.create
    ensures Dated(File(base, id, r, t))
  {
    var d' := File(base, id, r, t);
    forall j | j in d'.receipts
      ensures DatedIn(TimesOf(d'.records, d'.receipts[j].user), j, d'.receipts[j].createdAt)
    {
      var records := TimesOf(d.records, d'.receipts[j].user);
      var records' := TimesOf(d'.records, d'.receipts[j].user);
      if j == id {
        assert records'[|records|] == Record(id, t.create, t.record);
      } else {
        assert DatedIn(TimesOf(d.records, d.receipts[j].user), j, d.receipts[j].createdAt);
        var i :| 0 <= i < |records| && records[i].receipt == j && records[i].createdAt == d.receipts[j].createdAt;
        assert records'[i] == records[i];
      }
    }
  }

  /** What redeeming under a new key does to the desk: the check, and perhaps a receipt filed. */
  lemma RedeemedDesk(w: World, claim: Id, user: Name, destination: Name, chain: Name, key: Name, receiptId: Id,
                     requestId: Id, t: Readings)
    returns (base: Desk, filed: Option<Receipt>)
    requires key !in w.desk.idempotency
    ensures Redeem(w, claim, user, destination, chain, key, receiptId, requestId, t).0.desk ==
            if filed.Some? then File(base, receiptId, filed.value, t) else Checked(w.desk, user, t)
    ensures filed.Some? ==> base == Checked(w.desk, user, t).(pending := base.pending)
                            && |TimesOf(base.timestamps, user)| < RATE_LIMIT_PER_HOUR
                            && filed.value.user == user && filed.value.createdAt == t.create
  {
    base, filed := Checked(w.desk, user, t), None;
    if |TimesOf(base.timestamps, user)| < RATE_LIMIT_PER_HOUR && Invalid(w.book, claim, user, t.validate).None? {
      var r := NewReceipt(w.book, claim, user, destination, chain, key, t.create);
      if RequiresApproval(r.amount) {
        base, filed := base.(pending := base.pending[receiptId := Approval([], [])]), Some(r);
      } else {
        filed := Some(r.(status := Processing, request := Some(requestId)));
      }
    }
  }

  lemma CheckKeepsDated(d: Desk, user: Name, t: Readings)
    requires Dated(d)
    ensures Dated(Checked(d, user, t))
  {
    forall id | id in d.receipts
      ensures DatedIn(TimesOf(d.records, d.receipts[id].user), id, d.receipts[id].createdAt)
    {
    }
  }

  lemma RedeemKeepsWindows(w: World, claim: Id, user: Name, destination: Name, chain: Name, key: Name, receiptId: Id,
                           requestId: Id, t: Readings)
    requires WindowsOk(w.desk) && Dated(w.desk) && InOrder(w.desk.clock, t)
    ensures WindowsOk(Redeem(w, claim, user, destination, chain, key, receiptId, requestId, t).0.desk)
    ensures Dated(Redeem(w, claim, user, destination, chain, key, receiptId, requestId, t).0.desk)
  {
    if key in w.desk.idempotency {
      ClockKeepsWindows(w.desk, t.record);
    } else {
      var base, filed := RedeemedDesk(w, claim, user, destination, chain, key, receiptId, requestId, t);
      if filed.Some? {
        FileKeepsWindows(w.desk, base, receiptId, filed.value, t);
        FileKeepsDated(w.desk, base, receiptId, filed.value, t);
      } else {
        CheckKeepsWindows(w.desk, user, t);
        CheckKeepsDated(w.desk, user, t);
      }
    }
  }

  lemma StepKeepsWindows(w: World, op: Op)
    requires Enabled(w, op) && WindowsOk(w.desk) && Dated(w.desk)
    ensures WindowsOk(Step(w, op).desk) && Dated(Step(w, op).desk)
  {
    match op
    case RedeemOp(claim, user, destination, chain, key, receiptId, requestId, t) =>
      RedeemKeepsWindows(w, claim, user, destination, chain, key, receiptId, requestId, t);
    case ApproveOp(id, operator, required, requestId) =>
      ApproveKeepsHistory(w, id, operator, required, requestId);
      StatusKeepsWindows(w.desk, Approve(w, id, operator, required, requestId).0.desk);
    case RejectOp(id, operator, reason) =>
      RejectKeepsHistory(w, id, operator, reason);
      StatusKeepsWindows(w.desk, Reject(w, id, operator, reason).0.desk);
    case _ =>
      assert Step(w, op).desk == w.desk;
  }

  ghost predicate SameHistory(d: Desk, d': Desk) {
    && d'.records == d.records && d'.timestamps == d.timestamps && d'.clock == d.clock
    && d'.receipts.Keys == d.receipts.Keys
    && forall id :: id in d.receipts ==>
         d'.receipts[id].user == d.receipts[id].user && d'.receipts[id].createdAt == d.receipts[id].createdAt
  }

  lemma RejectKeepsHistory(w: World, id: Id, operator: Name, reason: Name)
    ensures SameHistory(w.desk, Reject(w, id, operator, reason).0.desk)
  {
  }

  lemma ApproveKeepsHistory(w: World, id: Id, operator: Name, required: int, requestId: Id)
    ensures SameHistory(w.desk, Approve(w, id, operator, required, requestId).0.desk)
  {
  }

  lemma StatusKeepsWindows(d: Desk, d': Desk)
    requires WindowsOk(d) && Dated(d) && SameHistory(d, d')
    ensures WindowsOk(d') && Dated(d')
  {
    forall id | id in d'.receipts
      ensures DatedIn(TimesOf(d'.records, d'.receipts[id].user), id, d'.receipts[id].createdAt)
    {
      assert DatedIn(TimesOf(d.records, d.receipts[id].user), id, d.receipts[id].createdAt);
    }
  }

  lemma {:induction false} RunWindows(worlds: seq<World>, ops: seq<Op>, n: nat)
    requires IsRun(worlds, ops) && n <= |ops|
    ensures WindowsOk(worlds[n].desk) && Dated(worlds[n].desk)
  {
    if n > 0 {
      RunWindows(worlds, ops, n - 1);
      StepKeepsWindows(worlds[n - 1], ops[n - 1]);
    }
  }

  /** The receipts of a user dated in the hour that ends at `end`. */
  ghost function InHour(d: Desk, user: Name, end: real): set<Id> {
    set id | id in d.receipts && d.receipts[id].user == user && end - 3600.0 < d.receipts[id].createdAt <= end
  }

  /** Rate limit: in any hour, a user gets at most ten new receipts. */
  lemma AtMostTenAnHour(worlds: seq<World>, ops: seq<Op>, n: nat, user: Name, end: real)
    requires IsRun(worlds, ops) && n <= |ops|
    ensures |InHour(worlds[n].desk, user, end)| <= 10
  {
    RunWindows(worlds, ops, n);
    var d := worlds[n].desk;
    var records := TimesOf(d.records, user);
    assert WindowOk(records, TimesOf(d.timestamps, user), d.clock);
    if exists i: nat :: DatedInHour(records, i, end) {
      var i: nat :| DatedInHour(records, i, end);
      var first := FirstInHour(records, end, i);
      forall id | id in InHour(d, user, end)
        ensures id in Stretch(records, first, RATE_LIMIT_PER_HOUR)
      {
        assert DatedIn(records, id, d.receipts[id].createdAt);
        var j :| 0 <= j < |records| && records[j].receipt == id && records[j].createdAt == d.receipts[id].createdAt;
        assert DatedInHour(records, j, end);
        assert j < first + RATE_LIMIT_PER_HOUR;
      }
      StretchSize(records, first, RATE_LIMIT_PER_HOUR);
      SubsetSize(InHour(d, user, end), Stretch(records, first, RATE_LIMIT_PER_HOUR));
    } else {
      forall id | id in InHour(d, user, end)
        ensures false
      {
        assert DatedIn(records, id, d.receipts[id].createdAt);
        var j: nat :| j < |records| && records[j].receipt == id && records[j].createdAt == d.receipts[id].createdAt;
        assert DatedInHour(records, j, end);
      }
      assert InHour(d, user, end) == {};
    }
  }
}
