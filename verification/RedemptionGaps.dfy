/** What the approval queue does and does not rule out. A claim waiting for approval is not locked, and
    burning checks nothing but that it is stored. */
module RedemptionGaps {
  import opened Common
  import opened Redemption
  import opened RedemptionLimits
  import opened RedemptionSafety
  import opened SlidingWindow
  import Claims
  import Settlement

  // ---------------------------------------------------------------------------
  // Reachable worlds
  // ---------------------------------------------------------------------------

  /** An approval call asks for the given number of operators; None leaves it free. */
  ghost predicate AsksFor(op: Op, quorum: Option<int>) {
    op.ApproveOp? && quorum.Some? ==> op.required == quorum.value
  }

  ghost predicate IsRunAsking(worlds: seq<World>, ops: seq<Op>, quorum: Option<int>) {
    IsRun(worlds, ops) && forall i :: 0 <= i < |ops| ==> AsksFor(ops[i], quorum)
  }

  /** A run in which every approval call asks for the quorum ends in the world. */
  ghost predicate Reaches(w: World, quorum: Option<int>) {
    exists worlds: seq<World>, ops: seq<Op> :: IsRunAsking(worlds, ops, quorum) && worlds[|ops|] == w
  }

  lemma StartReached(w: World, quorum: Option<int>)
    requires Initial(w)
    ensures Reaches(w, quorum)
  {
    var worlds: seq<World>, ops: seq<Op> := [w], [];
    assert IsRunAsking(worlds, ops, quorum) && worlds[|ops|] == w;
  }

  lemma StepReached(w: World, op: Op, quorum: Option<int>)
    requires Reaches(w, quorum) && Enabled(w, op) && AsksFor(op, quorum)
    ensures Reaches(Step(w, op), quorum)
  {
    var worlds: seq<World>, ops: seq<Op> :| IsRunAsking(worlds, ops, quorum) && worlds[|ops|] == w;
    var worlds', ops' := worlds + [Step(w, op)], ops + [op];
    assert IsRun(worlds', ops');
    assert IsRunAsking(worlds', ops', quorum) && worlds'[|ops'|] == Step(w, op);
  }

  lemma AnyQuorum(w: World, quorum: Option<int>)
    requires Reaches(w, quorum)
    ensures Reaches(w, None)
  {
    var worlds: seq<World>, ops: seq<Op> :| IsRunAsking(worlds, ops, quorum) && worlds[|ops|] == w;
    assert IsRunAsking(worlds, ops, None);
  }

  lemma ReachedSafe(w: World, quorum: Option<int>)
    requires Reaches(w, quorum)
    ensures Safe(w)
  {
    var worlds: seq<World>, ops: seq<Op> :| IsRunAsking(worlds, ops, quorum) && worlds[|ops|] == w;
    RunSafe(worlds, ops, |ops|);
  }

  // ---------------------------------------------------------------------------
  // A large claim in the queue
  // ---------------------------------------------------------------------------

  const ANA := Name("ana")
  const BOB := Name("bob")

  const EXPIRY := 60.0

  function At(now: real): Readings {
    Readings(now, now, now, now)
  }

  /** A world at time zero whose one claim, under id 7, is ana's, issued by her and good for a minute. */
  ghost predicate Minted(w: World, d: int) {
    && w.book.claims.Keys == {7} && Fine(w, d)
    && w.desk.idempotency == map[] && w.desk.timestamps == map[] && w.desk.issued == {}
  }

  ghost predicate Fine(w: World, d: int) {
    && 7 in w.book.claims && w.engine.issued == {} && w.desk.clock == 0.0
    && var c := w.book.claims[7];
       && c.state == Claims.Created && c.expiry == Some(EXPIRY) && c.denomination == d
       && c.owner == ANA && c.issuer == ANA
  }

  ghost predicate Queued(w: World, id: Id, d: int) {
    && id in w.desk.pending && w.desk.pending[id].approvals == []
    && id in w.desk.receipts && w.desk.receipts[id].status == PendingApproval
    && w.desk.receipts[id].claim == 7 && w.desk.receipts[id].amount == d && w.desk.receipts[id].user == ANA
  }

  lemma MintStage(d: int, quorum: Option<int>) returns (w: World)
    ensures Reaches(w, quorum) && Minted(w, d)
  {
    var w0 := World(Claims.Book(map[], {}, {}), Settlement.Engine([], map[], {}),
                    Desk(map[], map[], map[], {}, map[], {}, map[], 0.0));
    var op := ClaimOp(Claims.OpCreate(ANA, ANA, d, ANA, Some(1.0), ANA, Claims.Draw(7, ANA), 0.0));
    StartReached(w0, quorum);
    StepReached(w0, op, quorum);
    w := Step(w0, op);
  }

  lemma RecentShrinks(times: seq<real>, cutoff: real)
    ensures |Recent(times, cutoff)| <= |times|
  {
  }

  /** Queueing a large claim for approval. */
  lemma QueueStep(w: World, d: int, key: Name, id: Id)
    requires Fine(w, d) && d >= LARGE_TX_SATS
    requires key !in w.desk.idempotency && |TimesOf(w.desk.timestamps, ANA)| < RATE_LIMIT_PER_HOUR
    ensures var w' := Redeem(w, 7, ANA, ANA, ANA, key, id, id, At(0.0)).0;
            && w'.book == w.book && w'.engine == w.engine && w'.desk.clock == 0.0
            && w'.desk.receipts == w.desk.receipts[id := NewReceipt(w.book, 7, ANA, ANA, ANA, key, 0.0)]
            && w'.desk.pending == w.desk.pending[id := Approval([], [])]
            && w'.desk.idempotency == w.desk.idempotency[key := id]
            && w'.desk.issued == w.desk.issued + {id}
            && |TimesOf(w'.desk.timestamps, ANA)| <= |TimesOf(w.desk.timestamps, ANA)| + 1
  {
    RecentShrinks(TimesOf(w.desk.timestamps, ANA), 0.0 - HOUR);
  }

  /** Ana's claim queued once, under key "a". */
  ghost predicate QueuedOnce(w: World, d: int) {
    && Fine(w, d) && Queued(w, 1, d) && w.desk.issued == {1}
    && w.desk.idempotency == map[Name("a") := 1] && |TimesOf(w.desk.timestamps, ANA)| <= 1
  }

  lemma QueueOnce(d: int, quorum: Option<int>) returns (w: World)
    requires d >= LARGE_TX_SATS
    ensures Reaches(w, quorum) && QueuedOnce(w, d)
  {
    var minted := MintStage(d, quorum);
    var op := RedeemOp(7, ANA, ANA, ANA, Name("a"), 1, 1, At(0.0));
    QueueStep(minted, d, Name("a"), 1);
    StepReached(minted, op, quorum);
    w := Step(minted, op);
  }

  lemma QueueTwice(d: int, quorum: Option<int>) returns (w: World)
    requires d >= LARGE_TX_SATS
    ensures Reaches(w, quorum) && Fine(w, d) && Queued(w, 1, d) && Queued(w, 2, d)
  {
    var once := QueueOnce(d, quorum);
    assert Name("a").text[0] != Name("b").text[0];
    var op := RedeemOp(7, ANA, ANA, ANA, Name("b"), 2, 2, At(0.0));
    QueueStep(once, d, Name("b"), 2);
    StepReached(once, op, quorum);
    w := Step(once, op);
  }

  // ---------------------------------------------------------------------------
  // Enough operators
  // ---------------------------------------------------------------------------

  /** The i-th of arbitrarily many operators. */
  function Operator(i: nat): Name {
    Name(seq(i, _ => 'x'))
  }

  function Operators(k: nat): (r: seq<Name>)
    ensures |r| == k
  {
    if k == 0 then [] else Operators(k - 1) + [Operator(k - 1)]
  }

  lemma {:induction false} NewOperator(k: nat, n: nat)
    requires k <= n
    ensures Operator(n) !in Operators(k)
  {
    if k > 0 {
      NewOperator(k - 1, n);
      assert |Operator(n).text| != |Operator(k - 1).text|;
    }
  }

  /** The world with other approvals on record for a receipt. */
  function WithApprovals(w: World, id: Id, approvals: seq<Name>): World
    requires id in w.desk.pending
  {
    w.(desk := w.desk.(pending := w.desk.pending[id := w.desk.pending[id].(approvals := approvals)]))
  }

  /** The receipt waits for its first approval, its claim stored and the request id unused. */
  ghost predicate Waiting(w: World, id: Id, request: Id) {
    && id in w.desk.pending && w.desk.pending[id].approvals == []
    && id in w.desk.receipts && w.desk.receipts[id].status == PendingApproval
    && w.desk.receipts[id].claim in w.book.claims && request !in w.engine.issued
  }

  lemma CountStep(w: World, id: Id, request: Id, k: nat, q: int)
    requires Waiting(w, id, request) && k + 1 < q
    ensures Approve(WithApprovals(w, id, Operators(k)), id, Operator(k), q, request).0 ==
            WithApprovals(w, id, Operators(k + 1))
  {
    NewOperator(k, k);
  }

  /** k approvals that are not yet enough. */
  lemma {:induction false} CountMany(w: World, id: Id, request: Id, k: nat, q: int)
    requires Reaches(w, Some(q)) && Waiting(w, id, request) && (k < q || k == 0)
    ensures Reaches(WithApprovals(w, id, Operators(k)), Some(q))
  {
    if k == 0 {
      assert w.desk.pending[id := w.desk.pending[id].(approvals := [])] == w.desk.pending;
      assert WithApprovals(w, id, Operators(0)) == w;
    } else {
      CountMany(w, id, request, k - 1, q);
      CountStep(w, id, request, k - 1, q);
      StepReached(WithApprovals(w, id, Operators(k - 1)), ApproveOp(id, Operator(k - 1), q, request), Some(q));
    }
  }

  /** The world before the approval that settles the receipt: only approvals have been added. */
  ghost predicate BeforeLast(w: World, w': World, id: Id) {
    && w'.book == w.book && w'.engine == w.engine && w'.desk == w.desk.(pending := w'.desk.pending)
    && forall j :: j in w.desk.pending && j != id ==> j in w'.desk.pending && w'.desk.pending[j] == w.desk.pending[j]
  }

  /** What the last approval does. */
  ghost predicate Released(w: World, w': World, id: Id, request: Id)
    requires id in w.desk.receipts
  {
    && w'.book.claims.Keys == w.book.claims.Keys && w'.engine.issued == w.engine.issued + {request}
    && w'.desk.receipts == w.desk.receipts[id := w.desk.receipts[id].(status := Processing, request := Some(request))]
    && forall j :: j in w.desk.pending && j != id ==> j in w'.desk.pending && w'.desk.pending[j] == w.desk.pending[j]
  }

  lemma LastApproval(w: World, id: Id, request: Id, k: nat, q: int)
    requires Waiting(w, id, request) && k + 1 >= q
    ensures Released(w, Approve(WithApprovals(w, id, Operators(k)), id, Operator(k), q, request).0, id, request)
  {
    NewOperator(k, k);
  }

  /** However many operators are asked for, a waiting receipt can be brought to its last approval. */
  lemma ApproveAll(w: World, id: Id, request: Id, q: int) returns (w': World, op: Op)
    requires Reaches(w, Some(q)) && Waiting(w, id, request)
    ensures Reaches(w', Some(q)) && BeforeLast(w, w', id)
    ensures op.ApproveOp? && Enabled(w', op) && AsksFor(op, Some(q)) && Released(w, Step(w', op), id, request)
  {
    var k := if q > 1 then q - 1 else 0;
    CountMany(w, id, request, k, q);
    w' := WithApprovals(w, id, Operators(k));
    op := ApproveOp(id, Operator(k), q, request);
    LastApproval(w, id, request, k, q);
  }

  // ---------------------------------------------------------------------------
  // Settling twice
  // ---------------------------------------------------------------------------

  /** Two receipts of the world settle the same claim, of denomination d. */
  ghost predicate SettledTwice(w: World, d: int) {
    exists i, j :: i in w.desk.receipts && j in w.desk.receipts && i != j
                   && SettleSameClaim(w.desk.receipts[i], w.desk.receipts[j]) && w.desk.receipts[i].amount == d
  }

  ghost predicate CanSettleTwice(d: int, quorum: Option<int>) {
    exists w: World :: Reaches(w, quorum) && SettledTwice(w, d)
  }

  lemma DoubleSettlement(d: int, q: int) returns (w: World)
    requires d >= LARGE_TX_SATS
    ensures Reaches(w, Some(q)) && SettledTwice(w, d)
  {
    var queued := QueueTwice(d, Some(q));
    var w1, op1 := ApproveAll(queued, 1, 1, q);
    StepReached(w1, op1, Some(q));
    var w2 := Step(w1, op1);
    assert Queued(w2, 2, d) && Waiting(w2, 2, 2);
    var w3, op2 := ApproveAll(w2, 2, 2, q);
    StepReached(w3, op2, Some(q));
    w := Step(w3, op2);
    assert SettleSameClaim(w.desk.receipts[1], w.desk.receipts[2]);
  }

  /** Whatever number of operators the approvals ask for, a claim can be settled twice exactly when its
      denomination reaches the approval threshold. */
  lemma SettledTwiceIff(d: int, quorum: Option<int>)
    ensures CanSettleTwice(d, quorum) <==> d >= 1_000_000_000
  {
    if CanSettleTwice(d, quorum) {
      var w: World :| Reaches(w, quorum) && SettledTwice(w, d);
      ReachedSafe(w, quorum);
    }
    if d >= LARGE_TX_SATS {
      var w := DoubleSettlement(d, if quorum.Some? then quorum.value else 2);
      if quorum.None? {
        AnyQuorum(w, Some(2));
      }
    }
  }

  // ---------------------------------------------------------------------------
  // Settling a claim that is no longer good
  // ---------------------------------------------------------------------------

  /** What may be wrong with a claim when its receipt settles: it is out of circulation, it has passed
      to another owner, or it has expired. */
  datatype Defect = Dead | SoldOn | Lapsed

  ghost predicate Defective(w: World, r: Receipt, defect: Defect)
    requires r.claim in w.book.claims
  {
    var c := w.book.claims[r.claim];
    match defect
    case Dead => !Claims.Live(c.state)
    case SoldOn => c.owner != r.user
    case Lapsed => Claims.Expired(c, w.desk.clock)
  }

  /** The operation settles the receipt. */
  ghost predicate Settles(w: World, op: Op, id: Id) {
    && Enabled(w, op) && id in Step(w, op).desk.receipts && Step(w, op).desk.receipts[id].status == Processing
    && (id in w.desk.receipts ==> w.desk.receipts[id].status != Processing)
  }

  /** The operation settles a receipt of amount d although its claim has the defect. */
  ghost predicate SettlesDespite(w: World, op: Op, id: Id, d: int, defect: Defect) {
    && Settles(w, op, id)
    && var r := Step(w, op).desk.receipts[id];
       r.amount == d && r.claim in w.book.claims && Defective(w, r, defect)
  }

  ghost predicate CanSettleDespite(d: int, defect: Defect, quorum: Option<int>) {
    exists w: World, op: Op, id: Id :: Reaches(w, quorum) && AsksFor(op, quorum) && SettlesDespite(w, op, id, d, defect)
  }

  /** A small receipt that is filed already is settled already. */
  lemma SmallIsSettled(w: World, id: Id)
    requires ReceiptsOk(w) && id in w.desk.receipts && w.desk.receipts[id].amount < LARGE_TX_SATS
    ensures w.desk.receipts[id].status == Processing
  {
    assert ReceiptOk(w, id);
  }

  lemma OthersFileNone(w: World, op: Op)
    requires Enabled(w, op) && !op.RedeemOp?
    ensures Step(w, op).desk.receipts.Keys == w.desk.receipts.Keys
  {
    if !op.ApproveOp? && !op.RejectOp? {
      assert Step(w, op).desk == w.desk;
    }
  }

  /** Receipts are filed by redeeming alone, on a claim that is valid for the user at that time. */
  lemma NewReceiptValid(w: World, op: Op, id: Id)
    requires Enabled(w, op) && id !in w.desk.receipts && id in Step(w, op).desk.receipts
    ensures op.RedeemOp? && op.receiptId == id && Invalid(w.book, op.claim, op.user, op.t.validate).None?
    ensures var r := Step(w, op).desk.receipts[id]; r.claim == op.claim && r.user == op.user
  {
    if op.RedeemOp? {
      RedeemFiles(w, op.claim, op.user, op.destination, op.chain, op.key, op.receiptId, op.requestId, op.t, id);
    } else {
      OthersFileNone(w, op);
    }
  }

  lemma RedeemFiles(w: World, claim: Id, user: Name, destination: Name, chain: Name, key: Name, receiptId: Id,
                    requestId: Id, t: Readings, id: Id)
    requires id !in w.desk.receipts
    ensures var (w', r) := Redeem(w, claim, user, destination, chain, key, receiptId, requestId, t);
            id in w'.desk.receipts ==>
              && receiptId == id && Invalid(w.book, claim, user, t.validate).None?
              && w'.desk.receipts[id].claim == claim && w'.desk.receipts[id].user == user
  {
  }

  /** A receipt below the threshold settles only when redeemed, with a live claim that has not expired
      and whose owner is the user. */
  lemma SmallSettlesProperly(w: World, op: Op, id: Id, defect: Defect)
    requires ReceiptsOk(w) && KeysOk(w.desk) && Settles(w, op, id)
    requires Step(w, op).desk.receipts[id].amount < 1_000_000_000
    ensures op.RedeemOp? && op.receiptId == id
    ensures var r := Step(w, op).desk.receipts[id];
            && r.claim in w.book.claims && !Claims.Expired(w.book.claims[r.claim], op.t.validate)
            && !Defective(w, r, defect)
  {
    StepKeepsReceipt(w, op, id);
    if id in w.desk.receipts {
      SmallIsSettled(w, id);
    } else {
      NewReceiptValid(w, op, id);
    }
  }

  /** A queued claim can be revoked, sold on, or expire before it is settled. */
  lemma Spoil(w: World, d: int, defect: Defect, quorum: Option<int>) returns (w': World)
    requires Reaches(w, quorum) && QueuedOnce(w, d)
    ensures Reaches(w', quorum) && Queued(w', 1, d) && Waiting(w', 1, 1)
    ensures Defective(w', w'.desk.receipts[1], defect)
  {
    assert ANA.text[0] != BOB.text[0];
    var op := match defect
      case Dead => ClaimOp(Claims.OpRevoke(7, ANA))
      case SoldOn => ClaimOp(Claims.OpTransfer(7, ANA, BOB, 0.0))
      case Lapsed => RedeemOp(7, ANA, ANA, ANA, Name("a"), 2, 2, At(2.0 * EXPIRY));
    StepReached(w, op, quorum);
    w' := Step(w, op);
  }

  lemma DefectiveSettlement(d: int, defect: Defect, q: int) returns (w: World, op: Op)
    requires d >= LARGE_TX_SATS
    ensures Reaches(w, Some(q)) && AsksFor(op, Some(q)) && SettlesDespite(w, op, 1, d, defect)
  {
    var queued := QueueOnce(d, Some(q));
    var spoiled := Spoil(queued, d, defect, Some(q));
    w, op := ApproveAll(spoiled, 1, 1, q);
  }

  /** Whatever number of operators the approvals ask for, a receipt can settle although its claim is out
      of circulation, is another's, or has expired, exactly from the approval threshold on. */
  lemma SettlesDespiteIff(d: int, defect: Defect, quorum: Option<int>)
    ensures CanSettleDespite(d, defect, quorum) <==> d >= 1_000_000_000
  {
    if CanSettleDespite(d, defect, quorum) {
      var w: World, op: Op, id: Id :| Reaches(w, quorum) && AsksFor(op, quorum) && SettlesDespite(w, op, id, d, defect);
      ReachedSafe(w, quorum);
      if d < LARGE_TX_SATS {
        SmallSettlesProperly(w, op, id, defect);
      }
    }
    if d >= LARGE_TX_SATS {
      var w, op := DefectiveSettlement(d, defect, if quorum.Some? then quorum.value else 2);
      if quorum.None? {
        AnyQuorum(w, Some(2));
      }
      assert Reaches(w, quorum) && AsksFor(op, quorum) && SettlesDespite(w, op, 1, d, defect);
    }
  }
}
