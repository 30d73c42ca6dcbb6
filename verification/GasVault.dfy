/** Fee credits and relayer reimbursement (backend/services/gasvault_service.py). SOL amounts are
    real numbers. */
module GasVault {
  import opened Common
  import opened MapSums

  const LAMPORTS_PER_SOL := 1_000_000_000
  const MAX_CREDITS_PER_USER := 1_000_000_000
  const MAX_REIMBURSEMENT_PER_BATCH := 100_000_000

  datatype CreditAccount = CreditAccount(balance: int, earned: int, spent: int)

  datatype Relayer = Relayer(publicKey: Name, paid: int, reimbursed: int, pending: int, active: bool)

  datatype RequestStatus = Pending | Rejected | Paid

  datatype Request = Request(relayer: Id, amount: int, status: RequestStatus)

  datatype Vault = Vault(
    sol: real, credits: map<Name, CreditAccount>, relayers: map<Id, Relayer>, requests: map<Id, Request>)

  /** Python's int() of a real: truncation toward zero. */
  function Truncated(x: real): int {
    if x >= 0.0 then x.Floor else -((-x).Floor)
  }

  /** vault_lamports. */
  function VaultLamports(sol: real): int {
    Truncated(sol * LAMPORTS_PER_SOL as real)
  }

  function InSol(lamports: int): real {
    lamports as real / LAMPORTS_PER_SOL as real
  }

  function AccountOf(credits: map<Name, CreditAccount>, user: Name): CreditAccount {
    if user in credits then credits[user] else CreditAccount(0, 0, 0)
  }

  // ---------------------------------------------------------------------------
  // Operations: the new state, and the error raised, if any
  // ---------------------------------------------------------------------------

  datatype Op =
    | Deposit(amount: real)
    | Withdraw(amount: real)
    | Issue(user: Name, lamports: int)
    | Spend(user: Name, lamports: int)
    | Register(publicKey: Name, relayer: Id)
    | Deactivate(relayer: Id)
    | RequestPayment(relayer: Id, lamports: int, request: Id)
    | ApprovePayment(request: Id)
    | RejectPayment(request: Id)

  /** Ids come from uuid4, which never repeats. */
  ghost predicate Fresh(v: Vault, op: Op) {
    match op
    case Register(_, relayer) => relayer !in v.relayers
    case RequestPayment(_, _, request) => request !in v.requests
    case _ => true
  }

  /** The error raised, if any. The KeyError of an unknown relayer cannot occur in a valid service. */
  function Refusal(v: Vault, op: Op): Option<Error> {
    match op
    case Deposit(amount) => if amount <= 0.0 then Some(DepositAmountMustBePositive) else None
    case Withdraw(amount) =>
      if amount <= 0.0 then Some(WithdrawalAmountMustBePositive)
      else if amount > v.sol then Some(InsufficientVaultBalance)
      else None
    case Issue(user, lamports) =>
      if lamports <= 0 then Some(CreditAmountMustBePositive)
      else if AccountOf(v.credits, user).balance + lamports > MAX_CREDITS_PER_USER
          then Some(WouldExceedMaxCredits)
      else None
    case Spend(user, lamports) =>
      if user !in v.credits then Some(NoFeeCreditAccount)
      else if v.credits[user].balance < lamports then Some(InsufficientCredits)
      else None
    case Register(_, _) => None
    case Deactivate(relayer) => if relayer !in v.relayers then Some(RelayerNotFound) else None
    case RequestPayment(relayer, lamports, _) =>
      if relayer !in v.relayers then Some(RelayerNotFound)
      else if !v.relayers[relayer].active then Some(RelayerIsDeactivated)
      else if lamports <= 0 then Some(AmountMustBePositive)
      else if lamports > MAX_REIMBURSEMENT_PER_BATCH then Some(AmountExceedsMaxPerBatch)
      else None
    case ApprovePayment(request) =>
      if request !in v.requests then Some(ReimbursementRequestNotFound)
      else if v.requests[request].status != Pending then Some(RequestAlreadyResolved)
      else if v.requests[request].amount > VaultLamports(v.sol)
          then Some(InsufficientVaultForReimbursement)
      else if v.requests[request].relayer !in v.relayers then Some(KeyError)
      else None
    case RejectPayment(request) =>
      if request !in v.requests then Some(ReimbursementRequestNotFound)
      else if v.requests[request].status != Pending then Some(RequestAlreadyResolved)
      else if v.requests[request].relayer !in v.relayers then Some(KeyError)
      else None
  }

  /** The state after an operation that is not refused. */
  function Applied(v: Vault, op: Op): Vault
    requires Refusal(v, op).None?
  {
    match op
    case Deposit(amount) => v.(sol := v.sol + amount)
    case Withdraw(amount) => v.(sol := v.sol - amount)
    case Issue(user, lamports) =>
      var a := AccountOf(v.credits, user);
      v.(credits := v.credits[user := a.(balance := a.balance + lamports, earned := a.earned + lamports)])
    case Spend(user, lamports) =>
      var a := v.credits[user];
      v.(credits := v.credits[user := a.(balance := a.balance - lamports, spent := a.spent + lamports)])
    case Register(publicKey, relayer) => v.(relayers := v.relayers[relayer := Relayer(publicKey, 0, 0, 0, true)])
    case Deactivate(relayer) => v.(relayers := v.relayers[relayer := v.relayers[relayer].(active := false)])
    case RequestPayment(relayer, lamports, request) =>
      var r := v.relayers[relayer];
      v.(relayers := v.relayers[relayer := r.(pending := r.pending + lamports)],
         requests := v.requests[request := Request(relayer, lamports, Pending)])
    case ApprovePayment(request) =>
      var q := v.requests[request];
      var r := v.relayers[q.relayer];
      v.(sol := v.sol - InSol(q.amount),
         relayers := v.relayers[q.relayer := r.(paid := r.paid + q.amount, reimbursed := r.reimbursed + q.amount,
                                                pending := r.pending - q.amount)],
         requests := v.requests[request := q.(status := Paid)])
    case RejectPayment(request) =>
      var q := v.requests[request];
      var r := v.relayers[q.relayer];
      v.(relayers := v.relayers[q.relayer := r.(pending := r.pending - q.amount)],
         requests := v.requests[request := q.(status := Rejected)])
  }

  /** A refused issue of credits over the cap still leaves an empty account behind. */
  function Step(v: Vault, op: Op): Vault {
    if Refusal(v, op).None? then Applied(v, op)
    else if op.Issue? && op.lamports > 0 then v.(credits := v.credits[op.user := AccountOf(v.credits, op.user)])
    else v
  }

  class GasVaultService {
    var sol: real
    var credits: map<Name, CreditAccount>
    var relayers: map<Id, Relayer>
    var requests: map<Id, Request>

    ghost function Model(): Vault
      reads this
    {
      Vault(sol, credits, relayers, requests)
    }

    /** Every request names a registered relayer, so looking the relayer up never fails. */
    ghost predicate Valid()
      reads this
    {
      forall q :: q in requests ==> requests[q].relayer in relayers
    }

    constructor (opening: real)
      ensures Valid()
      ensures Model() == Vault(opening, map[], map[], map[])
    {
      sol, credits, relayers, requests := opening, map[], map[], map[];
    }

    method DepositSol(amount: real) returns (error: Option<Error>)
      requires Valid()
      modifies this
      ensures Valid()
      ensures Model() == Step(old(Model()), Deposit(amount)) && error == Refusal(old(Model()), Deposit(amount))
    {
      if amount <= 0.0 { return Some(DepositAmountMustBePositive); }
      sol := sol + amount;
      return None;
    }

    method WithdrawSol(amount: real) returns (error: Option<Error>)
      requires Valid()
      modifies this
      ensures Valid()
      ensures Model() == Step(old(Model()), Withdraw(amount)) && error == Refusal(old(Model()), Withdraw(amount))
    {
      if amount <= 0.0 { return Some(WithdrawalAmountMustBePositive); }
      if amount > sol { return Some(InsufficientVaultBalance); }
      sol := sol - amount;
      return None;
    }

    method IssueCredits(user: Name, lamports: int) returns (error: Option<Error>)
      requires Valid()
      modifies this
      ensures Valid()
      ensures Model() == Step(old(Model()), Issue(user, lamports))
              && error == Refusal(old(Model()), Issue(user, lamports))
    {
      if lamports <= 0 { return Some(CreditAmountMustBePositive); }
      if user !in credits {
        credits := credits[user := CreditAccount(0, 0, 0)];
      }
      var account := credits[user];
      if account.balance + lamports > MAX_CREDITS_PER_USER {
        assert credits == old(credits)[user := AccountOf(old(credits), user)];
        return Some(WouldExceedMaxCredits);
      }
      account := account.(balance := account.balance + lamports);
      credits := credits[user := account.(earned := account.earned + lamports)];
      return None;
    }

    method SpendCredits(user: Name, lamports: int) returns (error: Option<Error>)
      requires Valid()
      modifies this
      ensures Valid()
      ensures Model() == Step(old(Model()), Spend(user, lamports))
              && error == Refusal(old(Model()), Spend(user, lamports))
    {
      if user !in credits { return Some(NoFeeCreditAccount); }
      var account := credits[user];
      if account.balance < lamports { return Some(InsufficientCredits); }
      account := account.(balance := account.balance - lamports);
      credits := credits[user := account.(spent := account.spent + lamports)];
      return None;
    }

    method RegisterRelayer(publicKey: Name, relayer: Id)
      requires Valid()
      modifies this
      ensures Valid()
      ensures Model() == Step(old(Model()), Register(publicKey, relayer))
    {
      relayers := relayers[relayer := Relayer(publicKey, 0, 0, 0, true)];
    }

    method DeactivateRelayer(relayer: Id) returns (error: Option<Error>)
      requires Valid()
      modifies this
      ensures Valid()
      ensures Model() == Step(old(Model()), Deactivate(relayer)) && error == Refusal(old(Model()), Deactivate(relayer))
    {
      if relayer !in relayers { return Some(RelayerNotFound); }
      relayers := relayers[relayer := relayers[relayer].(active := false)];
      return None;
    }

    method RequestReimbursement(relayer: Id, lamports: int, request: Id) returns (error: Option<Error>)
      requires Valid()
      modifies this
      ensures Valid()
      ensures Model() == Step(old(Model()), RequestPayment(relayer, lamports, request))
      ensures error == Refusal(old(Model()), RequestPayment(relayer, lamports, request))
    {
      if relayer !in relayers { return Some(RelayerNotFound); }
      if !relayers[relayer].active { return Some(RelayerIsDeactivated); }
      if lamports <= 0 { return Some(AmountMustBePositive); }
      if lamports > MAX_REIMBURSEMENT_PER_BATCH { return Some(AmountExceedsMaxPerBatch); }
      requests := requests[request := Request(relayer, lamports, Pending)];
      relayers := relayers[relayer := relayers[relayer].(pending := relayers[relayer].pending + lamports)];
      return None;
    }

    method ApproveReimbursement(request: Id) returns (error: Option<Error>)
      requires Valid()
      modifies this
      ensures Valid()
      ensures Model() == Step(old(Model()), ApprovePayment(request))
              && error == Refusal(old(Model()), ApprovePayment(request))
    {
      if request !in requests { return Some(ReimbursementRequestNotFound); }
      var q := requests[request];
      if q.status != Pending { return Some(RequestAlreadyResolved); }
      if q.amount > VaultLamports(sol) { return Some(InsufficientVaultForReimbursement); }
      sol := sol - InSol(q.amount);
      var r := relayers[q.relayer];
      r := r.(paid := r.paid + q.amount);
      r := r.(reimbursed := r.reimbursed + q.amount);
      relayers := relayers[q.relayer := r.(pending := r.pending - q.amount)];
      requests := requests[request := q.(status := Paid)];
      return None;
    }

    method RejectReimbursement(request: Id) returns (error: Option<Error>)
      requires Valid()
      modifies this
      ensures Valid()
      ensures Model() == Step(old(Model()), RejectPayment(request))
              && error == Refusal(old(Model()), RejectPayment(request))
    {
      if request !in requests { return Some(ReimbursementRequestNotFound); }
      var q := requests[request];
      if q.status != Pending { return Some(RequestAlreadyResolved); }
      requests := requests[request := q.(status := Rejected)];
      relayers := relayers[q.relayer := relayers[q.relayer].(pending := relayers[q.relayer].pending - q.amount)];
      return None;
    }
  }

  // ---------------------------------------------------------------------------
  // Relayer and credit accounting
  // ---------------------------------------------------------------------------

  function OwedTo(relayer: Id, status: RequestStatus): Request -> int {
    (q: Request) => if q.relayer == relayer && q.status == status then q.amount else 0
  }

  function Owed(): Request -> int {
    (q: Request) => if q.status == Pending then q.amount else 0
  }

  function PendingOf(): Relayer -> int {
    (r: Relayer) => r.pending
  }

  ghost predicate RelayerOk(v: Vault, id: Id)
    requires id in v.relayers
  {
    && v.relayers[id].pending == Sum(v.requests, OwedTo(id, Pending))
    && v.relayers[id].reimbursed == Sum(v.requests, OwedTo(id, Paid)) == v.relayers[id].paid
  }

  ghost predicate RelayersOk(v: Vault) {
    forall id :: id in v.relayers ==> RelayerOk(v, id)
  }

  ghost predicate LiabilityOk(v: Vault) {
    Sum(v.relayers, PendingOf()) == Sum(v.requests, Owed())
  }

  ghost predicate RequestsOk(v: Vault) {
    forall q :: q in v.requests ==>
      v.requests[q].relayer in v.relayers && 0 < v.requests[q].amount <= MAX_REIMBURSEMENT_PER_BATCH
  }

  ghost predicate CreditsOk(v: Vault) {
    forall u :: u in v.credits ==> v.credits[u].balance == v.credits[u].earned - v.credits[u].spent
  }

  /** Each relayer's totals are the sums of its pending and paid requests; the total liability is the
      sum of all pending requests; every request names a relayer and a permitted amount; and every
      credit balance is what was earned less what was spent. */
  ghost predicate Accounted(v: Vault) {
    RelayersOk(v) && LiabilityOk(v) && RequestsOk(v) && CreditsOk(v)
  }

  /** A new relayer has no requests yet. */
  lemma {:induction false} NothingOwed(requests: map<Id, Request>, relayer: Id, status: RequestStatus)
    requires forall q :: q in requests ==> requests[q].relayer != relayer
    ensures Sum(requests, OwedTo(relayer, status)) == 0
    decreases |requests|
  {
    if requests != map[] {
      var q :| q in requests;
      SumTake(requests, OwedTo(relayer, status), q);
      NothingOwed(requests - {q}, relayer, status);
    }
  }

  lemma RegisterAccounted(v: Vault, publicKey: Name, relayer: Id)
    requires Accounted(v) && relayer !in v.relayers
    ensures Accounted(Step(v, Register(publicKey, relayer)))
  {
    var v' := Step(v, Register(publicKey, relayer));
    NothingOwed(v.requests, relayer, Pending);
    NothingOwed(v.requests, relayer, Paid);
    SumInsert(v.relayers, PendingOf(), relayer, v'.relayers[relayer]);
    forall id | id in v'.relayers
      ensures RelayerOk(v', id)
    {
      assert id != relayer ==> RelayerOk(v, id);
    }
  }

  lemma DeactivateAccounted(v: Vault, relayer: Id)
    requires Accounted(v)
    ensures Accounted(Step(v, Deactivate(relayer)))
  {
    if relayer in v.relayers {
      var v' := Step(v, Deactivate(relayer));
      SumReplace(v.relayers, PendingOf(), relayer, v'.relayers[relayer]);
      forall id | id in v'.relayers
        ensures RelayerOk(v', id)
      {
        assert RelayerOk(v, id);
      }
    }
  }

  lemma RequestAccounted(v: Vault, relayer: Id, lamports: int, request: Id)
    requires Accounted(v) && request !in v.requests
    ensures Accounted(Step(v, RequestPayment(relayer, lamports, request)))
  {
    var op := RequestPayment(relayer, lamports, request);
    if Refusal(v, op).None? {
      RequestTotals(v, op);
      forall id | id in Applied(v, op).relayers
        ensures RelayerOk(Applied(v, op), id)
      {
        assert RelayerOk(v, id);
        RequestRelayerOk(v, op, id);
      }
    }
  }

  lemma RequestTotals(v: Vault, op: Op)
    requires op.RequestPayment? && Refusal(v, op).None? && op.request !in v.requests && LiabilityOk(v)
    ensures LiabilityOk(Applied(v, op))
  {
    var v' := Applied(v, op);
    SumReplace(v.relayers, PendingOf(), op.relayer, v'.relayers[op.relayer]);
    SumInsert(v.requests, Owed(), op.request, v'.requests[op.request]);
  }

  lemma RequestRelayerOk(v: Vault, op: Op, id: Id)
    requires op.RequestPayment? && Refusal(v, op).None? && op.request !in v.requests
    requires id in v.relayers && RelayerOk(v, id)
    ensures RelayerOk(Applied(v, op), id)
  {
    var q := Request(op.relayer, op.lamports, Pending);
    SumInsert(v.requests, OwedTo(id, Pending), op.request, q);
    SumInsert(v.requests, OwedTo(id, Paid), op.request, q);
  }

  lemma ResolveRelayerOk(v: Vault, op: Op, id: Id)
    requires (op.ApprovePayment? || op.RejectPayment?) && Refusal(v, op).None?
    requires id in v.relayers && RelayerOk(v, id)
    ensures RelayerOk(Applied(v, op), id)
  {
    var q' := v.requests[op.request].(status := if op.ApprovePayment? then Paid else Rejected);
    SumReplace(v.requests, OwedTo(id, Pending), op.request, q');
    SumReplace(v.requests, OwedTo(id, Paid), op.request, q');
  }

  lemma ResolveTotals(v: Vault, op: Op)
    requires (op.ApprovePayment? || op.RejectPayment?) && Refusal(v, op).None?
    requires LiabilityOk(v)
    ensures LiabilityOk(Applied(v, op))
  {
    var v', relayer := Applied(v, op), v.requests[op.request].relayer;
    SumReplace(v.relayers, PendingOf(), relayer, v'.relayers[relayer]);
    SumReplace(v.requests, Owed(), op.request, v'.requests[op.request]);
  }

  /** Resolving a pending request moves it out of what its relayer is owed, and into what it was paid
      when it is approved. */
  lemma ResolveAccounted(v: Vault, op: Op)
    requires Accounted(v) && (op.ApprovePayment? || op.RejectPayment?)
    ensures Accounted(Step(v, op))
  {
    if Refusal(v, op).None? {
      ResolveTotals(v, op);
      ResolveRelayers(v, op);
      ResolveRequests(v, op);
    }
  }

  lemma ResolveRequests(v: Vault, op: Op)
    requires (op.ApprovePayment? || op.RejectPayment?) && Refusal(v, op).None? && RequestsOk(v) && CreditsOk(v)
    ensures RequestsOk(Applied(v, op)) && CreditsOk(Applied(v, op))
  {
  }

  lemma ResolveRelayers(v: Vault, op: Op)
    requires (op.ApprovePayment? || op.RejectPayment?) && Refusal(v, op).None? && RelayersOk(v)
    ensures RelayersOk(Applied(v, op))
  {
    forall id | id in Applied(v, op).relayers
      ensures RelayerOk(Applied(v, op), id)
    {
      assert RelayerOk(v, id);
      ResolveRelayerOk(v, op, id);
    }
  }

  lemma CreditsAccounted(v: Vault, op: Op)
    requires Accounted(v) && (op.Issue? || op.Spend? || op.Deposit? || op.Withdraw?)
    ensures Accounted(Step(v, op))
  {
    SameRelayers(v, Step(v, op));
  }

  lemma SameRelayers(v: Vault, v': Vault)
    requires RelayersOk(v) && v'.relayers == v.relayers && v'.requests == v.requests
    ensures RelayersOk(v')
  {
    forall id | id in v'.relayers
      ensures RelayerOk(v', id)
    {
      assert RelayerOk(v, id);
    }
  }

  lemma StepAccounted(v: Vault, op: Op)
    requires Accounted(v) && Fresh(v, op)
    ensures Accounted(Step(v, op))
  {
    match op
    case Register(publicKey, relayer) => RegisterAccounted(v, publicKey, relayer);
    case Deactivate(relayer) => DeactivateAccounted(v, relayer);
    case RequestPayment(relayer, lamports, request) => RequestAccounted(v, relayer, lamports, request);
    case ApprovePayment(request) => ResolveAccounted(v, op);
    case RejectPayment(request) => ResolveAccounted(v, op);
    case _ => CreditsAccounted(v, op);
  }

  ghost predicate IsRun(vaults: seq<Vault>, ops: seq<Op>) {
    && |vaults| == |ops| + 1
    && vaults[0] == Vault(vaults[0].sol, map[], map[], map[])
    && forall i :: 0 <= i < |ops| ==> Fresh(vaults[i], ops[i]) && vaults[i + 1] == Step(vaults[i], ops[i])
  }

  /** The accounts add up in every reachable state. */
  lemma {:induction false} RunAccounted(vaults: seq<Vault>, ops: seq<Op>, n: nat)
    requires IsRun(vaults, ops) && n <= |ops|
    ensures Accounted(vaults[n])
  {
    if n > 0 {
      RunAccounted(vaults, ops, n - 1);
      StepAccounted(vaults[n - 1], ops[n - 1]);
    }
  }

  // ---------------------------------------------------------------------------
  // The vault
  // ---------------------------------------------------------------------------

  /** What a successful operation brings into the vault: deposits, less withdrawals and paid reimbursements. */
  ghost function Inflow(v: Vault, op: Op): real {
    if Refusal(v, op).Some? then 0.0 else
    match op
    case Deposit(amount) => amount
    case Withdraw(amount) => -amount
    case ApprovePayment(request) => -InSol(v.requests[request].amount)
    case _ => 0.0
  }

  ghost function Inflows(vaults: seq<Vault>, ops: seq<Op>, n: nat): real
    requires n <= |ops| < |vaults|
  {
    if n == 0 then 0.0 else Inflows(vaults, ops, n - 1) + Inflow(vaults[n - 1], ops[n - 1])
  }

  /** A payment that passes the check on whole lamports never overdraws the vault. */
  lemma PaymentCovered(sol: real, lamports: int)
    requires sol >= 0.0 && lamports <= VaultLamports(sol)
    ensures sol - InSol(lamports) >= 0.0
  {
    assert lamports as real <= sol * LAMPORTS_PER_SOL as real;
  }

  /** The vault is its opening balance plus deposits less withdrawals and paid reimbursements, and is
      never overdrawn. */
  lemma {:induction false} RunVault(vaults: seq<Vault>, ops: seq<Op>, n: nat)
    requires IsRun(vaults, ops) && n <= |ops|
    ensures vaults[n].sol == vaults[0].sol + Inflows(vaults, ops, n)
    ensures vaults[0].sol >= 0.0 ==> vaults[n].sol >= 0.0
  {
    if n > 0 {
      RunVault(vaults, ops, n - 1);
      var v, op := vaults[n - 1], ops[n - 1];
      if op.ApprovePayment? && Refusal(v, op).None? && v.sol >= 0.0 {
        PaymentCovered(v.sol, v.requests[op.request].amount);
      }
    }
  }

  // ---------------------------------------------------------------------------
  // The credit cap
  // ---------------------------------------------------------------------------

  ghost predicate CreditsBounded(v: Vault) {
    forall u :: u in v.credits ==> 0 <= v.credits[u].balance <= MAX_CREDITS_PER_USER
  }

  /** A spend that goes through keeps the balances in [0, cap] exactly when it does not undo more than
      the cap has room for: the code does not refuse negative amounts. */
  lemma SpendBoundedIff(v: Vault, user: Name, lamports: int)
    requires CreditsBounded(v) && Refusal(v, Spend(user, lamports)).None?
    ensures CreditsBounded(Step(v, Spend(user, lamports))) <==>
            -lamports <= MAX_CREDITS_PER_USER - v.credits[user].balance
  {
    var v' := Step(v, Spend(user, lamports));
    assert v'.credits[user].balance == v.credits[user].balance - lamports;
  }

  /** With non-negative spends, every balance stays in [0, cap]. */
  lemma {:induction false} RunCreditsBounded(vaults: seq<Vault>, ops: seq<Op>, n: nat)
    requires IsRun(vaults, ops) && n <= |ops|
    requires forall i :: 0 <= i < |ops| && ops[i].Spend? ==> ops[i].lamports >= 0
    ensures CreditsBounded(vaults[n])
  {
    if n > 0 {
      RunCreditsBounded(vaults, ops, n - 1);
    }
  }

  // ---------------------------------------------------------------------------
  // What the calls of a run say
  // ---------------------------------------------------------------------------

  /** Truncation is the same on either side of zero, and drops less than one. */
  lemma TruncatesTowardZero(x: real)
    ensures Truncated(-x) == -Truncated(x)
    ensures x >= 0.0 ==> Truncated(x) as real <= x < Truncated(x) as real + 1.0
  {
  }

  /** A number of lamports is covered exactly when it is worth no more than the vault holds: the truncation
      to whole lamports refuses nothing that the vault could pay. */
  lemma CoveredIff(sol: real, lamports: int)
    requires sol >= 0.0
    ensures lamports <= VaultLamports(sol) <==> lamports as real <= sol * 1_000_000_000.0
    ensures InSol(lamports) * 1_000_000_000.0 == lamports as real
  {
  }

  /** The request is stored and was neither paid nor rejected. */
  ghost predicate Open(v: Vault, request: Id) {
    request in v.requests && v.requests[request].status != Paid && v.requests[request].status != Rejected
  }

  /** The operation has arguments in range and finds what it needs. */
  ghost predicate Permitted(v: Vault, op: Op) {
    match op
    case Deposit(amount) => amount > 0.0
    case Withdraw(amount) => 0.0 < amount <= v.sol
    case Issue(user, lamports) =>
      lamports > 0 && (if user in v.credits then v.credits[user].balance else 0) + lamports <= 1_000_000_000
    case Spend(user, lamports) => user in v.credits && lamports <= v.credits[user].balance
    case Register(_, _) => true
    case Deactivate(relayer) => relayer in v.relayers
    case RequestPayment(relayer, lamports, _) =>
      relayer in v.relayers && v.relayers[relayer].active && 0 < lamports <= 100_000_000
    case ApprovePayment(request) =>
      Open(v, request) && v.requests[request].amount as real <= v.sol * 1_000_000_000.0
    case RejectPayment(request) => Open(v, request)
  }

  /** What an error says about the operation that got it. */
  ghost predicate Explains(e: Error, v: Vault, op: Op) {
    match e
    case DepositAmountMustBePositive => op.Deposit? && op.amount <= 0.0
    case WithdrawalAmountMustBePositive => op.Withdraw? && op.amount <= 0.0
    case InsufficientVaultBalance => op.Withdraw? && op.amount > v.sol
    case CreditAmountMustBePositive => op.Issue? && op.lamports <= 0
    case WouldExceedMaxCredits =>
      op.Issue? && (if op.user in v.credits then v.credits[op.user].balance else 0) + op.lamports > 1_000_000_000
    case NoFeeCreditAccount => op.Spend? && op.user !in v.credits
    case InsufficientCredits => op.Spend? && op.user in v.credits && v.credits[op.user].balance < op.lamports
    case RelayerNotFound => (op.Deactivate? || op.RequestPayment?) && op.relayer !in v.relayers
    case RelayerIsDeactivated => op.RequestPayment? && op.relayer in v.relayers && !v.relayers[op.relayer].active
    case AmountMustBePositive => op.RequestPayment? && op.lamports <= 0
    case AmountExceedsMaxPerBatch => op.RequestPayment? && op.lamports > 100_000_000
    case ReimbursementRequestNotFound => (op.ApprovePayment? || op.RejectPayment?) && op.request !in v.requests
    case RequestAlreadyResolved =>
      (op.ApprovePayment? || op.RejectPayment?) && op.request in v.requests && !Open(v, op.request)
    case InsufficientVaultForReimbursement =>
      && op.ApprovePayment? && Open(v, op.request)
      && v.requests[op.request].amount as real > v.sol * 1_000_000_000.0
    case _ => false
  }

  /** With the vault not overdrawn and every request on a known relayer, an operation goes through exactly
      when it is permitted; every error tells the truth; and a refusal changes nothing but that an issue of a
      positive amount leaves an account behind. */
  lemma RefusalExplains(v: Vault, op: Op)
    requires v.sol >= 0.0 && RequestsOk(v)
    ensures match Refusal(v, op)
            case None => Permitted(v, op)
            case Some(e) => !Permitted(v, op) && Explains(e, v, op)
                            && Step(v, op) == v.(credits := Step(v, op).credits)
  {
    if op.ApprovePayment? || op.RejectPayment? {
      DecisionExplains(v, op);
    } else {
      OtherExplains(v, op);
    }
  }

  lemma DecisionExplains(v: Vault, op: Op)
    requires v.sol >= 0.0 && RequestsOk(v) && (op.ApprovePayment? || op.RejectPayment?)
    ensures match Refusal(v, op)
            case None => Permitted(v, op)
            case Some(e) => !Permitted(v, op) && Explains(e, v, op)
  {
    if op.request in v.requests {
      CoveredIff(v.sol, v.requests[op.request].amount);
    }
  }

  lemma OtherExplains(v: Vault, op: Op)
    requires !op.ApprovePayment? && !op.RejectPayment?
    ensures match Refusal(v, op)
            case None => Permitted(v, op)
            case Some(e) => !Permitted(v, op) && Explains(e, v, op)
  {
  }

  lemma RunRefusalIff(vaults: seq<Vault>, ops: seq<Op>, n: nat)
    requires IsRun(vaults, ops) && n < |ops| && vaults[0].sol >= 0.0
    ensures Refusal(vaults[n], ops[n]) == None <==> Permitted(vaults[n], ops[n])
  {
    RunVault(vaults, ops, n);
    RunAccounted(vaults, ops, n);
    RefusalExplains(vaults[n], ops[n]);
  }

  ghost function EarnedBy(v: Vault, op: Op, user: Name): int {
    if op.Issue? && op.user == user && Permitted(v, op) then op.lamports else 0
  }

  ghost function SpentBy(v: Vault, op: Op, user: Name): int {
    if op.Spend? && op.user == user && Permitted(v, op) then op.lamports else 0
  }

  ghost function Earnings(vaults: seq<Vault>, ops: seq<Op>, n: nat, user: Name): int
    requires n <= |ops| < |vaults|
  {
    if n == 0 then 0 else Earnings(vaults, ops, n - 1, user) + EarnedBy(vaults[n - 1], ops[n - 1], user)
  }

  ghost function Spendings(vaults: seq<Vault>, ops: seq<Op>, n: nat, user: Name): int
    requires n <= |ops| < |vaults|
  {
    if n == 0 then 0 else Spendings(vaults, ops, n - 1, user) + SpentBy(vaults[n - 1], ops[n - 1], user)
  }

  /** Some issue of a positive amount named the user. */
  ghost predicate WasIssued(ops: seq<Op>, n: nat, user: Name)
    requires n <= |ops|
  {
    exists k :: 0 <= k < n && ops[k].Issue? && ops[k].user == user && ops[k].lamports > 0
  }

  /** A credit account is what was issued to and spent by its user, and exists from the first issue on, even
      a refused one. */
  lemma {:induction false} RunCreditsNamed(vaults: seq<Vault>, ops: seq<Op>, n: nat, user: Name)
    requires IsRun(vaults, ops) && n <= |ops| && vaults[0].sol >= 0.0
    ensures user in vaults[n].credits <==> WasIssued(ops, n, user)
    ensures AccountOf(vaults[n].credits, user) ==
            CreditAccount(Earnings(vaults, ops, n, user) - Spendings(vaults, ops, n, user),
                          Earnings(vaults, ops, n, user), Spendings(vaults, ops, n, user))
  {
    if n > 0 {
      RunCreditsNamed(vaults, ops, n - 1, user);
      RunRefusalIff(vaults, ops, n - 1);
      StepCredits(vaults[n - 1], ops[n - 1], user);
      assert WasIssued(ops, n, user) <==>
             WasIssued(ops, n - 1, user) || (ops[n - 1].Issue? && ops[n - 1].user == user && ops[n - 1].lamports > 0);
    }
  }

  lemma StepCredits(v: Vault, op: Op, user: Name)
    requires Refusal(v, op) == None <==> Permitted(v, op)
    ensures var v', a := Step(v, op), AccountOf(v.credits, user);
            && (user in v'.credits <==> user in v.credits || (op.Issue? && op.user == user && op.lamports > 0))
            && AccountOf(v'.credits, user) ==
               CreditAccount(a.balance + EarnedBy(v, op, user) - SpentBy(v, op, user), a.earned + EarnedBy(v, op, user),
                             a.spent + SpentBy(v, op, user))
  {
  }

  /** One of the first n operations deactivated the relayer, which was registered. */
  ghost predicate WasDeactivated(vaults: seq<Vault>, ops: seq<Op>, n: nat, relayer: Id)
    requires n <= |ops| < |vaults|
  {
    exists k :: 0 <= k < n && relayer in vaults[k].relayers && ops[k] == Deactivate(relayer)
  }

  lemma StepRelayer(v: Vault, op: Op, relayer: Id)
    requires Fresh(v, op) && RequestsOk(v)
    ensures var v' := Step(v, op);
            if relayer in v.relayers then
              && relayer in v'.relayers && v'.relayers[relayer].publicKey == v.relayers[relayer].publicKey
              && (v'.relayers[relayer].active <==> v.relayers[relayer].active && op != Deactivate(relayer))
            else
              relayer in v'.relayers ==>
                op == Register(v'.relayers[relayer].publicKey, relayer) && v'.relayers[relayer].active
  {
  }

  /** In every reachable state a relayer has the key it was registered with, and is active exactly when it was
      not deactivated since. */
  lemma {:induction false} RunRelayerNamed(vaults: seq<Vault>, ops: seq<Op>, n: nat, relayer: Id)
    requires IsRun(vaults, ops) && n <= |ops|
    ensures relayer in vaults[n].relayers ==>
              && (exists k :: 0 <= k < n && ops[k] == Register(vaults[n].relayers[relayer].publicKey, relayer))
              && (vaults[n].relayers[relayer].active <==> !WasDeactivated(vaults, ops, n, relayer))
    ensures relayer !in vaults[n].relayers ==> !WasDeactivated(vaults, ops, n, relayer)
  {
    if n > 0 {
      var m := n - 1;
      RunRelayerNamed(vaults, ops, m, relayer);
      RunAccounted(vaults, ops, m);
      StepRelayer(vaults[m], ops[m], relayer);
      assert WasDeactivated(vaults, ops, n, relayer) <==>
             || WasDeactivated(vaults, ops, m, relayer)
             || (relayer in vaults[m].relayers && ops[m] == Deactivate(relayer));
      if relayer in vaults[n].relayers && relayer !in vaults[m].relayers {
        assert ops[m] == Register(vaults[n].relayers[relayer].publicKey, relayer);
      }
    }
  }

  /** How the first n operations left the request: paid or rejected by the one that went through, or open. */
  ghost function Resolution(vaults: seq<Vault>, ops: seq<Op>, n: nat, request: Id): RequestStatus
    requires n <= |ops| < |vaults|
  {
    if n == 0 then Pending
    else if Permitted(vaults[n - 1], ops[n - 1]) && ops[n - 1] == ApprovePayment(request) then Paid
    else if Permitted(vaults[n - 1], ops[n - 1]) && ops[n - 1] == RejectPayment(request) then Rejected
    else Resolution(vaults, ops, n - 1, request)
  }

  lemma StepRequest(v: Vault, op: Op, request: Id)
    requires Fresh(v, op) && (Refusal(v, op) == None <==> Permitted(v, op))
    ensures var v' := Step(v, op);
            if request in v.requests then
              && request in v'.requests
              && v'.requests[request] == v.requests[request].(status :=
                   if Permitted(v, op) && op == ApprovePayment(request) then Paid
                   else if Permitted(v, op) && op == RejectPayment(request) then Rejected
                   else v.requests[request].status)
            else
              && !(Permitted(v, op) && (op == ApprovePayment(request) || op == RejectPayment(request)))
              && (request in v'.requests ==>
                    var q := v'.requests[request];
                    Permitted(v, op) && op == RequestPayment(q.relayer, q.amount, request) && q.status == Pending)
  {
  }

  /** Operation k asked for the payment. */
  ghost predicate AsksFor(vaults: seq<Vault>, ops: seq<Op>, k: nat, request: Id, q: Request)
    requires k < |ops| < |vaults|
  {
    ops[k] == RequestPayment(q.relayer, q.amount, request) && Permitted(vaults[k], ops[k])
  }

  /** In every reachable state a request is one a relayer was permitted to make, and its status is what was
      decided about it. */
  lemma {:induction false} RunRequestNamed(vaults: seq<Vault>, ops: seq<Op>, n: nat, request: Id)
    requires IsRun(vaults, ops) && n <= |ops| && vaults[0].sol >= 0.0
    ensures request in vaults[n].requests ==>
              && vaults[n].requests[request].status == Resolution(vaults, ops, n, request)
              && exists k :: 0 <= k < n && AsksFor(vaults, ops, k, request, vaults[n].requests[request])
    ensures request !in vaults[n].requests ==> Resolution(vaults, ops, n, request) == Pending
  {
    if n > 0 {
      var m := n - 1;
      RunRequestNamed(vaults, ops, m, request);
      RunRefusalIff(vaults, ops, m);
      StepRequest(vaults[m], ops[m], request);
      if request in vaults[n].requests {
        if request in vaults[m].requests {
          var k :| 0 <= k < m && AsksFor(vaults, ops, k, request, vaults[m].requests[request]);
          assert AsksFor(vaults, ops, k, request, vaults[n].requests[request]);
        } else {
          assert AsksFor(vaults, ops, m, request, vaults[n].requests[request]);
        }
      }
    }
  }
}
