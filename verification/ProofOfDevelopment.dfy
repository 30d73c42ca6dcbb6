/** The path of a development proof from push to emission (backend/services/proof_of_development.py). */
module ProofOfDevelopment {
  import opened Common
  import opened MapSums

  datatype Phase = PUSH | TESTS | SECURITY | REVIEW | GOVERNANCE | EXECUTED | REJECTED

  datatype Proof = Proof(
    phase: Phase, testsTotal: int, testsFailed: int, testsPassed: bool, criticals: int, securityClean: bool,
    votes: int, required: int, approved: bool, emission: int, cap: int)

  /** The votes a proof needs: the dataclass default, which record_push never overrides. */
  const COMMUNITY_REQUIRED := 3

  datatype Service = Service(emissionCap: int, proofs: map<Id, Proof>, voters: map<Id, set<Name>>)

  datatype Op =
    | Push(id: Id)
    | Tests(id: Id, total: int, failed: int)
    | Security(id: Id, criticals: int)
    | Vote(id: Id, voter: Name, approve: bool)
    | ApproveGovernance(id: Id, amount: int)
    | RejectGovernance(id: Id)

  function VotersOf(s: Service, id: Id): set<Name> {
    if id in s.voters then s.voters[id] else {}
  }

  /** The error an operation raises, if any. */
  function Refusal(s: Service, op: Op): Option<Error> {
    match op
    case Push(_) => None
    case Tests(id, _, _) => if id !in s.proofs then Some(ProofNotFound) else None
    case Security(id, _) =>
      if id !in s.proofs then Some(ProofNotFound)
      else if s.proofs[id].phase != TESTS then Some(ExpectedTests)
      else None
    case Vote(id, _, _) =>
      if id !in s.proofs then Some(ProofNotFound)
      else if s.proofs[id].phase != SECURITY && s.proofs[id].phase != REVIEW then Some(CannotVoteInPhase)
      else None
    case ApproveGovernance(id, amount) =>
      if id !in s.proofs then Some(ProofNotFound)
      else if s.proofs[id].phase != GOVERNANCE then Some(ExpectedGovernance)
      else if amount > s.proofs[id].cap then Some(EmissionExceedsCap)
      else None
    case RejectGovernance(id) => if id !in s.proofs then Some(ProofNotFound) else None
  }

  function NewProof(cap: int): Proof {
    Proof(PUSH, 0, 0, false, 0, false, 0, COMMUNITY_REQUIRED, false, 0, cap)
  }

  function With(s: Service, id: Id, p: Proof): Service {
    s.(proofs := s.proofs[id := p])
  }

  function Ballot(voters: set<Name>, voter: Name, approve: bool): set<Name> {
    if approve then voters + {voter} else voters - {voter}
  }

  function Applied(s: Service, op: Op): Service
    requires Refusal(s, op).None?
  {
    match op
    case Push(id) => With(s, id, NewProof(s.emissionCap))
    case Tests(id, total, failed) =>
      With(s, id, s.proofs[id].(testsTotal := total, testsFailed := failed, testsPassed := failed == 0,
                                phase := if failed == 0 then TESTS else REJECTED))
    case Security(id, criticals) =>
      With(s, id, s.proofs[id].(criticals := criticals, securityClean := criticals == 0,
                                phase := if criticals == 0 then SECURITY else REJECTED))
    case Vote(id, voter, approve) =>
      var voters := Ballot(VotersOf(s, id), voter, approve);
      With(s, id, s.proofs[id].(votes := |voters|,
                                phase := if |voters| >= s.proofs[id].required then GOVERNANCE else REVIEW))
      .(voters := s.voters[id := voters])
    case ApproveGovernance(id, amount) =>
      With(s, id, s.proofs[id].(approved := true, emission := amount, phase := EXECUTED))
    case RejectGovernance(id) => With(s, id, s.proofs[id].(phase := REJECTED))
  }

  function Step(s: Service, op: Op): Service {
    if Refusal(s, op).None? then Applied(s, op) else s
  }

  class ProofOfDevelopmentService {
    const emissionCap: int
    var proofs: map<Id, Proof>
    var voters: map<Id, set<Name>>

    ghost function Model(): Service
      reads this
    {
      Service(emissionCap, proofs, voters)
    }

    constructor (cap: int)
      ensures Model() == Service(cap, map[], map[])
    {
      emissionCap, proofs, voters := cap, map[], map[];
    }

    method RecordPush(id: Id)
      modifies this
      ensures Model() == Step(old(Model()), Push(id))
    {
      proofs := proofs[id := Proof(PUSH, 0, 0, false, 0, false, 0, COMMUNITY_REQUIRED, false, 0, emissionCap)];
    }

    method RecordTests(id: Id, total: int, failed: int) returns (error: Option<Error>)
      modifies this
      ensures Model() == Step(old(Model()), Tests(id, total, failed))
              && error == Refusal(old(Model()), Tests(id, total, failed))
    {
      if id !in proofs { return Some(ProofNotFound); }
      var proof := proofs[id].(testsTotal := total, testsFailed := failed, testsPassed := failed == 0);
      if proof.testsPassed {
        proof := proof.(phase := TESTS);
      } else {
        proof := proof.(phase := REJECTED);
      }
      proofs := proofs[id := proof];
      return None;
    }

    method RecordSecurity(id: Id, criticals: int) returns (error: Option<Error>)
      modifies this
      ensures Model() == Step(old(Model()), Security(id, criticals))
              && error == Refusal(old(Model()), Security(id, criticals))
    {
      if id !in proofs { return Some(ProofNotFound); }
      if proofs[id].phase != TESTS { return Some(ExpectedTests); }
      var proof := proofs[id].(criticals := criticals, securityClean := criticals == 0);
      if proof.securityClean {
        proof := proof.(phase := SECURITY);
      } else {
        proof := proof.(phase := REJECTED);
      }
      proofs := proofs[id := proof];
      return None;
    }

    method CastVote(id: Id, voter: Name, approve: bool) returns (error: Option<Error>)
      modifies this
      ensures Model() == Step(old(Model()), Vote(id, voter, approve))
              && error == Refusal(old(Model()), Vote(id, voter, approve))
    {
      if id !in proofs { return Some(ProofNotFound); }
      if proofs[id].phase != SECURITY && proofs[id].phase != REVIEW { return Some(CannotVoteInPhase); }
      var ballot := if id in voters then voters[id] else {};
      if approve {
        ballot := ballot + {voter};
      } else {
        ballot := ballot - {voter};
      }
      voters := voters[id := ballot];
      var proof := proofs[id].(votes := |ballot|, phase := REVIEW);
      if proof.votes >= proof.required {
        proof := proof.(phase := GOVERNANCE);
      }
      proofs := proofs[id := proof];
      return None;
    }

    method ApproveProposal(id: Id, amount: int) returns (error: Option<Error>)
      modifies this
      ensures Model() == Step(old(Model()), ApproveGovernance(id, amount))
              && error == Refusal(old(Model()), ApproveGovernance(id, amount))
    {
      if id !in proofs { return Some(ProofNotFound); }
      if proofs[id].phase != GOVERNANCE { return Some(ExpectedGovernance); }
      if amount > proofs[id].cap { return Some(EmissionExceedsCap); }
      proofs := proofs[id := proofs[id].(approved := true, emission := amount, phase := EXECUTED)];
      return None;
    }

    method RejectProposal(id: Id) returns (error: Option<Error>)
      modifies this
      ensures Model() == Step(old(Model()), RejectGovernance(id))
              && error == Refusal(old(Model()), RejectGovernance(id))
    {
      if id !in proofs { return Some(ProofNotFound); }
      proofs := proofs[id := proofs[id].(phase := REJECTED)];
      return None;
    }
  }

  // ---------------------------------------------------------------------------
  // Histories
  // ---------------------------------------------------------------------------

  /** A recorded step of one proof; a vote carries the number of approving voters it left. */
  datatype Event =
    | Tested(failed: int)
    | Scanned(criticals: int)
    | Voted(voter: Name, approve: bool, count: int)
    | Approved(amount: int)
    | Declined

  function EventOf(s: Service, op: Op): Event
    requires !op.Push?
  {
    match op
    case Tests(_, _, failed) => Tested(failed)
    case Security(_, criticals) => Scanned(criticals)
    case Vote(id, voter, approve) => Voted(voter, approve, |Ballot(VotersOf(s, id), voter, approve)|)
    case ApproveGovernance(_, amount) => Approved(amount)
    case RejectGovernance(_) => Declined
  }

  /** The history of a proof over a run: its operations that were not refused, after its push. */
  ghost function History(s0: Service, ops: seq<Op>, id: Id): seq<Event> {
    if ops == [] then [] else
    var n := |ops| - 1;
    var s, h := Run(s0, ops[..n]), History(s0, ops[..n], id);
    if ops[n].id != id || Refusal(s, ops[n]).Some? || ops[n].Push? then h else h + [EventOf(s, ops[n])]
  }

  function Run(s0: Service, ops: seq<Op>): Service {
    if ops == [] then s0 else Step(Run(s0, ops[..|ops| - 1]), ops[|ops| - 1])
  }

  /** The approving voters, read from the votes cast. */
  function Approving(h: seq<Event>): set<Name> {
    if h == [] then {} else
    var e, before := h[|h| - 1], Approving(h[..|h| - 1]);
    if e.Voted? then Ballot(before, e.voter, e.approve) else before
  }

  /** A voter's latest vote. */
  function LatestVote(h: seq<Event>, voter: Name): Option<bool> {
    if h == [] then None else
    var e := h[|h| - 1];
    if e.Voted? && e.voter == voter then Some(e.approve) else LatestVote(h[..|h| - 1], voter)
  }

  lemma {:induction false} ApprovingIsLatest(h: seq<Event>, voter: Name)
    ensures voter in Approving(h) <==> LatestVote(h, voter) == Some(true)
  {
    if h != [] {
      ApprovingIsLatest(h[..|h| - 1], voter);
    }
  }

  /** The events from the last test report on. */
  function SinceTests(h: seq<Event>): seq<Event> {
    if h == [] then [] else
    var e := h[|h| - 1];
    if e.Tested? then [e] else SinceTests(h[..|h| - 1]) + [e]
  }

  lemma SinceTestsAppend(h: seq<Event>, e: Event)
    ensures SinceTests(h + [e]) == if e.Tested? then [e] else SinceTests(h) + [e]
    ensures Approving(h + [e]) == if e.Voted? then Ballot(Approving(h), e.voter, e.approve) else Approving(h)
  {
    assert (h + [e])[..|h|] == h;
  }

  /** Passing tests, then a clean scan. */
  ghost predicate TestedAndScanned(t: seq<Event>) {
    |t| >= 2 && t[0] == Tested(0) && t[1] == Scanned(0)
  }

  /** From the third event on, votes, none of which reached the threshold. */
  ghost predicate OnlyShortVotes(t: seq<Event>) {
    forall i :: 2 <= i < |t| ==> t[i].Voted? && t[i].count < COMMUNITY_REQUIRED
  }

  ghost predicate ReachedGovernance(t: seq<Event>) {
    && |t| >= 3 && TestedAndScanned(t)
    && t[|t| - 1].Voted? && t[|t| - 1].count >= COMMUNITY_REQUIRED
    && OnlyShortVotes(t[..|t| - 1])
  }

  /** What the events since the last tests look like in each phase. */
  ghost predicate Shows(t: seq<Event>, cap: int, phase: Phase) {
    match phase
    case PUSH => t == []
    case TESTS => t == [Tested(0)]
    case SECURITY => t == [Tested(0), Scanned(0)]
    case REVIEW => |t| >= 3 && TestedAndScanned(t) && OnlyShortVotes(t)
    case GOVERNANCE => ReachedGovernance(t)
    case EXECUTED => |t| > 0 && t[|t| - 1].Approved? && t[|t| - 1].amount <= cap && ReachedGovernance(t[..|t| - 1])
    case REJECTED =>
      && |t| > 0
      && var e := t[|t| - 1];
         e.Declined? || (e.Tested? && e.failed != 0) || (e.Scanned? && e.criticals != 0)
  }

  /** The events decide the phase. */
  lemma {:induction false} ShowsOnePhase(t: seq<Event>, cap: int, p: Phase, q: Phase)
    requires Shows(t, cap, p) && Shows(t, cap, q)
    ensures p == q
  {
  }

  ghost predicate ProofOk(s: Service, id: Id, h: seq<Event>) {
    && VotersOf(s, id) == Approving(h)
    && (id !in s.proofs ==> h == [])
    && (id in s.proofs ==>
          var p := s.proofs[id];
          && p.required == COMMUNITY_REQUIRED && p.cap == s.emissionCap && p.votes == |Approving(h)|
          && Shows(SinceTests(h), p.cap, p.phase)
          && (p.phase == EXECUTED ==> p.emission <= p.cap))
  }

  /** The phase an accepted event leads to. */
  predicate LeadsTo(phase: Phase, cap: int, e: Event, next: Phase) {
    match e
    case Tested(failed) => next == if failed == 0 then TESTS else REJECTED
    case Scanned(criticals) => phase == TESTS && next == if criticals == 0 then SECURITY else REJECTED
    case Voted(_, _, count) =>
      (phase == SECURITY || phase == REVIEW) && next == if count >= COMMUNITY_REQUIRED then GOVERNANCE else REVIEW
    case Approved(amount) => phase == GOVERNANCE && amount <= cap && next == EXECUTED
    case Declined => next == REJECTED
  }

  /** An accepted event takes a history of one phase to a history of the next. */
  lemma ShowsNext(t: seq<Event>, cap: int, phase: Phase, e: Event, next: Phase)
    requires Shows(t, cap, phase) && LeadsTo(phase, cap, e, next)
    ensures Shows(if e.Tested? then [e] else t + [e], cap, next)
  {
    assert (t + [e])[..|t|] == t;
  }

  /** The voters after an accepted step are those its event leaves. */
  lemma StepVoters(s: Service, op: Op, h: seq<Event>)
    requires !op.Push? && Refusal(s, op).None? && VotersOf(s, op.id) == Approving(h)
    ensures VotersOf(Applied(s, op), op.id) == Approving(h + [EventOf(s, op)])
  {
    SinceTestsAppend(h, EventOf(s, op));
  }

  /** The phase after an accepted step is the one its event leads to. */
  lemma StepPhase(s: Service, op: Op, p: Proof, p': Proof)
    requires !op.Push? && Refusal(s, op).None? && p == s.proofs[op.id] && p' == Applied(s, op).proofs[op.id]
    requires p.required == COMMUNITY_REQUIRED
    ensures LeadsTo(p.phase, p.cap, EventOf(s, op), p'.phase)
    ensures p'.required == COMMUNITY_REQUIRED && p'.cap == p.cap
    ensures p'.phase == EXECUTED ==> p'.emission <= p'.cap || p.phase == EXECUTED
    ensures p'.votes == if op.Vote? then EventOf(s, op).count else p.votes
  {
  }

  lemma StepProofOk(s: Service, op: Op, h: seq<Event>, id: Id)
    requires ProofOk(s, id, h) && (op.Push? ==> op.id !in s.proofs)
    ensures ProofOk(Step(s, op), id,
                    if op.id != id || Refusal(s, op).Some? || op.Push? then h else h + [EventOf(s, op)])
  {
    if op.id == id && Refusal(s, op).None? && !op.Push? {
      SinceTestsAppend(h, EventOf(s, op));
      StepVoters(s, op, h);
      var p, p' := s.proofs[id], Applied(s, op).proofs[id];
      StepPhase(s, op, p, p');
      ShowsNext(SinceTests(h), p.cap, p.phase, EventOf(s, op), p'.phase);
    }
  }

  /** Proof ids come from uuid4, which never repeats. */
  ghost predicate FreshPushes(s0: Service, ops: seq<Op>) {
    forall n :: 0 <= n < |ops| && ops[n].Push? ==> ops[n].id !in Run(s0, ops[..n]).proofs
  }

  lemma {:induction false} RunProofOk(s0: Service, ops: seq<Op>, id: Id)
    requires s0.proofs == map[] && s0.voters == map[] && FreshPushes(s0, ops)
    ensures ProofOk(Run(s0, ops), id, History(s0, ops, id))
    ensures Run(s0, ops).emissionCap == s0.emissionCap
  {
    if ops != [] {
      var n := |ops| - 1;
      FreshPrefix(s0, ops);
      RunProofOk(s0, ops[..n], id);
      StepProofOk(Run(s0, ops[..n]), ops[n], History(s0, ops[..n], id), id);
    }
  }

  /** A proof is EXECUTED exactly when the events since its last tests are, in order: passing tests, a
      clean scan, votes the last of which is the first to reach the threshold, and an approval within
      the cap. */
  lemma {:induction false} ExecutedIff(s0: Service, ops: seq<Op>, id: Id)
    requires s0.proofs == map[] && s0.voters == map[] && FreshPushes(s0, ops) && id in Run(s0, ops).proofs
    ensures Run(s0, ops).proofs[id].phase == EXECUTED <==>
            Shows(SinceTests(History(s0, ops, id)), s0.emissionCap, EXECUTED)
  {
    RunProofOk(s0, ops, id);
    var t := SinceTests(History(s0, ops, id));
    if Shows(t, s0.emissionCap, EXECUTED) {
      ShowsOnePhase(t, s0.emissionCap, EXECUTED, Run(s0, ops).proofs[id].phase);
    }
  }

  /** The vote count is the number of voters whose latest vote approves. */
  lemma VotesAreLatest(s0: Service, ops: seq<Op>, id: Id, voter: Name)
    requires s0.proofs == map[] && s0.voters == map[] && FreshPushes(s0, ops) && id in Run(s0, ops).proofs
    ensures Run(s0, ops).proofs[id].votes == |VotersOf(Run(s0, ops), id)|
    ensures voter in VotersOf(Run(s0, ops), id) <==> LatestVote(History(s0, ops, id), voter) == Some(true)
  {
    RunProofOk(s0, ops, id);
    ApprovingIsLatest(History(s0, ops, id), voter);
  }

  /** A proof past its community review has the votes it needs. */
  ghost predicate Supported(s: Service) {
    forall id :: id in s.proofs ==> ProofSupported(s.proofs[id])
  }

  ghost predicate ProofSupported(p: Proof) {
    p.phase == GOVERNANCE || p.phase == EXECUTED ==> p.votes >= p.required
  }

  lemma StepSupported(s: Service, op: Op)
    requires Supported(s)
    ensures Supported(Step(s, op))
  {
  }

  lemma {:induction false} RunSupported(s0: Service, ops: seq<Op>)
    requires s0.proofs == map[]
    ensures Supported(Run(s0, ops))
  {
    if ops != [] {
      RunSupported(s0, ops[..|ops| - 1]);
      StepSupported(Run(s0, ops[..|ops| - 1]), ops[|ops| - 1]);
    }
  }

  /** An executed proof stays executed exactly as long as nobody reports tests on it or rejects it. */
  lemma LeavesExecutedIff(s: Service, op: Op, id: Id)
    requires id in s.proofs && s.proofs[id].phase == EXECUTED && (op.Push? ==> op.id !in s.proofs)
    ensures id in Step(s, op).proofs
    ensures Step(s, op).proofs[id].phase != EXECUTED <==> op.id == id && (op.Tests? || op.RejectGovernance?)
  {
  }

  lemma Once(s: Service, op: Op)
    ensures Run(s, [op]) == Step(s, op)
  {
    assert [op][..0] == [] && Run(s, []) == s;
  }

  lemma ThreeSteps(s: Service, a: Op, b: Op, c: Op)
    ensures Run(s, [a, b, c]) == Step(Step(Step(s, a), b), c)
  {
    assert [a, b, c][..2] == [a, b] && [a, b][..1] == [a];
    Once(s, a);
  }

  /** In every reachable state, an executed proof that is tested and scanned anew needs just one
      approving vote, of anyone, to be back at governance: the old votes still count. A disapproving
      vote brings it there exactly when enough old votes are left. */
  lemma ExecutedIsNotFinal(s0: Service, ops: seq<Op>, id: Id, total: int, voter: Name, approve: bool)
    requires s0.proofs == map[] && s0.voters == map[] && FreshPushes(s0, ops)
    requires id in Run(s0, ops).proofs && Run(s0, ops).proofs[id].phase == EXECUTED
    ensures var s := Run(s0, ops);
            var s' := Run(s, [Tests(id, total, 0), Security(id, 0), Vote(id, voter, approve)]);
            id in s'.proofs && (s'.proofs[id].phase == GOVERNANCE <==>
              approve || |VotersOf(s, id) - {voter}| >= COMMUNITY_REQUIRED)
  {
    var s := Run(s0, ops);
    RunSupported(s0, ops);
    RunProofOk(s0, ops, id);
    assert ProofSupported(s.proofs[id]);
    ThreeSteps(s, Tests(id, total, 0), Security(id, 0), Vote(id, voter, approve));
    Revoted(s, id, total, voter, approve);
  }

  lemma Revoted(s: Service, id: Id, total: int, voter: Name, approve: bool)
    requires id in s.proofs && s.proofs[id].required == COMMUNITY_REQUIRED
    ensures var s' := Step(Step(Step(s, Tests(id, total, 0)), Security(id, 0)), Vote(id, voter, approve));
            && id in s'.proofs
            && s'.proofs[id].phase ==
               if |Ballot(VotersOf(s, id), voter, approve)| >= COMMUNITY_REQUIRED then GOVERNANCE else REVIEW
  {
    var s1 := Step(s, Tests(id, total, 0));
    var s2 := Step(s1, Security(id, 0));
    assert s1.voters == s.voters && s2.voters == s.voters;
  }

  // ---------------------------------------------------------------------------
  // Statistics
  // ---------------------------------------------------------------------------

  function InPhase(phase: Phase): Proof -> int {
    (p: Proof) => if p.phase == phase then 1 else 0
  }

  function EmissionOf(): Proof -> int {
    (p: Proof) => if p.phase == EXECUTED then p.emission else 0
  }

  /** get_stats: how many proofs are executed, and the emissions they authorise. */
  ghost function Executed(s: Service): int {
    Sum(s.proofs, InPhase(EXECUTED))
  }

  ghost function Authorized(s: Service): int {
    Sum(s.proofs, EmissionOf())
  }

  lemma {:induction false} EmissionsWithin(proofs: map<Id, Proof>, cap: int)
    requires forall id :: id in proofs && proofs[id].phase == EXECUTED ==> proofs[id].emission <= cap
    ensures Sum(proofs, EmissionOf()) <= cap * Sum(proofs, InPhase(EXECUTED))
    decreases |proofs|
  {
    if proofs != map[] {
      var id :| id in proofs;
      SumTake(proofs, EmissionOf(), id);
      SumTake(proofs, InPhase(EXECUTED), id);
      EmissionsWithin(proofs - {id}, cap);
      OneMore(cap, Sum(proofs - {id}, InPhase(EXECUTED)));
    }
  }

  lemma OneMore(cap: int, n: int)
    ensures cap * (1 + n) == cap + cap * n
    ensures cap * (0 + n) == cap * n
  {
  }

  /** Authorised emissions never exceed the cap times the executed proofs. */
  lemma AuthorizedWithinCap(s0: Service, ops: seq<Op>)
    requires s0.proofs == map[] && s0.voters == map[] && FreshPushes(s0, ops)
    ensures Authorized(Run(s0, ops)) <= s0.emissionCap * Executed(Run(s0, ops))
  {
    var s := Run(s0, ops);
    forall id | id in s.proofs && s.proofs[id].phase == EXECUTED
      ensures s.proofs[id].emission <= s0.emissionCap
    {
      RunProofOk(s0, ops, id);
    }
    EmissionsWithin(s.proofs, s0.emissionCap);
  }

  /** The amount an operation approves. */
  ghost function ApprovedBy(s: Service, op: Op): int {
    if op.ApproveGovernance? && Refusal(s, op).None? then op.amount else 0
  }

  /** The emission an operation takes back out of the statistics: that of an executed proof which is
      tested again or rejected. */
  ghost function WithdrawnBy(s: Service, op: Op): int {
    if (op.Tests? || op.RejectGovernance?) && op.id in s.proofs && s.proofs[op.id].phase == EXECUTED
    then s.proofs[op.id].emission else 0
  }

  ghost function ApprovedSum(s0: Service, ops: seq<Op>): int {
    if ops == [] then 0 else
    var n := |ops| - 1;
    ApprovedSum(s0, ops[..n]) + ApprovedBy(Run(s0, ops[..n]), ops[n])
  }

  ghost function Approvals(s0: Service, ops: seq<Op>): nat {
    if ops == [] then 0 else
    var n := |ops| - 1;
    Approvals(s0, ops[..n]) + (if ops[n].ApproveGovernance? && Refusal(Run(s0, ops[..n]), ops[n]).None? then 1 else 0)
  }

  ghost function WithdrawnSum(s0: Service, ops: seq<Op>): int {
    if ops == [] then 0 else
    var n := |ops| - 1;
    WithdrawnSum(s0, ops[..n]) + WithdrawnBy(Run(s0, ops[..n]), ops[n])
  }

  lemma FreshPrefix(s0: Service, ops: seq<Op>)
    requires FreshPushes(s0, ops) && ops != []
    ensures FreshPushes(s0, ops[..|ops| - 1])
    ensures ops[|ops| - 1].Push? ==> ops[|ops| - 1].id !in Run(s0, ops[..|ops| - 1]).proofs
  {
    var n := |ops| - 1;
    forall k | 0 <= k < n && ops[..n][k].Push?
      ensures ops[..n][k].id !in Run(s0, ops[..n][..k]).proofs
    {
      assert ops[..n][..k] == ops[..k];
    }
  }

  lemma StepAuthorized(s: Service, op: Op)
    requires op.Push? ==> op.id !in s.proofs
    ensures Authorized(Step(s, op)) == Authorized(s) + ApprovedBy(s, op) - WithdrawnBy(s, op)
  {
    if Refusal(s, op).None? {
      var p' := Applied(s, op).proofs[op.id];
      assert Applied(s, op).proofs == s.proofs[op.id := p'];
      if op.Push? {
        SumInsert(s.proofs, EmissionOf(), op.id, p');
      } else {
        SumReplace(s.proofs, EmissionOf(), op.id, p');
      }
    }
  }

  /** What the statistics show is every amount ever approved less what was withdrawn since by testing
      an executed proof again or rejecting it. */
  lemma {:induction false} AuthorizedAccounts(s0: Service, ops: seq<Op>)
    requires s0.proofs == map[] && FreshPushes(s0, ops)
    ensures Authorized(Run(s0, ops)) == ApprovedSum(s0, ops) - WithdrawnSum(s0, ops)
  {
    if ops != [] {
      FreshPrefix(s0, ops);
      AuthorizedAccounts(s0, ops[..|ops| - 1]);
      StepAuthorized(Run(s0, ops[..|ops| - 1]), ops[|ops| - 1]);
    }
  }

  /** Over a whole run, all amounts ever approved together stay within the cap times the approvals. */
  lemma {:induction false} ApprovedWithinCap(s0: Service, ops: seq<Op>)
    requires s0.proofs == map[] && s0.voters == map[] && FreshPushes(s0, ops)
    ensures ApprovedSum(s0, ops) <= s0.emissionCap * Approvals(s0, ops)
  {
    if ops != [] {
      var n := |ops| - 1;
      FreshPrefix(s0, ops);
      ApprovedWithinCap(s0, ops[..n]);
      RunProofOk(s0, ops[..n], ops[n].id);
      OneMore(s0.emissionCap, Approvals(s0, ops[..n]));
    }
  }

  /** An executed proof left its phase in the first |ops| operations. */
  ghost predicate Withdrew(s0: Service, ops: seq<Op>) {
    exists k :: 0 <= k < |ops| && WithdrawsAt(s0, ops, k)
  }

  ghost predicate WithdrawsAt(s0: Service, ops: seq<Op>, k: nat)
    requires k < |ops|
  {
    var s, op := Run(s0, ops[..k]), ops[k];
    (op.Tests? || op.RejectGovernance?) && op.id in s.proofs && s.proofs[op.id].phase == EXECUTED
  }

  ghost predicate PositiveEmissions(s: Service) {
    forall id :: id in s.proofs && s.proofs[id].phase == EXECUTED ==> s.proofs[id].emission > 0
  }

  ghost predicate PositiveApprovals(ops: seq<Op>) {
    forall k :: 0 <= k < |ops| && ops[k].ApproveGovernance? ==> ops[k].amount > 0
  }

  lemma {:induction false} RunPositive(s0: Service, ops: seq<Op>)
    requires s0.proofs == map[] && PositiveApprovals(ops)
    ensures PositiveEmissions(Run(s0, ops))
  {
    if ops != [] {
      RunPositive(s0, ops[..|ops| - 1]);
    }
  }

  lemma WithdrewLast(s0: Service, ops: seq<Op>)
    requires ops != []
    ensures Withdrew(s0, ops) <==> Withdrew(s0, ops[..|ops| - 1]) || WithdrawsAt(s0, ops, |ops| - 1)
  {
    var n := |ops| - 1;
    forall k | 0 <= k < n
      ensures WithdrawsAt(s0, ops, k) <==> WithdrawsAt(s0, ops[..n], k)
    {
      assert ops[..n][..k] == ops[..k];
    }
  }

  lemma {:induction false} WithdrawnIff(s0: Service, ops: seq<Op>)
    requires s0.proofs == map[] && PositiveApprovals(ops)
    ensures WithdrawnSum(s0, ops) >= 0 && (WithdrawnSum(s0, ops) > 0 <==> Withdrew(s0, ops))
  {
    if ops != [] {
      WithdrawnIff(s0, ops[..|ops| - 1]);
      RunPositive(s0, ops[..|ops| - 1]);
      WithdrewLast(s0, ops);
    }
  }

  /** With positive amounts, the statistics show all that was ever approved exactly when no executed
      proof was tested again or rejected. */
  lemma AuthorizedIsApprovedIff(s0: Service, ops: seq<Op>)
    requires s0.proofs == map[] && FreshPushes(s0, ops) && PositiveApprovals(ops)
    ensures Authorized(Run(s0, ops)) == ApprovedSum(s0, ops) <==> !Withdrew(s0, ops)
  {
    AuthorizedAccounts(s0, ops);
    WithdrawnIff(s0, ops);
  }

  // ---------------------------------------------------------------------------
  // What the calls of a run say
  // ---------------------------------------------------------------------------

  /** The operation comes in the phase it belongs to, and an approval is within the cap. */
  ghost predicate Permitted(s: Service, op: Op) {
    match op
    case Push(_) => true
    case Tests(id, _, _) => id in s.proofs
    case Security(id, _) => id in s.proofs && s.proofs[id].phase == TESTS
    case Vote(id, _, _) => id in s.proofs && s.proofs[id].phase in {SECURITY, REVIEW}
    case ApproveGovernance(id, amount) =>
      id in s.proofs && s.proofs[id].phase == GOVERNANCE && amount <= s.proofs[id].cap
    case RejectGovernance(id) => id in s.proofs
  }

  /** An operation goes through exactly when it is permitted; otherwise nothing changes, and the error tells
      the truth. */
  lemma RefusalExplains(s: Service, op: Op)
    ensures Refusal(s, op) == None <==> Permitted(s, op)
    ensures Refusal(s, op).Some? ==>
              && Step(s, op) == s
              && match Refusal(s, op).value
                 case ProofNotFound => op.id !in s.proofs
                 case ExpectedTests => op.Security? && op.id in s.proofs && s.proofs[op.id].phase != TESTS
                 case CannotVoteInPhase =>
                   op.Vote? && op.id in s.proofs && s.proofs[op.id].phase !in {SECURITY, REVIEW}
                 case ExpectedGovernance =>
                   op.ApproveGovernance? && op.id in s.proofs && s.proofs[op.id].phase != GOVERNANCE
                 case EmissionExceedsCap =>
                   && op.ApproveGovernance? && op.id in s.proofs && s.proofs[op.id].phase == GOVERNANCE
                   && op.amount > s.proofs[op.id].cap
                 case _ => false
  {
  }

  datatype Report = TestReport | ScanReport | Approval

  /** The operation makes a report of the kind on the proof. */
  ghost predicate Makes(op: Op, id: Id, kind: Report) {
    op.id == id && match kind
                   case TestReport => op.Tests?
                   case ScanReport => op.Security?
                   case Approval => op.ApproveGovernance?
  }

  /** The latest permitted report of a kind on a proof. */
  ghost function Latest(s0: Service, ops: seq<Op>, id: Id, kind: Report): Option<Op> {
    if ops == [] then None else
    var n := |ops| - 1;
    if Makes(ops[n], id, kind) && Permitted(Run(s0, ops[..n]), ops[n]) then Some(ops[n])
    else Latest(s0, ops[..n], id, kind)
  }

  /** What a proof says of its tests, its scan and its approval. */
  ghost predicate Reports(p: Proof, tests: Option<Op>, scan: Option<Op>, approval: Option<Op>) {
    && (match tests
        case None => p.testsTotal == 0 && p.testsFailed == 0 && !p.testsPassed
        case Some(op) => op.Tests? && p.testsTotal == op.total && p.testsFailed == op.failed
                         && (p.testsPassed <==> op.failed == 0))
    && (match scan
        case None => p.criticals == 0 && !p.securityClean
        case Some(op) => op.Security? && p.criticals == op.criticals && (p.securityClean <==> op.criticals == 0))
    && (match approval
        case None => !p.approved && p.emission == 0
        case Some(op) => op.ApproveGovernance? && p.approved && p.emission == op.amount)
  }

  /** In every reachable state a proof says what its latest test report, scan and approval said. */
  lemma {:induction false} RunReports(s0: Service, ops: seq<Op>, id: Id)
    requires s0.proofs == map[] && FreshPushes(s0, ops)
    ensures var tests, scan, approval := Latest(s0, ops, id, TestReport), Latest(s0, ops, id, ScanReport),
                                         Latest(s0, ops, id, Approval);
            if id in Run(s0, ops).proofs then Reports(Run(s0, ops).proofs[id], tests, scan, approval)
            else tests == None && scan == None && approval == None
  {
    if ops != [] {
      FreshPrefix(s0, ops);
      RunReports(s0, ops[..|ops| - 1], id);
      RefusalExplains(Run(s0, ops[..|ops| - 1]), ops[|ops| - 1]);
    }
  }
}
