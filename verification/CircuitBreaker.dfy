/** The circuit breaker around external calls (backend/core/circuit_breaker.py), called sequentially.
    Whether the wrapped function succeeds, and the clock readings, are inputs. */
module CircuitBreaker {
  import opened Common

  datatype CircuitState = CLOSED | OPEN | HALF_OPEN

  datatype Settings = Settings(failureThreshold: int, recoveryTimeout: real, halfOpenMaxCalls: int)

  datatype State = State(
    state: CircuitState, failureCount: nat, lastFailure: Option<real>, halfOpenCalls: nat,
    totalCalls: nat, totalFailures: nat, totalSuccesses: nat)

  /** One use of the breaker: when it is called, whether the function would succeed, and when a failure is noted. */
  datatype Attempt = Attempt(now: real, succeeds: bool, failedAt: real)

  datatype Outcome = Refused | Returned | Raised

  const FRESH := State(CLOSED, 0, None, 0, 0, 0, 0)

  predicate ShouldAttemptReset(settings: Settings, s: State, now: real) {
    s.lastFailure.None? || now - s.lastFailure.value >= settings.recoveryTimeout
  }

  /** The state once the guards of a call were passed, or None when it is refused. */
  function Admitted(settings: Settings, s: State, now: real): Option<State> {
    var s1 := if s.state == OPEN then s.(state := HALF_OPEN, halfOpenCalls := 0) else s;
    if s.state == OPEN && !ShouldAttemptReset(settings, s, now) then None
    else if s1.state == HALF_OPEN && s1.halfOpenCalls >= settings.halfOpenMaxCalls then None
    else Some(if s1.state == HALF_OPEN then s1.(halfOpenCalls := s1.halfOpenCalls + 1) else s1)
  }

  function OnSuccess(s: State): State {
    var s1 := s.(totalSuccesses := s.totalSuccesses + 1, failureCount := 0);
    if s1.state == HALF_OPEN then s1.(state := CLOSED, halfOpenCalls := 0) else s1
  }

  function OnFailure(settings: Settings, s: State, failedAt: real): State {
    var s1 := s.(totalFailures := s.totalFailures + 1, failureCount := s.failureCount + 1,
                 lastFailure := Some(failedAt));
    if s1.failureCount >= settings.failureThreshold then s1.(state := OPEN) else s1
  }

  /** A refused call that found the breaker OPEN and due leaves it HALF_OPEN. */
  function Called(settings: Settings, s: State, a: Attempt): (State, Outcome) {
    var counted := s.(totalCalls := s.totalCalls + 1);
    match Admitted(settings, counted, a.now)
    case Some(s1) => if a.succeeds then (OnSuccess(s1), Returned) else (OnFailure(settings, s1, a.failedAt), Raised)
    case None =>
      (if s.state == OPEN && ShouldAttemptReset(settings, s, a.now)
       then counted.(state := HALF_OPEN, halfOpenCalls := 0)
       else counted, Refused)
  }

  class Breaker {
    const settings: Settings
    var s: State

    constructor (failureThreshold: int, recoveryTimeout: real, halfOpenMaxCalls: int)
      ensures settings == Settings(failureThreshold, recoveryTimeout, halfOpenMaxCalls) && s == FRESH
    {
      settings := Settings(failureThreshold, recoveryTimeout, halfOpenMaxCalls);
      s := FRESH;
    }

    method Call(a: Attempt) returns (outcome: Outcome)
      modifies this`s
      ensures (s, outcome) == Called(settings, old(s), a)
    {
      s := s.(totalCalls := s.totalCalls + 1);
      if s.state == OPEN {
        if ShouldAttemptReset(settings, s, a.now) {
          s := s.(state := HALF_OPEN, halfOpenCalls := 0);
        } else {
          return Refused;
        }
      }
      if s.state == HALF_OPEN {
        if s.halfOpenCalls >= settings.halfOpenMaxCalls {
          return Refused;
        }
        s := s.(halfOpenCalls := s.halfOpenCalls + 1);
      }
      if a.succeeds {
        NoteSuccess();
        return Returned;
      } else {
        NoteFailure(a.failedAt);
        return Raised;
      }
    }

    method NoteSuccess()
      modifies this`s
      ensures s == OnSuccess(old(s))
    {
      s := s.(totalSuccesses := s.totalSuccesses + 1, failureCount := 0);
      if s.state == HALF_OPEN {
        s := s.(state := CLOSED, halfOpenCalls := 0);
      }
    }

    method NoteFailure(failedAt: real)
      modifies this`s
      ensures s == OnFailure(settings, old(s), failedAt)
    {
      s := s.(totalFailures := s.totalFailures + 1, failureCount := s.failureCount + 1, lastFailure := Some(failedAt));
      if s.failureCount >= settings.failureThreshold {
        s := s.(state := OPEN);
      }
    }
  }

  // ---------------------------------------------------------------------------
  // The specification: consecutive failures of the calls that ran
  // ---------------------------------------------------------------------------

  function Run(settings: Settings, trace: seq<Attempt>): State {
    if trace == [] then FRESH
    else Called(settings, Run(settings, trace[..|trace| - 1]), trace[|trace| - 1]).0
  }

  function OutcomeAt(settings: Settings, trace: seq<Attempt>, k: nat): Outcome
    requires k < |trace|
  {
    Called(settings, Run(settings, trace[..k]), trace[k]).1
  }

  /** The attempts that ran, oldest first. */
  function Ran(settings: Settings, trace: seq<Attempt>): seq<Attempt> {
    if trace == [] then [] else
    var n := |trace| - 1;
    Ran(settings, trace[..n]) + (if OutcomeAt(settings, trace, n) == Refused then [] else [trace[n]])
  }

  /** How many attempts were refused. */
  function Refusals(settings: Settings, trace: seq<Attempt>): nat {
    if trace == [] then 0 else
    var n := |trace| - 1;
    Refusals(settings, trace[..n]) + (if OutcomeAt(settings, trace, n) == Refused then 1 else 0)
  }

  /** The length of the run of failures that ends a list of attempts. */
  function TrailingFailures(ran: seq<Attempt>): nat {
    if ran == [] || ran[|ran| - 1].succeeds then 0 else 1 + TrailingFailures(ran[..|ran| - 1])
  }

  function LastFailure(ran: seq<Attempt>): Option<real> {
    if ran == [] then None
    else if !ran[|ran| - 1].succeeds then Some(ran[|ran| - 1].failedAt)
    else LastFailure(ran[..|ran| - 1])
  }

  function Successes(ran: seq<Attempt>): nat {
    if ran == [] then 0 else Successes(ran[..|ran| - 1]) + (if ran[|ran| - 1].succeeds then 1 else 0)
  }

  lemma Appended(ran: seq<Attempt>, a: Attempt)
    ensures TrailingFailures(ran + [a]) == if a.succeeds then 0 else TrailingFailures(ran) + 1
    ensures LastFailure(ran + [a]) == if a.succeeds then LastFailure(ran) else Some(a.failedAt)
    ensures Successes(ran + [a]) == Successes(ran) + (if a.succeeds then 1 else 0)
  {
    assert (ran + [a])[..|ran|] == ran;
  }

  ghost predicate Refined(settings: Settings, s: State, ran: seq<Attempt>) {
    && s.state == (if TrailingFailures(ran) < settings.failureThreshold then CLOSED else OPEN)
    && s.failureCount == TrailingFailures(ran) && s.lastFailure == LastFailure(ran)
    && s.halfOpenCalls == (if TrailingFailures(ran) > settings.failureThreshold then 1 else 0)
    && s.totalSuccesses == Successes(ran) && s.totalSuccesses + s.totalFailures == |ran|
  }

  /** One call of a breaker that is CLOSED below the threshold and OPEN from it on. */
  lemma CallEffect(settings: Settings, s: State, a: Attempt)
    requires settings.failureThreshold >= 1 && settings.halfOpenMaxCalls >= 1
    requires s.state == if s.failureCount < settings.failureThreshold then CLOSED else OPEN
    requires s.halfOpenCalls == if s.failureCount > settings.failureThreshold then 1 else 0
    ensures var (s', outcome) := Called(settings, s, a);
            && s'.halfOpenCalls == (if s'.failureCount > settings.failureThreshold then 1 else 0)
            && s'.state == (if s'.failureCount < settings.failureThreshold then CLOSED else OPEN)
            && (outcome == Refused ==> s' == s.(totalCalls := s.totalCalls + 1))
            && (outcome != Refused && a.succeeds ==>
                  s'.failureCount == 0 && s'.lastFailure == s.lastFailure
                  && s'.totalSuccesses == s.totalSuccesses + 1 && s'.totalFailures == s.totalFailures)
            && (outcome != Refused && !a.succeeds ==>
                  s'.failureCount == s.failureCount + 1 && s'.lastFailure == Some(a.failedAt)
                  && s'.totalSuccesses == s.totalSuccesses && s'.totalFailures == s.totalFailures + 1)
  {
  }

  lemma RefinedStep(settings: Settings, s: State, ran: seq<Attempt>, a: Attempt, s': State, outcome: Outcome)
    requires settings.failureThreshold >= 1 && settings.halfOpenMaxCalls >= 1 && Refined(settings, s, ran)
    requires (s', outcome) == Called(settings, s, a)
    ensures Refined(settings, s', if outcome == Refused then ran else ran + [a])
  {
    CallEffect(settings, s, a);
    Appended(ran, a);
  }

  /** Refinement: after any trace the breaker is CLOSED exactly when the calls that ran end in fewer
      consecutive failures than the threshold, and otherwise OPEN; and its counters are those of the
      calls that ran. */
  lemma {:induction false} RefinesTrailingFailures(settings: Settings, trace: seq<Attempt>)
    requires settings.failureThreshold >= 1 && settings.halfOpenMaxCalls >= 1
    ensures Refined(settings, Run(settings, trace), Ran(settings, trace))
  {
    if trace != [] {
      var n := |trace| - 1;
      RefinesTrailingFailures(settings, trace[..n]);
      var s, ran := Run(settings, trace[..n]), Ran(settings, trace[..n]);
      var (s', outcome) := Called(settings, s, trace[n]);
      RefinedStep(settings, s, ran, trace[n], s', outcome);
      assert ran + [] == ran;
    }
  }

  /** A run of n failing calls at time zero. */
  function Failures(n: nat): (r: seq<Attempt>)
    ensures |r| == n
  {
    if n == 0 then [] else Failures(n - 1) + [Attempt(0.0, false, 0.0)]
  }

  lemma RunLast(settings: Settings, trace: seq<Attempt>, a: Attempt)
    ensures Run(settings, trace + [a]) == Called(settings, Run(settings, trace), a).0
  {
    assert (trace + [a])[..|trace|] == trace;
  }

  lemma ClosedFails(settings: Settings, s: State, a: Attempt)
    requires s.state == CLOSED && !a.succeeds
    ensures var s' := Called(settings, s, a).0;
            && s'.state == (if s.failureCount + 1 < settings.failureThreshold then CLOSED else OPEN)
            && s'.failureCount == s.failureCount + 1 && s'.lastFailure == Some(a.failedAt)
  {
  }

  lemma {:induction false} FailuresOpen(settings: Settings, n: nat)
    requires settings.failureThreshold >= 1 && n <= settings.failureThreshold
    ensures var s := Run(settings, Failures(n));
            && s.state == (if n < settings.failureThreshold then CLOSED else OPEN)
            && s.failureCount == n && (n > 0 ==> s.lastFailure == Some(0.0))
  {
    if n > 0 {
      FailuresOpen(settings, n - 1);
      var s, last := Run(settings, Failures(n - 1)), Attempt(0.0, false, 0.0);
      RunLast(settings, Failures(n - 1), last);
      ClosedFails(settings, s, last);
    }
  }

  /** With no room for a probe, threshold failures and a call once the timeout has passed leave the
      breaker HALF_OPEN. */
  lemma StuckHalfOpen(settings: Settings) returns (trace: seq<Attempt>)
    requires settings.failureThreshold >= 1 && settings.halfOpenMaxCalls <= 0
    ensures Run(settings, trace).state == HALF_OPEN
  {
    var failures := Failures(settings.failureThreshold);
    FailuresOpen(settings, settings.failureThreshold);
    var probe := Attempt(settings.recoveryTimeout, true, 0.0);
    RunLast(settings, failures, probe);
    trace := failures + [probe];
  }

  /** The settings for which the refinement holds after every trace are exactly those with a positive
      threshold and room for a probe. */
  lemma {:induction false} RefinementIff(settings: Settings)
    ensures (forall trace :: Refined(settings, Run(settings, trace), Ran(settings, trace)))
            <==> settings.failureThreshold >= 1 && settings.halfOpenMaxCalls >= 1
  {
    if settings.failureThreshold >= 1 && settings.halfOpenMaxCalls >= 1 {
      forall trace
        ensures Refined(settings, Run(settings, trace), Ran(settings, trace))
      {
        RefinesTrailingFailures(settings, trace);
      }
    } else if settings.failureThreshold < 1 {
      assert !Refined(settings, Run(settings, []), Ran(settings, []));
    } else {
      var trace := StuckHalfOpen(settings);
      assert !Refined(settings, Run(settings, trace), Ran(settings, trace));
    }
  }

  /** A threshold of zero or less acts as a threshold of one. */
  lemma {:induction false} SmallThresholdIsOne(settings: Settings, trace: seq<Attempt>)
    requires settings.failureThreshold <= 1
    ensures Run(settings, trace) == Run(settings.(failureThreshold := 1), trace)
  {
    if trace != [] {
      SmallThresholdIsOne(settings, trace[..|trace| - 1]);
    }
  }

  /** Every call is counted once: as a success, as a failure or as a refusal. */
  lemma {:induction false} CallsAddUp(settings: Settings, trace: seq<Attempt>)
    ensures var s := Run(settings, trace);
            s.totalCalls == s.totalSuccesses + s.totalFailures + Refusals(settings, trace) == |trace|
  {
    if trace != [] {
      CallsAddUp(settings, trace[..|trace| - 1]);
    }
  }

  /** A call runs exactly when the trailing failures are below the threshold, or the recovery timeout
      has passed since the last failure; one that runs returns or raises as the function does. */
  lemma RunsIff(settings: Settings, trace: seq<Attempt>, k: nat)
    requires settings.failureThreshold >= 1 && settings.halfOpenMaxCalls >= 1 && k < |trace|
    ensures var ran := Ran(settings, trace[..k]);
            OutcomeAt(settings, trace, k) ==
            if TrailingFailures(ran) < settings.failureThreshold
               || (LastFailure(ran).Some? && trace[k].now - LastFailure(ran).value >= settings.recoveryTimeout)
            then (if trace[k].succeeds then Returned else Raised)
            else Refused
  {
    RefinesTrailingFailures(settings, trace[..k]);
    TrailingMeansLast(Ran(settings, trace[..k]));
  }

  lemma TrailingMeansLast(ran: seq<Attempt>)
    ensures TrailingFailures(ran) > 0 ==> LastFailure(ran).Some?
  {
  }

  /** One failed probe reopens the breaker, and one successful probe closes it. */
  lemma ProbeDecides(settings: Settings, trace: seq<Attempt>, k: nat)
    requires settings.failureThreshold >= 1 && settings.halfOpenMaxCalls >= 1 && k < |trace|
    requires Run(settings, trace[..k]).state == OPEN && OutcomeAt(settings, trace, k) != Refused
    ensures Run(settings, trace[..k + 1]).state == if trace[k].succeeds then CLOSED else OPEN
  {
    RefinesTrailingFailures(settings, trace[..k]);
    assert trace[..k + 1][..k] == trace[..k];
  }

  lemma NoProbe(settings: Settings, s: State, a: Attempt)
    requires settings.halfOpenMaxCalls <= 0 && s.state != CLOSED
    ensures Called(settings, s, a).1 == Refused && Called(settings, s, a).0.state != CLOSED
  {
  }

  /** Without room for a probe, a breaker that opened refuses every later call. */
  lemma {:induction false} NoProbesNoRecovery(settings: Settings, s: State, later: seq<Attempt>)
    requires settings.halfOpenMaxCalls <= 0 && s.state != CLOSED
    ensures forall k :: 0 <= k < |later| ==> Called(settings, From(settings, s, later[..k]), later[k]).1 == Refused
    ensures From(settings, s, later).state != CLOSED
  {
    if later != [] {
      var n := |later| - 1;
      NoProbesNoRecovery(settings, s, later[..n]);
      NoProbe(settings, From(settings, s, later[..n]), later[n]);
      forall k | 0 <= k < |later|
        ensures Called(settings, From(settings, s, later[..k]), later[k]).1 == Refused
      {
        if k < n {
          assert later[..n][..k] == later[..k] && later[..n][k] == later[k];
        }
      }
    }
  }

  /** Nor does it ever count one. */
  lemma {:induction false} NoProbesCounted(settings: Settings, trace: seq<Attempt>)
    requires settings.halfOpenMaxCalls <= 0
    ensures Run(settings, trace).halfOpenCalls == 0
  {
    if trace != [] {
      NoProbesCounted(settings, trace[..|trace| - 1]);
    }
  }

  function From(settings: Settings, s: State, later: seq<Attempt>): State {
    if later == [] then s else Called(settings, From(settings, s, later[..|later| - 1]), later[|later| - 1]).0
  }
}
