/** The per-client token bucket of the rate-limiting middleware (backend/middleware/rate_limit.py).
    Clock readings are inputs; token counts are real numbers. */
module TokenBucket {
  import opened Common

  datatype Bucket = Bucket(tokens: real, last: real)

  datatype Limits = Limits(rate: real, capacity: real)

  function MinReal(a: real, b: real): real {
    if a <= b then a else b
  }

  /** The tokens added over a stretch of time. */
  function Earned(limits: Limits, elapsed: real): real {
    elapsed * limits.rate
  }

  /** The tokens a bucket holds at a given time, capped; a missing bucket is created full. */
  function Refilled(limits: Limits, bucket: Option<Bucket>, now: real): real {
    if bucket.None? then limits.capacity
    else MinReal(limits.capacity, bucket.value.tokens + Earned(limits, now - bucket.value.last))
  }

  function Admits(limits: Limits, bucket: Option<Bucket>, now: real): bool {
    Refilled(limits, bucket, now) >= 1.0
  }

  function Touched(limits: Limits, bucket: Option<Bucket>, now: real): Bucket {
    var tokens := Refilled(limits, bucket, now);
    Bucket(if tokens >= 1.0 then tokens - 1.0 else tokens, now)
  }

  function Lookup(buckets: map<string, Bucket>, key: string): Option<Bucket> {
    if key in buckets then Some(buckets[key]) else None
  }

  lemma NothingEarned(limits: Limits)
    ensures Earned(limits, 0.0) == 0.0
  {
  }

  class RateLimiter {
    const limits: Limits
    var buckets: map<string, Bucket>

    constructor (rate: real, capacity: real)
      ensures limits == Limits(rate, capacity) && buckets == map[]
    {
      limits := Limits(rate, capacity);
      buckets := map[];
    }

    /** _allow, at the clock reading `now`. */
    method Allow(key: string, now: real) returns (allowed: bool)
      modifies this`buckets
      ensures allowed == Admits(limits, Lookup(old(buckets), key), now)
      ensures buckets == old(buckets)[key := Touched(limits, Lookup(old(buckets), key), now)]
    {
      if key !in buckets {
        buckets := buckets[key := Bucket(limits.capacity, now)];
      }
      var bucket := buckets[key];
      var elapsed := now - bucket.last;
      NothingEarned(limits);
      bucket := bucket.(tokens := MinReal(limits.capacity, bucket.tokens + Earned(limits, elapsed)), last := now);
      assert bucket.tokens == Refilled(limits, Lookup(old(buckets), key), now);
      allowed := bucket.tokens >= 1.0;
      if allowed {
        bucket := bucket.(tokens := bucket.tokens - 1.0);
      }
      buckets := buckets[key := bucket];
    }
  }

  // ---------------------------------------------------------------------------
  // Runs over one key
  // ---------------------------------------------------------------------------

  /** The bucket after a sequence of arrivals. */
  function After(limits: Limits, arrivals: seq<real>): Option<Bucket> {
    if arrivals == [] then None
    else
      var n := |arrivals| - 1;
      Some(Touched(limits, After(limits, arrivals[..n]), arrivals[n]))
  }

  /** Whether the k-th arrival was admitted. */
  function Admitted(limits: Limits, arrivals: seq<real>, k: nat): bool
    requires k < |arrivals|
  {
    Admits(limits, After(limits, arrivals[..k]), arrivals[k])
  }

  function TokensAt(limits: Limits, arrivals: seq<real>, k: nat): real
    requires k < |arrivals|
  {
    Refilled(limits, After(limits, arrivals[..k]), arrivals[k])
  }

  /** The decisions taken on a sequence of arrivals. */
  function Decisions(limits: Limits, arrivals: seq<real>): (r: seq<bool>)
    ensures |r| == |arrivals|
  {
    if arrivals == [] then []
    else
      var n := |arrivals| - 1;
      Decisions(limits, arrivals[..n]) + [Admits(limits, After(limits, arrivals[..n]), arrivals[n])]
  }

  lemma DecisionAt(limits: Limits, arrivals: seq<real>, k: nat)
    requires k < |arrivals|
    ensures Decisions(limits, arrivals)[k] == Admitted(limits, arrivals, k)
  {
    var n := |arrivals| - 1;
    if k < n {
      DecisionAt(limits, arrivals[..n], k);
      assert arrivals[..n][..k] == arrivals[..k];
    }
  }

  /** How many of the decisions from i up to (not including) j admit. */
  function Count(decisions: seq<bool>, i: nat, j: nat): (r: nat)
    requires i <= j <= |decisions|
    decreases j
  {
    if i == j then 0 else Count(decisions, i, j - 1) + (if decisions[j - 1] then 1 else 0)
  }

  lemma CountSplits(decisions: seq<bool>, i: nat, m: nat, j: nat)
    requires i <= m <= j <= |decisions|
    ensures Count(decisions, i, j) == Count(decisions, i, m) + Count(decisions, m, j)
    decreases j
  {
    if m < j {
      CountSplits(decisions, i, m, j - 1);
    }
  }

  /** The burst allowance of the window from arrival j to arrival k, less what it already admitted. */
  function Slack(limits: Limits, arrivals: seq<real>, decisions: seq<bool>, j: nat, k: nat): real
    requires j <= k < |arrivals| && k <= |decisions|
  {
    limits.capacity + limits.rate * (arrivals[k] - arrivals[j]) - Count(decisions, j, k) as real
  }

  /** What a decision takes out of the bucket. */
  function Cost(decision: bool): real {
    if decision then 1.0 else 0.0
  }

  /** The bucket left by the first k arrivals holds the tokens of arrival k - 1 less what it took. */
  lemma AfterLast(limits: Limits, arrivals: seq<real>, k: nat)
    requires 0 < k < |arrivals|
    ensures After(limits, arrivals[..k]) ==
            Some(Bucket(TokensAt(limits, arrivals, k - 1) - Cost(Admitted(limits, arrivals, k - 1)), arrivals[k - 1]))
  {
    assert arrivals[..k][..k - 1] == arrivals[..k - 1];
  }

  /** From one arrival to the next, the tokens and every slack change by the same amount, and the
      tokens are capped. */
  lemma TokensAdvance(limits: Limits, arrivals: seq<real>, k: nat) returns (change: real)
    requires 0 < k < |arrivals|
    ensures TokensAt(limits, arrivals, k) == MinReal(limits.capacity, TokensAt(limits, arrivals, k - 1) + change)
    ensures change == Earned(limits, arrivals[k] - arrivals[k - 1]) - Cost(Decisions(limits, arrivals)[k - 1])
  {
    AfterLast(limits, arrivals, k);
    DecisionAt(limits, arrivals, k - 1);
    change := Earned(limits, arrivals[k] - arrivals[k - 1]) - Cost(Admitted(limits, arrivals, k - 1));
  }

  lemma SlackAdvances(limits: Limits, arrivals: seq<real>, decisions: seq<bool>, j: nat, k: nat, change: real)
    requires j < k < |arrivals| && k <= |decisions|
    requires change == Earned(limits, arrivals[k] - arrivals[k - 1]) - Cost(decisions[k - 1])
    ensures Slack(limits, arrivals, decisions, j, k) == Slack(limits, arrivals, decisions, j, k - 1) + change
  {
    var before, after := Count(decisions, j, k - 1) as real, Count(decisions, j, k) as real;
    assert after == before + Cost(decisions[k - 1]);
    RateAdds(limits.rate, arrivals[j], arrivals[k - 1], arrivals[k]);
  }

  lemma RateAdds(rate: real, a: real, b: real, c: real)
    ensures rate * (c - a) == rate * (b - a) + rate * (c - b)
  {
  }

  /** t is a lower bound of row and one of its entries. */
  ghost predicate IsLeast(t: real, row: seq<real>) {
    t in row && forall j :: 0 <= j < |row| ==> t <= row[j]
  }

  lemma LeastAdvances(capacity: real, t: real, row: seq<real>, t': real, row': seq<real>, change: real)
    requires IsLeast(t, row) && |row'| == |row| + 1 && row'[|row|] == capacity
    requires forall j :: 0 <= j < |row| ==> row'[j] == row[j] + change
    requires t' == MinReal(capacity, t + change)
    ensures IsLeast(t', row')
  {
    var j :| 0 <= j < |row| && row[j] == t;
    assert row'[j] == t + change;
    assert t' == row'[j] || t' == row'[|row|];
  }

  /** The slacks of all windows ending at arrival k. */
  function Slacks(limits: Limits, arrivals: seq<real>, decisions: seq<bool>, k: nat): (r: seq<real>)
    requires k < |arrivals| && k <= |decisions|
    ensures |r| == k + 1
  {
    seq(k + 1, j requires 0 <= j <= k => Slack(limits, arrivals, decisions, j, k))
  }

  /** Exactness: the tokens found by arrival k are the minimum, over all windows ending there, of
      capacity + rate * length - admitted. */
  lemma {:induction false} Exactness(limits: Limits, arrivals: seq<real>, k: nat)
    requires k < |arrivals|
    ensures IsLeast(TokensAt(limits, arrivals, k), Slacks(limits, arrivals, Decisions(limits, arrivals), k))
  {
    var decisions := Decisions(limits, arrivals);
    var row := Slacks(limits, arrivals, decisions, k);
    assert row[k] == limits.capacity;
    if k > 0 {
      Exactness(limits, arrivals, k - 1);
      var before := Slacks(limits, arrivals, decisions, k - 1);
      var change := TokensAdvance(limits, arrivals, k);
      forall j | 0 <= j < k
        ensures row[j] == before[j] + change
      {
        SlackAdvances(limits, arrivals, decisions, j, k, change);
      }
      LeastAdvances(limits.capacity, TokensAt(limits, arrivals, k - 1), before, TokensAt(limits, arrivals, k), row,
                    change);
    }
  }

  /** A request is admitted exactly when no window ending at it would then exceed its allowance. */
  lemma AdmittedIff(limits: Limits, arrivals: seq<real>, k: nat)
    requires k < |arrivals|
    ensures Decisions(limits, arrivals)[k] <==>
            forall j: nat :: j <= k ==> Slack(limits, arrivals, Decisions(limits, arrivals), j, k) >= 1.0
  {
    DecisionAt(limits, arrivals, k);
    Exactness(limits, arrivals, k);
    var row := Slacks(limits, arrivals, Decisions(limits, arrivals), k);
    assert forall j :: 0 <= j <= k ==> row[j] == Slack(limits, arrivals, Decisions(limits, arrivals), j, k);
  }

  /** Every window of the run stays within burst plus refill. */
  ghost predicate Conforms(limits: Limits, arrivals: seq<real>, decisions: seq<bool>)
    requires |decisions| == |arrivals|
  {
    forall j: nat, k: nat :: j <= k < |arrivals| ==> WindowOk(limits, arrivals, decisions, j, k)
  }

  ghost predicate WindowOk(limits: Limits, arrivals: seq<real>, decisions: seq<bool>, j: nat, k: nat)
    requires j <= k < |arrivals| == |decisions|
  {
    Count(decisions, j, k + 1) as real <= limits.capacity + limits.rate * (arrivals[k] - arrivals[j])
  }

  ghost predicate NonDecreasing(arrivals: seq<real>) {
    forall i, j :: 0 <= i < j < |arrivals| ==> arrivals[i] <= arrivals[j]
  }

  lemma {:induction false} WindowBound(limits: Limits, arrivals: seq<real>, j: nat, k: nat)
    requires j <= k < |arrivals| && NonDecreasing(arrivals)
    requires limits.rate >= 0.0 && limits.capacity >= 0.0
    ensures WindowOk(limits, arrivals, Decisions(limits, arrivals), j, k)
    decreases k - j
  {
    var decisions := Decisions(limits, arrivals);
    if decisions[k] {
      AdmittedIff(limits, arrivals, k);
      assert Slack(limits, arrivals, decisions, j, k) >= 1.0;
    } else {
      if j < k {
        WindowBound(limits, arrivals, j, k - 1);
      }
      RefusalKeepsWindow(limits, arrivals, decisions, j, k);
    }
  }

  /** A refused arrival at the end of a window keeps it within its allowance. */
  lemma RefusalKeepsWindow(limits: Limits, arrivals: seq<real>, decisions: seq<bool>, j: nat, k: nat)
    requires j <= k < |arrivals| == |decisions| && !decisions[k] && limits.rate >= 0.0 && limits.capacity >= 0.0
    requires j < k ==> WindowOk(limits, arrivals, decisions, j, k - 1) && arrivals[k - 1] <= arrivals[k]
    ensures WindowOk(limits, arrivals, decisions, j, k)
  {
    if j < k {
      RateAdds(limits.rate, arrivals[j], arrivals[k - 1], arrivals[k]);
      RateGains(limits.rate, arrivals[k] - arrivals[k - 1]);
    } else {
      assert Count(decisions, j, k) == 0;
      assert limits.rate * (arrivals[k] - arrivals[j]) == limits.rate * 0.0;
    }
  }

  lemma RateGains(rate: real, elapsed: real)
    requires rate >= 0.0 && elapsed >= 0.0
    ensures rate * elapsed >= 0.0
  {
  }

  /** No interval of length T ever admits more than capacity + rate * T requests. */
  lemma BucketConforms(limits: Limits, arrivals: seq<real>)
    requires NonDecreasing(arrivals) && limits.rate >= 0.0 && limits.capacity >= 0.0
    ensures Conforms(limits, arrivals, Decisions(limits, arrivals))
  {
    forall j: nat, k: nat | j <= k < |arrivals|
      ensures WindowOk(limits, arrivals, Decisions(limits, arrivals), j, k)
    {
      WindowBound(limits, arrivals, j, k);
    }
  }

  /** Optimality: no policy that keeps every window within its allowance has admitted more
      requests than the bucket, at any point of the run. */
  lemma {:induction false} BucketAdmitsMost(limits: Limits, arrivals: seq<real>, other: seq<bool>, n: nat)
    requires n <= |arrivals| == |other| && Conforms(limits, arrivals, other)
    ensures Count(other, 0, n) <= Count(Decisions(limits, arrivals), 0, n)
  {
    if n > 0 {
      var decisions, k := Decisions(limits, arrivals), n - 1;
      BucketAdmitsMost(limits, arrivals, other, k);
      if !decisions[k] && other[k] {
        AdmittedIff(limits, arrivals, k);
        var j: nat :| j <= k && Slack(limits, arrivals, decisions, j, k) < 1.0;
        assert WindowOk(limits, arrivals, other, j, k);
        assert Count(other, j, n) <= Count(decisions, j, k);
        BucketAdmitsMost(limits, arrivals, other, j);
        CountSplits(other, 0, j, n);
        CountSplits(decisions, 0, j, k);
      }
    }
  }

  // ---------------------------------------------------------------------------
  // Runs over many keys
  // ---------------------------------------------------------------------------

  datatype Request = Request(key: string, now: real)

  function Run(limits: Limits, requests: seq<Request>): map<string, Bucket> {
    if requests == [] then map[]
    else
      var n := |requests| - 1;
      var before := Run(limits, requests[..n]);
      before[requests[n].key := Touched(limits, Lookup(before, requests[n].key), requests[n].now)]
  }

  function ArrivalsOf(requests: seq<Request>, key: string): seq<real> {
    if requests == [] then []
    else
      var n := |requests| - 1;
      ArrivalsOf(requests[..n], key) + (if requests[n].key == key then [requests[n].now] else [])
  }

  /** Isolation: a client's bucket depends only on that client's own arrivals. */
  lemma {:induction false} KeysAreIndependent(limits: Limits, requests: seq<Request>, key: string)
    ensures Lookup(Run(limits, requests), key) == After(limits, ArrivalsOf(requests, key))
  {
    if requests != [] {
      var n := |requests| - 1;
      KeysAreIndependent(limits, requests[..n], key);
      if requests[n].key == key {
        var arrivals := ArrivalsOf(requests, key);
        assert arrivals[..|arrivals| - 1] == ArrivalsOf(requests[..n], key);
      } else {
        assert ArrivalsOf(requests, key) == ArrivalsOf(requests[..n], key);
      }
    }
  }
}
