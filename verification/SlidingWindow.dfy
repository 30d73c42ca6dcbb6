/** The redemption rate limiter (backend/services/redemption_service.py): a user's pruned list of
    timestamps against the full record of that user's redemptions. */
module SlidingWindow {
  import opened Common

  const RATE_LIMIT_PER_HOUR := 10
  const HOUR := 3600.0

  /** One recorded redemption of a user: when its receipt was dated and when it was counted. */
  datatype Record = Record(receipt: Id, createdAt: real, recordedAt: real)

  /** The clock readings of one redemption, in the order they are taken. */
  datatype Readings = Readings(check: real, validate: real, create: real, record: real)

  ghost predicate InOrder(clock: real, t: Readings) {
    clock <= t.check <= t.validate <= t.create <= t.record
  }

  /** The timestamps after the cutoff, in order. */
  function Recent(times: seq<real>, cutoff: real): seq<real> {
    if times == [] then []
    else (if times[0] > cutoff then [times[0]] else []) + Recent(times[1..], cutoff)
  }

  function Times(records: seq<Record>): (r: seq<real>)
    ensures |r| == |records| && forall i :: 0 <= i < |r| ==> r[i] == records[i].recordedAt
  {
    seq(|records|, i requires 0 <= i < |records| => records[i].recordedAt)
  }

  ghost predicate Ascending(times: seq<real>) {
    forall i, j :: 0 <= i < j < |times| ==> times[i] <= times[j]
  }

  lemma OldHead(times: seq<real>, rest: nat, cutoff: real)
    requires rest < |times| && times[0] <= cutoff
    requires forall i :: 0 <= i < rest ==> times[1..][i] <= cutoff
    ensures times[1..][rest..] == times[rest + 1..]
    ensures forall i :: 0 <= i < rest + 1 ==> times[i] <= cutoff
  {
    forall i | 1 <= i < rest + 1
      ensures times[i] <= cutoff
    {
      assert times[1..][i - 1] == times[i];
    }
  }

  /** In an ascending list, the recent entries are a suffix, and the rest are old. */
  lemma {:induction false} RecentIsSuffix(times: seq<real>, cutoff: real) returns (cut: nat)
    requires Ascending(times)
    ensures cut <= |times| && Recent(times, cutoff) == times[cut..]
    ensures forall i :: 0 <= i < cut ==> times[i] <= cutoff
  {
    cut := 0;
    if times != [] {
      if times[0] > cutoff {
        AllRecent(times, cutoff);
      } else {
        var rest := RecentIsSuffix(times[1..], cutoff);
        OldHead(times, rest, cutoff);
        cut := rest + 1;
      }
    }
  }

  lemma {:induction false} AllRecent(times: seq<real>, cutoff: real)
    requires forall i :: 0 <= i < |times| ==> times[i] > cutoff
    ensures Recent(times, cutoff) == times
  {
    if times != [] {
      AllRecent(times[1..], cutoff);
    }
  }

  lemma {:induction false} RecentSkipsOld(old_: seq<real>, times: seq<real>, cutoff: real)
    requires forall i :: 0 <= i < |old_| ==> old_[i] <= cutoff
    ensures Recent(old_ + times, cutoff) == Recent(times, cutoff)
  {
    if old_ == [] {
      assert old_ + times == times;
    } else {
      assert (old_ + times)[1..] == old_[1..] + times;
      RecentSkipsOld(old_[1..], times, cutoff);
    }
  }

  /** A user's full record and the pruned list the service keeps: the record is in time order, any
      ten apart are an hour apart, and what was pruned is over an hour old. */
  ghost predicate WindowOk(records: seq<Record>, times: seq<real>, clock: real) {
    && (forall i :: 0 <= i < |records| ==> records[i].createdAt <= records[i].recordedAt <= clock)
    && (forall i, j :: 0 <= i < j < |records| ==> records[i].recordedAt <= records[j].createdAt)
    && (forall i, j :: 0 <= i && i + RATE_LIMIT_PER_HOUR <= j < |records| ==>
        records[j].createdAt >= records[i].recordedAt + HOUR)
    && |times| <= |records| && times == Times(records)[|records| - |times|..]
    && (forall i :: 0 <= i < |records| - |times| ==> records[i].recordedAt <= clock - HOUR)
  }

  /** The pruned list answers every later check as the full record would. */
  lemma PrunedAnswersAsFull(records: seq<Record>, times: seq<real>, clock: real, now: real)
    requires WindowOk(records, times, clock) && clock <= now
    ensures Recent(times, now - HOUR) == Recent(Times(records), now - HOUR)
  {
    var cut := |records| - |times|;
    assert Times(records) == Times(records)[..cut] + times;
    RecentSkipsOld(Times(records)[..cut], times, now - HOUR);
  }

  lemma LaterKeepsWindow(records: seq<Record>, times: seq<real>, clock: real, later: real)
    requires WindowOk(records, times, clock) && clock <= later
    ensures WindowOk(records, times, later)
  {
  }

  lemma RecentOfSuffix(full: seq<real>, cut: nat, times: seq<real>, cutoff: real)
    requires cut <= |full| && times == full[cut..] && Ascending(times) && forall i :: 0 <= i < cut ==> full[i] <= cutoff
    ensures var kept := Recent(times, cutoff);
            && |kept| <= |full| && kept == full[|full| - |kept|..]
            && forall i :: 0 <= i < |full| - |kept| ==> full[i] <= cutoff
  {
    var dropped := RecentIsSuffix(times, cutoff);
    forall i | cut <= i < cut + dropped
      ensures full[i] <= cutoff
    {
      assert full[cut..][i - cut] == full[i];
    }
  }

  lemma WindowSuffix(records: seq<Record>, times: seq<real>, clock: real)
    requires WindowOk(records, times, clock)
    ensures |times| <= |records| && times == Times(records)[|records| - |times|..] && Ascending(times)
    ensures forall i :: 0 <= i < |records| - |times| ==> Times(records)[i] <= clock - HOUR
  {
  }

  lemma OldTimes(records: seq<Record>, count: nat, cutoff: real)
    requires count <= |records| && forall i :: 0 <= i < count ==> Times(records)[i] <= cutoff
    ensures forall i :: 0 <= i < count ==> records[i].recordedAt <= cutoff
  {
    assert forall i :: 0 <= i < count ==> records[i].recordedAt == Times(records)[i];
  }

  lemma PruneDropsOld(records: seq<Record>, times: seq<real>, clock: real, now: real)
    requires WindowOk(records, times, clock) && clock <= now
    ensures var kept := Recent(times, now - HOUR);
            && |kept| <= |records| && kept == Times(records)[|records| - |kept|..]
            && forall i :: 0 <= i < |records| - |kept| ==> records[i].recordedAt <= now - HOUR
  {
    WindowSuffix(records, times, clock);
    RecentOfSuffix(Times(records), |records| - |times|, times, now - HOUR);
    OldTimes(records, |records| - |Recent(times, now - HOUR)|, now - HOUR);
  }

  lemma PruneKeepsWindow(records: seq<Record>, times: seq<real>, clock: real, now: real, later: real)
    requires WindowOk(records, times, clock) && clock <= now <= later
    ensures WindowOk(records, Recent(times, now - HOUR), later)
  {
    PruneDropsOld(records, times, clock, now);
  }

  /** The list left by a check that read the clock at t.check. */
  ghost predicate Pruned(records: seq<Record>, kept: seq<real>, clock: real, t: Readings) {
    && WindowOk(records, kept, t.record)
    && (forall i :: 0 <= i < |records| ==> records[i].recordedAt <= clock)
    && (forall i :: 0 <= i < |records| - |kept| ==> records[i].recordedAt <= t.check - HOUR)
  }

  lemma RecordKeepsWindow(records: seq<Record>, kept: seq<real>, id: Id, clock: real, t: Readings)
    requires Pruned(records, kept, clock, t) && InOrder(clock, t) && |kept| < RATE_LIMIT_PER_HOUR
    ensures WindowOk(records + [Record(id, t.create, t.record)], kept + [t.record], t.record)
  {
    var records', kept' := records + [Record(id, t.create, t.record)], kept + [t.record];
    var cut := |records| - |kept|;
    assert Times(records') == Times(records) + [t.record];
    assert kept' == Times(records')[cut..];
  }

  lemma CheckedWindow(records: seq<Record>, times: seq<real>, clock: real, t: Readings, pruned: bool)
    requires WindowOk(records, times, clock) && InOrder(clock, t)
    ensures WindowOk(records, if pruned then Recent(times, t.check - HOUR) else times, t.record)
  {
    if pruned {
      PruneKeepsWindow(records, times, clock, t.check, t.record);
    } else {
      LaterKeepsWindow(records, times, clock, t.record);
    }
  }

  lemma CheckPrunes(records: seq<Record>, times: seq<real>, clock: real, t: Readings) returns (kept: seq<real>)
    requires WindowOk(records, times, clock) && InOrder(clock, t)
    ensures kept == Recent(times, t.check - HOUR) && Pruned(records, kept, clock, t)
  {
    kept := Recent(times, t.check - HOUR);
    PruneDropsOld(records, times, clock, t.check);
    PruneKeepsWindow(records, times, clock, t.check, t.record);
  }

  ghost predicate DatedIn(records: seq<Record>, id: Id, createdAt: real) {
    exists i :: 0 <= i < |records| && records[i].receipt == id && records[i].createdAt == createdAt
  }

  /** The receipt ids of a stretch of a record. */
  ghost function Stretch(records: seq<Record>, from: nat, count: nat): set<Id> {
    set i | from <= i < from + count && i < |records| :: records[i].receipt
  }

  lemma {:induction false} StretchSize(records: seq<Record>, from: nat, count: nat)
    ensures |Stretch(records, from, count)| <= count
  {
    if count == 0 {
      assert Stretch(records, from, 0) == {};
    } else {
      StretchSize(records, from, count - 1);
      var last := from + count - 1;
      if last < |records| {
        assert Stretch(records, from, count) == Stretch(records, from, count - 1) + {records[last].receipt};
      } else {
        assert Stretch(records, from, count) == Stretch(records, from, count - 1);
      }
    }
  }

  lemma SubsetSize(a: set<Id>, b: set<Id>)
    requires a <= b
    ensures |a| <= |b|
  {
    assert b == a + (b - a);
  }

  ghost predicate DatedInHour(records: seq<Record>, i: int, end: real) {
    0 <= i < |records| && end - HOUR < records[i].createdAt <= end
  }

  lemma {:induction false} FirstInHour(records: seq<Record>, end: real, i: nat) returns (first: nat)
    requires DatedInHour(records, i, end)
    ensures DatedInHour(records, first, end) && forall j :: 0 <= j < first ==> !DatedInHour(records, j, end)
  {
    if j: nat :| j < i && DatedInHour(records, j, end) {
      first := FirstInHour(records, end, j);
    } else {
      first := i;
    }
  }
}
