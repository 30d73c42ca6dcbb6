/** The batching settlement engine (backend/services/settlement_engine.py). */
module Settlement {
  import opened Common
  import opened MapSums

  /** A request; `batched` is the status flag, false for "pending". */
  datatype Request = Request(id: Id, user: Name, destination: Name, amount: int, asset: Option<Name>, chain: Name,
                             batched: bool, fee: int)

  datatype BatchStatus = Collecting | Approved

  datatype Batch = Batch(status: BatchStatus, asset: Option<Name>, chain: Name, totalAmount: int, totalFees: int,
                         requests: seq<Id>)

  /** Every request ever submitted (none is removed from the list), the batches, and the ids drawn. */
  datatype Engine = Engine(requests: seq<Request>, batches: map<Id, Batch>, issued: set<Id>)

  /** _estimate_fee. */
  function EstimateFee(chain: Name): int {
    if chain == Name("btc") then 1000
    else if chain == Name("sol") then 5000
    else if chain == Name("eth") then 20000
    else if chain == Name("usdc") then 5000
    else 1000
  }

  predicate Matches(r: Request, asset: Option<Name>, chain: Name) {
    r.asset == asset && r.chain == chain && !r.batched
  }

  function Selected(requests: seq<Request>, asset: Option<Name>, chain: Name): seq<Request> {
    if requests == [] then [] else
    var r := requests[|requests| - 1];
    Selected(requests[..|requests| - 1], asset, chain) + (if Matches(r, asset, chain) then [r] else [])
  }

  function Marked(requests: seq<Request>, asset: Option<Name>, chain: Name): (r: seq<Request>)
    ensures |r| == |requests|
  {
    if requests == [] then [] else
    var r := requests[|requests| - 1];
    Marked(requests[..|requests| - 1], asset, chain) + [if Matches(r, asset, chain) then r.(batched := true) else r]
  }

  function Amounts(requests: seq<Request>): int {
    if requests == [] then 0 else Amounts(requests[..|requests| - 1]) + requests[|requests| - 1].amount
  }

  function Fees(requests: seq<Request>): int {
    if requests == [] then 0 else Fees(requests[..|requests| - 1]) + requests[|requests| - 1].fee
  }

  function Ids(requests: seq<Request>): (r: seq<Id>)
    ensures |r| == |requests|
  {
    if requests == [] then [] else Ids(requests[..|requests| - 1]) + [requests[|requests| - 1].id]
  }

  lemma IdsAppend(requests: seq<Request>, r: Request)
    ensures Ids(requests + [r]) == Ids(requests) + [r.id]
    ensures Amounts(requests + [r]) == Amounts(requests) + r.amount
    ensures Fees(requests + [r]) == Fees(requests) + r.fee
  {
    assert (requests + [r])[..|requests|] == requests;
  }

  lemma MarkOne(requests: seq<Request>, asset: Option<Name>, chain: Name, i: nat)
    requires i < |requests|
    ensures var r, half := requests[i], Marked(requests[..i], asset, chain) + requests[i..];
            && half[i] == r
            && Marked(requests[..i + 1], asset, chain) + requests[i + 1..] ==
               half[i := if Matches(r, asset, chain) then r.(batched := true) else r]
  {
    assert requests[..i + 1][..i] == requests[..i];
  }

  // ---------------------------------------------------------------------------
  // Operations
  // ---------------------------------------------------------------------------

  function Submit(e: Engine, user: Name, destination: Name, amount: int, asset: Option<Name>, chain: Name,
                  id: Id): (Engine, Request) {
    var r := Request(id, user, destination, amount, asset, chain, false, EstimateFee(chain));
    (e.(requests := e.requests + [r], issued := e.issued + {id}), r)
  }

  function Build(e: Engine, asset: Option<Name>, chain: Name, batchId: Id): (Engine, Result<Batch>) {
    var chosen := Selected(e.requests, asset, chain);
    if chosen == [] then (e, Err(NoPendingRequests))
    else
      var batch := Batch(Collecting, asset, chain, Amounts(chosen), Fees(chosen), Ids(chosen));
      (Engine(Marked(e.requests, asset, chain), e.batches[batchId := batch], e.issued + {batchId}), Ok(batch))
  }

  function Approve(e: Engine, batchId: Id): (Engine, Result<Batch>) {
    if batchId !in e.batches then (e, Err(BatchNotFound))
    else if e.batches[batchId].status != Collecting then (e, Err(BatchNotCollecting))
    else
      var batch := e.batches[batchId].(status := Approved);
      (e.(batches := e.batches[batchId := batch]), Ok(batch))
  }

  class SettlementEngine {
    var requests: seq<Request>
    var batches: map<Id, Batch>
    ghost var issued: set<Id>

    ghost function Model(): Engine
      reads this
    {
      Engine(requests, batches, issued)
    }

    constructor ()
      ensures Model() == Engine([], map[], {})
    {
      requests, batches, issued := [], map[], {};
    }

    method SubmitRequest(user: Name, destination: Name, amount: int, asset: Option<Name>, chain: Name, id: Id)
      returns (r: Request)
      modifies this
      ensures (Model(), r) == Submit(old(Model()), user, destination, amount, asset, chain, id)
    {
      r := Request(id, user, destination, amount, asset, chain, false, EstimateFee(chain));
      requests := requests + [r];
      issued := issued + {id};
    }

    /** The pending requests of an asset and chain, with the sums and ids of the batch. */
    method Choose(asset: Option<Name>, chain: Name) returns (chosen: seq<Request>, total: int, fees: int, ids: seq<Id>)
      ensures chosen == Selected(requests, asset, chain)
      ensures total == Amounts(chosen) && fees == Fees(chosen) && ids == Ids(chosen)
    {
      chosen, total, fees, ids := [], 0, 0, [];
      for i := 0 to |requests|
        invariant chosen == Selected(requests[..i], asset, chain)
        invariant total == Amounts(chosen) && fees == Fees(chosen) && ids == Ids(chosen)
      {
        assert requests[..i + 1][..i] == requests[..i];
        var r := requests[i];
        if Matches(r, asset, chain) {
          IdsAppend(chosen, r);
          chosen, total, fees, ids := chosen + [r], total + r.amount, fees + r.fee, ids + [r.id];
        } else {
          assert chosen + [] == chosen;
        }
      }
      assert requests[..|requests|] == requests;
    }

    /** Setting the status of every chosen request. */
    method Mark(asset: Option<Name>, chain: Name)
      modifies this`requests
      ensures requests == Marked(old(requests), asset, chain)
    {
      ghost var all := requests;
      assert all[0..] == all;
      for i := 0 to |requests|
        invariant |requests| == |all|
        invariant requests == Marked(all[..i], asset, chain) + all[i..]
      {
        MarkOne(all, asset, chain, i);
        if Matches(requests[i], asset, chain) {
          requests := requests[i := requests[i].(batched := true)];
        }
      }
      assert all[..|all|] == all && Marked(all, asset, chain) + all[|all|..] == Marked(all, asset, chain);
    }

    method BuildBatch(asset: Option<Name>, chain: Name, batchId: Id) returns (result: Result<Batch>)
      modifies this
      ensures (Model(), result) == Build(old(Model()), asset, chain, batchId)
    {
      var chosen, total, fees, ids := Choose(asset, chain);
      if chosen == [] {
        return Err(NoPendingRequests);
      }
      var batch := Batch(Collecting, asset, chain, total, fees, ids);
      Mark(asset, chain);
      batches := batches[batchId := batch];
      issued := issued + {batchId};
      return Ok(batch);
    }

    method ApproveBatch(batchId: Id) returns (result: Result<Batch>)
      modifies this
      ensures (Model(), result) == Approve(old(Model()), batchId)
    {
      if batchId !in batches {
        return Err(BatchNotFound);
      }
      if batches[batchId].status != Collecting {
        return Err(BatchNotCollecting);
      }
      batches := batches[batchId := batches[batchId].(status := Approved)];
      return Ok(batches[batchId]);
    }
  }

  // ---------------------------------------------------------------------------
  // The partition into pending requests and batches
  // ---------------------------------------------------------------------------

  function Count(ids: seq<Id>, id: Id): (r: nat) {
    if ids == [] then 0 else Count(ids[..|ids| - 1], id) + (if ids[|ids| - 1] == id then 1 else 0)
  }

  function Occurrences(id: Id): Batch -> int {
    (b: Batch) => Count(b.requests, id)
  }

  /** How many batch slots name a request. */
  ghost function Slots(e: Engine, id: Id): int {
    Sum(e.batches, Occurrences(id))
  }

  /** The amount, and the fee, of the request with an id, read from the request list. */
  function AmountOf(requests: seq<Request>, id: Id): int {
    if requests == [] then 0
    else AmountOf(requests[..|requests| - 1], id)
         + (if requests[|requests| - 1].id == id then requests[|requests| - 1].amount else 0)
  }

  function FeeOf(requests: seq<Request>, id: Id): int {
    if requests == [] then 0
    else FeeOf(requests[..|requests| - 1], id)
         + (if requests[|requests| - 1].id == id then requests[|requests| - 1].fee else 0)
  }

  function AmountsOf(requests: seq<Request>, ids: seq<Id>): int {
    if ids == [] then 0 else AmountsOf(requests, ids[..|ids| - 1]) + AmountOf(requests, ids[|ids| - 1])
  }

  function FeesOf(requests: seq<Request>, ids: seq<Id>): int {
    if ids == [] then 0 else FeesOf(requests, ids[..|ids| - 1]) + FeeOf(requests, ids[|ids| - 1])
  }

  ghost predicate DistinctIds(requests: seq<Request>) {
    forall i, j :: 0 <= i < j < |requests| ==> requests[i].id != requests[j].id
  }

  /** Some request with this id belongs to a batch of this asset and chain. */
  ghost predicate Belongs(requests: seq<Request>, id: Id, asset: Option<Name>, chain: Name) {
    exists i :: 0 <= i < |requests| && requests[i].id == id && requests[i].asset == asset
                && requests[i].chain == chain && requests[i].batched
  }

  ghost predicate BatchOk(requests: seq<Request>, b: Batch) {
    && (forall k :: 0 <= k < |b.requests| ==> Belongs(requests, b.requests[k], b.asset, b.chain))
    && b.totalAmount == AmountsOf(requests, b.requests)
    && b.totalFees == FeesOf(requests, b.requests)
  }

  /** Each request is pending and in no batch, or batched and in exactly one batch slot; a batch holds
      only its own asset and chain; and its totals are the sums over its requests. */
  ghost predicate Partitioned(e: Engine) {
    && DistinctIds(e.requests)
    && e.batches.Keys <= e.issued
    && (forall i :: 0 <= i < |e.requests| ==> e.requests[i].id in e.issued)
    && (forall i :: 0 <= i < |e.requests| ==> Slots(e, e.requests[i].id) == if e.requests[i].batched then 1 else 0)
    && (forall b :: b in e.batches ==> BatchOk(e.requests, e.batches[b]))
  }

  lemma {:induction false} CountAbsent(ids: seq<Id>, id: Id)
    requires forall k :: 0 <= k < |ids| ==> ids[k] != id
    ensures Count(ids, id) == 0
  {
    if ids != [] {
      CountAbsent(ids[..|ids| - 1], id);
    }
  }

  lemma {:induction false} AmountAppended(requests: seq<Request>, r: Request, ids: seq<Id>)
    requires forall k :: 0 <= k < |ids| ==> ids[k] != r.id
    ensures AmountsOf(requests + [r], ids) == AmountsOf(requests, ids)
    ensures FeesOf(requests + [r], ids) == FeesOf(requests, ids)
  {
    if ids != [] {
      AmountAppended(requests, r, ids[..|ids| - 1]);
      assert (requests + [r])[..|requests|] == requests;
    }
  }

  lemma {:induction false} SlotsOfUnknown(batches: map<Id, Batch>, id: Id)
    requires forall b, k :: b in batches && 0 <= k < |batches[b].requests| ==> batches[b].requests[k] != id
    ensures Sum(batches, Occurrences(id)) == 0
    decreases |batches|
  {
    if batches != map[] {
      var b :| b in batches;
      SumTake(batches, Occurrences(id), b);
      CountAbsent(batches[b].requests, id);
      SlotsOfUnknown(batches - {b}, id);
    }
  }

  lemma SubmitPartitioned(e: Engine, user: Name, destination: Name, amount: int, asset: Option<Name>, chain: Name,
                          id: Id)
    requires Partitioned(e) && id !in e.issued
    ensures Partitioned(Submit(e, user, destination, amount, asset, chain, id).0)
  {
    var (e', r) := Submit(e, user, destination, amount, asset, chain, id);
    forall b | b in e.batches
      ensures BatchOk(e'.requests, e.batches[b])
      ensures forall k :: 0 <= k < |e.batches[b].requests| ==> e.batches[b].requests[k] != id
    {
      BelongsAppended(e.requests, r, e.batches[b]);
      AmountAppended(e.requests, r, e.batches[b].requests);
    }
    SlotsOfUnknown(e.batches, id);
    forall i | 0 <= i < |e'.requests|
      ensures Slots(e', e'.requests[i].id) == if e'.requests[i].batched then 1 else 0
    {
    }
  }

  lemma BelongsAppended(requests: seq<Request>, r: Request, b: Batch)
    requires BatchOk(requests, b) && forall i :: 0 <= i < |requests| ==> requests[i].id != r.id
    ensures forall k :: 0 <= k < |b.requests| ==>
              Belongs(requests + [r], b.requests[k], b.asset, b.chain) && b.requests[k] != r.id
  {
    forall k | 0 <= k < |b.requests|
      ensures Belongs(requests + [r], b.requests[k], b.asset, b.chain) && b.requests[k] != r.id
    {
      assert Belongs(requests, b.requests[k], b.asset, b.chain);
      var i :| 0 <= i < |requests| && requests[i].id == b.requests[k] && requests[i].asset == b.asset
               && requests[i].chain == b.chain && requests[i].batched;
      assert (requests + [r])[i] == requests[i];
    }
  }

  lemma {:induction false} MarkedAt(requests: seq<Request>, asset: Option<Name>, chain: Name, i: nat)
    requires i < |requests|
    ensures Marked(requests, asset, chain)[i] ==
            if Matches(requests[i], asset, chain) then requests[i].(batched := true) else requests[i]
  {
    if i < |requests| - 1 {
      MarkedAt(requests[..|requests| - 1], asset, chain, i);
    }
  }

  lemma {:induction false} MarkedAmounts(requests: seq<Request>, asset: Option<Name>, chain: Name, id: Id)
    ensures AmountOf(Marked(requests, asset, chain), id) == AmountOf(requests, id)
    ensures FeeOf(Marked(requests, asset, chain), id) == FeeOf(requests, id)
  {
    if requests != [] {
      MarkedAmounts(requests[..|requests| - 1], asset, chain, id);
      var marked := Marked(requests, asset, chain);
      assert marked[..|marked| - 1] == Marked(requests[..|requests| - 1], asset, chain);
    }
  }

  lemma {:induction false} MarkedAmountsOf(requests: seq<Request>, asset: Option<Name>, chain: Name, ids: seq<Id>)
    ensures AmountsOf(Marked(requests, asset, chain), ids) == AmountsOf(requests, ids)
    ensures FeesOf(Marked(requests, asset, chain), ids) == FeesOf(requests, ids)
  {
    if ids != [] {
      MarkedAmountsOf(requests, asset, chain, ids[..|ids| - 1]);
      MarkedAmounts(requests, asset, chain, ids[|ids| - 1]);
    }
  }

  /** Every id of a chosen request is one of a matching request. */
  lemma {:induction false} SelectedAt(requests: seq<Request>, asset: Option<Name>, chain: Name, k: nat) returns (i: nat)
    requires k < |Selected(requests, asset, chain)|
    ensures i < |requests| && Matches(requests[i], asset, chain)
    ensures Selected(requests, asset, chain)[k] == requests[i]
  {
    var n := |requests| - 1;
    var prefix := Selected(requests[..n], asset, chain);
    if k < |prefix| {
      i := SelectedAt(requests[..n], asset, chain, k);
      assert Selected(requests, asset, chain)[k] == prefix[k];
    } else {
      i := n;
    }
  }

  lemma {:induction false} IdsAt(requests: seq<Request>, k: nat)
    requires k < |requests|
    ensures Ids(requests)[k] == requests[k].id
  {
    if k < |requests| - 1 {
      IdsAt(requests[..|requests| - 1], k);
    }
  }

  /** A request is not among those chosen from requests with other ids. */
  lemma NotSelected(earlier: seq<Request>, r: Request, asset: Option<Name>, chain: Name)
    requires forall i :: 0 <= i < |earlier| ==> earlier[i].id != r.id
    ensures forall k :: 0 <= k < |Ids(Selected(earlier, asset, chain))| ==>
              Ids(Selected(earlier, asset, chain))[k] != r.id
  {
    var chosen := Selected(earlier, asset, chain);
    forall k | 0 <= k < |Ids(chosen)|
      ensures Ids(chosen)[k] != r.id
    {
      var j := SelectedAt(earlier, asset, chain, k);
      IdsAt(chosen, k);
    }
  }

  lemma CountLast(requests: seq<Request>, asset: Option<Name>, chain: Name, id: Id)
    requires requests != []
    ensures var last := requests[|requests| - 1];
            Count(Ids(Selected(requests, asset, chain)), id) ==
            Count(Ids(Selected(requests[..|requests| - 1], asset, chain)), id)
            + (if Matches(last, asset, chain) && last.id == id then 1 else 0)
  {
    var n := |requests| - 1;
    var chosen := Selected(requests[..n], asset, chain);
    if Matches(requests[n], asset, chain) {
      IdsAppend(chosen, requests[n]);
      assert (Ids(chosen) + [requests[n].id])[..|Ids(chosen)|] == Ids(chosen);
    } else {
      assert chosen + [] == chosen;
    }
  }

  /** How many requests with an id match. */
  function Hits(requests: seq<Request>, asset: Option<Name>, chain: Name, id: Id): nat {
    if requests == [] then 0 else
    var last := requests[|requests| - 1];
    Hits(requests[..|requests| - 1], asset, chain, id) + (if Matches(last, asset, chain) && last.id == id then 1 else 0)
  }

  lemma {:induction false} CountIsHits(requests: seq<Request>, asset: Option<Name>, chain: Name, id: Id)
    ensures Count(Ids(Selected(requests, asset, chain)), id) == Hits(requests, asset, chain, id)
  {
    if requests != [] {
      CountLast(requests, asset, chain, id);
      CountIsHits(requests[..|requests| - 1], asset, chain, id);
    }
  }

  lemma {:induction false} NoHits(requests: seq<Request>, asset: Option<Name>, chain: Name, id: Id)
    requires forall i :: 0 <= i < |requests| ==> requests[i].id != id
    ensures Hits(requests, asset, chain, id) == 0
  {
    if requests != [] {
      NoHits(requests[..|requests| - 1], asset, chain, id);
    }
  }

  lemma {:induction false} OneHit(requests: seq<Request>, asset: Option<Name>, chain: Name, i: nat)
    requires DistinctIds(requests) && i < |requests|
    ensures Hits(requests, asset, chain, requests[i].id) == if Matches(requests[i], asset, chain) then 1 else 0
  {
    var n := |requests| - 1;
    if i < n {
      OneHit(requests[..n], asset, chain, i);
    } else {
      NoHits(requests[..n], asset, chain, requests[n].id);
    }
  }

  /** A request is chosen once when it matches, and not at all otherwise. */
  lemma {:induction false} SelectedCount(requests: seq<Request>, asset: Option<Name>, chain: Name, i: nat)
    requires DistinctIds(requests) && i < |requests|
    ensures Count(Ids(Selected(requests, asset, chain)), requests[i].id) ==
            if Matches(requests[i], asset, chain) then 1 else 0
  {
    CountIsHits(requests, asset, chain, requests[i].id);
    OneHit(requests, asset, chain, i);
  }

  lemma {:induction false} AmountOfAbsent(requests: seq<Request>, id: Id)
    requires forall i :: 0 <= i < |requests| ==> requests[i].id != id
    ensures AmountOf(requests, id) == 0 && FeeOf(requests, id) == 0
  {
    if requests != [] {
      AmountOfAbsent(requests[..|requests| - 1], id);
    }
  }

  /** Reading one more request's amount and fee back by id. */
  lemma TotalsAppended(earlier: seq<Request>, r: Request, ids: seq<Id>)
    requires (forall i :: 0 <= i < |earlier| ==> earlier[i].id != r.id) && forall k :: 0 <= k < |ids| ==> ids[k] != r.id
    ensures AmountsOf(earlier + [r], ids) == AmountsOf(earlier, ids)
    ensures FeesOf(earlier + [r], ids) == FeesOf(earlier, ids)
    ensures AmountsOf(earlier + [r], ids + [r.id]) == AmountsOf(earlier, ids) + r.amount
    ensures FeesOf(earlier + [r], ids + [r.id]) == FeesOf(earlier, ids) + r.fee
  {
    AmountAppended(earlier, r, ids);
    AmountOfAbsent(earlier, r.id);
    assert (ids + [r.id])[..|ids|] == ids;
    assert (earlier + [r])[..|earlier|] == earlier;
  }

  lemma SelectedLast(requests: seq<Request>, asset: Option<Name>, chain: Name)
    requires requests != []
    ensures var chosen, last := Selected(requests[..|requests| - 1], asset, chain), requests[|requests| - 1];
            Selected(requests, asset, chain) == if Matches(last, asset, chain) then chosen + [last] else chosen
  {
    var chosen := Selected(requests[..|requests| - 1], asset, chain);
    assert chosen + [] == chosen;
  }

  /** The totals over the chosen requests, read back by id from the whole list. */
  lemma {:induction false} SelectedTotals(requests: seq<Request>, asset: Option<Name>, chain: Name)
    requires DistinctIds(requests)
    ensures var chosen := Selected(requests, asset, chain);
            Amounts(chosen) == AmountsOf(requests, Ids(chosen)) && Fees(chosen) == FeesOf(requests, Ids(chosen))
  {
    if requests != [] {
      var n := |requests| - 1;
      var r, chosen := requests[n], Selected(requests[..n], asset, chain);
      SelectedTotals(requests[..n], asset, chain);
      NotSelected(requests[..n], r, asset, chain);
      TotalsAppended(requests[..n], r, Ids(chosen));
      assert requests == requests[..n] + [r];
      SelectedLast(requests, asset, chain);
      IdsAppend(chosen, r);
    }
  }

  lemma BelongsMarked(requests: seq<Request>, asset: Option<Name>, chain: Name, b: Batch)
    requires BatchOk(requests, b)
    ensures BatchOk(Marked(requests, asset, chain), b)
  {
    MarkedAmountsOf(requests, asset, chain, b.requests);
    forall k | 0 <= k < |b.requests|
      ensures Belongs(Marked(requests, asset, chain), b.requests[k], b.asset, b.chain)
    {
      assert Belongs(requests, b.requests[k], b.asset, b.chain);
      var i :| 0 <= i < |requests| && requests[i].id == b.requests[k] && requests[i].asset == b.asset
               && requests[i].chain == b.chain && requests[i].batched;
      MarkedAt(requests, asset, chain, i);
    }
  }

  lemma NewBatchOk(requests: seq<Request>, asset: Option<Name>, chain: Name)
    requires DistinctIds(requests)
    ensures var chosen := Selected(requests, asset, chain);
            BatchOk(Marked(requests, asset, chain),
                    Batch(Collecting, asset, chain, Amounts(chosen), Fees(chosen), Ids(chosen)))
  {
    var chosen := Selected(requests, asset, chain);
    SelectedTotals(requests, asset, chain);
    MarkedAmountsOf(requests, asset, chain, Ids(chosen));
    forall k | 0 <= k < |chosen|
      ensures Belongs(Marked(requests, asset, chain), Ids(chosen)[k], asset, chain)
    {
      var i := SelectedAt(requests, asset, chain, k);
      IdsAt(chosen, k);
      MarkedAt(requests, asset, chain, i);
    }
  }

  /** Building fills one more slot for each request it marks. */
  lemma BuildSlots(e: Engine, asset: Option<Name>, chain: Name, batchId: Id, i: nat)
    requires DistinctIds(e.requests) && i < |e.requests| && batchId !in e.batches
    requires Selected(e.requests, asset, chain) != []
    requires Slots(e, e.requests[i].id) == if e.requests[i].batched then 1 else 0
    ensures var e' := Build(e, asset, chain, batchId).0;
            && e'.requests[i].id == e.requests[i].id
            && Slots(e', e'.requests[i].id) == if e'.requests[i].batched then 1 else 0
  {
    var e' := Build(e, asset, chain, batchId).0;
    MarkedAt(e.requests, asset, chain, i);
    SumInsert(e.batches, Occurrences(e.requests[i].id), batchId, e'.batches[batchId]);
    SelectedCount(e.requests, asset, chain, i);
  }

  lemma BuildPartitioned(e: Engine, asset: Option<Name>, chain: Name, batchId: Id)
    requires Partitioned(e) && batchId !in e.issued
    ensures Partitioned(Build(e, asset, chain, batchId).0)
  {
    var chosen := Selected(e.requests, asset, chain);
    if chosen != [] {
      var e' := Build(e, asset, chain, batchId).0;
      forall i | 0 <= i < |e.requests|
        ensures e'.requests[i].id == e.requests[i].id
        ensures Slots(e', e'.requests[i].id) == if e'.requests[i].batched then 1 else 0
      {
        BuildSlots(e, asset, chain, batchId, i);
      }
      NewBatchOk(e.requests, asset, chain);
      forall b | b in e'.batches
        ensures BatchOk(e'.requests, e'.batches[b])
      {
        if b != batchId {
          BelongsMarked(e.requests, asset, chain, e.batches[b]);
        }
      }
    }
  }

  lemma ApprovePartitioned(e: Engine, batchId: Id)
    requires Partitioned(e)
    ensures Partitioned(Approve(e, batchId).0)
  {
    var (e', r) := Approve(e, batchId);
    if r.Ok? {
      forall i | 0 <= i < |e.requests|
        ensures Slots(e', e.requests[i].id) == Slots(e, e.requests[i].id)
      {
        SumReplace(e.batches, Occurrences(e.requests[i].id), batchId, r.value);
      }
    }
  }

  // ---------------------------------------------------------------------------
  // Conservation
  // ---------------------------------------------------------------------------

  function PendingAmount(requests: seq<Request>): int {
    if requests == [] then 0 else
    var r := requests[|requests| - 1];
    PendingAmount(requests[..|requests| - 1]) + (if r.batched then 0 else r.amount)
  }

  function BatchTotal(): Batch -> int {
    (b: Batch) => b.totalAmount
  }

  /** Submitted value is pending value plus the batch totals. */
  ghost predicate Balanced(e: Engine) {
    Amounts(e.requests) == PendingAmount(e.requests) + Sum(e.batches, BatchTotal())
  }

  lemma {:induction false} MarkedPending(requests: seq<Request>, asset: Option<Name>, chain: Name)
    ensures Amounts(Marked(requests, asset, chain)) == Amounts(requests)
    ensures PendingAmount(Marked(requests, asset, chain)) ==
            PendingAmount(requests) - Amounts(Selected(requests, asset, chain))
  {
    if requests != [] {
      var n := |requests| - 1;
      MarkedPending(requests[..n], asset, chain);
      var marked := Marked(requests, asset, chain);
      assert marked[..n] == Marked(requests[..n], asset, chain);
      if Matches(requests[n], asset, chain) {
        IdsAppend(Selected(requests[..n], asset, chain), requests[n]);
      } else {
        assert Selected(requests[..n], asset, chain) + [] == Selected(requests[..n], asset, chain);
      }
    }
  }

  lemma {:induction false} SubmitBalanced(e: Engine, user: Name, destination: Name, amount: int, asset: Option<Name>,
                                          chain: Name, id: Id)
    requires Balanced(e)
    ensures Balanced(Submit(e, user, destination, amount, asset, chain, id).0)
  {
    var (e', r) := Submit(e, user, destination, amount, asset, chain, id);
    assert e'.requests[..|e'.requests| - 1] == e.requests;
  }

  lemma BuildBalanced(e: Engine, asset: Option<Name>, chain: Name, batchId: Id)
    requires Balanced(e) && batchId !in e.batches
    ensures Balanced(Build(e, asset, chain, batchId).0)
  {
    var (e', r) := Build(e, asset, chain, batchId);
    if r.Ok? {
      MarkedPending(e.requests, asset, chain);
      SumInsert(e.batches, BatchTotal(), batchId, r.value);
    }
  }

  lemma ApproveBalanced(e: Engine, batchId: Id)
    requires Balanced(e)
    ensures Balanced(Approve(e, batchId).0)
  {
    var (e', r) := Approve(e, batchId);
    if r.Ok? {
      SumReplace(e.batches, BatchTotal(), batchId, r.value);
    }
  }

  // ---------------------------------------------------------------------------
  // What the outcome of an operation says
  // ---------------------------------------------------------------------------

  /** The fee of a request, by chain. */
  ghost predicate IsFee(chain: Name, fee: int) {
    && (chain == Name("btc") ==> fee == 1000) && (chain == Name("sol") ==> fee == 5000)
    && (chain == Name("eth") ==> fee == 20000) && (chain == Name("usdc") ==> fee == 5000)
    && (chain !in {Name("btc"), Name("sol"), Name("eth"), Name("usdc")} ==> fee == 1000)
  }

  /** A submitted request stands last, pending, with the terms and the fee of its chain. */
  lemma SubmitOutcome(e: Engine, user: Name, destination: Name, amount: int, asset: Option<Name>, chain: Name, id: Id)
    ensures var (e', r) := Submit(e, user, destination, amount, asset, chain, id);
            && e'.requests == e.requests + [r] && e'.batches == e.batches
            && r.id == id && r.user == user && r.destination == destination && r.amount == amount
            && r.asset == asset && r.chain == chain && !r.batched && IsFee(chain, r.fee)
  {
    assert Name("btc").text[0] != Name("sol").text[0] && Name("btc").text[0] != Name("eth").text[0];
    assert Name("btc").text[0] != Name("usdc").text[0] && Name("sol").text[0] != Name("eth").text[0];
    assert Name("sol").text[0] != Name("usdc").text[0] && Name("eth").text[0] != Name("usdc").text[0];
  }

  /** The request is of the asset and chain, and was in no batch. */
  ghost predicate Fits(r: Request, asset: Option<Name>, chain: Name) {
    !r.batched && r.asset == asset && r.chain == chain
  }

  /** Building takes every pending request of the asset and chain and no other, and fails exactly when
      there is none. */
  lemma {:induction false} BuildOutcome(e: Engine, asset: Option<Name>, chain: Name, batchId: Id)
    ensures var (e', r) := Build(e, asset, chain, batchId);
            match r
            case Ok(b) =>
              && (exists i :: 0 <= i < |e.requests| && Fits(e.requests[i], asset, chain))
              && e'.batches == e.batches[batchId := b]
              && b.status == Collecting && b.asset == asset && b.chain == chain && |e'.requests| == |e.requests|
              && forall i :: 0 <= i < |e.requests| ==>
                   var q := e.requests[i]; e'.requests[i] == q.(batched := q.batched || Fits(q, asset, chain))
            case Err(error) =>
              && e' == e && error == NoPendingRequests
              && forall i :: 0 <= i < |e.requests| ==> !Fits(e.requests[i], asset, chain)
  {
    forall i | 0 <= i < |e.requests|
      ensures Marked(e.requests, asset, chain)[i] ==
              e.requests[i].(batched := e.requests[i].batched || Fits(e.requests[i], asset, chain))
    {
      MarkedAt(e.requests, asset, chain, i);
    }
    if Selected(e.requests, asset, chain) == [] {
      NoneSelected(e.requests, asset, chain);
    } else {
      var i := SelectedAt(e.requests, asset, chain, 0);
      assert Fits(e.requests[i], asset, chain);
    }
  }

  lemma {:induction false} NoneSelected(requests: seq<Request>, asset: Option<Name>, chain: Name)
    requires Selected(requests, asset, chain) == []
    ensures forall i :: 0 <= i < |requests| ==> !Fits(requests[i], asset, chain)
  {
    if requests != [] {
      NoneSelected(requests[..|requests| - 1], asset, chain);
    }
  }

  /** A batch is approved exactly when it is stored and collecting, and only its status changes. */
  lemma ApproveOutcome(e: Engine, batchId: Id)
    ensures var (e', r) := Approve(e, batchId);
            match r
            case Ok(b) =>
              && batchId in e.batches && e.batches[batchId].status == Collecting
              && b == e.batches[batchId].(status := Approved) && e' == e.(batches := e.batches[batchId := b])
            case Err(error) =>
              && e' == e
              && if batchId in e.batches then error == BatchNotCollecting && e.batches[batchId].status != Collecting
                 else error == BatchNotFound
  {
  }
}
