/** The append-only internal ledger (backend/services/ledger_service.py). */
module Ledger {
  import opened Common
  import opened MapSums

  datatype Account = Account(owner: Option<Name>, kind: Name, asset: Name, balance: int, version: nat)

  datatype Entry = Entry(id: Id, kind: Name, debit: Name, credit: Name, amount: int, asset: Name, claim: Option<Id>,
                         key: Name, sequence: nat)

  datatype Subject = OfAccount(account: Name) | OfEntry(entry: Id)

  datatype Event = Event(subject: Subject, sequence: nat)

  datatype Books = Books(accounts: map<Name, Account>, entries: seq<Entry>, events: seq<Event>, keys: set<Name>,
                         sequence: nat)

  // ---------------------------------------------------------------------------
  // Operations
  // ---------------------------------------------------------------------------

  function CreateAccount(l: Books, id: Name, kind: Name, asset: Name, owner: Option<Name>): (Books, Account) {
    if id in l.accounts then (l, l.accounts[id])
    else
      var a := Account(owner, kind, asset, 0, 1);
      (l.(accounts := l.accounts[id := a], events := l.events + [Event(OfAccount(id), l.sequence + 1)],
          sequence := l.sequence + 1), a)
  }

  /** The first entry posted under a key. */
  function FirstWithKey(entries: seq<Entry>, key: Name): Option<Entry> {
    if entries == [] then None
    else if entries[0].key == key then Some(entries[0])
    else FirstWithKey(entries[1..], key)
  }

  function Touched(a: Account, change: int): Account {
    a.(balance := a.balance + change, version := a.version + 1)
  }

  /** The debit and then the credit; both may name the same account. */
  function Moved(accounts: map<Name, Account>, debit: Name, credit: Name, amount: int): map<Name, Account>
    requires debit in accounts && credit in accounts
  {
    var debited := accounts[debit := Touched(accounts[debit], -amount)];
    debited[credit := Touched(debited[credit], amount)]
  }

  /** The error post_entry raises on a new key, if any. */
  function Refusal(l: Books, debit: Name, credit: Name, amount: int, asset: Name): Option<Error> {
    if debit !in l.accounts || credit !in l.accounts then Some(AccountNotFound)
    else if l.accounts[debit].asset != asset || l.accounts[credit].asset != asset then Some(AssetTypeMismatch)
    else if l.accounts[debit].balance < amount then Some(InsufficientBalance)
    else None
  }

  function Post(l: Books, kind: Name, debit: Name, credit: Name, amount: int, asset: Name, key: Name,
                claim: Option<Id>, id: Id): (Books, Result<Entry>) {
    if key in l.keys then
      var first := FirstWithKey(l.entries, key);
      (l, if first.Some? then Ok(first.value) else Err(IdempotencyCollision))
    else
      var refusal := Refusal(l, debit, credit, amount, asset);
      if refusal.Some? then (l, Err(refusal.value))
      else
        var e := Entry(id, kind, debit, credit, amount, asset, claim, key, l.sequence + 1);
        (Books(Moved(l.accounts, debit, credit, amount), l.entries + [e],
               l.events + [Event(OfEntry(id), l.sequence + 2)],
               l.keys + {key}, l.sequence + 2), Ok(e))
  }

  /** get_balance: a missing account counts as empty. */
  function Balance(l: Books, id: Name): int {
    if id in l.accounts then l.accounts[id].balance else 0
  }

  /** The entries that name an account, oldest first. */
  function Involving(entries: seq<Entry>, id: Name): seq<Entry> {
    if entries == [] then [] else
    var n := |entries| - 1;
    Involving(entries[..n], id) + (if entries[n].debit == id || entries[n].credit == id then [entries[n]] else [])
  }

  /** Python's entries[-limit:], which is the whole list for a limit of zero. */
  function LastOf(entries: seq<Entry>, limit: int): seq<Entry> {
    if limit >= |entries| || limit == 0 then entries
    else if limit > 0 then entries[|entries| - limit..]
    else if -limit <= |entries| then entries[-limit..]
    else []
  }

  class LedgerService {
    var accounts: map<Name, Account>
    var entries: seq<Entry>
    var events: seq<Event>
    var keys: set<Name>
    var sequence: nat

    ghost function Model(): Books
      reads this
    {
      Books(accounts, entries, events, keys, sequence)
    }

    constructor ()
      ensures Model() == Books(map[], [], [], {}, 0)
    {
      accounts, entries, events, keys, sequence := map[], [], [], {}, 0;
    }

    /** _event with _next_seq. */
    method LogEvent(subject: Subject)
      modifies this`events, this`sequence
      ensures sequence == old(sequence) + 1 && events == old(events) + [Event(subject, sequence)]
    {
      sequence := sequence + 1;
      events := events + [Event(subject, sequence)];
    }

    method Create(id: Name, kind: Name, asset: Name, owner: Option<Name>) returns (a: Account)
      modifies this
      ensures (Model(), a) == CreateAccount(old(Model()), id, kind, asset, owner)
    {
      if id in accounts {
        return accounts[id];
      }
      a := Account(owner, kind, asset, 0, 1);
      accounts := accounts[id := a];
      LogEvent(OfAccount(id));
    }

    method PostEntry(kind: Name, debit: Name, credit: Name, amount: int, asset: Name, key: Name,
                     claim: Option<Id>, id: Id) returns (r: Result<Entry>)
      modifies this
      ensures (Model(), r) == Post(old(Model()), kind, debit, credit, amount, asset, key, claim, id)
    {
      if key in keys {
        assert entries[0..] == entries;
        for i := 0 to |entries|
          invariant FirstWithKey(entries, key) == FirstWithKey(entries[i..], key)
        {
          assert entries[i..][1..] == entries[i + 1..];
          if entries[i].key == key {
            return Ok(entries[i]);
          }
        }
        return Err(IdempotencyCollision);
      }
      if debit !in accounts || credit !in accounts {
        return Err(AccountNotFound);
      }
      if accounts[debit].asset != asset || accounts[credit].asset != asset {
        return Err(AssetTypeMismatch);
      }
      if accounts[debit].balance < amount {
        return Err(InsufficientBalance);
      }
      sequence := sequence + 1;
      var entry := Entry(id, kind, debit, credit, amount, asset, claim, key, sequence);
      entries := entries + [entry];
      keys := keys + {key};
      accounts := accounts[debit := Touched(accounts[debit], -amount)];
      accounts := accounts[credit := Touched(accounts[credit], amount)];
      LogEvent(OfEntry(id));
      return Ok(entry);
    }

    method GetHistory(id: Name, limit: int) returns (r: seq<Entry>)
      ensures r == LastOf(Involving(entries, id), limit)
    {
      r := [];
      for i := 0 to |entries|
        invariant r == Involving(entries[..i], id)
      {
        assert entries[..i + 1][..i] == entries[..i];
        if entries[i].debit == id || entries[i].credit == id {
          r := r + [entries[i]];
        }
      }
      assert entries[..|entries|] == entries;
      if limit != 0 && limit < |r| {
        r := if limit > 0 then r[|r| - limit..] else if -limit <= |r| then r[-limit..] else [];
      }
    }

    /** The accounts whose balance is not the expected one, in the order given. */
    method Reconcile(expected: seq<(Name, int)>) returns (mismatches: seq<Name>)
      ensures mismatches == [] <==> forall i :: 0 <= i < |expected| ==> Balance(Model(), expected[i].0) == expected[i].1
      ensures forall id :: id in mismatches <==>
                exists i :: 0 <= i < |expected| && expected[i].0 == id && Balance(Model(), id) != expected[i].1
    {
      mismatches := [];
      for i := 0 to |expected|
        invariant mismatches == [] <==> forall k :: 0 <= k < i ==> Balance(Model(), expected[k].0) == expected[k].1
        invariant forall id :: id in mismatches <==>
                    exists k :: 0 <= k < i && expected[k].0 == id && Balance(Model(), id) != expected[k].1
      {
        var actual := if expected[i].0 in accounts then accounts[expected[i].0].balance else 0;
        if actual != expected[i].1 {
          mismatches := mismatches + [expected[i].0];
        }
      }
    }
  }

  // ---------------------------------------------------------------------------
  // Replay
  // ---------------------------------------------------------------------------

  /** What the entries credit to, less what they debit from, an account. */
  function Net(entries: seq<Entry>, id: Name): int {
    if entries == [] then 0 else
    var e := entries[|entries| - 1];
    Net(entries[..|entries| - 1], id)
    + (if e.credit == id then e.amount else 0) - (if e.debit == id then e.amount else 0)
  }

  /** How often the entries touch an account: twice when it is both debited and credited. */
  function Touches(entries: seq<Entry>, id: Name): nat {
    if entries == [] then 0 else
    var e := entries[|entries| - 1];
    Touches(entries[..|entries| - 1], id) + (if e.credit == id then 1 else 0) + (if e.debit == id then 1 else 0)
  }

  ghost predicate Opening(l: Books) {
    l.entries == [] && l.keys == {} && l.events == []
  }

  function OpeningBalance(l0: Books, id: Name): int {
    if id in l0.accounts then l0.accounts[id].balance else 0
  }

  function OpeningVersion(l0: Books, id: Name): nat {
    if id in l0.accounts then l0.accounts[id].version else 1
  }

  ghost predicate AccountReplays(l0: Books, l: Books, id: Name)
    requires id in l.accounts
  {
    && l.accounts[id].balance == OpeningBalance(l0, id) + Net(l.entries, id)
    && l.accounts[id].version == OpeningVersion(l0, id) + Touches(l.entries, id)
    && (id in l0.accounts ==> l.accounts[id].asset == l0.accounts[id].asset)
  }

  /** Every account is what replaying the entries over the opening balances gives. */
  ghost predicate Replays(l0: Books, l: Books) {
    && l0.accounts.Keys <= l.accounts.Keys
    && (forall id :: id in l.accounts ==> AccountReplays(l0, l, id))
    && (forall i :: 0 <= i < |l.entries| ==> l.entries[i].debit in l.accounts && l.entries[i].credit in l.accounts)
  }

  /** The idempotency keys are exactly the entries' keys, and no two entries share one. */
  ghost predicate KeysExact(l: Books) {
    && (forall i :: 0 <= i < |l.entries| ==> l.entries[i].key in l.keys)
    && (forall k :: k in l.keys ==> exists i :: 0 <= i < |l.entries| && l.entries[i].key == k)
    && (forall i, j :: 0 <= i < j < |l.entries| ==> l.entries[i].key != l.entries[j].key)
  }

  /** Entries and events are numbered upwards, and every number drawn is used once. */
  ghost predicate Sequenced(l0: Books, l: Books) {
    && l.sequence == l0.sequence + |l.entries| + |l.events|
    && (forall i :: 0 <= i < |l.entries| ==> l0.sequence < l.entries[i].sequence <= l.sequence)
    && (forall i :: 0 <= i < |l.events| ==> l0.sequence < l.events[i].sequence <= l.sequence)
    && (forall i, j :: 0 <= i < j < |l.entries| ==> l.entries[i].sequence < l.entries[j].sequence)
    && (forall i, j :: 0 <= i < j < |l.events| ==> l.events[i].sequence < l.events[j].sequence)
    && (forall i, j :: 0 <= i < |l.entries| && 0 <= j < |l.events| ==> l.entries[i].sequence != l.events[j].sequence)
  }

  function HeldIn(asset: Name): Account -> int {
    (a: Account) => if a.asset == asset then a.balance else 0
  }

  /** The total held in an asset. */
  ghost function Holdings(l: Books, asset: Name): int {
    Sum(l.accounts, HeldIn(asset))
  }

  lemma {:induction false} UnknownIsUntouched(entries: seq<Entry>, id: Name)
    requires forall i :: 0 <= i < |entries| ==> entries[i].debit != id && entries[i].credit != id
    ensures Net(entries, id) == 0 && Touches(entries, id) == 0
  {
    if entries != [] {
      UnknownIsUntouched(entries[..|entries| - 1], id);
    }
  }

  lemma CreateReplays(l0: Books, l: Books, id: Name, kind: Name, asset: Name, owner: Option<Name>)
    requires Replays(l0, l)
    ensures Replays(l0, CreateAccount(l, id, kind, asset, owner).0)
  {
    if id !in l.accounts {
      UnknownIsUntouched(l.entries, id);
      var l' := CreateAccount(l, id, kind, asset, owner).0;
      forall a | a in l'.accounts
        ensures AccountReplays(l0, l', a)
      {
        assert a != id ==> AccountReplays(l0, l, a);
      }
    }
  }

  lemma PostReplays(l0: Books, l: Books, kind: Name, debit: Name, credit: Name, amount: int, asset: Name, key: Name,
                    claim: Option<Id>, id: Id)
    requires Replays(l0, l)
    ensures Replays(l0, Post(l, kind, debit, credit, amount, asset, key, claim, id).0)
  {
    var (l', r) := Post(l, kind, debit, credit, amount, asset, key, claim, id);
    if key !in l.keys && r.Ok? {
      assert l'.entries[..|l'.entries| - 1] == l.entries;
      forall a | a in l'.accounts
        ensures AccountReplays(l0, l', a)
      {
        assert AccountReplays(l0, l, a);
      }
    }
  }

  /** Posting moves value between accounts of one asset, so every asset's total stays. */
  lemma PostKeepsHoldings(l: Books, kind: Name, debit: Name, credit: Name, amount: int, asset: Name, key: Name,
                          claim: Option<Id>, id: Id, a: Name)
    ensures Holdings(Post(l, kind, debit, credit, amount, asset, key, claim, id).0, a) == Holdings(l, a)
  {
    if key !in l.keys && Refusal(l, debit, credit, amount, asset).None? {
      var debited := l.accounts[debit := Touched(l.accounts[debit], -amount)];
      SumReplace(l.accounts, HeldIn(a), debit, Touched(l.accounts[debit], -amount));
      SumReplace(debited, HeldIn(a), credit, Touched(debited[credit], amount));
    }
  }

  lemma CreateKeepsHoldings(l: Books, id: Name, kind: Name, asset: Name, owner: Option<Name>, a: Name)
    ensures Holdings(CreateAccount(l, id, kind, asset, owner).0, a) == Holdings(l, a)
  {
    if id !in l.accounts {
      SumInsert(l.accounts, HeldIn(a), id, Account(owner, kind, asset, 0, 1));
    }
  }

  lemma PostKeysExact(l: Books, kind: Name, debit: Name, credit: Name, amount: int, asset: Name, key: Name,
                      claim: Option<Id>, id: Id)
    requires KeysExact(l)
    ensures KeysExact(Post(l, kind, debit, credit, amount, asset, key, claim, id).0)
  {
    var (l', r) := Post(l, kind, debit, credit, amount, asset, key, claim, id);
    if key !in l.keys && r.Ok? {
      forall k | k in l'.keys
        ensures exists i :: 0 <= i < |l'.entries| && l'.entries[i].key == k
      {
        if k == key {
          assert l'.entries[|l.entries|].key == k;
        } else {
          var i :| 0 <= i < |l.entries| && l.entries[i].key == k;
          assert l'.entries[i].key == k;
        }
      }
    }
  }

  lemma {:induction false} FirstWithKeyFinds(entries: seq<Entry>, key: Name, i: nat)
    requires i < |entries| && entries[i].key == key && forall j :: 0 <= j < i ==> entries[j].key != key
    ensures FirstWithKey(entries, key) == Some(entries[i])
  {
    if i > 0 {
      FirstWithKeyFinds(entries[1..], key, i - 1);
    }
  }

  /** Repeating a key changes nothing and returns the one entry posted under it, so the collision
      branch is never reached. */
  lemma RepeatedKeyReturnsEntry(l: Books, kind: Name, debit: Name, credit: Name, amount: int, asset: Name, key: Name,
                                claim: Option<Id>, id: Id)
    requires KeysExact(l) && key in l.keys
    ensures var (l', r) := Post(l, kind, debit, credit, amount, asset, key, claim, id);
            l' == l && r.Ok? && r.value in l.entries && r.value.key == key
            && forall i :: 0 <= i < |l.entries| && l.entries[i].key == key ==> l.entries[i] == r.value
  {
    var i :| 0 <= i < |l.entries| && l.entries[i].key == key;
    FirstWithKeyFinds(l.entries, key, i);
  }

  // ---------------------------------------------------------------------------
  // Runs
  // ---------------------------------------------------------------------------

  datatype Op =
    | OpCreate(account: Name, kind: Name, asset: Name, owner: Option<Name>)
    | OpPost(kind: Name, debit: Name, credit: Name, amount: int, asset: Name, key: Name, claim: Option<Id>, entry: Id)

  function Step(l: Books, op: Op): Books {
    match op
    case OpCreate(id, kind, asset, owner) => CreateAccount(l, id, kind, asset, owner).0
    case OpPost(kind, debit, credit, amount, asset, key, claim, id) =>
      Post(l, kind, debit, credit, amount, asset, key, claim, id).0
  }

  function Run(l0: Books, ops: seq<Op>): Books {
    if ops == [] then l0 else Step(Run(l0, ops[..|ops| - 1]), ops[|ops| - 1])
  }

  lemma CreateSequenced(l0: Books, l: Books, id: Name, kind: Name, asset: Name, owner: Option<Name>)
    requires Sequenced(l0, l)
    ensures Sequenced(l0, CreateAccount(l, id, kind, asset, owner).0)
  {
  }

  lemma PostSequenced(l0: Books, l: Books, l': Books, e: Entry, subject: Subject)
    requires Sequenced(l0, l) && e.sequence == l.sequence + 1
    requires l'.entries == l.entries + [e] && l'.events == l.events + [Event(subject, l.sequence + 2)]
    requires l'.sequence == l.sequence + 2
    ensures Sequenced(l0, l')
  {
  }

  lemma PostedSequenced(l0: Books, l: Books, kind: Name, debit: Name, credit: Name, amount: int, asset: Name, key: Name,
                        claim: Option<Id>, id: Id)
    requires Sequenced(l0, l)
    ensures Sequenced(l0, Post(l, kind, debit, credit, amount, asset, key, claim, id).0)
  {
    if key !in l.keys && Refusal(l, debit, credit, amount, asset).None? {
      var (l', r) := Post(l, kind, debit, credit, amount, asset, key, claim, id);
      PostSequenced(l0, l, l', r.value, OfEntry(id));
    }
  }

  lemma StepKeepsHoldings(l: Books, op: Op, a: Name)
    ensures Holdings(Step(l, op), a) == Holdings(l, a)
  {
    match op
    case OpCreate(id, kind, asset, owner) => CreateKeepsHoldings(l, id, kind, asset, owner, a);
    case OpPost(kind, debit, credit, amount, asset, key, claim, id) =>
      PostKeepsHoldings(l, kind, debit, credit, amount, asset, key, claim, id, a);
  }

  lemma StepSequenced(l0: Books, l: Books, op: Op)
    requires Sequenced(l0, l)
    ensures Sequenced(l0, Step(l, op))
  {
    match op
    case OpCreate(id, kind, asset, owner) => CreateSequenced(l0, l, id, kind, asset, owner);
    case OpPost(kind, debit, credit, amount, asset, key, claim, id) =>
      PostedSequenced(l0, l, kind, debit, credit, amount, asset, key, claim, id);
  }

  lemma StepReplays(l0: Books, l: Books, op: Op)
    requires Replays(l0, l)
    ensures Replays(l0, Step(l, op))
  {
    match op
    case OpCreate(id, kind, asset, owner) => CreateReplays(l0, l, id, kind, asset, owner);
    case OpPost(kind, debit, credit, amount, asset, key, claim, id) =>
      PostReplays(l0, l, kind, debit, credit, amount, asset, key, claim, id);
  }

  lemma StepKeysExact(l: Books, op: Op)
    requires KeysExact(l)
    ensures KeysExact(Step(l, op))
  {
    if op.OpPost? {
      PostKeysExact(l, op.kind, op.debit, op.credit, op.amount, op.asset, op.key, op.claim, op.entry);
    }
  }

  lemma OpeningReplays(l0: Books)
    requires Opening(l0)
    ensures Replays(l0, l0) && KeysExact(l0) && Sequenced(l0, l0)
  {
    forall id | id in l0.accounts
      ensures AccountReplays(l0, l0, id)
    {
    }
  }

  /** From any opening balances and any operations: the accounts replay, keys are exact, numbers are
      used once, and each asset's total is the opening one. */
  lemma {:induction false} RunReplays(l0: Books, ops: seq<Op>, a: Name)
    requires Opening(l0)
    ensures Replays(l0, Run(l0, ops)) && KeysExact(Run(l0, ops)) && Sequenced(l0, Run(l0, ops))
    ensures Holdings(Run(l0, ops), a) == Holdings(l0, a)
  {
    if ops == [] {
      OpeningReplays(l0);
    } else {
      var n := |ops| - 1;
      RunReplays(l0, ops[..n], a);
      var l := Run(l0, ops[..n]);
      StepReplays(l0, l, ops[n]);
      StepKeysExact(l, ops[n]);
      StepSequenced(l0, l, ops[n]);
      StepKeepsHoldings(l, ops[n], a);
    }
  }

  lemma {:induction false} InvolvingNet(entries: seq<Entry>, id: Name)
    ensures Net(Involving(entries, id), id) == Net(entries, id)
  {
    if entries != [] {
      var n := |entries| - 1;
      InvolvingNet(entries[..n], id);
      var before := Involving(entries[..n], id);
      assert (before + [entries[n]])[..|before|] == before;
      assert before + [] == before;
    }
  }

  lemma {:induction false} InvolvingIsShorter(entries: seq<Entry>, id: Name)
    ensures |Involving(entries, id)| <= |entries|
  {
    if entries != [] {
      InvolvingIsShorter(entries[..|entries| - 1], id);
    }
  }

  /** The history of an account, read with a limit that covers it, explains its balance. */
  lemma HistoryExplainsBalance(l0: Books, ops: seq<Op>, id: Name, limit: int)
    requires Opening(l0) && limit >= |Run(l0, ops).entries|
    ensures Balance(Run(l0, ops), id) ==
            OpeningBalance(l0, id) + Net(LastOf(Involving(Run(l0, ops).entries, id), limit), id)
  {
    RunReplays(l0, ops, id);
    var l := Run(l0, ops);
    InvolvingNet(l.entries, id);
    InvolvingIsShorter(l.entries, id);
    if id in l.accounts {
      assert AccountReplays(l0, l, id);
    } else {
      UnknownIsUntouched(l.entries, id);
    }
  }

  // ---------------------------------------------------------------------------
  // Non-negative balances
  // ---------------------------------------------------------------------------

  ghost predicate NonNegative(l: Books) {
    forall id :: id in l.accounts ==> l.accounts[id].balance >= 0
  }

  /** A posting that goes through keeps balances non-negative exactly when the amount does not
      outweigh the credited account, whose balance is not checked; an account may move value to itself. */
  lemma PostNonNegativeIff(l: Books, kind: Name, debit: Name, credit: Name, amount: int, asset: Name, key: Name,
                           claim: Option<Id>, id: Id)
    requires NonNegative(l) && key !in l.keys && Refusal(l, debit, credit, amount, asset).None?
    ensures NonNegative(Post(l, kind, debit, credit, amount, asset, key, claim, id).0) <==>
            debit == credit || l.accounts[credit].balance + amount >= 0
  {
    var l' := Post(l, kind, debit, credit, amount, asset, key, claim, id).0;
    assert debit != credit ==> l'.accounts[credit].balance == l.accounts[credit].balance + amount;
  }

  /** With non-negative amounts, balances that open non-negative stay so. */
  lemma {:induction false} RunNonNegative(l0: Books, ops: seq<Op>)
    requires NonNegative(l0) && forall i :: 0 <= i < |ops| && ops[i].OpPost? ==> ops[i].amount >= 0
    ensures NonNegative(Run(l0, ops))
  {
    if ops != [] {
      RunNonNegative(l0, ops[..|ops| - 1]);
    }
  }

  // ---------------------------------------------------------------------------
  // Where accounts and entries come from
  // ---------------------------------------------------------------------------

  /** The posting has a new key, two known accounts of the asset, and enough to debit. */
  ghost predicate Postable(l: Books, op: Op) {
    && op.OpPost? && op.key !in l.keys && op.debit in l.accounts && op.credit in l.accounts
    && l.accounts[op.debit].asset == op.asset && l.accounts[op.credit].asset == op.asset
    && op.amount <= l.accounts[op.debit].balance
  }

  /** The entry says what the posting said. */
  ghost predicate NamesEntry(op: Op, e: Entry) {
    && op.OpPost? && e.id == op.entry && e.kind == op.kind && e.debit == op.debit && e.credit == op.credit
    && e.amount == op.amount && e.asset == op.asset && e.claim == op.claim && e.key == op.key
  }

  /** A posting under a new key goes through exactly when it is postable; each error says what was wrong. */
  lemma PostOutcome(l: Books, op: Op)
    requires op.OpPost? && op.key !in l.keys
    ensures var (l', r) := Post(l, op.kind, op.debit, op.credit, op.amount, op.asset, op.key, op.claim, op.entry);
            match r
            case Ok(e) =>
              && Postable(l, op) && NamesEntry(op, e) && e.sequence == l.sequence + 1 && l'.entries == l.entries + [e]
              && l'.keys == l.keys + {op.key} && l'.sequence == l.sequence + 2
              && l'.events == l.events + [Event(OfEntry(op.entry), l.sequence + 2)]
            case Err(error) =>
              && l' == l
              && match error
                 case AccountNotFound => op.debit !in l.accounts || op.credit !in l.accounts
                 case AssetTypeMismatch =>
                   && op.debit in l.accounts && op.credit in l.accounts
                   && (l.accounts[op.debit].asset != op.asset || l.accounts[op.credit].asset != op.asset)
                 case InsufficientBalance =>
                   && op.debit in l.accounts && op.credit in l.accounts && l.accounts[op.debit].balance < op.amount
                   && l.accounts[op.debit].asset == op.asset && l.accounts[op.credit].asset == op.asset
                 case _ => false
  {
  }

  /** Creating an account that exists returns it and changes nothing; a new one is empty and has its event. */
  lemma CreateOutcome(l: Books, op: Op)
    requires op.OpCreate?
    ensures var (l', a) := CreateAccount(l, op.account, op.kind, op.asset, op.owner);
            if op.account in l.accounts then l' == l && a == l.accounts[op.account]
            else
              && a.kind == op.kind && a.asset == op.asset && a.owner == op.owner && a.balance == 0 && a.version == 1
              && l'.accounts == l.accounts[op.account := a] && l'.entries == l.entries && l'.keys == l.keys
              && l'.sequence == l.sequence + 1 && l'.events == l.events + [Event(OfAccount(op.account), l.sequence + 1)]
  {
  }

  /** The first operation that creates the account. */
  function FirstCreation(ops: seq<Op>, id: Name): Option<Op> {
    if ops == [] then None else
    var n := |ops| - 1;
    var first := FirstCreation(ops[..n], id);
    if first == None && ops[n].OpCreate? && ops[n].account == id then Some(ops[n]) else first
  }

  /** The account is of the kind, asset and owner that its opening, or else its first creation, named. */
  ghost predicate NamesAccount(opening: Option<Account>, creation: Option<Op>, a: Account) {
    match opening
    case Some(a0) => a.kind == a0.kind && a.asset == a0.asset && a.owner == a0.owner
    case None => match creation
      case Some(op) => op.OpCreate? && a.kind == op.kind && a.asset == op.asset && a.owner == op.owner
      case None => false
  }

  function AccountAt(l: Books, id: Name): Option<Account> {
    if id in l.accounts then Some(l.accounts[id]) else None
  }

  lemma StepAccount(l: Books, op: Op, id: Name)
    ensures var a, a' := AccountAt(l, id), AccountAt(Step(l, op), id);
            match a
            case Some(was) => a'.Some? && a'.value == was.(balance := a'.value.balance, version := a'.value.version)
            case None => if op.OpCreate? && op.account == id then a' == Some(Account(op.owner, op.kind, op.asset, 0, 1))
                         else a' == None
  {
  }

  /** In every reachable state the accounts are those that opened or were created, with the kind, asset and
      owner named first. */
  lemma {:induction false} RunAccountNamed(l0: Books, ops: seq<Op>, id: Name)
    ensures var a := AccountAt(Run(l0, ops), id);
            && (a.Some? <==> id in l0.accounts || FirstCreation(ops, id).Some?)
            && (a.Some? ==> NamesAccount(AccountAt(l0, id), FirstCreation(ops, id), a.value))
  {
    if ops != [] {
      var n := |ops| - 1;
      RunAccountNamed(l0, ops[..n], id);
      StepAccount(Run(l0, ops[..n]), ops[n], id);
    }
  }

  /** The event of an entry takes the number after it. */
  function EventFor(e: Entry): Event {
    Event(OfEntry(e.id), e.sequence + 1)
  }

  ghost predicate Postings(l: Books, l': Books, op: Op) {
    || (l'.entries == l.entries && (forall e :: e in l.events ==> e in l'.events))
    || (Postable(l, op) && |l'.entries| == |l.entries| + 1 && l'.entries[..|l.entries|] == l.entries
        && NamesEntry(op, l'.entries[|l.entries|]) && l'.events == l.events + [EventFor(l'.entries[|l.entries|])])
  }

  lemma StepPostings(l: Books, op: Op)
    ensures Postings(l, Step(l, op), op)
    ensures Postable(l, op) ==> |Step(l, op).entries| == |l.entries| + 1
  {
    match op
    case OpCreate(_, _, _, _) => CreateOutcome(l, op);
    case OpPost(_, _, _, _, _, key, _, _) =>
      if key !in l.keys {
        PostOutcome(l, op);
      }
  }

  /** In every reachable state each entry is one that a posting named, and has its event. */
  lemma {:induction false} RunEntryNamed(l0: Books, ops: seq<Op>, i: nat)
    requires l0.entries == [] && i < |Run(l0, ops).entries|
    ensures exists k :: 0 <= k < |ops| && NamesEntry(ops[k], Run(l0, ops).entries[i])
    ensures EventFor(Run(l0, ops).entries[i]) in Run(l0, ops).events
  {
    var n := |ops| - 1;
    var l := Run(l0, ops[..n]);
    StepPostings(l, ops[n]);
    if i < |l.entries| {
      RunEntryNamed(l0, ops[..n], i);
      var k :| 0 <= k < n && NamesEntry(ops[..n][k], l.entries[i]);
      assert NamesEntry(ops[k], Run(l0, ops).entries[i]);
    } else {
      assert NamesEntry(ops[n], Run(l0, ops).entries[i]);
    }
  }

  // ---------------------------------------------------------------------------
  // Reading histories
  // ---------------------------------------------------------------------------

  /** How often an entry is listed. */
  function Listed(entries: seq<Entry>, e: Entry): nat {
    if entries == [] then 0 else
    Listed(entries[..|entries| - 1], e) + (if entries[|entries| - 1] == e then 1 else 0)
  }

  lemma ListedAppend(entries: seq<Entry>, x: Entry, e: Entry)
    ensures Listed(entries + [x], e) == Listed(entries, e) + (if x == e then 1 else 0)
  {
    assert (entries + [x])[..|entries|] == entries;
  }

  /** The entries that name an account are all of its entries, as often as they were posted, and no others. */
  lemma {:induction false} InvolvingExactly(entries: seq<Entry>, id: Name, e: Entry)
    ensures Listed(Involving(entries, id), e) == if id in {e.debit, e.credit} then Listed(entries, e) else 0
  {
    if entries != [] {
      var n := |entries| - 1;
      InvolvingExactly(entries[..n], id, e);
      InvolvingLast(entries, id);
      ListedAppend(Involving(entries[..n], id), entries[n], e);
    }
  }

  lemma InvolvingLast(entries: seq<Entry>, id: Name)
    requires entries != []
    ensures var before, last := Involving(entries[..|entries| - 1], id), entries[|entries| - 1];
            Involving(entries, id) == if id in {last.debit, last.credit} then before + [last] else before
  {
    var before := Involving(entries[..|entries| - 1], id);
    assert before + [] == before;
  }

  ghost predicate Numbered(entries: seq<Entry>) {
    forall i, j :: 0 <= i < j < |entries| ==> entries[i].sequence < entries[j].sequence
  }

  /** They are in the order they were posted. */
  lemma {:induction false} InvolvingInOrder(entries: seq<Entry>, id: Name)
    requires Numbered(entries)
    ensures Numbered(Involving(entries, id)) && forall e :: e in Involving(entries, id) ==> e in entries
  {
    if entries != [] {
      var n := |entries| - 1;
      var before := Involving(entries[..n], id);
      InvolvingInOrder(entries[..n], id);
      InvolvingLast(entries, id);
      forall e | e in before
        ensures e in entries && e.sequence < entries[n].sequence
      {
        assert e in entries[..n];
      }
    }
  }

  /** A limited history is the end of the whole one: that many entries; all of them for zero; and for a
      negative limit, all but that many at the front. */
  lemma LastOfIsEnd(entries: seq<Entry>, limit: int)
    ensures var r := LastOf(entries, limit);
            && |r| <= |entries| && r == entries[|entries| - |r|..]
            && (limit > 0 ==> |r| == limit || (|r| < limit && r == entries))
            && (limit == 0 ==> r == entries)
            && (limit < 0 ==> |r| == |entries| + limit || (|r| == 0 && |entries| + limit < 0))
  {
  }
}
