/** The on-chain note program (programs/membramoney/src/lib.rs). An instruction that fails, or whose
    checked arithmetic overflows, leaves every account as it was. */
module NoteProgram {
  import opened Common
  import opened MapSums

  const U64_MAX := 0xFFFF_FFFF_FFFF_FFFF
  const I64_MAX := 0x7FFF_FFFF_FFFF_FFFF
  const MAX_EXPIRY_SECONDS := 90 * 24 * 60 * 60
  const MIN_DENOMINATION := 1

  /** The address of the vault account. */
  const VAULT := Name("gasvault")

  datatype NoteState = Created | Transferred | Redeemed | Expired | Burned | Revoked

  datatype Note = Note(denomination: nat, holder: Name, issuer: Name, claimHash: Name, nonce: nat, state: NoteState,
                       createdAt: int, expiresAt: int)

  /** The accounts: protocol state, notes by id, token mint, vault totals, and lamports by address. */
  datatype Chain = Chain(
    authority: Name, paused: bool, counter: nat, notes: map<nat, Note>,
    supplyCap: nat, supply: nat,
    vaultAuthority: Name, deposited: nat, reimbursed: nat, lamports: map<Name, nat>)

  type Hash = Name -> Name

  predicate Live(s: NoteState) {
    s == Created || s == Transferred
  }

  // ---------------------------------------------------------------------------
  // Instructions: None is success, Some the error
  // ---------------------------------------------------------------------------

  datatype Instruction =
    | MintNote(denomination: nat, claimHash: Name, expiresIn: int, recipient: Name, signer: Name)
    | TransferNote(id: nat, newHolder: Name, signer: Name)
    | ClaimNote(id: nat, preimage: Name, signer: Name)
    | RedeemNote(id: nat, signer: Name)
    | BurnNote(id: nat, signer: Name)
    | RevokeNote(id: nat, signer: Name)
    | PauseProtocol(signer: Name)
    | UnpauseProtocol(signer: Name)
    | MintMembra(amount: nat)
    | DepositToGasVault(amount: nat, signer: Name)
    | ReimburseRelayer(amount: nat, relayer: Name, signer: Name)

  function Held(lamports: map<Name, nat>, address: Name): nat {
    if address in lamports then lamports[address] else 0
  }

  function Lamports(c: Chain, address: Name): nat {
    Held(c.lamports, address)
  }

  /** Why an instruction is refused at a given time, if it is. */
  function Refusal(hash: Hash, c: Chain, i: Instruction, now: int): Option<Error> {
    match i
    case MintNote(denomination, _, expiresIn, _, _) =>
      if c.paused then Some(ProtocolPaused)
      else if denomination < MIN_DENOMINATION then Some(InvalidAmount)
      else if now + expiresIn > I64_MAX then Some(Overflow)
      else if !(0 < expiresIn <= MAX_EXPIRY_SECONDS) then Some(InvalidAmount)
      else if c.counter + 1 > U64_MAX then Some(Overflow)
      else None
    case TransferNote(id, _, signer) =>
      if id !in c.notes then Some(AccountNotInitialized)
      else if c.notes[id].holder != signer then Some(ConstraintHasOne)
      else if c.paused then Some(ProtocolPaused)
      else if !Live(c.notes[id].state) then Some(AlreadyRedeemed)
      else if now >= c.notes[id].expiresAt then Some(NoteExpired)
      else if c.notes[id].nonce + 1 > U64_MAX then Some(Overflow)
      else None
    case ClaimNote(id, preimage, _) =>
      if id !in c.notes then Some(AccountNotInitialized)
      else if c.paused then Some(ProtocolPaused)
      else if now >= c.notes[id].expiresAt then Some(NoteExpired)
      else if !Live(c.notes[id].state) then Some(AlreadyRedeemed)
      else if hash(preimage) != c.notes[id].claimHash then Some(InvalidClaim)
      else if c.notes[id].nonce + 1 > U64_MAX then Some(Overflow)
      else None
    case RedeemNote(id, signer) =>
      if id !in c.notes then Some(AccountNotInitialized)
      else if c.notes[id].holder != signer then Some(ConstraintHasOne)
      else if c.paused then Some(ProtocolPaused)
      else if !Live(c.notes[id].state) then Some(AlreadyRedeemed)
      else if now >= c.notes[id].expiresAt then Some(NoteExpired)
      else None
    case BurnNote(id, signer) =>
      if id !in c.notes then Some(AccountNotInitialized)
      else if c.paused then Some(ProtocolPaused)
      else if c.authority != signer then Some(Unauthorized)
      else if c.notes[id].state != Redeemed then Some(InvalidAmount)
      else None
    case RevokeNote(id, signer) =>
      if id !in c.notes then Some(AccountNotInitialized)
      else if c.notes[id].issuer != signer then Some(ConstraintHasOne)
      else if c.paused then Some(ProtocolPaused)
      else if !Live(c.notes[id].state) then Some(AlreadyRedeemed)
      else None
    case PauseProtocol(signer) => if c.authority != signer then Some(Unauthorized) else None
    case UnpauseProtocol(signer) => if c.authority != signer then Some(Unauthorized) else None
    case MintMembra(amount) =>
      if c.supply + amount > U64_MAX then Some(Overflow)
      else if c.supply + amount > c.supplyCap then Some(SupplyCapExceeded)
      else None
    case DepositToGasVault(amount, signer) =>
      if c.paused then Some(ProtocolPaused)
      else if c.vaultAuthority != signer then Some(Unauthorized)
      else if amount == 0 then Some(InvalidAmount)
      else if c.deposited + amount > U64_MAX then Some(Overflow)
      else if Lamports(c, signer) < amount || signer == VAULT then Some(TransferFailed)
      else None
    case ReimburseRelayer(amount, relayer, signer) =>
      if c.paused then Some(ProtocolPaused)
      else if c.vaultAuthority != signer then Some(Unauthorized)
      else if amount == 0 then Some(InvalidAmount)
      else if Lamports(c, VAULT) < amount then Some(GasVaultInsufficient)
      else if c.reimbursed + amount > U64_MAX then Some(Overflow)
      else None
  }

  function WithNote(c: Chain, id: nat, n: Note): Chain {
    c.(notes := c.notes[id := n])
  }

  /** Lamports after `amount` left one address and arrived at another, which may be the same. */
  function Paid(lamports: map<Name, nat>, from: Name, to: Name, amount: nat): map<Name, nat>
    requires Held(lamports, from) >= amount
  {
    var less := lamports[from := Held(lamports, from) - amount];
    less[to := Held(less, to) + amount]
  }

  /** The chain after an instruction that is not refused. */
  function Applied(hash: Hash, c: Chain, i: Instruction, now: int): Chain
    requires Refusal(hash, c, i, now).None?
  {
    match i
    case MintNote(denomination, claimHash, expiresIn, recipient, signer) =>
      var n := Note(denomination, recipient, signer, claimHash, 0, Created, now, now + expiresIn);
      WithNote(c, c.counter, n).(counter := c.counter + 1)
    case TransferNote(id, newHolder, _) =>
      WithNote(c, id, c.notes[id].(holder := newHolder, state := Transferred, nonce := c.notes[id].nonce + 1))
    case ClaimNote(id, _, signer) =>
      WithNote(c, id, c.notes[id].(holder := signer, state := Transferred, nonce := c.notes[id].nonce + 1))
    case RedeemNote(id, _) => WithNote(c, id, c.notes[id].(state := Redeemed))
    case BurnNote(id, _) => WithNote(c, id, c.notes[id].(state := Burned))
    case RevokeNote(id, _) => WithNote(c, id, c.notes[id].(state := Revoked))
    case PauseProtocol(_) => c.(paused := true)
    case UnpauseProtocol(_) => c.(paused := false)
    case MintMembra(amount) => c.(supply := c.supply + amount)
    case DepositToGasVault(amount, signer) =>
      c.(deposited := c.deposited + amount, lamports := Paid(c.lamports, signer, VAULT, amount))
    case ReimburseRelayer(amount, relayer, _) =>
      c.(reimbursed := c.reimbursed + amount, lamports := Paid(c.lamports, VAULT, relayer, amount))
  }

  function Execute(hash: Hash, c: Chain, i: Instruction, now: int): (Chain, Option<Error>) {
    var refusal := Refusal(hash, c, i, now);
    (if refusal.None? then Applied(hash, c, i, now) else c, refusal)
  }

  // ---------------------------------------------------------------------------
  // The program
  // ---------------------------------------------------------------------------

  class Program {
    const hash: Hash
    var authority: Name
    var paused: bool
    var counter: nat
    var notes: map<nat, Note>
    var supplyCap: nat
    var supply: nat
    var vaultAuthority: Name
    var deposited: nat
    var reimbursed: nat
    var lamports: map<Name, nat>

    ghost function Model(): Chain
      reads this
    {
      Chain(authority, paused, counter, notes, supplyCap, supply, vaultAuthority, deposited, reimbursed, lamports)
    }

    /** The three initialize instructions. */
    constructor (hashing: Hash, admin: Name, vaultAdmin: Name, cap: nat, wallets: map<Name, nat>)
      ensures hash == hashing && Model() == Chain(admin, false, 0, map[], cap, 0, vaultAdmin, 0, 0, wallets)
    {
      hash := hashing;
      authority, paused, counter, notes := admin, false, 0, map[];
      supplyCap, supply := cap, 0;
      vaultAuthority, deposited, reimbursed, lamports := vaultAdmin, 0, 0, wallets;
    }

    method Mint(denomination: nat, claimHash: Name, expiresIn: int, recipient: Name, signer: Name, now: int)
      returns (error: Option<Error>)
      modifies this
      ensures (Model(), error) == Execute(hash, old(Model()),
                                          MintNote(denomination, claimHash, expiresIn, recipient, signer), now)
    {
      if paused { return Some(ProtocolPaused); }
      if denomination < MIN_DENOMINATION { return Some(InvalidAmount); }
      var expiry := now + expiresIn;
      if expiry > I64_MAX { return Some(Overflow); }
      if !(expiresIn > 0 && expiresIn <= MAX_EXPIRY_SECONDS) { return Some(InvalidAmount); }
      var noteId := counter;
      if counter + 1 > U64_MAX { return Some(Overflow); }
      counter := counter + 1;
      notes := notes[noteId := Note(denomination, recipient, signer, claimHash, 0, Created, now, expiry)];
      return None;
    }

    method Transfer(id: nat, newHolder: Name, signer: Name, now: int) returns (error: Option<Error>)
      modifies this
      ensures (Model(), error) == Execute(hash, old(Model()), TransferNote(id, newHolder, signer), now)
    {
      if id !in notes { return Some(AccountNotInitialized); }
      var note := notes[id];
      if note.holder != signer { return Some(ConstraintHasOne); }
      if paused { return Some(ProtocolPaused); }
      if !(note.state == Created || note.state == Transferred) { return Some(AlreadyRedeemed); }
      if now >= note.expiresAt { return Some(NoteExpired); }
      if note.nonce + 1 > U64_MAX { return Some(Overflow); }
      note := note.(holder := newHolder);
      note := note.(state := Transferred);
      notes := notes[id := note.(nonce := note.nonce + 1)];
      return None;
    }

    method Claim(id: nat, preimage: Name, signer: Name, now: int) returns (error: Option<Error>)
      modifies this
      ensures (Model(), error) == Execute(hash, old(Model()), ClaimNote(id, preimage, signer), now)
    {
      if id !in notes { return Some(AccountNotInitialized); }
      var note := notes[id];
      if paused { return Some(ProtocolPaused); }
      if now >= note.expiresAt { return Some(NoteExpired); }
      if !(note.state == Created || note.state == Transferred) { return Some(AlreadyRedeemed); }
      if hash(preimage) != note.claimHash { return Some(InvalidClaim); }
      if note.nonce + 1 > U64_MAX { return Some(Overflow); }
      note := note.(holder := signer);
      note := note.(state := Transferred);
      notes := notes[id := note.(nonce := note.nonce + 1)];
      return None;
    }

    method Redeem(id: nat, signer: Name, now: int) returns (error: Option<Error>)
      modifies this
      ensures (Model(), error) == Execute(hash, old(Model()), RedeemNote(id, signer), now)
    {
      if id !in notes { return Some(AccountNotInitialized); }
      var note := notes[id];
      if note.holder != signer { return Some(ConstraintHasOne); }
      if paused { return Some(ProtocolPaused); }
      if !(note.state == Created || note.state == Transferred) { return Some(AlreadyRedeemed); }
      if now >= note.expiresAt { return Some(NoteExpired); }
      notes := notes[id := note.(state := Redeemed)];
      return None;
    }

    method Burn(id: nat, signer: Name, now: int) returns (error: Option<Error>)
      modifies this
      ensures (Model(), error) == Execute(hash, old(Model()), BurnNote(id, signer), now)
    {
      if id !in notes { return Some(AccountNotInitialized); }
      if paused { return Some(ProtocolPaused); }
      if authority != signer { return Some(Unauthorized); }
      if notes[id].state != Redeemed { return Some(InvalidAmount); }
      notes := notes[id := notes[id].(state := Burned)];
      return None;
    }

    method Revoke(id: nat, signer: Name, now: int) returns (error: Option<Error>)
      modifies this
      ensures (Model(), error) == Execute(hash, old(Model()), RevokeNote(id, signer), now)
    {
      if id !in notes { return Some(AccountNotInitialized); }
      var note := notes[id];
      if note.issuer != signer { return Some(ConstraintHasOne); }
      if paused { return Some(ProtocolPaused); }
      if !(note.state == Created || note.state == Transferred) { return Some(AlreadyRedeemed); }
      notes := notes[id := note.(state := Revoked)];
      return None;
    }

    method SetPaused(value: bool, signer: Name, now: int) returns (error: Option<Error>)
      modifies this
      ensures (Model(), error) == Execute(hash, old(Model()),
                                          if value then PauseProtocol(signer) else UnpauseProtocol(signer), now)
    {
      if authority != signer { return Some(Unauthorized); }
      paused := value;
      return None;
    }

    method MintTokens(amount: nat, now: int) returns (error: Option<Error>)
      modifies this
      ensures (Model(), error) == Execute(hash, old(Model()), MintMembra(amount), now)
    {
      if supply + amount > U64_MAX { return Some(Overflow); }
      if supply + amount > supplyCap { return Some(SupplyCapExceeded); }
      supply := supply + amount;
      return None;
    }

    method Deposit(amount: nat, signer: Name, now: int) returns (error: Option<Error>)
      modifies this
      ensures (Model(), error) == Execute(hash, old(Model()), DepositToGasVault(amount, signer), now)
    {
      if paused { return Some(ProtocolPaused); }
      if vaultAuthority != signer { return Some(Unauthorized); }
      if amount == 0 { return Some(InvalidAmount); }
      if deposited + amount > U64_MAX { return Some(Overflow); }
      var funds := Held(lamports, signer);
      if funds < amount || signer == VAULT { return Some(TransferFailed); }
      deposited := deposited + amount;
      lamports := lamports[signer := funds - amount];
      lamports := lamports[VAULT := Held(lamports, VAULT) + amount];
      return None;
    }

    method Reimburse(amount: nat, relayer: Name, signer: Name, now: int) returns (error: Option<Error>)
      modifies this
      ensures (Model(), error) == Execute(hash, old(Model()), ReimburseRelayer(amount, relayer, signer), now)
    {
      if paused { return Some(ProtocolPaused); }
      if vaultAuthority != signer { return Some(Unauthorized); }
      if amount == 0 { return Some(InvalidAmount); }
      var vault := Held(lamports, VAULT);
      if vault < amount { return Some(GasVaultInsufficient); }
      if reimbursed + amount > U64_MAX { return Some(Overflow); }
      reimbursed := reimbursed + amount;
      lamports := lamports[VAULT := vault - amount];
      lamports := lamports[relayer := Held(lamports, relayer) + amount];
      return None;
    }
  }

  // ---------------------------------------------------------------------------
  // Runs
  // ---------------------------------------------------------------------------

  datatype Call = Call(instruction: Instruction, now: int)

  ghost predicate Initial(c: Chain) {
    !c.paused && c.counter == 0 && c.notes == map[] && c.supply == 0 && c.deposited == 0 && c.reimbursed == 0
  }

  ghost predicate IsRun(hash: Hash, chains: seq<Chain>, calls: seq<Call>) {
    && |chains| == |calls| + 1 && Initial(chains[0])
    && forall i :: 0 <= i < |calls| ==> chains[i + 1] == Execute(hash, chains[i], calls[i].instruction, calls[i].now).0
  }

  predicate Succeeds(hash: Hash, c: Chain, call: Call) {
    Refusal(hash, c, call.instruction, call.now).None?
  }

  predicate Moves(i: Instruction, id: nat) {
    (i.TransferNote? || i.ClaimNote?) && i.id == id
  }

  predicate Redeems(i: Instruction, id: nat) {
    i.RedeemNote? && i.id == id
  }

  predicate Burns(i: Instruction, id: nat) {
    i.BurnNote? && i.id == id
  }

  predicate Revokes(i: Instruction, id: nat) {
    i.RevokeNote? && i.id == id
  }

  datatype Tally = Tally(moves: nat, redeems: nat, burns: nat, revokes: nat)

  /** The successful calls on a note among the first n. */
  ghost function Counted(hash: Hash, chains: seq<Chain>, calls: seq<Call>, n: nat, id: nat): Tally
    requires n <= |calls| < |chains|
  {
    if n == 0 then Tally(0, 0, 0, 0) else
    var t, i := Counted(hash, chains, calls, n - 1, id), calls[n - 1].instruction;
    if !Succeeds(hash, chains[n - 1], calls[n - 1]) then t
    else Tally(t.moves + (if Moves(i, id) then 1 else 0), t.redeems + (if Redeems(i, id) then 1 else 0),
               t.burns + (if Burns(i, id) then 1 else 0), t.revokes + (if Revokes(i, id) then 1 else 0))
  }

  /** The value of the successful mints among the first n calls. */
  ghost function Minted(hash: Hash, chains: seq<Chain>, calls: seq<Call>, n: nat): nat
    requires n <= |calls| < |chains|
  {
    if n == 0 then 0 else
    Minted(hash, chains, calls, n - 1)
    + (if Succeeds(hash, chains[n - 1], calls[n - 1]) && calls[n - 1].instruction.MintNote?
       then calls[n - 1].instruction.denomination else 0)
  }

  ghost predicate IdsOk(c: Chain) {
    && (forall id :: id in c.notes <==> 0 <= id < c.counter)
    && c.counter <= U64_MAX && c.supply <= c.supplyCap
  }

  /** A note's state and nonce are what the tally of its calls says. */
  ghost predicate NoteMatches(n: Note, t: Tally) {
    && n.nonce == t.moves <= U64_MAX
    && n.state != Expired
    && (n.state == Created ==> t.moves == 0) && (n.state == Transferred ==> t.moves > 0)
    && t.redeems == (if n.state == Redeemed || n.state == Burned then 1 else 0)
    && t.burns == (if n.state == Burned then 1 else 0)
    && t.revokes == (if n.state == Revoked then 1 else 0)
  }

  ghost predicate TalliesOk(hash: Hash, chains: seq<Chain>, calls: seq<Call>, n: nat)
    requires n <= |calls| < |chains|
  {
    && (forall id :: id in chains[n].notes ==> NoteMatches(chains[n].notes[id], Counted(hash, chains, calls, n, id)))
    && (forall id: nat :: id !in chains[n].notes ==> Counted(hash, chains, calls, n, id) == Tally(0, 0, 0, 0))
  }

  lemma ExecuteIdsOk(hash: Hash, c: Chain, i: Instruction, now: int)
    requires IdsOk(c)
    ensures IdsOk(Execute(hash, c, i, now).0)
  {
  }

  lemma NoteStep(hash: Hash, c: Chain, call: Call, id: nat, t: Tally, t': Tally)
    requires IdsOk(c)
    requires if id in c.notes then NoteMatches(c.notes[id], t) else t == Tally(0, 0, 0, 0)
    requires var i := call.instruction;
             t' == if !Succeeds(hash, c, call) then t
                   else Tally(t.moves + (if Moves(i, id) then 1 else 0), t.redeems + (if Redeems(i, id) then 1 else 0),
                              t.burns + (if Burns(i, id) then 1 else 0), t.revokes + (if Revokes(i, id) then 1 else 0))
    ensures var c' := Execute(hash, c, call.instruction, call.now).0;
            if id in c'.notes then NoteMatches(c'.notes[id], t') else t' == Tally(0, 0, 0, 0)
  {
  }

  /** Note ids are exactly 0..counter-1 and the token supply is within its cap, in every reachable state. */
  lemma {:induction false} RunIdsOk(hash: Hash, chains: seq<Chain>, calls: seq<Call>, n: nat)
    requires IsRun(hash, chains, calls) && n <= |calls|
    ensures IdsOk(chains[n])
  {
    if n > 0 {
      RunIdsOk(hash, chains, calls, n - 1);
      ExecuteIdsOk(hash, chains[n - 1], calls[n - 1].instruction, calls[n - 1].now);
    }
  }

  /** In every reachable state a note's nonce counts its successful transfers and claims, and it was
      redeemed at most once, burned only if redeemed, and revoked only if neither. */
  lemma {:induction false} RunTallies(hash: Hash, chains: seq<Chain>, calls: seq<Call>, n: nat)
    requires IsRun(hash, chains, calls) && n <= |calls|
    ensures TalliesOk(hash, chains, calls, n)
  {
    if n > 0 {
      RunTallies(hash, chains, calls, n - 1);
      RunIdsOk(hash, chains, calls, n - 1);
      forall id: nat
        ensures if id in chains[n].notes then NoteMatches(chains[n].notes[id], Counted(hash, chains, calls, n, id))
                else Counted(hash, chains, calls, n, id) == Tally(0, 0, 0, 0)
      {
        NoteStep(hash, chains[n - 1], calls[n - 1], id, Counted(hash, chains, calls, n - 1, id),
                 Counted(hash, chains, calls, n, id));
      }
    }
  }

  // ---------------------------------------------------------------------------
  // Value
  // ---------------------------------------------------------------------------

  function DenominationOf(): Note -> int {
    (n: Note) => n.denomination
  }

  function HeldLive(): Note -> int {
    (n: Note) => if Live(n.state) then n.denomination else 0
  }

  function HeldIn(s: NoteState): Note -> int {
    (n: Note) => if n.state == s then n.denomination else 0
  }

  function HeldSpent(): Note -> int {
    (n: Note) => if Live(n.state) then 0 else n.denomination
  }

  function HeldGone(): Note -> int {
    (n: Note) => if n.state == Burned || n.state == Revoked then n.denomination else 0
  }

  lemma SumSplits(notes: map<nat, Note>)
    requires forall id :: id in notes ==> notes[id].state != Expired
    ensures Sum(notes, DenominationOf()) ==
            Sum(notes, HeldLive()) + Sum(notes, HeldIn(Redeemed)) 
            + Sum(notes, HeldIn(Burned)) + Sum(notes, HeldIn(Revoked))
  {
    SumAdds(notes, DenominationOf(), HeldLive(), HeldSpent());
    SumAdds(notes, HeldSpent(), HeldIn(Redeemed), HeldGone());
    SumAdds(notes, HeldGone(), HeldIn(Burned), HeldIn(Revoked));
  }

  lemma ExecuteValue(hash: Hash, c: Chain, call: Call)
    requires IdsOk(c)
    ensures Sum(Execute(hash, c, call.instruction, call.now).0.notes, DenominationOf()) ==
            Sum(c.notes, DenominationOf())
            + (if Succeeds(hash, c, call) && call.instruction.MintNote? then call.instruction.denomination else 0)
  {
    var c' := Execute(hash, c, call.instruction, call.now).0;
    if Succeeds(hash, c, call) {
      match call.instruction
      case MintNote(denomination, claimHash, expiresIn, recipient, signer) =>
        SumInsert(c.notes, DenominationOf(), c.counter, c'.notes[c.counter]);
      case TransferNote(id, newHolder, signer) => SumReplace(c.notes, DenominationOf(), id, c'.notes[id]);
      case ClaimNote(id, preimage, signer) => SumReplace(c.notes, DenominationOf(), id, c'.notes[id]);
      case RedeemNote(id, signer) => SumReplace(c.notes, DenominationOf(), id, c'.notes[id]);
      case BurnNote(id, signer) => SumReplace(c.notes, DenominationOf(), id, c'.notes[id]);
      case RevokeNote(id, signer) => SumReplace(c.notes, DenominationOf(), id, c'.notes[id]);
      case _ =>
    }
  }

  lemma {:induction false} RunTotal(hash: Hash, chains: seq<Chain>, calls: seq<Call>, n: nat)
    requires IsRun(hash, chains, calls) && n <= |calls|
    ensures Minted(hash, chains, calls, n) == Sum(chains[n].notes, DenominationOf())
  {
    if n > 0 {
      RunTotal(hash, chains, calls, n - 1);
      RunIdsOk(hash, chains, calls, n - 1);
      ExecuteValue(hash, chains[n - 1], calls[n - 1]);
    }
  }

  /** Minted value is live, redeemed, burned and revoked value together, in every reachable state. */
  lemma {:induction false} RunValue(hash: Hash, chains: seq<Chain>, calls: seq<Call>, n: nat)
    requires IsRun(hash, chains, calls) && n <= |calls|
    ensures var notes := chains[n].notes;
            Minted(hash, chains, calls, n) ==
            Sum(notes, HeldLive()) + Sum(notes, HeldIn(Redeemed)) 
            + Sum(notes, HeldIn(Burned)) + Sum(notes, HeldIn(Revoked))
  {
    RunTotal(hash, chains, calls, n);
    RunTallies(hash, chains, calls, n);
    SumSplits(chains[n].notes);
  }

  // ---------------------------------------------------------------------------
  // Frozen notes
  // ---------------------------------------------------------------------------

  /** What no instruction changes on an existing note, and what none changes once it is not live. */
  lemma NoteFrozen(hash: Hash, c: Chain, i: Instruction, now: int, id: nat)
    requires IdsOk(c) && id in c.notes
    ensures var n, c' := c.notes[id], Execute(hash, c, i, now).0;
            && id in c'.notes
            && c'.notes[id].(holder := n.holder, nonce := n.nonce, state := n.state) == n
            && (!Live(n.state) ==> !Live(c'.notes[id].state))
            && (!Live(n.state) || now >= n.expiresAt ==>
                  c'.notes[id].holder == n.holder && c'.notes[id].nonce == n.nonce)
            && (now >= n.expiresAt && Live(n.state) ==> c'.notes[id].state == n.state || c'.notes[id].state == Revoked)
  {
  }

  /** A note's holder never changes from its expiry on, nor once it has left Created and Transferred. */
  lemma {:induction false} HolderFrozen(hash: Hash, chains: seq<Chain>, calls: seq<Call>, first: nat, last: nat,
                                        id: nat)
    requires IsRun(hash, chains, calls) && first <= last <= |calls| && id in chains[first].notes
    requires !Live(chains[first].notes[id].state) ||
             forall k :: first <= k < last ==> calls[k].now >= chains[first].notes[id].expiresAt
    ensures id in chains[last].notes && chains[last].notes[id].expiresAt == chains[first].notes[id].expiresAt
    ensures chains[last].notes[id].holder == chains[first].notes[id].holder
    ensures chains[last].notes[id].nonce == chains[first].notes[id].nonce
    ensures !Live(chains[first].notes[id].state) ==> !Live(chains[last].notes[id].state)
    decreases last
  {
    if first < last {
      HolderFrozen(hash, chains, calls, first, last - 1, id);
      RunIdsOk(hash, chains, calls, last - 1);
      NoteFrozen(hash, chains[last - 1], calls[last - 1].instruction, calls[last - 1].now, id);
    }
  }

  // ---------------------------------------------------------------------------
  // Who may change a note
  // ---------------------------------------------------------------------------

  /** The only ways a stored note changes: it is handed on by its holder, or taken by whoever shows the
      preimage of its claim hash, before it expires; redeemed by its holder before it expires; burned by
      the authority once redeemed; or revoked by its issuer while live. */
  ghost predicate Authorized(hash: Hash, c: Chain, i: Instruction, now: int, id: nat, n: Note, n': Note) {
    || (i.TransferNote? && i.id == id && i.signer == n.holder && Live(n.state) && now < n.expiresAt
        && n' == n.(holder := i.newHolder, state := Transferred, nonce := n.nonce + 1))
    || (i.ClaimNote? && i.id == id && hash(i.preimage) == n.claimHash && Live(n.state) && now < n.expiresAt
        && n' == n.(holder := i.signer, state := Transferred, nonce := n.nonce + 1))
    || (i.RedeemNote? && i.id == id && i.signer == n.holder && Live(n.state) && now < n.expiresAt
        && n' == n.(state := Redeemed))
    || (i.BurnNote? && i.id == id && i.signer == c.authority && n.state == Redeemed && n' == n.(state := Burned))
    || (i.RevokeNote? && i.id == id && i.signer == n.issuer && Live(n.state) && n' == n.(state := Revoked))
  }

  /** A note that changes was changed by someone authorized to, while the program is not paused. */
  lemma NoteChangesAuthorized(hash: Hash, c: Chain, i: Instruction, now: int, id: nat)
    requires IdsOk(c) && id in c.notes
    ensures var c' := Execute(hash, c, i, now).0;
            && id in c'.notes
            && (c'.notes[id] != c.notes[id] ==> !c.paused && Authorized(hash, c, i, now, id, c.notes[id], c'.notes[id]))
  {
  }

  /** While paused, notes, the counter, the vault totals and every balance stand still. */
  lemma PausedFreezes(hash: Hash, c: Chain, i: Instruction, now: int)
    requires c.paused
    ensures Execute(hash, c, i, now).0.(paused := true, supply := c.supply) == c
    ensures !Execute(hash, c, i, now).0.paused ==> i == UnpauseProtocol(c.authority)
  {
  }

  /** Call k changed the note, with the authority to do so, while the program was not paused. */
  ghost predicate AuthorizedAt(hash: Hash, chains: seq<Chain>, calls: seq<Call>, k: nat, id: nat)
    requires k < |calls| && k + 1 < |chains| && id in chains[k].notes && id in chains[k + 1].notes
  {
    && !chains[k].paused && Succeeds(hash, chains[k], calls[k])
    && Authorized(hash, chains[k], calls[k].instruction, calls[k].now, id, chains[k].notes[id], chains[k + 1].notes[id])
  }

  /** Over any stretch of a run, a note that differs in any way was changed in it by someone authorized. */
  lemma {:induction false} RunChangesAuthorized(hash: Hash, chains: seq<Chain>, calls: seq<Call>, first: nat, last: nat,
                                                id: nat)
    requires IsRun(hash, chains, calls) && first <= last <= |calls| && id in chains[first].notes
    ensures id in chains[last].notes
    ensures chains[last].notes[id] != chains[first].notes[id] ==>
              exists k :: first <= k < last && id in chains[k].notes && id in chains[k + 1].notes
                          && AuthorizedAt(hash, chains, calls, k, id)
    decreases last
  {
    if first < last {
      var k := last - 1;
      RunChangesAuthorized(hash, chains, calls, first, k, id);
      RunIdsOk(hash, chains, calls, k);
      NoteChangesAuthorized(hash, chains[k], calls[k].instruction, calls[k].now, id);
      if chains[last].notes[id] != chains[k].notes[id] {
        assert AuthorizedAt(hash, chains, calls, k, id);
      }
    }
  }

  /** From a pause until the authority lifts it, notes, the counter, the vault and every balance stand
      still, whatever is called. */
  lemma {:induction false} RunPaused(hash: Hash, chains: seq<Chain>, calls: seq<Call>, first: nat, last: nat)
    requires IsRun(hash, chains, calls) && first <= last <= |calls| && chains[first].paused
    requires forall k :: first <= k < last ==> calls[k].instruction != UnpauseProtocol(chains[first].authority)
    ensures chains[last].(supply := chains[first].supply) == chains[first]
    decreases last
  {
    if first < last {
      RunPaused(hash, chains, calls, first, last - 1);
      PausedFreezes(hash, chains[last - 1], calls[last - 1].instruction, calls[last - 1].now);
    }
  }

  ghost predicate TermsOk(n: Note) {
    n.denomination >= MIN_DENOMINATION && n.createdAt < n.expiresAt <= n.createdAt + MAX_EXPIRY_SECONDS
  }

  /** In every reachable state each note is worth something and expires within ninety days of its minting. */
  lemma {:induction false} RunTermsOk(hash: Hash, chains: seq<Chain>, calls: seq<Call>, n: nat, id: nat)
    requires IsRun(hash, chains, calls) && n <= |calls| && id in chains[n].notes
    ensures TermsOk(chains[n].notes[id])
  {
    if n > 0 {
      var c, call := chains[n - 1], calls[n - 1];
      if id in c.notes {
        RunTermsOk(hash, chains, calls, n - 1, id);
        RunIdsOk(hash, chains, calls, n - 1);
        NoteChangesAuthorized(hash, c, call.instruction, call.now, id);
      }
    }
  }

  // ---------------------------------------------------------------------------
  // The vault
  // ---------------------------------------------------------------------------

  function Amount(): nat -> int {
    (x: nat) => x
  }

  lemma PaidConserves(lamports: map<Name, nat>, from: Name, to: Name, amount: nat)
    requires Held(lamports, from) >= amount
    ensures Total(Paid(lamports, from, to, amount)) == Total(lamports)
  {
    var less := lamports[from := Held(lamports, from) - amount];
    SetTotal(lamports, from, Held(lamports, from) - amount);
    SetTotal(less, to, Held(less, to) + amount);
  }

  ghost function Total(lamports: map<Name, nat>): int {
    Sum<Name, nat>(lamports, Amount())
  }

  lemma SetTotal(lamports: map<Name, nat>, address: Name, value: nat)
    ensures Total(lamports[address := value]) == Total(lamports) - Held(lamports, address) + value
  {
    if address in lamports {
      SumReplace<Name, nat>(lamports, Amount(), address, value);
    } else {
      SumInsert<Name, nat>(lamports, Amount(), address, value);
    }
  }

  /** A reimbursement that names the vault itself as the relayer, and is not refused. */
  ghost predicate PaysVault(hash: Hash, c: Chain, call: Call) {
    Succeeds(hash, c, call) && call.instruction.ReimburseRelayer? && call.instruction.relayer == VAULT
  }

  /** What the vault paid to itself in the first n calls. */
  ghost function SelfPaid(hash: Hash, chains: seq<Chain>, calls: seq<Call>, n: nat): nat
    requires n <= |calls| < |chains|
  {
    if n == 0 then 0 else
    SelfPaid(hash, chains, calls, n - 1)
    + (if PaysVault(hash, chains[n - 1], calls[n - 1]) then calls[n - 1].instruction.amount else 0)
  }

  lemma StepVault(hash: Hash, c: Chain, call: Call)
    ensures var c' := Execute(hash, c, call.instruction, call.now).0;
            && Total(c'.lamports) == Total(c.lamports)
            && Lamports(c', VAULT) - c'.deposited + c'.reimbursed ==
               Lamports(c, VAULT) - c.deposited + c.reimbursed
               + (if PaysVault(hash, c, call) then call.instruction.amount else 0)
  {
    if Succeeds(hash, c, call) {
      match call.instruction
      case DepositToGasVault(amount, signer) => PaidConserves(c.lamports, signer, VAULT, amount);
      case ReimburseRelayer(amount, relayer, signer) => PaidConserves(c.lamports, VAULT, relayer, amount);
      case _ =>
    }
  }

  /** Lamports are never created or lost, and the vault holds its opening balance plus deposits less
      reimbursements, plus what it paid to itself. */
  lemma {:induction false} RunVault(hash: Hash, chains: seq<Chain>, calls: seq<Call>, n: nat)
    requires IsRun(hash, chains, calls) && n <= |calls|
    ensures Total(chains[n].lamports) == Total(chains[0].lamports)
    ensures Lamports(chains[n], VAULT) ==
            Lamports(chains[0], VAULT) + chains[n].deposited - chains[n].reimbursed + SelfPaid(hash, chains, calls, n)
  {
    if n > 0 {
      RunVault(hash, chains, calls, n - 1);
      StepVault(hash, chains[n - 1], calls[n - 1]);
    }
  }

  lemma {:induction false} SelfPaidIff(hash: Hash, chains: seq<Chain>, calls: seq<Call>, n: nat)
    requires n <= |calls| < |chains|
    ensures SelfPaid(hash, chains, calls, n) == 0 <==> forall k :: 0 <= k < n ==> !PaysVault(hash, chains[k], calls[k])
  {
    if n > 0 {
      SelfPaidIff(hash, chains, calls, n - 1);
    }
  }

  /** The vault's books balance exactly when no reimbursement that went through named the vault itself. */
  lemma {:induction false} VaultBalancesIff(hash: Hash, chains: seq<Chain>, calls: seq<Call>, n: nat)
    requires IsRun(hash, chains, calls) && n <= |calls|
    ensures Lamports(chains[n], VAULT) == Lamports(chains[0], VAULT) + chains[n].deposited - chains[n].reimbursed
            <==> forall k :: 0 <= k < n ==> !PaysVault(hash, chains[k], calls[k])
  {
    RunVault(hash, chains, calls, n);
    SelfPaidIff(hash, chains, calls, n);
  }

  /** One such reimbursement is counted as paid and moves nothing. */
  lemma SelfReimbursement(hash: Hash, c: Chain, amount: nat, signer: Name, now: int)
    requires Refusal(hash, c, ReimburseRelayer(amount, VAULT, signer), now).None?
    ensures var c' := Execute(hash, c, ReimburseRelayer(amount, VAULT, signer), now).0;
            Lamports(c', VAULT) == Lamports(c, VAULT) && c'.reimbursed > c.reimbursed
  {
  }
}
