/** What the calls of a run say about the note program's state: where every note, total, balance and the
    pause come from, and what each refusal means (programs/membramoney/src/lib.rs). */
module NoteHistory {
  import opened Common
  import opened NoteProgram

  // ---------------------------------------------------------------------------
  // Which instructions go through
  // ---------------------------------------------------------------------------

  /** The note is stored, was neither spent nor revoked, and has not expired. */
  ghost predicate InForce(c: Chain, id: nat, now: int) {
    id in c.notes && InCirculation(c.notes[id]) && now < c.notes[id].expiresAt
  }

  ghost predicate InCirculation(n: Note) {
    n.state == Created || n.state == Transferred
  }

  /** The instruction is one its signer may give now, with arguments in range. */
  ghost predicate Permitted(hash: Hash, c: Chain, i: Instruction, now: int) {
    match i
    case MintNote(denomination, _, expiresIn, _, _) =>
      && !c.paused && denomination >= 1 && 0 < expiresIn <= 7_776_000
      && now + expiresIn < 0x8000_0000_0000_0000 && c.counter < 0xFFFF_FFFF_FFFF_FFFF
    case TransferNote(id, _, signer) =>
      && !c.paused && InForce(c, id, now) && c.notes[id].holder == signer && c.notes[id].nonce < 0xFFFF_FFFF_FFFF_FFFF
    case ClaimNote(id, preimage, _) =>
      && !c.paused && InForce(c, id, now) && c.notes[id].claimHash == hash(preimage)
      && c.notes[id].nonce < 0xFFFF_FFFF_FFFF_FFFF
    case RedeemNote(id, signer) => !c.paused && InForce(c, id, now) && c.notes[id].holder == signer
    case BurnNote(id, signer) => !c.paused && id in c.notes && c.notes[id].state == Redeemed && signer == c.authority
    case RevokeNote(id, signer) =>
      !c.paused && id in c.notes && InCirculation(c.notes[id]) && c.notes[id].issuer == signer
    case PauseProtocol(signer) => signer == c.authority
    case UnpauseProtocol(signer) => signer == c.authority
    case MintMembra(amount) => c.supply + amount <= c.supplyCap && c.supply + amount <= 0xFFFF_FFFF_FFFF_FFFF
    case DepositToGasVault(amount, signer) =>
      && !c.paused && signer == c.vaultAuthority && signer != VAULT && 0 < amount <= Lamports(c, signer)
      && c.deposited + amount <= 0xFFFF_FFFF_FFFF_FFFF
    case ReimburseRelayer(amount, _, signer) =>
      && !c.paused && signer == c.vaultAuthority && 0 < amount <= Lamports(c, VAULT)
      && c.reimbursed + amount <= 0xFFFF_FFFF_FFFF_FFFF
  }

  /** An instruction goes through exactly when it is permitted, and otherwise changes nothing. */
  lemma ExecutesIff(hash: Hash, c: Chain, i: Instruction, now: int)
    ensures Execute(hash, c, i, now).1 == None <==> Permitted(hash, c, i, now)
    ensures !Permitted(hash, c, i, now) ==> Execute(hash, c, i, now).0 == c
  {
  }

  /** The note an instruction names. */
  function NoteOf(i: Instruction): Option<nat> {
    match i
    case TransferNote(id, _, _) => Some(id)
    case ClaimNote(id, _, _) => Some(id)
    case RedeemNote(id, _) => Some(id)
    case BurnNote(id, _) => Some(id)
    case RevokeNote(id, _) => Some(id)
    case _ => None
  }

  /** The instruction names a note that is stored. */
  ghost predicate NamesStored(c: Chain, i: Instruction) {
    NoteOf(i).Some? && NoteOf(i).value in c.notes
  }

  /** What an error says about the instruction that got it. */
  ghost predicate Explains(e: Error, hash: Hash, c: Chain, i: Instruction, now: int) {
    match e
    case ProtocolPaused => c.paused
    case AccountNotInitialized => NoteOf(i).Some? && NoteOf(i).value !in c.notes
    case ConstraintHasOne =>
      && NamesStored(c, i)
      && (i.TransferNote? ==> i.signer != c.notes[i.id].holder) && (i.RedeemNote? ==> i.signer != c.notes[i.id].holder)
      && (i.RevokeNote? ==> i.signer != c.notes[i.id].issuer) && !i.ClaimNote? && !i.BurnNote?
    case AlreadyRedeemed => NamesStored(c, i) && !InCirculation(c.notes[NoteOf(i).value])
    case NoteExpired => NamesStored(c, i) && c.notes[NoteOf(i).value].expiresAt <= now
    case InvalidClaim => i.ClaimNote? && i.id in c.notes && c.notes[i.id].claimHash != hash(i.preimage)
    case Unauthorized =>
      || ((i.BurnNote? || i.PauseProtocol? || i.UnpauseProtocol?) && i.signer != c.authority)
      || ((i.DepositToGasVault? || i.ReimburseRelayer?) && i.signer != c.vaultAuthority)
    case InvalidAmount =>
      || (i.MintNote? && (i.denomination == 0 || !(0 < i.expiresIn <= 7_776_000)))
      || (i.BurnNote? && i.id in c.notes && c.notes[i.id].state != Redeemed)
      || ((i.DepositToGasVault? || i.ReimburseRelayer?) && i.amount == 0)
    case SupplyCapExceeded => i.MintMembra? && c.supply + i.amount > c.supplyCap
    case TransferFailed => i.DepositToGasVault? && (Lamports(c, i.signer) < i.amount || i.signer == VAULT)
    case GasVaultInsufficient => i.ReimburseRelayer? && Lamports(c, VAULT) < i.amount
    case Overflow =>
      || (i.MintNote? && (now + i.expiresIn >= 0x8000_0000_0000_0000 || c.counter >= 0xFFFF_FFFF_FFFF_FFFF))
      || ((i.TransferNote? || i.ClaimNote?) && i.id in c.notes && c.notes[i.id].nonce >= 0xFFFF_FFFF_FFFF_FFFF)
      || (i.MintMembra? && c.supply + i.amount > 0xFFFF_FFFF_FFFF_FFFF)
      || (i.DepositToGasVault? && c.deposited + i.amount > 0xFFFF_FFFF_FFFF_FFFF)
      || (i.ReimburseRelayer? && c.reimbursed + i.amount > 0xFFFF_FFFF_FFFF_FFFF)
    case _ => false
  }

  /** Every error tells the truth about the instruction it refuses. */
  lemma RefusalExplains(hash: Hash, c: Chain, i: Instruction, now: int)
    requires Execute(hash, c, i, now).1.Some?
    ensures Explains(Execute(hash, c, i, now).1.value, hash, c, i, now)
  {
    if i.TransferNote? || i.ClaimNote? {
      HandingRefusalExplains(hash, c, i, now);
    } else if NoteOf(i).Some? {
      EndingRefusalExplains(hash, c, i, now);
    } else {
      OtherRefusalExplains(hash, c, i, now);
    }
  }

  lemma HandingRefusalExplains(hash: Hash, c: Chain, i: Instruction, now: int)
    requires (i.TransferNote? || i.ClaimNote?) && Refusal(hash, c, i, now).Some?
    ensures Explains(Refusal(hash, c, i, now).value, hash, c, i, now)
  {
  }

  lemma EndingRefusalExplains(hash: Hash, c: Chain, i: Instruction, now: int)
    requires (i.RedeemNote? || i.BurnNote? || i.RevokeNote?) && Refusal(hash, c, i, now).Some?
    ensures Explains(Refusal(hash, c, i, now).value, hash, c, i, now)
  {
  }

  lemma OtherRefusalExplains(hash: Hash, c: Chain, i: Instruction, now: int)
    requires NoteOf(i).None? && Refusal(hash, c, i, now).Some?
    ensures Explains(Refusal(hash, c, i, now).value, hash, c, i, now)
  {
  }

  // ---------------------------------------------------------------------------
  // Notes
  // ---------------------------------------------------------------------------

  ghost predicate PermittedAt(hash: Hash, chains: seq<Chain>, calls: seq<Call>, k: nat)
    requires k < |calls| < |chains|
  {
    Permitted(hash, chains[k], calls[k].instruction, calls[k].now)
  }

  /** The call hands the note on. */
  ghost predicate Hands(hash: Hash, chains: seq<Chain>, calls: seq<Call>, k: nat, id: nat)
    requires k < |calls| < |chains|
  {
    && PermittedAt(hash, chains, calls, k)
    && (calls[k].instruction.TransferNote? || calls[k].instruction.ClaimNote?) && calls[k].instruction.id == id
  }

  /** Whom an instruction gives the note to: a minting and a transfer the one named, a claim its signer. */
  function Receiver(i: Instruction): Option<Name> {
    match i
    case MintNote(_, _, _, recipient, _) => Some(recipient)
    case TransferNote(_, newHolder, _) => Some(newHolder)
    case ClaimNote(_, _, signer) => Some(signer)
    case _ => None
  }

  /** The receiver of the last call that handed the note on after call k and before call n, or else of
      call k itself. */
  ghost function LastReceiver(hash: Hash, chains: seq<Chain>, calls: seq<Call>, k: nat, n: nat, id: nat): Option<Name>
    requires k < n <= |calls| < |chains|
    decreases n
  {
    if n == k + 1 then Receiver(calls[k].instruction)
    else if Hands(hash, chains, calls, n - 1, id) then Receiver(calls[n - 1].instruction)
    else LastReceiver(hash, chains, calls, k, n - 1, id)
  }

  /** Call k minted the note, with the terms it has after n calls. */
  ghost predicate MintedBy(hash: Hash, chains: seq<Chain>, calls: seq<Call>, k: nat, n: nat, id: nat)
    requires k < n <= |calls| < |chains| && id in chains[n].notes
  {
    var i, now, note := calls[k].instruction, calls[k].now, chains[n].notes[id];
    && PermittedAt(hash, chains, calls, k) && i.MintNote? && chains[k].counter == id
    && note.denomination == i.denomination && note.issuer == i.signer && note.claimHash == i.claimHash
    && note.createdAt == now && note.expiresAt == now + i.expiresIn
    && LastReceiver(hash, chains, calls, k, n, id) == Some(note.holder)
  }

  /** A call leaves a stored note's terms alone, and its holder unless it hands the note on. */
  lemma StepKeepsNamed(hash: Hash, chains: seq<Chain>, calls: seq<Call>, k: nat, n: nat, id: nat)
    requires IsRun(hash, chains, calls) && k < n < |calls| && id in chains[n].notes && IdsOk(chains[n])
    requires MintedBy(hash, chains, calls, k, n, id)
    ensures id in chains[n + 1].notes && MintedBy(hash, chains, calls, k, n + 1, id)
  {
    NoteFrozen(hash, chains[n], calls[n].instruction, calls[n].now, id);
    StepHolder(hash, chains, calls, n, id);
  }

  lemma StepHolder(hash: Hash, chains: seq<Chain>, calls: seq<Call>, n: nat, id: nat)
    requires IsRun(hash, chains, calls) && n < |calls| && id in chains[n].notes && IdsOk(chains[n])
    ensures id in chains[n + 1].notes
    ensures Some(chains[n + 1].notes[id].holder) ==
            if Hands(hash, chains, calls, n, id) then Receiver(calls[n].instruction)
            else Some(chains[n].notes[id].holder)
  {
    ExecutesIff(hash, chains[n], calls[n].instruction, calls[n].now);
    NoteChangesAuthorized(hash, chains[n], calls[n].instruction, calls[n].now, id);
  }

  lemma StepMints(hash: Hash, chains: seq<Chain>, calls: seq<Call>, n: nat, id: nat)
    requires IsRun(hash, chains, calls) && n < |calls| && IdsOk(chains[n])
    requires id !in chains[n].notes && id in chains[n + 1].notes
    ensures MintedBy(hash, chains, calls, n, n + 1, id)
  {
    ExecutesIff(hash, chains[n], calls[n].instruction, calls[n].now);
  }

  /** In every reachable state a note has the terms its minting named, its minter as issuer, and as holder
      the one it was minted for or last handed to. */
  lemma {:induction false} RunNoteNamed(hash: Hash, chains: seq<Chain>, calls: seq<Call>, n: nat, id: nat)
    requires IsRun(hash, chains, calls) && n <= |calls| && id in chains[n].notes
    ensures exists k :: 0 <= k < n && MintedBy(hash, chains, calls, k, n, id)
  {
    var m := n - 1;
    RunIdsOk(hash, chains, calls, m);
    if id in chains[m].notes {
      RunNoteNamed(hash, chains, calls, m, id);
      var k :| 0 <= k < m && MintedBy(hash, chains, calls, k, m, id);
      StepKeepsNamed(hash, chains, calls, k, m, id);
    } else {
      StepMints(hash, chains, calls, m, id);
    }
  }

  // ---------------------------------------------------------------------------
  // Totals, balances and the pause
  // ---------------------------------------------------------------------------

  /** What a permitted call mints as tokens. */
  ghost function TokensOf(hash: Hash, c: Chain, call: Call): nat {
    var i := call.instruction;
    if i.MintMembra? && Permitted(hash, c, i, call.now) then i.amount else 0
  }

  /** What a permitted call moves from an address, or from anyone, into the vault. */
  ghost function DepositOf(hash: Hash, c: Chain, call: Call, who: Option<Name>): nat {
    var i := call.instruction;
    if i.DepositToGasVault? && (who == None || who == Some(i.signer)) && Permitted(hash, c, i, call.now) then i.amount
    else 0
  }

  /** What a permitted call moves to an address, or to anyone, out of the vault. */
  ghost function PaymentOf(hash: Hash, c: Chain, call: Call, who: Option<Name>): nat {
    var i := call.instruction;
    if i.ReimburseRelayer? && (who == None || who == Some(i.relayer)) && Permitted(hash, c, i, call.now) then i.amount
    else 0
  }

  ghost function Tokens(hash: Hash, chains: seq<Chain>, calls: seq<Call>, n: nat): nat
    requires n <= |calls| < |chains|
  {
    if n == 0 then 0 else Tokens(hash, chains, calls, n - 1) + TokensOf(hash, chains[n - 1], calls[n - 1])
  }

  ghost function Deposits(hash: Hash, chains: seq<Chain>, calls: seq<Call>, n: nat, who: Option<Name>): nat
    requires n <= |calls| < |chains|
  {
    if n == 0 then 0 else
    Deposits(hash, chains, calls, n - 1, who) + DepositOf(hash, chains[n - 1], calls[n - 1], who)
  }

  ghost function Payments(hash: Hash, chains: seq<Chain>, calls: seq<Call>, n: nat, who: Option<Name>): nat
    requires n <= |calls| < |chains|
  {
    if n == 0 then 0 else
    Payments(hash, chains, calls, n - 1, who) + PaymentOf(hash, chains[n - 1], calls[n - 1], who)
  }

  lemma StepTotals(hash: Hash, c: Chain, call: Call)
    ensures var c' := Execute(hash, c, call.instruction, call.now).0;
            && c'.supply == c.supply + TokensOf(hash, c, call)
            && c'.deposited == c.deposited + DepositOf(hash, c, call, None)
            && c'.reimbursed == c.reimbursed + PaymentOf(hash, c, call, None)
            && c'.authority == c.authority && c'.vaultAuthority == c.vaultAuthority && c'.supplyCap == c.supplyCap
  {
    ExecutesIff(hash, c, call.instruction, call.now);
  }

  /** In every reachable state the token supply and the vault totals are the sums of the amounts that went
      through, and the authorities and the cap are the first ones. */
  lemma {:induction false} RunTotals(hash: Hash, chains: seq<Chain>, calls: seq<Call>, n: nat)
    requires IsRun(hash, chains, calls) && n <= |calls|
    ensures chains[n].supply == Tokens(hash, chains, calls, n)
    ensures chains[n].deposited == Deposits(hash, chains, calls, n, None)
    ensures chains[n].reimbursed == Payments(hash, chains, calls, n, None)
    ensures chains[n].authority == chains[0].authority && chains[n].vaultAuthority == chains[0].vaultAuthority
    ensures chains[n].supplyCap == chains[0].supplyCap
  {
    if n > 0 {
      RunTotals(hash, chains, calls, n - 1);
      StepTotals(hash, chains[n - 1], calls[n - 1]);
    }
  }

  lemma StepBalance(hash: Hash, c: Chain, call: Call, address: Name)
    requires address != VAULT
    ensures Lamports(Execute(hash, c, call.instruction, call.now).0, address) ==
            Lamports(c, address) - DepositOf(hash, c, call, Some(address)) + PaymentOf(hash, c, call, Some(address))
  {
    ExecutesIff(hash, c, call.instruction, call.now);
  }

  /** Lamports leave an address only as its own deposits, and reach it only as reimbursements to it. */
  lemma {:induction false} RunBalances(hash: Hash, chains: seq<Chain>, calls: seq<Call>, n: nat, address: Name)
    requires IsRun(hash, chains, calls) && n <= |calls| && address != VAULT
    ensures Lamports(chains[n], address) ==
            Lamports(chains[0], address) - Deposits(hash, chains, calls, n, Some(address))
            + Payments(hash, chains, calls, n, Some(address))
  {
    if n > 0 {
      RunBalances(hash, chains, calls, n - 1, address);
      StepBalance(hash, chains[n - 1], calls[n - 1], address);
    }
  }

  /** Whether the last of the first n calls by which the authority paused or unpaused the program paused it. */
  ghost predicate PausedBy(authority: Name, calls: seq<Call>, n: nat)
    requires n <= |calls|
  {
    n > 0
    && (calls[n - 1].instruction == PauseProtocol(authority)
        || (calls[n - 1].instruction != UnpauseProtocol(authority) && PausedBy(authority, calls, n - 1)))
  }

  lemma StepPaused(hash: Hash, c: Chain, call: Call)
    ensures Execute(hash, c, call.instruction, call.now).0.paused <==>
            call.instruction == PauseProtocol(c.authority)
            || (c.paused && call.instruction != UnpauseProtocol(c.authority))
  {
  }

  /** In every reachable state the program is paused exactly when its authority paused it last. */
  lemma {:induction false} RunPausedBy(hash: Hash, chains: seq<Chain>, calls: seq<Call>, n: nat)
    requires IsRun(hash, chains, calls) && n <= |calls|
    ensures chains[n].paused <==> PausedBy(chains[0].authority, calls, n)
  {
    if n > 0 {
      RunPausedBy(hash, chains, calls, n - 1);
      RunTotals(hash, chains, calls, n - 1);
      StepPaused(hash, chains[n - 1], calls[n - 1]);
    }
  }
}
