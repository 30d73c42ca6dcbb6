# MEMBRA services: a verified model

This project models the stateful cores of the MEMBRA repository in Dafny and proves what they promise: a
Merkle commitment that binds its leaves, a token bucket that is exact, codecs that invert each other, and
services whose books balance in every reachable state.

Verify everything with `dafny verify dfyconfig.toml`.

## What is modelled

| file | part of the repository |
|---|---|
| `Merkle.dfy`, `MerkleBinding.dfy`, `Appraisal.dfy` | the Merkle tree over file appraisals, its proofs, and what a root commits to |
| `TokenBucket.dfy` | the per-client token bucket of the HTTP middleware |
| `Positional.dfy`, `Base58.dfy`, `MemoMessage.dfy` | base58, compact-u16 lengths and the memo transaction message |
| `Claims.dfy`, `ClaimHistory.dfy` | the bearer-claim lifecycle, and where claims come from |
| `Settlement.dfy` | the batching settlement engine |
| `Redemption.dfy`, `SlidingWindow.dfy`, `RedemptionSafety.dfy`, `RedemptionLimits.dfy`, `RedemptionHistory.dfy`, `RedemptionGaps.dfy` | redemption, which drives claims and settlement, and what its approval queue does not rule out |
| `Ledger.dfy` | the append-only ledger |
| `NoteProgram.dfy`, `NoteHistory.dfy` | the on-chain note program, its vault and its token cap |
| `GasVault.dfy` | fee credits and relayer reimbursement |
| `ProofOfDevelopment.dfy` | the phases of a development proof |
| `CircuitBreaker.dfy` | the circuit breaker around external calls |
| `Text.dfy`, `Sku.dfy` | string splitting and decimal text, and the file SKU codec |
| `Common.dfy`, `Arithmetic.dfy`, `MapSums.dfy` | result types; powers and quotients; sums over the values of a map |

A service that updates fields in place is a class whose methods do the same, branch by branch. Each method
is proved equal to one step of a function on a plain value of the service's state (`Model()`), and the
theorems are lemmas about that function: what one step keeps, and then what holds after any sequence of
steps, failed ones included. Other lemmas read the state off the calls: each claim, note, receipt, account,
relayer and request has in every reachable state the terms its creating call named and the status that later
calls gave it, and each call goes through exactly under conditions written out from its arguments and the
state, with errors that tell the truth. The two Merkle loops, the codec loops and the rate-limit, batching and history
loops are loops here too. The SKU codec, which has no state, is functions and lemmas.

What comes from outside is an input. Clock readings are parameters, in the order the code takes them; they
never run backwards where a property needs that. Ids and nullifiers drawn at random are parameters; an id is
assumed never to be drawn twice, which the ghost sets `issued` express. An exception is an `Err` or a
`Some` of an error named after its message, and each specification function says what state a failure leaves
behind.
SHA-256 is a parameter `sha`. Nothing is assumed of it except in the binding lemmas, which assume that
digests have one width and that no two of the strings actually hashed for the two trees (or paths) at hand
collide.

## Findings about the code

Properties that fail for some inputs are proved with their exact condition:

- Base58 (`DecodeEncodeIff`, `EncodeDecodeIff`): the round trips hold exactly for byte strings with a non-zero
  byte and texts with a letter other than `1`; the others grow by one zero.
- Merge (`MergeConservesIff`, `NamedMergeIsOneAsset`, `UnnamedAssetIsConverted`): the asset check is skipped
  after a claim whose asset name is empty, and value can then change asset.
- Failing splits and merges (`SplitMoves`, `MergeMoves`, `FailureKeepsIff`): a merge that stops loses the claims
  before the one it stops at, and a split whose nullifier collides loses the amounts from there on. With
  positive amounts, a failed operation keeps every asset's value exactly when it failed before deleting a claim.
- Splits (`SplitParts`): a part takes its parent's absolute expiry for a number of minutes, so it expires far
  later than the parent did.
- Redemption (`SettledTwiceIff`, `SettlesDespiteIff`): a claim can be settled twice, and can be settled after it
  was revoked, passed on or expired, exactly when its denomination reaches the approval threshold, because a
  claim waiting for approval is not locked and burning checks only that it is stored. Asking for more operators
  does not change that. An approval that fails because the claim is gone stays on record (`FailedApproval`), and
  its receipt can never settle (`GoneNeverSettles`).
- Ledger (`PostNonNegativeIff`) and fee credits (`SpendBoundedIff`): a negative amount, which the code
  accepts, can take a balance out of range.
- On-chain vault (`VaultBalancesIff`): its books balance exactly when no reimbursement that went through named the
  vault itself; such a one is counted as paid and moves nothing (`SelfReimbursement`).
- Circuit breaker (`RefinementIff`): the breaker follows its specification after every trace exactly when the
  threshold is positive and half-open calls are allowed. A smaller threshold acts as one
  (`SmallThresholdIsOne`); with no half-open calls, an opened breaker never closes (`NoProbesNoRecovery`).
- SKU (`SkuRoundTrip`): a dash inside the kept part of a field makes disassembly fail, although the
  checksum is still accepted (`GeneratedIsAccepted`).
- Development proofs (`LeavesExecutedIff`, `ExecutedIsNotFinal`, `AuthorizedIsApprovedIff`): a proof leaves EXECUTED
  exactly by a new test report or a rejection, and its old votes still count, so that one more approving vote
  of anyone takes it back to governance. The statistics then no longer show what was approved before.
  The threshold is always 3: `record_push` does not hand on the service's `community_required`, which
  only the messages show (backend/services/proof_of_development.py:60-81, 120). The model follows the code.
- Redemption asks the fraud check about a velocity of zero, so it never blocks (`FraudNeverBlocks`); and the
  "already rejected" check compares an operator's name with records, so it never fires
  (backend/services/redemption_service.py:238, 269).

## Model

| member | source | states |
|---|---|---|
| Merkle.BuildMerkleTree | backend/services/appraisal_service.py:68-88 | the loop returns the levels of the tree over the leaves (one fixed digest for no leaves) and the single entry of the last level as root |
| Merkle.HashPairs | backend/services/appraisal_service.py:84 | hashing the pairs of a layer whose last entry was duplicated gives the parents of the layer before padding |
| Merkle.MerkleProof | backend/services/appraisal_service.py:91-113 | the loop, for any integer index, gives the proof or the IndexError that the recursive definition gives |
| Merkle.ProofExistsIff | backend/services/appraisal_service.py:91-113 | an index is accepted exactly when it falls in the padded first layer, counted from either end; with one leaf or none, every index has the empty proof |
| Merkle.NegativeIndex | backend/services/appraisal_service.py:102-111 | for a power of two of leaves, a negative index has the proof of the leaf counted from the end |
| Merkle.Completeness | backend/services/appraisal_service.py:68-113 | for every leaf list and every slot of the padded first layer, folding the proof's siblings by direction from that slot's leaf gives the root of the tree |
| Merkle.LevelSize | backend/services/appraisal_service.py:78-88 | level k of n leaves has exactly ceil(n / 2^k) entries |
| Merkle.ProofLength | backend/services/appraisal_service.py:98-113 | the proof of every leaf exists and has one step per level below the root |
| Merkle.SiblingInLevel | backend/services/appraisal_service.py:102-111 | the k-th step is read from level k of the one saved tree, at the neighbour of the index halved k times, or at the last entry when that neighbour is padding |
| Merkle.ProofReadsSavedLevels | backend/services/appraisal_service.py:102-111 | the same with i / 2^k: the loop that rebuilds the layers refines reading the saved tree |
| MerkleBinding.DepthIsProofLength | backend/services/appraisal_service.py:78-88 | the number of levels depends on the number of leaves alone |
| MerkleBinding.SlotOfLeaf | backend/services/appraisal_service.py:81-84 | in the fully duplicated bottom row the first n slots are the n leaves |
| MerkleBinding.RootsEqualIff | backend/services/appraisal_service.py:64-88 | without a collision among the strings hashed, two trees of one depth have the same root exactly when their fully duplicated bottom rows agree |
| MerkleBinding.Binding | backend/services/appraisal_service.py:64-88 | without such a collision, two leaf lists of the same length have the same root exactly when they are identical |
| MerkleBinding.RepeatedLastLeafKeepsRoot | backend/services/appraisal_service.py:81-84 | why equal length is needed: for every odd list of three or more, appending a copy of the last leaf keeps the root |
| MerkleBinding.EveryLevelKeepsRoot | backend/services/appraisal_service.py:68-88 | why equal depth is needed: every level of a tree, given as leaves, has the same root, as many levels lower |
| MerkleBinding.UnevenWidthsCollide | backend/services/appraisal_service.py:64-65 | why equal width is needed: the two hex texts are joined without a separator |
| MerkleBinding.PathBinding | backend/services/appraisal_service.py:64-65 | two paths with the same directions that reach the same digest carry the same leaf and siblings, unless a string hashed on the way collides |
| MerkleBinding.Soundness | backend/services/appraisal_service.py:91-113 | a path with the honest directions of index i reaches the root exactly when it carries the honest leaf and the honest siblings |
| Appraisal.PayloadReadsBack | backend/services/appraisal_service.py:59-61 | read from its end, a payload gives back the value, the content hash and the path, even one that holds the separator |
| Appraisal.PayloadInjective | backend/services/appraisal_service.py:59-61 | different path, content hash or value always give different hashed texts, even when a path holds the separator |
| Appraisal.SnapshotBinding | backend/services/appraisal_service.py:59-88 | two snapshots of as many files have the same root exactly when every path, content hash and value agrees |
| TokenBucket.RateLimiter.constructor | backend/middleware/rate_limit.py:21-26 | a limiter starts without buckets |
| TokenBucket.RateLimiter.Allow | backend/middleware/rate_limit.py:28-38 | one request takes the bucket of its key through one step of the model, whose runs the lemmas below describe, and touches no other bucket |
| TokenBucket.Exactness | backend/middleware/rate_limit.py:28-38 | the tokens found by arrival k are the minimum over all j up to k of capacity + rate * (t_k - t_j) less what was admitted among j..k-1 |
| TokenBucket.AdmittedIff | backend/middleware/rate_limit.py:35-38 | a request is admitted exactly when no window ending at it would exceed its allowance |
| TokenBucket.WindowBound | backend/middleware/rate_limit.py:28-38 | the arrivals j..k admit at most capacity + rate * (t_k - t_j) |
| TokenBucket.BucketConforms | backend/middleware/rate_limit.py:28-38 | over every non-decreasing arrival sequence, no interval admits more than capacity + rate * length |
| TokenBucket.BucketAdmitsMost | backend/middleware/rate_limit.py:28-38 | no policy that keeps every window within that bound has admitted more, at any point of any sequence |
| TokenBucket.KeysAreIndependent | backend/middleware/rate_limit.py:26-33 | under any interleaving of clients, a client's bucket is the one its own arrivals alone would leave |
| Positional.ValueOfDigits | backend/filelife/solana_service.py:43-47 | the number written by the digits that repeated division gives is the number divided |
| Positional.DigitsOfValue | backend/filelife/solana_service.py:29-32 | a writing without leading zeros is the one repeated division gives for its value |
| Positional.ZerosThenDigits | backend/filelife/solana_service.py:29-34 | every writing is its leading zeros and then the shortest writing of its value |
| Positional.ByteLength | backend/filelife/solana_service.py:32 | the rounded-up bit length is exactly the number of bytes, so `to_bytes` neither overflows nor pads |
| Base58.LetterReadsAlphabet | backend/filelife/solana_service.py:28 | the letter of a digit is the alphabet string at that index |
| Base58.B58Decode | backend/filelife/solana_service.py:22-34 | the loop computes, for every text, the leading zeros and the bytes of the number written, or the ValueError of a letter outside the alphabet |
| Base58.B58Encode | backend/filelife/solana_service.py:37-49 | the loop computes, for every byte string, the leading ones and the shortest base-58 writing of its number |
| Base58.DecodeEncode | backend/filelife/solana_service.py:28-49 | decoding an encoded byte string gives it back, with one zero byte more when it has no non-zero byte |
| Base58.DecodeEncodeIff | backend/filelife/solana_service.py:28-49 | decode(encode(b)) = b exactly for byte strings with a non-zero byte, leading zeros included |
| Base58.EncodeDecode | backend/filelife/solana_service.py:28-49 | encoding a decoded text gives it back, with one `1` more when it has no other letter |
| Base58.EncodeDecodeIff | backend/filelife/solana_service.py:28-49 | encode(decode(s)) = s exactly for alphabet texts with a letter other than `1` |
| Base58.EncodingIsInjective | backend/filelife/solana_service.py:42-49 | no two byte strings share a text, all-zero ones included |
| Base58.DecodesIff | backend/filelife/solana_service.py:28-31 | decoding succeeds exactly on texts over the alphabet |
| MemoMessage.EncodeCompactU16 | backend/filelife/solana_service.py:52-62 | the loop computes the base-128 groups, low group first, with the high bit on all but the last |
| MemoMessage.CompactInverse | backend/filelife/solana_service.py:52-62 | for every number and continuation, a base-128 decoder reads n and the rest exactly from the encoding of n followed by the rest |
| MemoMessage.PrefixFree | backend/filelife/solana_service.py:52-62 | no encoding is a prefix of another's |
| MemoMessage.CompactLength | backend/filelife/solana_service.py:52-62 | an encoding takes at most k bytes exactly for numbers below 128^k |
| MemoMessage.CompactOfU16 | backend/filelife/solana_service.py:52-62 | numbers below 2^16 take one to three bytes |
| MemoMessage.BuildMemoTx | backend/filelife/solana_service.py:89-112 | the concatenation built is the serialized message of the signer, the decoded program key, the blockhash and the memo bytes |
| MemoMessage.MessageRoundTrip | backend/filelife/solana_service.py:89-112 | a parser recovers signer, program, blockhash and memo from exactly the messages built with 32-byte keys and blockhash |
| MemoMessage.ProgramKeySize | backend/filelife/solana_service.py:15 | the memo program's base58 address decodes to 32 bytes |
| Claims.ClaimNoteService.constructor | backend/services/claimnote_service.py:9-13 | the service starts with no claims and no nullifiers |
| Claims.ClaimNoteService.CreateClaim | backend/services/claimnote_service.py:26-64 | creating is one step of the model, for which `CreateValue`, `StepConsistent` and `AppearsNamed` hold |
| Claims.ClaimNoteService.TransferClaim | backend/services/claimnote_service.py:69-90 | transferring is one step of the model, for which `TransferValue` and `StepChangesProperly` hold; a refused one changes nothing |
| Claims.ClaimNoteService.SplitClaim | backend/services/claimnote_service.py:92-111 | the loops delete the parent and create its parts in order, stopping at the first that fails; `SplitMoves` and `SplitParts` say what that yields |
| Claims.ClaimNoteService.MergeClaims | backend/services/claimnote_service.py:113-128 | the loop deletes claim after claim and creates the merged one, a failure keeping the deletions already made; `MergeMoves` says what that yields |
| Claims.ClaimNoteService.BurnClaim | backend/services/claimnote_service.py:130-135 | burning is one step of the model, for which `BurnRevokeValue` holds |
| Claims.ClaimNoteService.RevokeClaim | backend/services/claimnote_service.py:137-146 | revoking is one step of the model, for which `BurnRevokeValue` and `StepChangesProperly` hold |
| Claims.StepConsistent | backend/services/claimnote_service.py:39-42 | every operation, failed ones included, keeps the nullifier set exactly the nullifiers of the stored claims, no two sharing one |
| Claims.RunConsistent | backend/services/claimnote_service.py:26-146 | so it is in every reachable state |
| Claims.CreateValue | backend/services/claimnote_service.py:26-64 | creating adds the denomination to its own asset and nothing to any other |
| Claims.TransferValue | backend/services/claimnote_service.py:69-90 | a transfer changes no asset's live value |
| Claims.PartsMadeIsFirstCollision | backend/services/claimnote_service.py:40-41 | the part a split stops at is the first whose nullifier is in use, by a stored claim or an earlier part |
| Claims.SplitMoves | backend/services/claimnote_service.py:92-111 | every split, failed ones included: it loses the amounts from the first collision on, in the parent's asset alone, and nothing when it is refused or succeeds |
| Claims.SplitValue | backend/services/claimnote_service.py:92-111 | a successful split into any number of parts changes no asset's live value |
| Claims.SplitParts | backend/services/claimnote_service.py:100-111 | a split stores one part per amount, in order, each with its amount, its nullifier and the parent's issuer, asset, owner and policy, expiring the parent's expiry in minutes from now |
| Claims.AbsorbedIsFirstStop | backend/services/claimnote_service.py:116-121 | a merge stops at the first claim that is not stored and created, was named before, or is of another asset than a named one before it |
| Claims.AbsorbValue | backend/services/claimnote_service.py:116-125 | each claim the loop deletes leaves its own asset, whether or not the merge then fails |
| Claims.MergeMoves | backend/services/claimnote_service.py:113-128 | every merge, failed ones included: exactly the claims before the stop leave their own assets, and on success the total arrives in the asset of the last one |
| Claims.MergedMoves | backend/services/claimnote_service.py:113-128 | a successful merge takes all the named claims and only converts value between assets |
| Claims.MergeValue | backend/services/claimnote_service.py:113-128 | a successful merge of claims of one asset changes no asset's live value |
| Claims.MergeConservesIff | backend/services/claimnote_service.py:113-128 | with positive denominations, a successful merge conserves every asset exactly when its claims are of one asset |
| Claims.NamedMergeIsOneAsset | backend/services/claimnote_service.py:120-122 | the mismatch check ensures one asset when the first claim's asset has a name |
| Claims.UnnamedAssetIsConverted | backend/services/claimnote_service.py:120-122 | when it has none, a merge can turn its value into another asset: a concrete case |
| Claims.BurnRevokeValue | backend/services/claimnote_service.py:130-146 | burning and revoking take out exactly the claim's own live value |
| Claims.FailureKeepsIff | backend/services/claimnote_service.py:26-146 | with positive parts, a failed operation keeps every asset's value exactly when it failed before deleting a claim |
| Claims.StepValue | backend/services/claimnote_service.py:26-146 | every operation, failed ones included, changes an asset's value by what it creates, burns or revokes, loses and converts |
| Claims.RunValue | backend/services/claimnote_service.py:26-146 | over every sequence of operations, live value is what was created, less what was burned or revoked, less what failed splits and merges lost, plus what merges converted from other assets |
| ClaimHistory.ClaimStepEvolves | backend/services/claimnote_service.py:26-146 | burned claims stay burned, ids are not reused, and a claim keeps its denomination and asset |
| ClaimHistory.StepChangesProperly | backend/services/claimnote_service.py:69-146 | what each operation does to a stored claim: the first transfer its owner makes in time gives it to the one named; burning, or revoking by its issuer, takes it out of circulation; nothing else of it ever changes |
| ClaimHistory.AppearsNamed | backend/services/claimnote_service.py:36-128 | a claim that appears is new (created state, nonce 0, version 1, unused id) and has, field by field, the terms and the owner its creation, split or merge names |
| ClaimHistory.RunNamed | backend/services/claimnote_service.py:26-146 | in every reachable state a claim's issuer, asset, denomination, nullifier, expiry (now + 60 * minutes) and policy are those its creating operation named, and its owner is that operation's or the target of its transfer |
| ClaimHistory.RunMovesOnce | backend/services/claimnote_service.py:73-82 | in every reachable state a claim's nonce is the number of its successful transfers and is at most one |
| ClaimHistory.CreateOutcome | backend/services/claimnote_service.py:38-64 | creating fails exactly when a stored claim has the nullifier, and otherwise stores the claim it returns |
| ClaimHistory.TransferOutcome | backend/services/claimnote_service.py:69-90 | when a transfer goes through, and what each of its errors means; a refused one changes nothing |
| ClaimHistory.SplitOutcome | backend/services/claimnote_service.py:92-111 | when a split passes its checks, and what each error means, the nullifier collision in mid-split included |
| ClaimHistory.MergeOutcome | backend/services/claimnote_service.py:113-128 | which error a merge raises at the claim it stops at, and that one which took all claims fails only for its own nullifier |
| ClaimHistory.BurnRevokeOutcome | backend/services/claimnote_service.py:130-146 | burning needs only a stored claim; revoking its issuer and a claim still in circulation; what each error means |
| Settlement.SettlementEngine.constructor | backend/services/settlement_engine.py:9-11 | the engine starts empty |
| Settlement.SettlementEngine.SubmitRequest | backend/services/settlement_engine.py:13-28 | submitting appends one pending request with the chain's fee, for which `SubmitPartitioned` and `SubmitBalanced` hold |
| Settlement.SettlementEngine.Choose | backend/services/settlement_engine.py:36-41 | the pending requests of the asset and chain, in order, with the sums of their amounts and fees and their ids |
| Settlement.SettlementEngine.Mark | backend/services/settlement_engine.py:53-54 | exactly the pending requests of the asset and chain become batched |
| Settlement.SettlementEngine.BuildBatch | backend/services/settlement_engine.py:35-56 | building is one step of the model, for which `BuildPartitioned` and `BuildBalanced` hold; without requests it fails and changes nothing |
| Settlement.SettlementEngine.ApproveBatch | backend/services/settlement_engine.py:58-65 | approving changes the status of one collecting batch |
| Settlement.SelectedCount | backend/services/settlement_engine.py:36-37 | a request is in the new batch once when it is pending and matches, and not at all otherwise |
| Settlement.SelectedTotals | backend/services/settlement_engine.py:40-41 | the batch totals are the sums over its ids, read back from the request list |
| Settlement.SubmitPartitioned | backend/services/settlement_engine.py:13-28 | submitting keeps every request pending or in exactly one batch slot, and every batch of one asset and chain with exact totals |
| Settlement.BuildPartitioned | backend/services/settlement_engine.py:35-56 | so does building a batch |
| Settlement.ApprovePartitioned | backend/services/settlement_engine.py:58-65 | and approving one |
| Settlement.SubmitBalanced | backend/services/settlement_engine.py:13-28 | submitting keeps submitted value = pending value + batch totals |
| Settlement.BuildBalanced | backend/services/settlement_engine.py:35-56 | building a batch moves its value from pending to the batch totals |
| Settlement.ApproveBalanced | backend/services/settlement_engine.py:58-65 | approving moves none |
| Settlement.SubmitOutcome | backend/services/settlement_engine.py:13-33 | a submitted request stands last, pending, with the terms given and the fee of its chain, in numbers |
| Settlement.BuildOutcome | backend/services/settlement_engine.py:35-56 | a batch takes every pending request of its asset and chain and no other, and fails exactly when there is none |
| Settlement.ApproveOutcome | backend/services/settlement_engine.py:58-65 | approving goes through exactly for a stored, collecting batch, of which it changes the status alone |
| Redemption.FraudScoreTells | backend/services/redemption_service.py:68-87 | the fraud score tells which of high velocity and large amount were raised, and blocks exactly when both were |
| Redemption.FraudNeverBlocks | backend/services/redemption_service.py:68-77 | with the velocity of zero that redemption asks about, the score stays below the blocking score for every amount |
| Redemption.RedemptionService.constructor | backend/services/redemption_service.py:17-30 | the service starts without receipts, keys, queue or timestamps |
| Redemption.RedemptionService.ValidateClaim | backend/services/redemption_service.py:36-52 | the first of the missing, expired, consumed and wrong-owner errors that applies |
| Redemption.RedemptionService.CheckRateLimit | backend/services/redemption_service.py:57-63 | the user's list is pruned to the entries after the cutoff, and the limit is reached when ten are left |
| Redemption.RedemptionService.RecordUserAction | backend/services/redemption_service.py:65-66 | the reading is appended to the user's list |
| Redemption.RedemptionService.RedeemClaim | backend/services/redemption_service.py:125-217 | redeeming takes claims, engine and desk together through one step of the model, for which `StepSafe` holds |
| Redemption.RedemptionService.AdmitClaim | backend/services/redemption_service.py:145-217 | the part after the rate limit: validation, routing by amount, burning and submitting, filing |
| Redemption.RedemptionService.ApproveRedemption | backend/services/redemption_service.py:227-257 | approving is one step of the model; the approval stays on record when burning then fails |
| Redemption.RedemptionService.RejectRedemption | backend/services/redemption_service.py:259-274 | rejecting is one step of the model, for which `RejectOutcome` and `RejectionIsFinal` hold |
| RedemptionSafety.ClaimStepSafe | backend/services/redemption_service.py:125-274 | every claim operation in between, failed ones included, keeps redemption safe |
| RedemptionSafety.StepSafe | backend/services/redemption_service.py:125-274 | every step of the three services keeps the safety invariant: backed receipts, burned claims, own requests, one-to-one keys |
| RedemptionSafety.RunSafe | backend/services/redemption_service.py:125-274 | so it holds after every interleaving of claim, redemption and settlement operations |
| RedemptionLimits.ReceiptsMatchRequests | backend/services/redemption_service.py:205-213 | in every reachable state a processing receipt has its own settlement request with the same user, destination, amount, asset and chain, its claim is burned, and every request belongs to a receipt |
| RedemptionGaps.SettledTwiceIff | backend/services/redemption_service.py:174-253 | for every number of operators that approvals ask for, some interleaving settles a claim of denomination d twice exactly when d reaches the approval threshold |
| RedemptionGaps.SmallSettlesProperly | backend/services/redemption_service.py:145-213 | below the threshold a receipt settles only when redeemed, with a live, unexpired claim owned by the user |
| RedemptionGaps.SettlesDespiteIff | backend/services/redemption_service.py:245-253 | for every number of operators asked for, a receipt of amount d can settle on a claim that is out of circulation, another's, or expired, exactly when d reaches the threshold |
| RedemptionGaps.ApproveAll | backend/services/redemption_service.py:241-253 | however many operators are asked for, different ones can always bring a waiting receipt to its settlement |
| RedemptionLimits.ReplayReturnsReceipt | backend/services/redemption_service.py:134-138 | repeating a key returns the one receipt filed under it and changes neither claims, requests, receipts nor timestamps |
| RedemptionLimits.ReceiptsAreFinal | backend/services/redemption_service.py:227-274 | a receipt keeps its terms for ever, a rejected one is never settled and a settled one never changes |
| RedemptionLimits.FailedApproval | backend/services/redemption_service.py:230-247 | a failed approval burns nothing, submits nothing and changes no receipt; it is counted exactly when it fails because the claim is no longer stored |
| RedemptionLimits.GoneNeverSettles | backend/services/redemption_service.py:245-253 | a receipt whose claim was split or merged away never settles, however many approve it later |
| RedemptionLimits.RunApprovedBy | backend/services/redemption_service.py:236-253 | when every approval asks for q operators, each large processing receipt has q different operators on record, and large receipts always pass the queue |
| RedemptionLimits.RunPartitioned | backend/services/settlement_engine.py:13-56 | in every reachable state each request is pending or in exactly one batch, batch totals are exact, and submitted value = pending value + batch totals |
| SlidingWindow.PrunedAnswersAsFull | backend/services/redemption_service.py:57-63 | the pruned list answers every later check as the full record would |
| RedemptionLimits.RunWindows | backend/services/redemption_service.py:57-66 | in every reachable state a user's redemptions ten apart are an hour apart, and only entries over an hour old were pruned |
| RedemptionLimits.AtMostTenAnHour | backend/services/redemption_service.py:57-66 | in any hour a user gets at most ten new receipts, replays adding none |
| RedemptionHistory.RejectOutcome | backend/services/redemption_service.py:259-274 | a rejection goes through exactly for a queued receipt neither settled nor rejected, marks it rejected, and notes who rejected it and why; what each error means |
| RedemptionHistory.RejectionIsFinal | backend/services/redemption_service.py:227-274 | over every run, rejecting a waiting receipt succeeds; from then on it is rejected, has no settlement request, and every approval of it is refused |
| RedemptionHistory.ApproveOutcome | backend/services/redemption_service.py:227-257 | an approval counts exactly for a waiting receipt and a new operator, and settles it exactly when it is the last one asked for and the claim is stored; what each error means |
| RedemptionHistory.RunRecords | backend/services/redemption_service.py:236-269 | in every reachable state the queue has on record exactly the operators who approved or rejected a receipt while it waited, in order |
| RedemptionHistory.AdmitOutcome | backend/services/redemption_service.py:36-217 | past the rate limit a redemption goes through exactly for a stored, unexpired, circulating claim of the user; its receipt has the terms given and is queued from 1_000_000_000 on and settled below; what each error means |
| RedemptionHistory.RateLimitIff | backend/services/redemption_service.py:57-63 | in every reachable state a redemption is turned away by the rate limit exactly when its user has ten on the full record in the hour before |
| RedemptionHistory.RunReceiptNamed | backend/services/redemption_service.py:92-199 | in every reachable state a receipt has the terms its redemption named, the claim's amount and asset, and fees that add up to the amount |
| RedemptionHistory.RunNothingQuarantined | backend/services/redemption_service.py:152-165 | no claim is ever quarantined, over any run |
| RedemptionHistory.RunFees | backend/services/settlement_engine.py:30-33 | in every reachable state each settlement request has the fee of its chain |
| RedemptionHistory.RunBatchNamed | backend/services/settlement_engine.py:35-65 | in every reachable state a batch is of the asset and chain it was built for, and approved exactly when it was approved since |
| RedemptionHistory.RunRecordsExact | backend/services/redemption_service.py:65-215 | in every reachable state users' records name exactly the receipts, each once, under its user and with its date |
| Ledger.LedgerService.constructor | backend/services/ledger_service.py:9-14 | the ledger starts empty |
| Ledger.LedgerService.LogEvent | backend/services/ledger_service.py:16-35 | an event is appended with the next number |
| Ledger.LedgerService.Create | backend/services/ledger_service.py:37-53 | creating is one step of the model; an existing account is returned unchanged |
| Ledger.LedgerService.PostEntry | backend/services/ledger_service.py:55-99 | posting, its key search included, is one step of the model, for which `RunReplays` holds |
| Ledger.LedgerService.GetHistory | backend/services/ledger_service.py:104-107 | the last entries naming the account, with Python's reading of zero and negative limits |
| Ledger.LedgerService.Reconcile | backend/services/ledger_service.py:120-126 | the mismatches name exactly the accounts whose balance is not the expected one, and are empty exactly when all agree |
| Ledger.PostKeepsHoldings | backend/services/ledger_service.py:71-97 | posting, from an account to itself included, changes no asset's total |
| Ledger.RepeatedKeyReturnsEntry | backend/services/ledger_service.py:66-70 | repeating a key returns the one entry under it and changes nothing, so the collision error is unreachable |
| Ledger.RunReplays | backend/services/ledger_service.py:55-99 | from any opening balances: every balance is opening + credits - debits over the entries, versions count touches (two for an account posting to itself), keys are exactly the entries' and unique, sequence numbers are used once, and each asset's total is the opening one |
| Ledger.HistoryExplainsBalance | backend/services/ledger_service.py:101-107 | the history of an account, read in full, explains its balance |
| Ledger.PostNonNegativeIff | backend/services/ledger_service.py:77-78 | a posting keeps balances non-negative exactly when the credited account can bear the amount, or it posts to itself |
| Ledger.RunNonNegative | backend/services/ledger_service.py:77-97 | with non-negative amounts, balances stay non-negative |
| Ledger.PostOutcome | backend/services/ledger_service.py:65-99 | under a new key a posting goes through exactly between two known accounts of its asset with enough to debit, as an entry with the fields given; what each error means |
| Ledger.CreateOutcome | backend/services/ledger_service.py:37-53 | creating an existing account changes nothing; a new one is empty, at version 1, of the kind, asset and owner given, and has its event |
| Ledger.RunAccountNamed | backend/services/ledger_service.py:37-53 | in every reachable state the accounts are those that opened or were created, with the kind, asset and owner named first |
| Ledger.RunEntryNamed | backend/services/ledger_service.py:79-98 | in every reachable state each entry says what some posting said, and is followed by its event |
| Ledger.InvolvingExactly | backend/services/ledger_service.py:104-106 | the entries listed for an account are all of its entries, as often as posted, and no others |
| Ledger.InvolvingInOrder | backend/services/ledger_service.py:104-106 | they are listed in the order of their numbers |
| Ledger.LastOfIsEnd | backend/services/ledger_service.py:107 | for every limit, zero and negative ones included, a limited history is the end of the whole one, of exactly the length Python's slice gives |
| NoteProgram.Program.constructor | programs/membramoney/src/lib.rs:16-23 | a program starts unpaused, with no notes, no supply and empty vault totals |
| NoteProgram.Program.Mint | programs/membramoney/src/lib.rs:26-68 | minting is one instruction of the model, refused for the same reasons |
| NoteProgram.Program.Transfer | programs/membramoney/src/lib.rs:71-91 | likewise for transferring |
| NoteProgram.Program.Claim | programs/membramoney/src/lib.rs:94-115 | likewise for claiming by preimage |
| NoteProgram.Program.Redeem | programs/membramoney/src/lib.rs:118-136 | likewise for redeeming |
| NoteProgram.Program.Burn | programs/membramoney/src/lib.rs:139-152 | likewise for burning |
| NoteProgram.Program.Revoke | programs/membramoney/src/lib.rs:155-168 | likewise for revoking |
| NoteProgram.Program.SetPaused | programs/membramoney/src/lib.rs:171-190 | likewise for pausing and unpausing |
| NoteProgram.Program.Deposit | programs/membramoney/src/lib.rs:232-256 | likewise for a deposit, which fails when the signer lacks the lamports |
| NoteProgram.Program.Reimburse | programs/membramoney/src/lib.rs:293-315 | likewise for a reimbursement |
| NoteProgram.Program.MintTokens | programs/membramoney/src/lib.rs:333-345 | likewise for minting tokens |
| NoteProgram.RunIdsOk | programs/membramoney/src/lib.rs:46-51 | in every reachable state note ids are exactly 0..note_counter-1, and the supply is within its cap |
| NoteProgram.RunTallies | programs/membramoney/src/lib.rs:71-168 | in every reachable state a note's nonce is its number of successful transfers and claims, none while it is Created; it was redeemed at most once, burned only after redemption, and revoked only without |
| NoteProgram.RunValue | programs/membramoney/src/lib.rs:26-168 | in every reachable state minted value = live + redeemed + burned + revoked value |
| NoteProgram.RunTermsOk | programs/membramoney/src/lib.rs:36-43 | in every reachable state each note is worth something and expires after its minting, within ninety days |
| NoteProgram.RunChangesAuthorized | programs/membramoney/src/lib.rs:71-168 | a note that differs between two moments was changed in between, while not paused, by its holder's transfer or redemption or a matching preimage before expiry, by the authority's burning once redeemed, or by its issuer's revocation while live |
| NoteProgram.RunPaused | programs/membramoney/src/lib.rs:171-190 | from a pause until the authority lifts it, notes, counter, vault and balances stand still |
| NoteProgram.HolderFrozen | programs/membramoney/src/lib.rs:79-91 | over any sequence, a note's holder never changes from its expiry on, nor once it has left Created and Transferred |
| NoteProgram.RunVault | programs/membramoney/src/lib.rs:232-315 | over every sequence no lamports are created or lost, and the vault holds its opening balance plus deposits less reimbursements plus what it paid to itself |
| NoteProgram.VaultBalancesIff | programs/membramoney/src/lib.rs:232-315 | the books balance exactly when no reimbursement that went through named the vault as relayer |
| NoteProgram.SelfReimbursement | programs/membramoney/src/lib.rs:304-312 | a reimbursement of the vault from itself is counted but moves nothing |
| NoteHistory.ExecutesIff | programs/membramoney/src/lib.rs:26-345 | each instruction goes through exactly under conditions written out from its arguments, its signer and the accounts, and otherwise changes nothing |
| NoteHistory.RefusalExplains | programs/membramoney/src/lib.rs:26-345 | every error tells the truth about the instruction it refuses |
| NoteHistory.RunNoteNamed | programs/membramoney/src/lib.rs:26-115 | in every reachable state a note's denomination, claim hash, creation and expiry are those of its minting, its issuer is the minting's signer, and its holder is the one it was minted for or the target of the last transfer or claim that went through |
| NoteHistory.RunTotals | programs/membramoney/src/lib.rs:232-345 | in every reachable state supply and vault totals are the sums of the amounts that went through; authorities and cap never change |
| NoteHistory.RunBalances | programs/membramoney/src/lib.rs:232-315 | over every sequence, an address other than the vault holds its opening lamports less its own deposits plus the reimbursements to it |
| NoteHistory.RunPausedBy | programs/membramoney/src/lib.rs:171-190 | in every reachable state the program is paused exactly when its authority's last pause or unpause was a pause |
| GasVault.GasVaultService.constructor | backend/services/gasvault_service.py:83-101 | the service starts with its opening balance and no accounts, relayers or requests |
| GasVault.GasVaultService.DepositSol | backend/services/gasvault_service.py:115-121 | depositing is one step of the model, for which `RunVault` holds |
| GasVault.GasVaultService.WithdrawSol | backend/services/gasvault_service.py:123-131 | likewise for withdrawing |
| GasVault.GasVaultService.IssueCredits | backend/services/gasvault_service.py:142-167 | one step of the model; refused over the cap, it still leaves an empty account |
| GasVault.GasVaultService.SpendCredits | backend/services/gasvault_service.py:169-195 | one step of the model, for which `SpendBoundedIff` holds |
| GasVault.GasVaultService.RegisterRelayer | backend/services/gasvault_service.py:213-225 | one step of the model |
| GasVault.GasVaultService.DeactivateRelayer | backend/services/gasvault_service.py:227-233 | one step of the model |
| GasVault.GasVaultService.RequestReimbursement | backend/services/gasvault_service.py:255-291 | one step of the model; every request names a registered relayer |
| GasVault.GasVaultService.ApproveReimbursement | backend/services/gasvault_service.py:293-328 | one step of the model; looking up the relayer never fails |
| GasVault.GasVaultService.RejectReimbursement | backend/services/gasvault_service.py:330-348 | one step of the model; looking up the relayer never fails |
| GasVault.StepAccounted | backend/services/gasvault_service.py:142-348 | every operation keeps relayer totals, total liability, request amounts and credit balances exact |
| GasVault.RunAccounted | backend/services/gasvault_service.py:142-375 | in every reachable state each relayer's pending and reimbursed totals are the sums of its pending and paid requests, the total liability is the sum of all pending requests, and credit balance = earned - spent |
| GasVault.PaymentCovered | backend/services/gasvault_service.py:301-306 | a payment that passes the check on whole lamports never overdraws the vault, in spite of the truncation |
| GasVault.RunVault | backend/services/gasvault_service.py:115-306 | in every reachable state the vault is its opening balance + deposits - withdrawals - paid reimbursements, and is never overdrawn |
| GasVault.SpendBoundedIff | backend/services/gasvault_service.py:173-182 | a spend keeps the balance within the cap exactly when it is not more negative than the room under the cap |
| GasVault.RunCreditsBounded | backend/services/gasvault_service.py:142-195 | with non-negative spends every credit balance stays in [0, cap] |
| GasVault.TruncatesTowardZero | backend/services/gasvault_service.py:107-109 | whole lamports are cut toward zero, on either side of it |
| GasVault.CoveredIff | backend/services/gasvault_service.py:107-109 | an amount passes the check on whole lamports exactly when the vault is worth it |
| GasVault.RefusalExplains | backend/services/gasvault_service.py:115-348 | each operation goes through exactly under conditions written out from its arguments and the state; every error tells the truth; a refusal changes nothing but that an issue leaves an account |
| GasVault.RunCreditsNamed | backend/services/gasvault_service.py:137-195 | in every reachable state a user's credit account is exactly what went through of the user's issues and spends, and exists from the first issue of a positive amount on |
| GasVault.RunRelayerNamed | backend/services/gasvault_service.py:213-233 | in every reachable state a relayer has the key it was registered with, and is active exactly when it was not deactivated since |
| GasVault.RunRequestNamed | backend/services/gasvault_service.py:255-348 | in every reachable state a request has the relayer and amount of a call that was permitted, and is paid, rejected or pending as decided since |
| ProofOfDevelopment.ProofOfDevelopmentService.constructor | backend/services/proof_of_development.py:60-65 | the service starts without proofs and votes |
| ProofOfDevelopment.ProofOfDevelopmentService.RecordPush | backend/services/proof_of_development.py:69-81 | pushing is one step of the model: a proof that needs three votes, whatever the service's own setting |
| ProofOfDevelopment.ProofOfDevelopmentService.RecordTests | backend/services/proof_of_development.py:85-103 | one step of the model, open to every phase |
| ProofOfDevelopment.ProofOfDevelopmentService.RecordSecurity | backend/services/proof_of_development.py:107-127 | one step of the model |
| ProofOfDevelopment.ProofOfDevelopmentService.CastVote | backend/services/proof_of_development.py:131-153 | one step of the model |
| ProofOfDevelopment.ProofOfDevelopmentService.ApproveProposal | backend/services/proof_of_development.py:157-183 | one step of the model |
| ProofOfDevelopment.ProofOfDevelopmentService.RejectProposal | backend/services/proof_of_development.py:185-190 | one step of the model |
| ProofOfDevelopment.RunProofOk | backend/services/proof_of_development.py:69-190 | in every reachable state the events since a proof's last test report have the shape its phase requires, and its votes are its approving voters |
| ProofOfDevelopment.ShowsOnePhase | backend/services/proof_of_development.py:85-190 | the shapes of different phases exclude each other, so the events decide the phase |
| ProofOfDevelopment.ExecutedIff | backend/services/proof_of_development.py:85-183 | a proof is EXECUTED exactly when the events since its last tests are passing tests, a clean scan, votes of which the last is the first to reach the threshold, and an approval within the cap |
| ProofOfDevelopment.ApprovingIsLatest | backend/services/proof_of_development.py:136-139 | the approving voters are those whose latest vote approves |
| ProofOfDevelopment.VotesAreLatest | backend/services/proof_of_development.py:136-141 | in every reachable state `community_votes` is the number of different voters whose latest vote approves |
| ProofOfDevelopment.LeavesExecutedIff | backend/services/proof_of_development.py:85-190 | an operation takes a proof out of EXECUTED exactly when it reports tests on it or rejects it |
| ProofOfDevelopment.RunSupported | backend/services/proof_of_development.py:141-169 | in every reachable state a proof in governance or executed has the votes it needs |
| ProofOfDevelopment.ExecutedIsNotFinal | backend/services/proof_of_development.py:85-145 | at every reachable executed proof, new passing tests and a clean scan leave it one vote from governance: any approving vote, or a disapproving one exactly when enough old votes remain |
| ProofOfDevelopment.AuthorizedWithinCap | backend/services/proof_of_development.py:216-224 | the emissions the statistics show never exceed the cap times the executed proofs |
| ProofOfDevelopment.ApprovedWithinCap | backend/services/proof_of_development.py:160-169 | over every sequence, all amounts ever approved stay within the cap times the approvals |
| ProofOfDevelopment.AuthorizedAccounts | backend/services/proof_of_development.py:157-224 | the statistics show all amounts ever approved less those of executed proofs tested again or rejected |
| ProofOfDevelopment.AuthorizedIsApprovedIff | backend/services/proof_of_development.py:157-224 | with positive amounts the two agree exactly when that never happened |
| ProofOfDevelopment.RefusalExplains | backend/services/proof_of_development.py:85-190 | each operation goes through exactly in the phase it belongs to, an approval within the cap; every error tells the truth |
| ProofOfDevelopment.RunReports | backend/services/proof_of_development.py:85-170 | in every reachable state a proof's test, scan and approval fields are those of its latest permitted test report, scan and approval |
| CircuitBreaker.Breaker.constructor | backend/core/circuit_breaker.py:27-45 | a breaker starts closed with all counters zero |
| CircuitBreaker.Breaker.Call | backend/core/circuit_breaker.py:47-73 | one call is one step of the model, for which the lemmas below hold |
| CircuitBreaker.Breaker.NoteSuccess | backend/core/circuit_breaker.py:75-80 | the state after a success |
| CircuitBreaker.Breaker.NoteFailure | backend/core/circuit_breaker.py:82-88 | the state after a failure |
| CircuitBreaker.RefinesTrailingFailures | backend/core/circuit_breaker.py:47-88 | after any trace the breaker is CLOSED exactly when the executed calls end in fewer consecutive failures than the threshold, else OPEN, so HALF_OPEN never survives a call |
| CircuitBreaker.RefinementIff | backend/core/circuit_breaker.py:27-93 | the settings for which that holds after every trace are exactly a threshold of at least one with at least one half-open call |
| CircuitBreaker.SmallThresholdIsOne | backend/core/circuit_breaker.py:87 | a threshold of zero or less acts as one |
| CircuitBreaker.CallsAddUp | backend/core/circuit_breaker.py:49-84 | every call is counted once, as a success, a failure or a refusal |
| CircuitBreaker.RunsIff | backend/core/circuit_breaker.py:47-73 | a call is executed exactly when those failures are below the threshold or the recovery timeout has passed since the last failure, and then returns or raises as the function does |
| CircuitBreaker.ProbeDecides | backend/core/circuit_breaker.py:60-88 | one failed probe reopens the breaker and one successful probe closes it |
| CircuitBreaker.NoProbesNoRecovery | backend/core/circuit_breaker.py:60-65 | with no half-open calls allowed, a breaker that opened refuses every later call |
| CircuitBreaker.NoProbesCounted | backend/core/circuit_breaker.py:51-65 | nor does such a breaker ever count a half-open call |
| Text.SplitJoin | backend/filelife/sku.py:97 | splitting a joined list of dash-free texts gives the list back |
| Text.SplitJoinCount | backend/filelife/sku.py:97-126 | splitting a joined list never loses parts, and finds as many exactly when none holds a dash |
| Text.JoinSplit | backend/filelife/sku.py:111-115 | joining what splitting gave restores the text |
| Text.ParsePadded | backend/filelife/sku.py:87 | a zero-padded decimal of any width parses to its number |
| Sku.TakeIsPrefix | backend/filelife/sku.py:67-76 | a slice to n keeps the first n characters, or all of a shorter text |
| Sku.GeneratedIsAccepted | backend/filelife/sku.py:97-117 | the checksum of every generated SKU is accepted, dashes in the fields included |
| Sku.ValidIff | backend/filelife/sku.py:108-119 | any text is accepted exactly when it has fourteen dashes or more and what follows the last one is the start of the digest of what comes before it |
| Sku.SkuPartsIff | backend/filelife/sku.py:80-146 | a generated SKU splits into its fourteen segments and the checksum exactly when no cut text field holds a dash, and into more otherwise |
| Sku.SegmentWidths | backend/filelife/sku.py:82-94 | stage and profile take one digit, the version four or as many more as it needs |
| Sku.SkuRoundTrip | backend/filelife/sku.py:48-159 | disassembling a generated SKU gives back its fields: the version if positive, stage and KPI profile clamped to 0..9, the flag, the texts upper-cased and cut, NOREPO or eight zeros for what is missing, and the checksum of what comes before; exactly when no cut text holds a dash, otherwise unpacking fails |
| Sku.DashFreeRoundTrip | backend/filelife/sku.py:48-159 | so it does for all dash-free fields |
| Sku.DefaultsWithoutPrefix | backend/filelife/sku.py:148-159 | in any disassembled SKU a numbered segment without its prefix counts as stage -1, version 0 or profile 0 |
| Sku.BarePrefixFails | backend/filelife/sku.py:148-159 | a segment that is its prefix alone makes the disassembly fail |

## Left out

- TokenBucket.RateLimiter.Allow: token counts are real numbers, and a bucket is created at the instant of its first request; floating-point rounding and the gap between the two clock readings are not modelled.
- GasVault.PaymentCovered: SOL amounts are real numbers, so floating-point rounding is not modelled.
- MemoMessage.EncodeCompactU16: takes natural numbers; the Python loop does not terminate on a negative one.
- Sku.SkuRoundTrip: numbers are parsed as Python's `int` does on decimal digits; signs, spaces and underscores are not modelled, nor the texts explaining a SKU.
- RedemptionLimits.ReceiptsMatchRequests: settlement requests are submitted by redemption alone, as in the repository.
- Records kept in dictionaries are values in map fields, so two names for one record (aliasing) are not captured; edits in place are map updates.
- The `base58` package: only the fallback branches are modelled. The signed wire transaction around the message, key loading and all network calls are left out.
- Claim PINs, salts, compliance state and the transfer log; audit logs, timestamps of records, event payloads and free-text messages.
- Broadcasting and confirming batches, which check nothing about a batch's status; the treasury and ledger objects that redemption holds but never calls.
- On-chain asset type, redemption policy, compliance state, nullifier, reserve attestations, fee-credit counters, the rebase index, rent, account derivation and serialization. An arithmetic overflow aborts the instruction.
- Coverage ratio, solvency and need evaluation of the gas vault; read-only listings of every service; ledger events by aggregate and snapshots.
- Calls to the circuit breaker that overlap in time.
- Treasury, identity, compliance, metrics, routes, middleware other than the token bucket, storage, SDKs and user interfaces.
