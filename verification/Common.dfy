/** Result types shared by every component. */
module Common {

  /** A value that may be absent: a missing dictionary key, or Python's None. */
  datatype Option<+T> = None | Some(value: T)

  /** The exceptions the services raise and the errors the note program returns, by their messages. */
  datatype Error =
    AccountNotFound | AccountNotInitialized | AlreadyRedeemed | AmountExceedsMaxPerBatch |
    AmountMustBePositive | ApprovalRequestNotFound | AssetTypeMismatch | BatchNotCollecting | BatchNotFound |
    CannotVoteInPhase | ClaimAlreadyConsumed | ClaimExpired | ClaimNotFound | ClaimNotTransferable |
    ConstraintHasOne | CreditAmountMustBePositive | DepositAmountMustBePositive | EmissionExceedsCap |
    ExpectedGovernance | ExpectedTests | FraudCheckFailed | GasVaultInsufficient | IdempotencyCollision |
    InsufficientBalance | InsufficientCredits | InsufficientVaultBalance | InsufficientVaultForReimbursement |
    InvalidAmount | InvalidClaim | KeyError | NoFeeCreditAccount | NoPendingRequests | NotInAlphabet |
    NotOwner | NoteExpired | NullifierCollision | OnlyIssuerCanRevoke | OperatorAlreadyApproved | Overflow |
    ProofNotFound | ProtocolPaused | RateLimitExceeded | ReceiptNotPendingApproval |
    ReimbursementRequestNotFound | RelayerIsDeactivated | RelayerNotFound | RequestAlreadyResolved |
    SplitAmountsMustSumToDenomination | SupplyCapExceeded | TransferFailed | Unauthorized |
    WithdrawalAmountMustBePositive | WouldExceedMaxCredits

  /** A returned value, or the exception that was raised instead. */
  datatype Result<+T> = Ok(value: T) | Err(error: Error)

  /** A user, asset, chain or other text that the services only compare. */
  datatype Name = Name(text: string)

  /** A uuid4: the services only compare them, and none is drawn twice. */
  type Id = nat

  /** Python's `if x:` for an optional number: None and zero are both false. */
  predicate Truthy(o: Option<real>) {
    o.Some? && o.value != 0.0
  }
}
