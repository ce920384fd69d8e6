/**
 * Channel snapshots and the accounting law F = V + S + R with 0 <= S <= A <= F - R.
 *
 * Timestamps are whole UTC seconds.  `wellFormed` is the outcome of the closed-key,
 * literal and pattern checks that each record goes through before its values are read.
 */
module Channels {
  import opened Tables

  const U64_MAX: nat := 0xFFFF_FFFF_FFFF_FFFF

  datatype Result<+T, +E> = Ok(value: T) | Err(error: E)

  datatype Domain = Domain(environment: string, network: string, genesisHash: string, programId: string)

  datatype ChannelRef = ChannelRef(channelId: string, account: string, epoch: nat, sender: string, mint: string)

  datatype Status =
    | Draft | Funding | Active | Settling | Closing | Closed | Expired
    | Blocked | Disputed | NeedsRecovery | NeedsReview

  datatype Policy = Policy(wellFormed: bool, channelId: string, limit: nat, allowTopUp: bool, minimumCloseGrace: nat)

  datatype Channel = Channel(
    wellFormed: bool,
    domain: Domain,
    identity: ChannelRef,
    recipientClaim: string,
    recipientWallet: Option<string>,
    decimals: nat,
    vaultAccount: string,
    funded: nat,
    activated: nat,
    settled: nat,
    refunded: nat,
    sequence: nat,
    voucherHash: string,
    status: Status,
    expiresAt: int,
    closeRequestedAt: Option<int>,
    claimDeadline: Option<int>,
    policy: Policy,
    createdAt: int,
    updatedAt: int)

  datatype Accounting = Accounting(
    funded: nat, activated: nat, settled: nat, refunded: nat,
    vault: nat, outstanding: nat, unallocated: nat)

  /** The conservation law and the bounds on rights. */
  predicate Lawful(a: Accounting)
  {
    && a.funded == a.vault + a.settled + a.refunded
    && a.settled <= a.activated
    && a.activated + a.refunded <= a.funded
    && a.outstanding == a.activated - a.settled
    && a.unallocated == a.funded - a.refunded - a.activated
  }

  datatype ChannelRefusal =
    | MalformedChannel | MalformedPolicy | PolicyChannelMismatch
    | RefundExceedsFunding | AuthorizationExceedsCapacity | AuthorizationExceedsPolicy
    | SettlementExceedsAuthorization | ActivationStateInconsistent | TimeOrderInvalid
    | ClosingFieldsIncomplete | ClosingFieldsRequired | ClosingFieldsForbidden
    | CloseSnapshotOrderInvalid | CloseWindowInvalid | CloseGraceTooShort
    | ConservationViolation | DraftAccountingNonzero | FundingAccountingInvalid | FundingRequired
    | ChannelExpiryTransitionRequired | SettlementWalletRequired | SettlementRightRequired
    | ExpiryNotReached | ExpiredOutstandingRight
    | ClosedOutstandingRight | ClosedVaultNonzero | ClosedBeforeClaimDeadline
    | TopUpForbidden | FundingLifecycleForbidden | MalformedFunding | ZeroFunding
    | FundingTotalMismatch | FundingStatusTransitionInvalid | FundingIdentityMismatch
    | FundingImmutableFieldChanged | FundingSnapshotMismatch | FundingTimeOrderInvalid

  /** The amounts and the activation counter. */
  function CheckAmounts(c: Channel): (r: Option<ChannelRefusal>)
    ensures r.None? ==> c.settled <= c.activated && c.activated + c.refunded <= c.funded <= U64_MAX
  {
    if c.funded > U64_MAX || c.activated > U64_MAX || c.settled > U64_MAX || c.refunded > U64_MAX then
      Some(MalformedChannel)
    else if !c.policy.wellFormed || !(1 <= c.policy.minimumCloseGrace <= 31_536_000) then Some(MalformedPolicy)
    else if c.policy.channelId != c.identity.channelId then Some(PolicyChannelMismatch)
    else if c.refunded > c.funded then Some(RefundExceedsFunding)
    else if c.activated > c.funded - c.refunded then Some(AuthorizationExceedsCapacity)
    else if c.activated > c.policy.limit then Some(AuthorizationExceedsPolicy)
    else if c.settled > c.activated then Some(SettlementExceedsAuthorization)
    else if (c.sequence == 0) != (c.activated == 0) then Some(ActivationStateInconsistent)
    else None
  }

  /** The close window, checked only when the channel carries close timestamps. */
  function CheckCloseWindow(c: Channel): (r: Option<ChannelRefusal>)
    ensures r.None? && c.claimDeadline.Some? ==>
              c.closeRequestedAt.Some? && c.claimDeadline.value >= c.closeRequestedAt.value + c.policy.minimumCloseGrace
  {
    if c.closeRequestedAt.Some? != c.claimDeadline.Some? then Some(ClosingFieldsIncomplete)
    else if c.closeRequestedAt.None? then
      if c.status.Closing? || c.status.Closed? then Some(ClosingFieldsRequired) else None
    else if c.status in {Draft, Funding, Active, Settling, Expired} then Some(ClosingFieldsForbidden)
    else
      var requested, deadline := c.closeRequestedAt.value, c.claimDeadline.value;
      if requested < c.createdAt || requested > c.updatedAt then Some(CloseSnapshotOrderInvalid)
      else if deadline <= requested then Some(CloseWindowInvalid)
      else if deadline - requested < c.policy.minimumCloseGrace then Some(CloseGraceTooShort)
      else None
  }

  /** What each lifecycle state demands of the amounts and the clock. */
  function CheckStatus(c: Channel): (r: Option<ChannelRefusal>)
    requires c.settled <= c.activated && c.activated + c.refunded <= c.funded
    requires c.status.Closed? ==> c.claimDeadline.Some?
    ensures r.None? && c.status.Closed? ==> c.activated == c.settled && c.funded == c.settled + c.refunded
  {
    if c.status.Draft? && (c.funded != 0 || c.activated != 0 || c.settled != 0 || c.refunded != 0) then
      Some(DraftAccountingNonzero)
    else if c.status.Funding? && (c.activated != 0 || c.settled != 0 || c.refunded != 0) then
      Some(FundingAccountingInvalid)
    else if c.status in {Active, Settling, Closing} && c.funded == 0 then Some(FundingRequired)
    else if c.status in {Funding, Active} && c.updatedAt >= c.expiresAt then Some(ChannelExpiryTransitionRequired)
    else if c.status.Settling? && c.recipientWallet.None? then Some(SettlementWalletRequired)
    else if c.status.Settling? && c.activated <= c.settled then Some(SettlementRightRequired)
    else if c.status.Expired? && c.updatedAt < c.expiresAt then Some(ExpiryNotReached)
    else if c.status.Expired? && c.activated != c.settled then Some(ExpiredOutstandingRight)
    else if c.status.Closed? && c.activated != c.settled then Some(ClosedOutstandingRight)
    else if c.status.Closed? && c.funded - c.settled - c.refunded != 0 then Some(ClosedVaultNonzero)
    else if c.status.Closed? && c.updatedAt < c.claimDeadline.value then Some(ClosedBeforeClaimDeadline)
    else None
  }

  /** Validates a snapshot and derives its conservation values. */
  function ValidateChannel(c: Channel): (r: Result<Accounting, ChannelRefusal>)
    ensures r.Ok? ==> Lawful(r.value)
    ensures r.Ok? ==> r.value.funded == c.funded && r.value.activated == c.activated
                      && r.value.settled == c.settled && r.value.refunded == c.refunded
    ensures r.Ok? && c.status.Closed? ==> r.value.vault == 0 && r.value.outstanding == 0
    ensures r.Ok? && c.status.Closing? ==> c.claimDeadline.Some?
    ensures r.Ok? ==> 1 <= c.policy.minimumCloseGrace && ((c.sequence == 0) <==> (c.activated == 0))
    ensures r.Ok? ==> c.wellFormed && c.funded <= U64_MAX
  {
    if !c.wellFormed || c.decimals > 18 then Err(MalformedChannel)
    else
      var amounts := CheckAmounts(c);
      if amounts.Some? then Err(amounts.value)
      else if c.updatedAt < c.createdAt || c.expiresAt <= c.createdAt then Err(TimeOrderInvalid)
      else
        var window := CheckCloseWindow(c);
        if window.Some? then Err(window.value)
        else
          var status := CheckStatus(c);
          if status.Some? then Err(status.value)
          else Ok(Accounting(c.funded, c.activated, c.settled, c.refunded,
                             c.funded - c.settled - c.refunded,
                             c.activated - c.settled,
                             c.funded - c.refunded - c.activated))
  }

  datatype FundingEvent = FundingEvent(
    wellFormed: bool, channelId: string, account: string, mint: string,
    amount: nat, totalAfter: nat, observedAt: int)

  /** What a funding may not touch: everything but F, the status, updated_at and the close fields. */
  predicate SameExceptFunding(a: Channel, b: Channel)
  {
    && a.domain == b.domain && a.identity == b.identity
    && a.recipientClaim == b.recipientClaim && a.recipientWallet == b.recipientWallet
    && a.decimals == b.decimals && a.vaultAccount == b.vaultAccount
    && a.activated == b.activated && a.settled == b.settled && a.refunded == b.refunded
    && a.sequence == b.sequence && a.voucherHash == b.voucherHash
    && a.expiresAt == b.expiresAt && a.policy == b.policy && a.createdAt == b.createdAt
  }

  /** One observed funding: the vault grows by the amount and nothing else moves. */
  function ValidateFundingTransition(before: Channel, event: FundingEvent, after: Channel)
    : (r: Result<Accounting, ChannelRefusal>)
    ensures r.Ok? ==> ValidateChannel(before).Ok? && Lawful(r.value)
    ensures r.Ok? ==> r.value.vault == ValidateChannel(before).value.vault + event.amount
                      && r.value.unallocated == ValidateChannel(before).value.unallocated + event.amount
                      && r.value.outstanding == ValidateChannel(before).value.outstanding
                      && event.amount > 0
    ensures r.Ok? ==> after.status.Active? && after.claimDeadline.None?
  {
    var previous := ValidateChannel(before);
    if previous.Err? then Err(previous.error)
    else if before.status.Active? && !before.policy.allowTopUp then Err(TopUpForbidden)
    else if !(before.status.Active? || before.status.Funding?) then Err(FundingLifecycleForbidden)
    else if !event.wellFormed || event.amount > U64_MAX then Err(MalformedFunding)
    else if event.amount == 0 then Err(ZeroFunding)
    else if event.totalAfter > U64_MAX then Err(MalformedFunding)
    else if event.totalAfter != before.funded + event.amount then Err(FundingTotalMismatch)
    else
      var next := ValidateChannel(after);
      if next.Err? then Err(next.error)
      else if !after.status.Active? then Err(FundingStatusTransitionInvalid)
      else if event.channelId != after.identity.channelId || event.account != after.identity.account
              || event.mint != after.identity.mint then Err(FundingIdentityMismatch)
      else if !SameExceptFunding(before, after) then Err(FundingImmutableFieldChanged)
      else if event.totalAfter != after.funded then Err(FundingSnapshotMismatch)
      else if !(before.updatedAt <= event.observedAt <= after.updatedAt) then Err(FundingTimeOrderInvalid)
      else next
  }

  // ----- the same rules, state by state

  /** What holds of a valid snapshot whatever its state. */
  predicate ValidTotals(c: Channel)
  {
    && c.wellFormed && c.decimals <= 18 && c.funded <= U64_MAX
    && c.policy.wellFormed && 1 <= c.policy.minimumCloseGrace <= 31_536_000
      && c.policy.channelId == c.identity.channelId
    && c.settled <= c.activated <= c.policy.limit && c.activated + c.refunded <= c.funded
    && (c.sequence == 0 <==> c.activated == 0)
    && c.createdAt <= c.updatedAt && c.createdAt < c.expiresAt
  }

  /** A close in progress: requested during the channel's life, with the policy's full grace before the deadline. */
  predicate CloseInProgress(c: Channel)
  {
    && c.closeRequestedAt.Some? && c.claimDeadline.Some?
    && c.createdAt <= c.closeRequestedAt.value <= c.updatedAt
    && c.closeRequestedAt.value + c.policy.minimumCloseGrace <= c.claimDeadline.value
  }

  predicate NoClose(c: Channel) { c.closeRequestedAt.None? && c.claimDeadline.None? }

  predicate ValidFor(c: Channel)
  {
    match c.status
    case Draft => NoClose(c) && c.funded == 0
    case Funding => NoClose(c) && c.activated == 0 && c.refunded == 0 && c.updatedAt < c.expiresAt
    case Active => NoClose(c) && c.funded > 0 && c.updatedAt < c.expiresAt
    case Settling => NoClose(c) && c.funded > 0 && c.settled < c.activated && c.recipientWallet.Some?
    case Expired => NoClose(c) && c.settled == c.activated && c.expiresAt <= c.updatedAt
    case Closing => CloseInProgress(c) && c.funded > 0
    case Closed =>
      CloseInProgress(c) && c.settled == c.activated && c.funded == c.settled + c.refunded
        && c.claimDeadline.value <= c.updatedAt
    case _ => NoClose(c) || CloseInProgress(c)
  }

  lemma WindowIff(c: Channel)
    requires 1 <= c.policy.minimumCloseGrace
    ensures CheckCloseWindow(c).None? <==>
              if c.status.Closing? || c.status.Closed? then CloseInProgress(c)
              else if c.status in {Draft, Funding, Active, Settling, Expired} then NoClose(c)
              else NoClose(c) || CloseInProgress(c)
  {
  }

  lemma StatusIff(c: Channel)
    requires c.settled <= c.activated && c.activated + c.refunded <= c.funded && CheckCloseWindow(c).None?
    requires if c.status.Closing? || c.status.Closed? then CloseInProgress(c)
             else if c.status in {Draft, Funding, Active, Settling, Expired} then NoClose(c)
             else NoClose(c) || CloseInProgress(c)
    ensures CheckStatus(c).None? <==> ValidFor(c)
  {
  }

  /** A snapshot is accepted exactly when its totals are valid and it meets the rules of its state. */
  lemma ValidIff(c: Channel)
    ensures ValidateChannel(c).Ok? <==> ValidTotals(c) && ValidFor(c)
  {
    assert ValidTotals(c) <==>
             && CheckAmounts(c).None? && c.wellFormed && c.decimals <= 18
             && c.createdAt <= c.updatedAt && c.createdAt < c.expiresAt;
    if ValidTotals(c) {
      WindowIff(c);
      if CheckCloseWindow(c).None? {
        StatusIff(c);
      }
    }
  }

  /** A funding is accepted exactly when it adds its amount to F of a fundable channel and changes nothing else. */
  lemma FundingIff(before: Channel, event: FundingEvent, after: Channel)
    ensures ValidateFundingTransition(before, event, after).Ok?
            <==> && ValidateChannel(before).Ok? && ValidateChannel(after).Ok?
                 && (before.status.Funding? || (before.status.Active? && before.policy.allowTopUp))
                 && after.status.Active? && event.wellFormed && 0 < event.amount
                 && event.totalAfter == after.funded == before.funded + event.amount
                 && event.channelId == after.identity.channelId && event.account == after.identity.account
                 && event.mint == after.identity.mint
                 && SameExceptFunding(before, after)
                 && before.updatedAt <= event.observedAt <= after.updatedAt
  {
  }
}
