/** The snapshot validators and the close pipeline refuse for reasons that are so; and what they make. */
module CloseAnswers {
  import opened Tables
  import opened Channels
  import opened ClosePipeline

  // ----- channel snapshots

  /** The reason is so of the snapshot's amounts, policy and times. */
  predicate SoOfAmounts(why: ChannelRefusal, c: Channel)
  {
    match why
    case MalformedChannel =>
      !c.wellFormed || c.decimals > 18
      || c.funded > U64_MAX || c.activated > U64_MAX || c.settled > U64_MAX || c.refunded > U64_MAX
    case MalformedPolicy => !c.policy.wellFormed || !(1 <= c.policy.minimumCloseGrace <= 31_536_000)
    case PolicyChannelMismatch => c.policy.channelId != c.identity.channelId
    case RefundExceedsFunding => c.funded < c.refunded
    case AuthorizationExceedsCapacity => c.funded < c.activated + c.refunded
    case AuthorizationExceedsPolicy => c.policy.limit < c.activated
    case SettlementExceedsAuthorization => c.activated < c.settled
    case ActivationStateInconsistent => !(c.sequence == 0 <==> c.activated == 0)
    case TimeOrderInvalid => c.updatedAt < c.createdAt || c.expiresAt <= c.createdAt
    case _ => false
  }

  /** The reason is so of the close timestamps. */
  predicate SoOfWindow(why: ChannelRefusal, c: Channel)
  {
    var both := c.closeRequestedAt.Some? && c.claimDeadline.Some?;
    match why
    case ClosingFieldsIncomplete => !both && !NoClose(c)
    case ClosingFieldsRequired => NoClose(c) && (c.status.Closing? || c.status.Closed?)
    case ClosingFieldsForbidden => both && c.status in {Draft, Funding, Active, Settling, Expired}
    case CloseSnapshotOrderInvalid => both && !(c.createdAt <= c.closeRequestedAt.value <= c.updatedAt)
    case CloseWindowInvalid => both && c.claimDeadline.value <= c.closeRequestedAt.value
    case CloseGraceTooShort =>
      both && c.claimDeadline.value < c.closeRequestedAt.value + c.policy.minimumCloseGrace
    case _ => false
  }

  /** The reason is so of what the lifecycle state demands. */
  predicate SoOfStatus(why: ChannelRefusal, c: Channel)
  {
    match why
    case DraftAccountingNonzero => c.status.Draft? && c.funded + c.activated + c.settled + c.refunded > 0
    case FundingAccountingInvalid => c.status.Funding? && c.activated + c.settled + c.refunded > 0
    case FundingRequired => c.status in {Active, Settling, Closing} && c.funded == 0
    case ChannelExpiryTransitionRequired => c.status in {Funding, Active} && c.expiresAt <= c.updatedAt
    case SettlementWalletRequired => c.status.Settling? && c.recipientWallet.None?
    case SettlementRightRequired => c.status.Settling? && c.activated <= c.settled
    case ExpiryNotReached => c.status.Expired? && c.updatedAt < c.expiresAt
    case ExpiredOutstandingRight => c.status.Expired? && c.activated != c.settled
    case ClosedOutstandingRight => c.status.Closed? && c.activated != c.settled
    case ClosedVaultNonzero => c.status.Closed? && c.funded != c.settled + c.refunded
    case ClosedBeforeClaimDeadline =>
      c.status.Closed? && c.claimDeadline.Some? && c.updatedAt < c.claimDeadline.value
    case _ => false
  }

  predicate SoOfChannel(why: ChannelRefusal, c: Channel)
  {
    SoOfAmounts(why, c) || SoOfWindow(why, c) || SoOfStatus(why, c)
  }

  /** A snapshot is only ever refused for something that is wrong with it. */
  lemma ChannelRefusedForReason(c: Channel)
    ensures ValidateChannel(c).Err? ==> SoOfChannel(ValidateChannel(c).error, c)
  {
    if c.wellFormed && c.decimals <= 18 && CheckAmounts(c).None? {
      assert CheckCloseWindow(c).Some? ==> SoOfWindow(CheckCloseWindow(c).value, c);
      if CheckCloseWindow(c).None? {
        assert CheckStatus(c).Some? ==> SoOfStatus(CheckStatus(c).value, c);
      }
    } else {
      assert CheckAmounts(c).Some? ==> SoOfAmounts(CheckAmounts(c).value, c);
    }
  }

  predicate SoOfFunding(why: ChannelRefusal, before: Channel, event: FundingEvent, after: Channel)
  {
    match why
    case TopUpForbidden => before.status.Active? && !before.policy.allowTopUp
    case FundingLifecycleForbidden => !before.status.Active? && !before.status.Funding?
    case MalformedFunding => !event.wellFormed || event.amount > U64_MAX || event.totalAfter > U64_MAX
    case ZeroFunding => event.amount == 0
    case FundingTotalMismatch => event.totalAfter != before.funded + event.amount
    case FundingStatusTransitionInvalid => !after.status.Active?
    case FundingIdentityMismatch =>
      (event.channelId, event.account, event.mint)
        != (after.identity.channelId, after.identity.account, after.identity.mint)
    case FundingImmutableFieldChanged =>
      after != before.(funded := after.funded, status := after.status, updatedAt := after.updatedAt,
                       closeRequestedAt := after.closeRequestedAt, claimDeadline := after.claimDeadline,
                       wellFormed := after.wellFormed)
    case FundingSnapshotMismatch => event.totalAfter != after.funded
    case FundingTimeOrderInvalid => event.observedAt < before.updatedAt || after.updatedAt < event.observedAt
    case _ => false
  }

  /** A funding is refused because one of the two snapshots is invalid, or because of what it does to them. */
  lemma FundingRefusedForReason(before: Channel, event: FundingEvent, after: Channel)
    ensures var r := ValidateFundingTransition(before, event, after);
            r.Err? ==> SoOfChannel(r.error, before) || SoOfChannel(r.error, after)
                       || SoOfFunding(r.error, before, event, after)
  {
    ChannelRefusedForReason(before);
    ChannelRefusedForReason(after);
  }

  /** An accepted funding leaves everything but F, the status and the times of the channel as it was. */
  lemma FundingChangesOnly(before: Channel, event: FundingEvent, after: Channel)
    requires ValidateFundingTransition(before, event, after).Ok?
    ensures after == before.(funded := before.funded + event.amount, status := Active, updatedAt := after.updatedAt)
  {
    ValidIff(before);
    ValidIff(after);
  }

  // ----- close request

  predicate SoOfRequest(why: CloseRefusal, c: Channel, idsOk: bool, now: int, deadline: int)
  {
    match why
    case InvalidChannel(reason) => ValidateChannel(c) == Err(reason)
    case CloseLifecycleForbidden => !c.status.Active?
    case ClaimDeadlineNotFuture => deadline <= now
    case GraceTooShort => deadline < now + c.policy.minimumCloseGrace * MICROS
    case MalformedArtifact => !idsOk
    case _ => false
  }

  /** What a close request records: the channel as it stands, its ids, and both readings in whole seconds. */
  lemma RequestMakes(c: Channel, closureId: string, key: string, idsOk: bool, now: int, deadline: int)
    ensures RequestClose(c, closureId, key, idsOk, now, deadline).Err? ==>
              SoOfRequest(RequestClose(c, closureId, key, idsOk, now, deadline).error, c, idsOk, now, deadline)
    ensures RequestClose(c, closureId, key, idsOk, now, deadline).Ok? ==>
              var made := RequestClose(c, closureId, key, idsOk, now, deadline).value;
              && made.request.closureId == closureId && made.request.idempotencyKey == key
              && made.request.domain == c.domain && made.request.channel == c.identity && made.request.snapshotOf == c
              && made.request.requestedAt * MICROS <= now < (made.request.requestedAt + 1) * MICROS
              && made.request.claimDeadline * MICROS <= deadline < (made.request.claimDeadline + 1) * MICROS
              && ValidateChannel(c) == Ok(made.snapshot.accounting)
              && made.snapshot.sequence == c.sequence && made.snapshot.voucherHash == c.voucherHash
              && made.snapshot.request == made.request && made.snapshot.refundableBeforeDeadline == 0
  {
  }

  predicate SoOfRequestSnapshot(why: CloseRefusal, q: ClosureRequest, s: RequestSnapshot)
  {
    match why
    case MalformedArtifact => !q.wellFormed || !s.wellFormed
    case SnapshotLinkMismatch => !Links(q, s)
    case InvalidClosureRequest => !q.requested
    case SnapshotLifecycleInvalid => !s.status.Closing?
    case SnapshotPhaseInvalid => !s.phase.ClaimWindow?
    case PreDeadlineRefundForbidden => s.refundableBeforeDeadline != 0
    case WindowInvalid => s.claimDeadline <= s.requestedAt
    case SnapshotUnlawful => !Lawful(s.accounting) || s.accounting.funded > U64_MAX
    case SnapshotActivationInconsistent => !(s.sequence == 0 <==> s.accounting.activated == 0)
    case _ => false
  }

  /** The snapshot repeats everything the request says. */
  predicate Links(q: ClosureRequest, s: RequestSnapshot)
  {
    && s.request == q && s.snapshotOf == q.snapshotOf
    && s.domain == q.domain && s.channel == q.channel && s.closureId == q.closureId
    && s.requestedAt == q.requestedAt && s.claimDeadline == q.claimDeadline
  }

  /** Exactly which request snapshots are accepted. */
  lemma RequestSnapshotIff(q: ClosureRequest, s: RequestSnapshot)
    ensures CheckRequestSnapshot(q, s).None? <==>
              && q.wellFormed && s.wellFormed && q.requested && Links(q, s)
              && s.status.Closing? && s.phase.ClaimWindow? && s.refundableBeforeDeadline == 0
              && s.requestedAt < s.claimDeadline && Lawful(s.accounting) && s.accounting.funded <= U64_MAX
              && (s.sequence == 0 <==> s.accounting.activated == 0)
    ensures CheckRequestSnapshot(q, s).Some? ==> SoOfRequestSnapshot(CheckRequestSnapshot(q, s).value, q, s)
  {
  }

  // ----- freeze

  predicate SoOfFreeze(why: CloseRefusal, q: ClosureRequest, s: RequestSnapshot, c: Channel, now: int,
                       states: seq<OperationState>)
  {
    match why
    case InvalidChannel(reason) => ValidateChannel(c) == Err(reason)
    case ClaimWindowOpen => now < q.claimDeadline
    case FreezeLifecycleForbidden => !c.status.Closing?
    case DeadlineMismatch => c.claimDeadline != Some(q.claimDeadline)
    case DomainMismatch => c.domain != q.domain
    case ChannelReferenceMismatch => c.identity != q.channel
    case FundingChangedDuringClose => c.funded != s.accounting.funded
    case RefundChangedDuringClaimWindow => c.refunded != s.accounting.refunded
    case SettledTotalDecreased => c.settled < s.accounting.settled
    case ActivatedTotalDecreased => c.activated < s.accounting.activated
    case ActivatedSequenceDecreased => c.sequence < s.sequence
    case ActivationTransitionInconsistent =>
      || (s.accounting.activated < c.activated && c.sequence <= s.sequence)
      || !(s.sequence < c.sequence <==> c.voucherHash != s.voucherHash)
    case UnsupportedOperationState => exists i :: 0 <= i < |states| && !states[i].Supported()
    case _ => false
  }

  /** What a freeze records: the channel as it stands at the deadline or later, and how much is still unresolved. */
  lemma FreezeMakes(q: ClosureRequest, s: RequestSnapshot, c: Channel, now: int, states: seq<OperationState>)
    requires FreezeClosure(q, s, c, now, states).Ok?
    ensures var f := FreezeClosure(q, s, c, now, states).value;
            && f.request == s && f.closureId == q.closureId && f.claimDeadline == q.claimDeadline
            && f.domain == c.domain && f.channel == c.identity && f.snapshotOf == c
            && ValidateChannel(c) == Ok(f.accounting) && f.sequence == c.sequence && f.voucherHash == c.voucherHash
            && f.frozenAt == now && f.unresolved == CountAmbiguous(states)
  {
  }

  lemma FreezeRefusedForReason(q: ClosureRequest, s: RequestSnapshot, c: Channel, now: int,
                               states: seq<OperationState>)
    ensures FreezeClosure(q, s, c, now, states).Err? ==>
              || SoOfRequestSnapshot(FreezeClosure(q, s, c, now, states).error, q, s)
              || SoOfFreeze(FreezeClosure(q, s, c, now, states).error, q, s, c, now, states)
  {
    RequestSnapshotIff(q, s);
  }

  /** Unresolved operations are counted one by one. */
  lemma {:induction false} AmbiguousAreCounted(states: seq<OperationState>)
    ensures CountAmbiguous(states) == |set i | 0 <= i < |states| && states[i].Ambiguous()|
  {
    var ambiguous := set i | 0 <= i < |states| && states[i].Ambiguous();
    if |states| > 0 {
      var last := |states| - 1;
      var before := set i | 0 <= i < last && states[..last][i].Ambiguous();
      AmbiguousAreCounted(states[..last]);
      assert ambiguous == if states[last].Ambiguous() then before + {last} else before;
    }
  }

  predicate SoOfFrozen(why: CloseRefusal, f: FreezeSnapshot)
  {
    match why
    case MalformedArtifact => !f.wellFormed
    case FreezeUnlawful => !Lawful(f.accounting) || f.accounting.funded > U64_MAX
    case FreezeLifecycleForbidden => !f.status.Closing?
    case FreezePhaseInvalid => !f.phase.ReadyToFinalize?
    case ClaimWindowOpen => f.frozenAt < f.claimDeadline
    case _ => false
  }

  lemma FrozenRefusedForReason(f: FreezeSnapshot)
    ensures CheckFreezeSnapshot(f).Some? ==> SoOfFrozen(CheckFreezeSnapshot(f).value, f)
  {
  }

  // ----- refund request and projection

  predicate SoOfRefundRequest(why: CloseRefusal, q: ClosureRequest, f: FreezeSnapshot, idsOk: bool,
                              reason: RefundReason, amount: int, now: int, expiresAt: int)
  {
    match why
    case MalformedArtifact => !q.wellFormed || !f.wellFormed || !idsOk
    case ClosureLinkMismatch => f.closureId != q.closureId
    case DomainMismatch => f.domain != q.domain
    case ChannelReferenceMismatch => f.channel != q.channel
    case InvalidRefundReason => reason.OtherReason?
    case AmountMustBePositive => amount <= 0
    case RefundRequestExpired => expiresAt <= now
    case _ => false
  }

  /** What a refund request asks: this amount, out of this freeze, to the channel's sender, in whole seconds. */
  lemma RefundRequestMakes(q: ClosureRequest, f: FreezeSnapshot, id: string, key: string, idsOk: bool,
                           reason: RefundReason, amount: int, now: int, expiresAt: int)
    requires MakeRefundRequest(q, f, id, key, idsOk, reason, amount, now, expiresAt).Ok?
    ensures var r := MakeRefundRequest(q, f, id, key, idsOk, reason, amount, now, expiresAt).value;
            && r.refundId == id && r.idempotencyKey == key && r.reason == reason && r.requested == amount
            && r.freeze == f && r.closureId == q.closureId && r.domain == q.domain && r.channel == q.channel
            && r.destination == q.channel.sender
            && r.createdAt * MICROS <= now < (r.createdAt + 1) * MICROS
            && r.expiresAt * MICROS <= expiresAt < (r.expiresAt + 1) * MICROS
  {
  }

  /** Exactly which refund requests are made. */
  lemma RefundRequestIff(q: ClosureRequest, f: FreezeSnapshot, id: string, key: string, idsOk: bool,
                         reason: RefundReason, amount: int, now: int, expiresAt: int)
    ensures var r := MakeRefundRequest(q, f, id, key, idsOk, reason, amount, now, expiresAt);
            && (r.Ok? <==>
                  && q.wellFormed && idsOk && WellFormedFreeze(f)
                  && now < expiresAt && !reason.OtherReason? && amount > 0
                  && f.closureId == q.closureId && f.domain == q.domain && f.channel == q.channel)
            && (r.Err? ==> || SoOfFrozen(r.error, f)
                           || SoOfRefundRequest(r.error, q, f, idsOk, reason, amount, now, expiresAt))
  {
    FrozenRefusedForReason(f);
  }

  predicate SoOfLinks(why: CloseRefusal, q: RefundRequest, f: FreezeSnapshot)
  {
    match why
    case MalformedArtifact => !q.wellFormed || !f.wellFormed
    case FreezeSnapshotMismatch => q.freeze != f
    case DomainMismatch => q.domain != f.domain
    case ChannelReferenceMismatch => q.channel != f.channel
    case ClosureLinkMismatch => q.closureId != f.closureId
    case RefundDestinationSubstitution => q.destination != f.channel.sender
    case _ => false
  }

  predicate SoOfTiming(why: CloseRefusal, q: RefundRequest, f: FreezeSnapshot, now: int, states: seq<OperationState>)
  {
    match why
    case ClaimWindowOpen => now < f.claimDeadline
    case RefundRequestExpired => q.expiresAt <= now
    case RefundRequestNotStarted => now < q.createdAt
    case UnsupportedOperationState => exists i :: 0 <= i < |states| && !states[i].Supported()
    case UnresolvedEconomicOperation => f.unresolved != 0 || exists i :: 0 <= i < |states| && states[i].Ambiguous()
    case _ => false
  }

  predicate SoOfAmount(why: CloseRefusal, q: RefundRequest, a: Accounting)
  {
    match why
    case InvalidRefundReason => q.reason.OtherReason?
    case OutstandingRightReserved => q.reason.FinalClose? && a.settled != a.activated
    case AmountMustBePositive => q.requested == 0
    case AmountOutOfRange => q.requested > U64_MAX
    case RefundExceedsUnallocated => a.funded < a.refunded + a.activated + q.requested
    case RefundExceedsVault => a.vault < q.requested
    case FinalCloseRequiresFullVault => q.reason.FinalClose? && q.requested != a.vault
    case _ => false
  }

  /** Links hold exactly for the freeze, channel and sender the request names. */
  lemma LinksIff(q: RefundRequest, f: FreezeSnapshot)
    ensures CheckRefundLinks(q, f).None? <==>
              && q.wellFormed && WellFormedFreeze(f) && q.freeze == f && q.destination == f.channel.sender
              && q.domain == f.domain && q.channel == f.channel && q.closureId == f.closureId
    ensures CheckRefundLinks(q, f).Some? ==>
              SoOfLinks(CheckRefundLinks(q, f).value, q, f) || SoOfFrozen(CheckRefundLinks(q, f).value, f)
  {
    FrozenRefusedForReason(f);
  }

  lemma TimingRefusedForReason(q: RefundRequest, f: FreezeSnapshot, now: int, states: seq<OperationState>)
    ensures CheckRefundTiming(q, f, now, states).Some? ==>
              SoOfTiming(CheckRefundTiming(q, f, now, states).value, q, f, now, states)
  {
  }

  /** A projection is refused for the request's links, the time or the amount, whichever is wrong. */
  lemma ProjectionRefusedForReason(q: RefundRequest, f: FreezeSnapshot, now: int, states: seq<OperationState>)
    ensures var r := ProjectRefund(q, f, now, states);
            r.Err? ==> || SoOfFrozen(r.error, f) || SoOfLinks(r.error, q, f)
                       || SoOfTiming(r.error, q, f, now, states) || SoOfAmount(r.error, q, f.accounting)
  {
    LinksIff(q, f);
    TimingRefusedForReason(q, f, now, states);
  }

  // ----- finalization and the next epoch

  /** Exactly which channels finalize: closing past the deadline, with nothing owed, held or unresolved. */
  lemma FinalizationIff(c: Channel, f: FreezeSnapshot, now: int, states: seq<OperationState>)
    ensures ValidateFinalization(c, f, now, states).None? <==>
              && WellFormedFreeze(f) && ValidateChannel(c).Ok? && c.status.Closing? && c.claimDeadline.Some?
              && c.claimDeadline.value <= now && c.activated == c.settled && c.funded == c.settled + c.refunded
              && f.channel == c.identity && f.unresolved == 0
              && forall i :: 0 <= i < |states| ==> states[i].Releasing()
  {
  }

  lemma FinalizationRefusedForReason(c: Channel, f: FreezeSnapshot, now: int, states: seq<OperationState>)
    ensures ValidateFinalization(c, f, now, states).Some? ==>
              || SoOfFrozen(ValidateFinalization(c, f, now, states).value, f)
              || SoOfFinalization(ValidateFinalization(c, f, now, states).value, c, f, now, states)
  {
    FrozenRefusedForReason(f);
  }

  predicate SoOfFinalization(why: CloseRefusal, c: Channel, f: FreezeSnapshot, now: int, states: seq<OperationState>)
  {
    match why
    case InvalidChannel(reason) => ValidateChannel(c) == Err(reason)
    case FinalizationLifecycleForbidden => !c.status.Closing?
    case ClaimWindowOpen => c.claimDeadline.Some? && now < c.claimDeadline.value
    case OutstandingRightReserved => c.activated != c.settled
    case VaultNotEmpty => c.funded != c.settled + c.refunded
    case ChannelReferenceMismatch => f.channel != c.identity
    case UnresolvedEconomicOperation => f.unresolved != 0 || exists i :: 0 <= i < |states| && states[i].Ambiguous()
    case UnsupportedOperationState => exists i :: 0 <= i < |states| && !states[i].Supported()
    case _ => false
  }

  predicate SoOfEpoch(why: CloseRefusal, c: Channel, hashOk: bool, unresolved: int)
  {
    match why
    case InvalidChannel(reason) => ValidateChannel(c) == Err(reason)
    case PreviousChannelNotClosed => !c.status.Closed?
    case UnresolvedEconomicOperation => unresolved != 0
    case MalformedArtifact => !hashOk
    case _ => false
  }

  lemma EpochRefusedForReason(c: Channel, hashOk: bool, unresolved: int, now: int)
    ensures EpochTransition(c, hashOk, unresolved, now).Err? ==>
              SoOfEpoch(EpochTransition(c, hashOk, unresolved, now).error, c, hashOk, unresolved)
  {
  }
}
