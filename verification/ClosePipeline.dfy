/**
 * Close request -> freeze -> refund request -> projection -> finalization.
 *
 * Clock readings given to RequestClose and MakeRefundRequest are microseconds, because these two
 * compare two readings with each other before writing them down in whole seconds.  Every other
 * clock reading is compared only with whole-second timestamps, so its whole seconds are enough.
 * A hash link to another artifact is represented by that artifact (hashing is collision-free).
 */
module ClosePipeline {
  import opened Tables
  import opened Channels

  const MICROS: int := 1_000_000

  /** strftime drops the sub-second part. */
  function WholeSeconds(micros: int): int { micros / MICROS }

  /** The states an economic operation can be reported in. */
  datatype OperationState =
    | Validated | ExecutionCommitted
    | Submitted | Confirming | Reconciling | InRecovery | InReview | InDispute
    | RejectedBeforeSubmission | FailedBeforeSubmission | CancelledBeforeAuthorization | Completed
    | Unrecognised(name: string)
  {
    predicate Ambiguous() { Submitted? || Confirming? || Reconciling? || InRecovery? || InReview? || InDispute? }
    predicate Releasing() {
      RejectedBeforeSubmission? || FailedBeforeSubmission? || CancelledBeforeAuthorization? || Completed?
    }
    predicate Supported() { Ambiguous() || Releasing() }
  }

  predicate AllSupported(states: seq<OperationState>) { forall i :: 0 <= i < |states| ==> states[i].Supported() }

  /** sum(state in AMBIGUOUS for state in states) */
  function CountAmbiguous(states: seq<OperationState>): (n: nat)
    ensures n == 0 <==> forall i :: 0 <= i < |states| ==> !states[i].Ambiguous()
  {
    if |states| == 0 then 0
    else CountAmbiguous(states[..|states| - 1]) + (if states[|states| - 1].Ambiguous() then 1 else 0)
  }

  datatype ClosePhase = ClaimWindow | ReadyToFinalize

  datatype ClosureRequest = ClosureRequest(
    wellFormed: bool, domain: Domain, channel: ChannelRef, closureId: string, idempotencyKey: string,
    snapshotOf: Channel, requestedAt: int, claimDeadline: int, requested: bool)

  datatype RequestSnapshot = RequestSnapshot(
    wellFormed: bool, request: ClosureRequest, domain: Domain, channel: ChannelRef, closureId: string,
    snapshotOf: Channel, requestedAt: int, claimDeadline: int,
    accounting: Accounting, sequence: nat, voucherHash: string,
    refundableBeforeDeadline: nat, status: Status, phase: ClosePhase)

  datatype FreezeSnapshot = FreezeSnapshot(
    wellFormed: bool, request: RequestSnapshot, domain: Domain, channel: ChannelRef, closureId: string,
    snapshotOf: Channel, accounting: Accounting, sequence: nat, voucherHash: string,
    claimDeadline: int, frozenAt: int, unresolved: nat, status: Status, phase: ClosePhase)

  datatype RefundReason = PostClaimWindowUnallocated | FinalClose | OtherReason(name: string)

  datatype RefundRequest = RefundRequest(
    wellFormed: bool, domain: Domain, channel: ChannelRef, closureId: string, refundId: string,
    idempotencyKey: string, reason: RefundReason, destination: string, requested: nat,
    freeze: FreezeSnapshot, createdAt: int, expiresAt: int)

  datatype RefundProjection = RefundProjection(
    reason: RefundReason, funded: nat, activated: nat, settled: nat,
    refundedBefore: nat, refundedAfter: nat, vaultBefore: nat, vaultAfter: nat,
    outstanding: nat, maximum: nat, requested: nat, projectedAt: int)

  datatype CloseRefusal =
    | InvalidChannel(why: ChannelRefusal)
    | CloseLifecycleForbidden | ClaimDeadlineNotFuture | GraceTooShort | MalformedArtifact
    | SnapshotLinkMismatch | InvalidClosureRequest | SnapshotLifecycleInvalid | SnapshotPhaseInvalid
    | PreDeadlineRefundForbidden | WindowInvalid | SnapshotUnlawful | SnapshotActivationInconsistent
    | ClaimWindowOpen | FreezeLifecycleForbidden | DeadlineMismatch | DomainMismatch
    | ChannelReferenceMismatch | FundingChangedDuringClose | RefundChangedDuringClaimWindow
    | SettledTotalDecreased | ActivatedTotalDecreased | ActivatedSequenceDecreased
    | ActivationTransitionInconsistent | UnsupportedOperationState
    | FreezeUnlawful | FreezePhaseInvalid
    | ClosureLinkMismatch | InvalidRefundReason | AmountMustBePositive | RefundRequestExpired
    | FreezeSnapshotMismatch | RefundDestinationSubstitution | RefundRequestNotStarted
    | UnresolvedEconomicOperation | OutstandingRightReserved | AmountOutOfRange
    | RefundExceedsUnallocated | RefundExceedsVault | FinalCloseRequiresFullVault
    | FinalizationLifecycleForbidden | VaultNotEmpty
    | PreviousChannelNotClosed | PreviousVaultNonzero | PreviousOutstandingNonzero

  datatype ClosureArtifacts = ClosureArtifacts(request: ClosureRequest, snapshot: RequestSnapshot)

  predicate ActivationIsEligible(now: int, claimDeadline: int) { now < claimDeadline }

  function RequestClose(c: Channel, closureId: string, idempotencyKey: string, idsOk: bool, now: int, deadline: int)
    : (r: Result<ClosureArtifacts, CloseRefusal>)
  {
    var projection := ValidateChannel(c);
    if projection.Err? then Err(InvalidChannel(projection.error))
    else if !c.status.Active? then Err(CloseLifecycleForbidden)
    else if deadline <= now then Err(ClaimDeadlineNotFuture)
    else if deadline - now < c.policy.minimumCloseGrace * MICROS then Err(GraceTooShort)
    else if !idsOk then Err(MalformedArtifact)
    else
      var request := ClosureRequest(true, c.domain, c.identity, closureId, idempotencyKey, c,
                                    WholeSeconds(now), WholeSeconds(deadline), true);
      Ok(ClosureArtifacts(request,
           RequestSnapshot(true, request, c.domain, c.identity, closureId, c,
                           request.requestedAt, request.claimDeadline,
                           projection.value, c.sequence, c.voucherHash, 0, Closing, ClaimWindow)))
  }

  function CheckRequestSnapshot(q: ClosureRequest, s: RequestSnapshot): (r: Option<CloseRefusal>)
    ensures r.None? ==> Lawful(s.accounting) && s.requestedAt < s.claimDeadline == q.claimDeadline
  {
    if !q.wellFormed || !s.wellFormed then Some(MalformedArtifact)
    else if s.request != q || s.domain != q.domain || s.channel != q.channel || s.closureId != q.closureId
            || s.snapshotOf != q.snapshotOf || s.requestedAt != q.requestedAt
            || s.claimDeadline != q.claimDeadline then Some(SnapshotLinkMismatch)
    else if !q.requested then Some(InvalidClosureRequest)
    else if !s.status.Closing? then Some(SnapshotLifecycleInvalid)
    else if !s.phase.ClaimWindow? then Some(SnapshotPhaseInvalid)
    else if s.refundableBeforeDeadline != 0 then Some(PreDeadlineRefundForbidden)
    else if s.claimDeadline <= s.requestedAt then Some(WindowInvalid)
    else if !Lawful(s.accounting) || s.accounting.funded > U64_MAX then Some(SnapshotUnlawful)
    else if (s.sequence == 0) != (s.accounting.activated == 0) then Some(SnapshotActivationInconsistent)
    else None
  }

  function FreezeClosure(q: ClosureRequest, s: RequestSnapshot, c: Channel, now: int, states: seq<OperationState>)
    : (r: Result<FreezeSnapshot, CloseRefusal>)
  {
    var bad := CheckRequestSnapshot(q, s);
    if bad.Some? then Err(bad.value)
    else if now < q.claimDeadline then Err(ClaimWindowOpen)
    else
      var projection := ValidateChannel(c);
      if projection.Err? then Err(InvalidChannel(projection.error))
      else if !c.status.Closing? then Err(FreezeLifecycleForbidden)
      else if c.claimDeadline.value != q.claimDeadline then Err(DeadlineMismatch)
      else if c.domain != q.domain then Err(DomainMismatch)
      else if c.identity != q.channel then Err(ChannelReferenceMismatch)
      else if c.funded != s.accounting.funded then Err(FundingChangedDuringClose)
      else if c.refunded != s.accounting.refunded then Err(RefundChangedDuringClaimWindow)
      else if c.settled < s.accounting.settled then Err(SettledTotalDecreased)
      else if c.activated < s.accounting.activated then Err(ActivatedTotalDecreased)
      else if c.sequence < s.sequence then Err(ActivatedSequenceDecreased)
      else if c.activated > s.accounting.activated && !(c.sequence > s.sequence) then
        Err(ActivationTransitionInconsistent)
      else if (c.sequence > s.sequence) != (c.voucherHash != s.voucherHash) then Err(ActivationTransitionInconsistent)
      else if !AllSupported(states) then Err(UnsupportedOperationState)
      else Ok(FreezeSnapshot(true, s, c.domain, c.identity, q.closureId, c, projection.value,
                             c.sequence, c.voucherHash, q.claimDeadline, now, CountAmbiguous(states),
                             Closing, ReadyToFinalize))
  }

  function CheckFreezeSnapshot(f: FreezeSnapshot): (r: Option<CloseRefusal>)
    ensures r.None? <==> WellFormedFreeze(f)
  {
    if !f.wellFormed then Some(MalformedArtifact)
    else if !Lawful(f.accounting) || f.accounting.funded > U64_MAX then Some(FreezeUnlawful)
    else if !f.status.Closing? then Some(FreezeLifecycleForbidden)
    else if !f.phase.ReadyToFinalize? then Some(FreezePhaseInvalid)
    else if f.frozenAt < f.claimDeadline then Some(ClaimWindowOpen)
    else None
  }

  predicate WellFormedFreeze(f: FreezeSnapshot)
  {
    && f.wellFormed && Lawful(f.accounting) && f.accounting.funded <= U64_MAX
    && f.status.Closing? && f.phase.ReadyToFinalize? && f.claimDeadline <= f.frozenAt
  }

  /** `now` and `expiresAt` are microseconds. */
  function MakeRefundRequest(q: ClosureRequest, f: FreezeSnapshot, refundId: string, idempotencyKey: string,
                             idsOk: bool, reason: RefundReason, requested: int, now: int, expiresAt: int)
    : (r: Result<RefundRequest, CloseRefusal>)
  {
    if !q.wellFormed then Err(MalformedArtifact)
    else
      var bad := CheckFreezeSnapshot(f);
      if bad.Some? then Err(bad.value)
      else if f.closureId != q.closureId then Err(ClosureLinkMismatch)
      else if f.domain != q.domain then Err(DomainMismatch)
      else if f.channel != q.channel then Err(ChannelReferenceMismatch)
      else if reason.OtherReason? then Err(InvalidRefundReason)
      else if requested <= 0 then Err(AmountMustBePositive)
      else if expiresAt <= now then Err(RefundRequestExpired)
      else if !idsOk then Err(MalformedArtifact)
      else Ok(RefundRequest(true, q.domain, q.channel, q.closureId, refundId, idempotencyKey, reason,
                            q.channel.sender, requested, f, WholeSeconds(now), WholeSeconds(expiresAt)))
  }

  /** Does the request name this freeze, channel, closure and the channel's sender? */
  function CheckRefundLinks(q: RefundRequest, f: FreezeSnapshot): (r: Option<CloseRefusal>)
    ensures r.None? ==> WellFormedFreeze(f)
    ensures r.None? ==> q.freeze == f && q.channel == f.channel && q.closureId == f.closureId
                        && q.destination == f.channel.sender
  {
    if !q.wellFormed then Some(MalformedArtifact)
    else
      var bad := CheckFreezeSnapshot(f);
      if bad.Some? then bad
      else if q.freeze != f then Some(FreezeSnapshotMismatch)
      else if q.domain != f.domain then Some(DomainMismatch)
      else if q.channel != f.channel then Some(ChannelReferenceMismatch)
      else if q.closureId != f.closureId then Some(ClosureLinkMismatch)
      else if q.destination != f.channel.sender then Some(RefundDestinationSubstitution)
      else None
  }

  /** Is the clock inside the request's window, past the deadline, with nothing unresolved? */
  function CheckRefundTiming(q: RefundRequest, f: FreezeSnapshot, now: int, states: seq<OperationState>)
    : (r: Option<CloseRefusal>)
    ensures r.None? <==> f.claimDeadline <= now && q.createdAt <= now < q.expiresAt && AllSupported(states)
                         && f.unresolved == 0 && CountAmbiguous(states) == 0
  {
    if now < f.claimDeadline then Some(ClaimWindowOpen)
    else if now >= q.expiresAt then Some(RefundRequestExpired)
    else if now < q.createdAt then Some(RefundRequestNotStarted)
    else if !AllSupported(states) then Some(UnsupportedOperationState)
    else if f.unresolved != 0 || CountAmbiguous(states) != 0 then Some(UnresolvedEconomicOperation)
    else None
  }

  /**
   * Projects a refund.  Applying an accepted projection keeps the law, never touches A - S, and after a
   * final close leaves an empty vault with every activated right settled.
   */
  function ProjectRefund(q: RefundRequest, f: FreezeSnapshot, now: int, states: seq<OperationState>)
    : (r: Result<RefundProjection, CloseRefusal>)
    ensures r.Ok? ==> CheckRefundLinks(q, f).None? && CheckRefundTiming(q, f, now, states).None?
    ensures r.Ok? ==> ProjectionOf(r.value, f) && r.value.requested == q.requested && r.value.reason == q.reason
    ensures r.Ok? ==> r.value.outstanding == f.accounting.outstanding && r.value.projectedAt == now
    ensures r.Ok? && q.reason.FinalClose? ==> r.value.vaultAfter == 0 && r.value.activated == r.value.settled
  {
    var a := f.accounting;
    var links := CheckRefundLinks(q, f);
    if links.Some? then Err(links.value)
    else
      var timing := CheckRefundTiming(q, f, now, states);
      if timing.Some? then Err(timing.value)
      else
        var outstanding := a.activated - a.settled;
        var maximum := a.funded - a.refunded - a.activated;
        if q.reason.OtherReason? then Err(InvalidRefundReason)
        else if q.reason.FinalClose? && outstanding != 0 then Err(OutstandingRightReserved)
        else if q.requested == 0 then Err(AmountMustBePositive)
        else if q.requested > U64_MAX then Err(AmountOutOfRange)
        else if q.requested > maximum then Err(RefundExceedsUnallocated)
        else if q.requested > a.vault then Err(RefundExceedsVault)
        else if q.reason.FinalClose? && q.requested != a.vault then Err(FinalCloseRequiresFullVault)
        else Ok(RefundProjection(q.reason, a.funded, a.activated, a.settled,
                                 a.refunded, a.refunded + q.requested, a.vault, a.vault - q.requested,
                                 outstanding, maximum, q.requested, now))
  }

  /** What a projection promises about the snapshot it was computed from. */
  predicate ProjectionOf(p: RefundProjection, f: FreezeSnapshot)
  {
    && WellFormedFreeze(f)
    && p.funded == f.accounting.funded && p.activated == f.accounting.activated
    && p.settled == f.accounting.settled && p.refundedBefore == f.accounting.refunded
    && p.vaultBefore == f.accounting.vault
    && SoundProjection(p)
  }

  /** The arithmetic a projection satisfies on its own. */
  predicate SoundProjection(p: RefundProjection)
  {
    && 0 < p.requested <= p.maximum
    && p.refundedAfter == p.refundedBefore + p.requested
    && p.vaultBefore == p.vaultAfter + p.requested
    && p.refundedBefore + p.maximum == p.funded - p.activated
    && p.funded == p.vaultAfter + p.settled + p.refundedAfter
    && p.settled <= p.activated
  }

  /** May a closing channel be finalized? */
  function ValidateFinalization(c: Channel, f: FreezeSnapshot, now: int, states: seq<OperationState>)
    : (r: Option<CloseRefusal>)
    ensures r.None? ==> ValidateChannel(c).Ok? && c.activated == c.settled && c.funded == c.settled + c.refunded
  {
    var bad := CheckFreezeSnapshot(f);
    if bad.Some? then bad
    else
      var projection := ValidateChannel(c);
      if projection.Err? then Some(InvalidChannel(projection.error))
      else if !c.status.Closing? then Some(FinalizationLifecycleForbidden)
      else if now < c.claimDeadline.value then Some(ClaimWindowOpen)
      else if projection.value.outstanding != 0 then Some(OutstandingRightReserved)
      else if projection.value.vault != 0 then Some(VaultNotEmpty)
      else if f.channel != c.identity then Some(ChannelReferenceMismatch)
      else if f.unresolved != 0 then Some(UnresolvedEconomicOperation)
      else if !AllSupported(states) then Some(UnsupportedOperationState)
      else if CountAmbiguous(states) != 0 then Some(UnresolvedEconomicOperation)
      else None
  }

  /** The opening state of the next epoch: every total and counter starts again from zero. */
  datatype EpochEligibility = EpochEligibility(
    previous: ChannelRef, nextEpoch: nat, funded: nat, activated: nat, settled: nat, refunded: nat, sequence: nat,
    evaluatedAt: int)

  function EpochTransition(c: Channel, hashOk: bool, unresolved: int, now: int)
    : (r: Result<EpochEligibility, CloseRefusal>)
  {
    var projection := ValidateChannel(c);
    if projection.Err? then Err(InvalidChannel(projection.error))
    else if !c.status.Closed? then Err(PreviousChannelNotClosed)
    else if projection.value.vault != 0 then Err(PreviousVaultNonzero)
    else if projection.value.outstanding != 0 then Err(PreviousOutstandingNonzero)
    else if unresolved != 0 then Err(UnresolvedEconomicOperation)
    else if !hashOk then Err(MalformedArtifact)
    else Ok(EpochEligibility(c.identity, c.identity.epoch + 1, 0, 0, 0, 0, 0, now))
  }
}
