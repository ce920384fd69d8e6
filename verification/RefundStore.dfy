/**
 * What one call of the refund journal does to its two tables.
 *
 * Each call is one BEGIN IMMEDIATE transaction.  A refused call leaves the tables as they were, except
 * that a reconciliation finding an overlap or a mismatch commits `InReview` and then raises.
 */
module RefundStore {
  import opened Tables
  import opened Journals
  import opened Channels
  import opened ClosePipeline

  datatype Commitment = Commitment(
    wellFormed: bool, request: RefundRequest, projection: RefundProjection, executionRequestId: string,
    executionCommitmentHash: string, executorId: string, expiresAt: int)

  datatype TechnicalOutcome = Accepted | Rejected | Unknown | OtherOutcome

  datatype TechnicalReceipt = TechnicalReceipt(
    wellFormed: bool, refundId: string, request: RefundRequest, executionRequestId: string,
    executionCommitmentHash: string, outcome: TechnicalOutcome, signatureStatus: SignatureStatus,
    signature: Option<string>)

  datatype SignatureStatus = SignatureKnown | SignatureUnknown | OtherSignatureStatus

  datatype Observation = Observation(
    wellFormed: bool, domain: Domain, channelId: string, account: string, epoch: nat, mint: string,
    destination: string, refundId: string, request: RefundRequest, projection: RefundProjection,
    signature: string, funded: nat, activated: nat, settled: nat,
    refundedBefore: nat, refundedAfter: nat, vaultBefore: nat, vaultAfter: nat)

  datatype RefundRow = RefundRow(
    refundId: string, request: RefundRequest, projection: RefundProjection, state: OperationState,
    commitment: Option<Commitment>, submitIntents: nat, receipt: Option<TechnicalReceipt>,
    signature: Option<string>, reconciled: Option<Observation>, updatedAt: int)

  /** The (channel, epoch, closure) a refund draws its capacity from. */
  datatype Scope = Scope(channelId: string, epoch: nat, closureId: string)

  function ScopeOf(q: RefundRequest): Scope { Scope(q.channel.channelId, q.channel.epoch, q.closureId) }

  datatype Store = Store(refunds: seq<RefundRow>, events: map<string, seq<Entry<OperationState>>>)

  const EMPTY := Store([], map[])

  datatype Refusal =
    | ProjectionRefused(why: CloseRefusal)
    | IdempotencyConflict | StaleFreezeSnapshot | AggregateRefundExceedsUnallocated | IntegerOverflow
    | MalformedCommitment | CommitmentExpired | CommitmentConflict | CommitmentStateInvalid | CommitmentMismatch
    | SubmitStateInvalid
    | MalformedReceipt | ReceiptConflict | ReceiptStateInvalid | SubmitIntentMissing | ReceiptMismatch
    | InvalidOutcome | InvalidSignatureStatus | SignatureMissing | InvalidTransactionSignature
    | AcceptedSignatureUnknown
    | MalformedObservation | ObservationUnverified | ReconciliationStateInvalid
    | OverlappingRefundInterval | ReconciliationMismatch | ReconciliationSignatureMismatch
    | RecoveredSignatureMissing | RecoverySignatureConflict | RecoveryStateInvalid
    | DivergenceUnproven | DivergenceStateInvalid
    | InvalidReleaseState | ReleaseAfterSubmissionForbidden
    | RefundNotFound

  datatype Reply = Record(row: RefundRow) | Refused(why: Refusal)

  datatype Call =
    | Register(request: RefundRequest, freeze: FreezeSnapshot, operations: seq<OperationState>, at: int)
    | Commit(id: string, commitment: Commitment, at: int)
    | RecordSubmitIntent(id: string, at: int)
    | RecordTechnicalReceipt(id: string, receipt: TechnicalReceipt, at: int)
    | Reconcile(id: string, observation: Observation, verified: bool, at: int)
    | RecordRecoveredSignature(id: string, signature: string, responseHashOk: bool, at: int)
    | RecordProviderDivergence(id: string, providers: set<string>, idsOk: bool, at: int)
    | ReleaseBeforeSubmission(id: string, target: OperationState, at: int)

  // ----- queries

  function HasId(id: string): RefundRow -> bool { (row: RefundRow) => row.refundId == id }

  /** refund_id = ? OR (channel_id = ? AND epoch = ? AND idempotency_key = ?) */
  function Collides(q: RefundRequest): RefundRow -> bool
  {
    (row: RefundRow) =>
      || row.refundId == q.refundId
      || (&& row.request.channel.channelId == q.channel.channelId && row.request.channel.epoch == q.channel.epoch
          && row.request.idempotencyKey == q.idempotencyKey)
  }

  function ReservedAmount(scope: Scope): RefundRow -> nat
  {
    (row: RefundRow) =>
      if ScopeOf(row.request) == scope && !row.state.Releasing() then row.projection.requested else 0
  }

  function CompletedAfter(scope: Scope): RefundRow -> nat
  {
    (row: RefundRow) =>
      if ScopeOf(row.request) == scope && row.state.Completed? then row.projection.refundedAfter else 0
  }

  function CompletedAmount(scope: Scope): RefundRow -> nat
  {
    (row: RefundRow) =>
      if ScopeOf(row.request) == scope && row.state.Completed? then row.projection.requested else 0
  }

  /** Requested amounts of the scope that are neither released nor completed. */
  function Reserved(s: Store, scope: Scope): nat { SumBy(s.refunds, ReservedAmount(scope)) }

  /** The largest refunded_after among completed refunds of the scope. */
  function HighWater(s: Store, scope: Scope): nat { MaxBy(s.refunds, CompletedAfter(scope)) }

  /** What the scope's completed refunds paid out. */
  function CompletedTotal(s: Store, scope: Scope): nat { SumBy(s.refunds, CompletedAmount(scope)) }

  function Find(s: Store, id: string): (i: nat)
    ensures i <= |s.refunds|
    ensures i < |s.refunds| ==> s.refunds[i].refundId == id
    ensures i == |s.refunds| ==> forall j :: 0 <= j < |s.refunds| ==> s.refunds[j].refundId != id
  {
    FirstIndex(s.refunds, HasId(id))
  }

  // ----- writes

  function History(s: Store, id: string): seq<Entry<OperationState>> { if id in s.events then s.events[id] else [] }

  /** `_event` */
  function Append(s: Store, id: string, state: OperationState, at: int): Store
  {
    s.(events := s.events[id := Extend(History(s, id), state, at)])
  }

  /** UPDATE one refund and journal its new state. */
  function Write(s: Store, i: nat, row: RefundRow, at: int): Store
    requires i < |s.refunds|
  {
    Append(s.(refunds := s.refunds[i := row.(updatedAt := at)]), s.refunds[i].refundId, row.state, at)
  }

  // ----- the calls

  function DoRegister(s: Store, q: RefundRequest, f: FreezeSnapshot, operations: seq<OperationState>, at: int)
    : (Store, Reply)
  {
    var projection := ProjectRefund(q, f, at, operations);
    if projection.Err? then (s, Refused(ProjectionRefused(projection.error)))
    else
      var p, scope, existing := projection.value, ScopeOf(q), FirstIndex(s.refunds, Collides(q));
      if existing < |s.refunds| then
        if s.refunds[existing].request != q then (s, Refused(IdempotencyConflict))
        else (s, Record(s.refunds[existing]))
      else if p.refundedBefore < HighWater(s, scope) then (s, Refused(StaleFreezeSnapshot))
      else if Reserved(s, scope) + p.requested > p.maximum then (s, Refused(AggregateRefundExceedsUnallocated))
      else if p.maximum > I64_MAX || p.refundedAfter > I64_MAX then (s, Refused(IntegerOverflow))
      else
        var row := RefundRow(q.refundId, q, p, Validated, None, 0, None, None, None, at);
        (Append(s.(refunds := s.refunds + [row]), q.refundId, Validated, at), Record(row))
  }

  function DoCommit(s: Store, id: string, c: Commitment, at: int): (Store, Reply)
  {
    var i := Find(s, id);
    if !c.wellFormed then (s, Refused(MalformedCommitment))
    else if at >= c.expiresAt then (s, Refused(CommitmentExpired))
    else if i == |s.refunds| then (s, Refused(RefundNotFound))
    else
      var row := s.refunds[i];
      if row.state.ExecutionCommitted? then
        if row.commitment != Some(c) then (s, Refused(CommitmentConflict)) else (s, Record(row))
      else if !row.state.Validated? then (s, Refused(CommitmentStateInvalid))
      else if c.request != row.request || c.projection != row.projection then (s, Refused(CommitmentMismatch))
      else
        var next := row.(state := ExecutionCommitted, commitment := Some(c));
        (Write(s, i, next, at), Record(next.(updatedAt := at)))
  }

  function DoSubmitIntent(s: Store, id: string, at: int): (Store, Reply)
  {
    var i := Find(s, id);
    if i == |s.refunds| then (s, Refused(RefundNotFound))
    else
      var row := s.refunds[i];
      if row.state in {Submitted, InRecovery, Reconciling, Completed} then (s, Record(row))
      else if !row.state.ExecutionCommitted? then (s, Refused(SubmitStateInvalid))
      else
        var next := row.(state := Submitted, submitIntents := 1);
        (Write(s, i, next, at), Record(next.(updatedAt := at)))
  }

  function CheckReceipt(row: RefundRow, r: TechnicalReceipt): (bad: Option<Refusal>)
    ensures bad.None? && r.outcome.Accepted? ==> r.signature.Some? && r.signature.value != ""
  {
    if !row.state.Submitted? then Some(ReceiptStateInvalid)
    else if row.submitIntents != 1 then Some(SubmitIntentMissing)
    else if r.refundId != row.refundId || r.request != row.request || row.commitment.None?
            || r.executionRequestId != row.commitment.value.executionRequestId
            || r.executionCommitmentHash != row.commitment.value.executionCommitmentHash then Some(ReceiptMismatch)
    else if r.outcome.OtherOutcome? then Some(InvalidOutcome)
    else if r.signatureStatus.OtherSignatureStatus? then Some(InvalidSignatureStatus)
    else if r.signatureStatus.SignatureKnown? && (r.signature.None? || r.signature.value == "") then
      Some(SignatureMissing)
    else if r.signature.Some? && r.signature.value == "" then Some(InvalidTransactionSignature)
    else if r.outcome.Accepted? && !r.signatureStatus.SignatureKnown? then Some(AcceptedSignatureUnknown)
    else None
  }

  function DoReceipt(s: Store, id: string, r: TechnicalReceipt, at: int): (Store, Reply)
  {
    var i := Find(s, id);
    if !r.wellFormed then (s, Refused(MalformedReceipt))
    else if i == |s.refunds| then (s, Refused(RefundNotFound))
    else
      var row := s.refunds[i];
      if row.receipt.Some? then
        if row.receipt != Some(r) then (s, Refused(ReceiptConflict)) else (s, Record(row))
      else
        var bad := CheckReceipt(row, r);
        if bad.Some? then (s, Refused(bad.value))
        else
          var state := if r.outcome.Unknown? then InRecovery else if r.outcome.Accepted? then Reconciling else InReview;
          var next := row.(state := state, receipt := Some(r), signature := r.signature);
          (Write(s, i, next, at), Record(next.(updatedAt := at)))
  }

  /** Does the observation show exactly the projected refund of this row? */
  predicate Matches(row: RefundRow, o: Observation)
  {
    var q, p := row.request, row.projection;
    && o.domain == q.domain && o.channelId == q.channel.channelId && o.account == q.channel.account
    && o.epoch == q.channel.epoch && o.mint == q.channel.mint && o.destination == q.destination
    && o.refundId == row.refundId && o.request == q && o.projection == p
    && o.funded == p.funded && o.activated == p.activated && o.settled == p.settled
    && o.refundedBefore == p.refundedBefore && o.refundedAfter == p.refundedAfter
    && o.vaultBefore == p.vaultBefore && o.vaultAfter == p.vaultAfter
  }

  function DoReconcile(s: Store, id: string, o: Observation, verified: bool, at: int): (Store, Reply)
  {
    var i := Find(s, id);
    if !o.wellFormed || o.signature == "" then (s, Refused(MalformedObservation))
    else if !verified then (s, Refused(ObservationUnverified))
    else if i == |s.refunds| then (s, Refused(RefundNotFound))
    else
      var row := s.refunds[i];
      if row.state.Completed? then (s, Record(row))
      else if !(row.state.Reconciling? || row.state.InRecovery?) then (s, Refused(ReconciliationStateInvalid))
      else if row.projection.refundedBefore < HighWater(s, ScopeOf(row.request)) then
        (Write(s, i, row.(state := InReview), at), Refused(OverlappingRefundInterval))
      else if !Matches(row, o) then
        (Write(s, i, row.(state := InReview), at), Refused(ReconciliationMismatch))
      else if row.signature != Some(o.signature) then (s, Refused(ReconciliationSignatureMismatch))
      else
        var next := row.(state := Completed, reconciled := Some(o));
        (Write(s, i, next, at), Record(next.(updatedAt := at)))
  }

  function DoRecoveredSignature(s: Store, id: string, signature: string, hashOk: bool, at: int): (Store, Reply)
  {
    var i := Find(s, id);
    if signature == "" || !hashOk then (s, Refused(RecoveredSignatureMissing))
    else if i == |s.refunds| then (s, Refused(RefundNotFound))
    else
      var row := s.refunds[i];
      if row.state.Reconciling? then
        if row.signature != Some(signature) then (s, Refused(RecoverySignatureConflict)) else (s, Record(row))
      else if !row.state.InRecovery? then (s, Refused(RecoveryStateInvalid))
      else if row.submitIntents != 1 then (s, Refused(SubmitIntentMissing))
      else
        var next := row.(state := Reconciling, signature := Some(signature));
        (Write(s, i, next, at), Record(next.(updatedAt := at)))
  }

  function DoDivergence(s: Store, id: string, providers: set<string>, idsOk: bool, at: int): (Store, Reply)
  {
    var i := Find(s, id);
    if !idsOk || |providers| < 2 then (s, Refused(DivergenceUnproven))
    else if i == |s.refunds| then (s, Refused(RefundNotFound))
    else
      var row := s.refunds[i];
      if row.state !in {InRecovery, Reconciling, InReview} then (s, Refused(DivergenceStateInvalid))
      else
        var next := row.(state := InDispute);
        (Write(s, i, next, at), Record(next.(updatedAt := at)))
  }

  function DoRelease(s: Store, id: string, target: OperationState, at: int): (Store, Reply)
  {
    var i := Find(s, id);
    if !target.Releasing() || target.Completed? then (s, Refused(InvalidReleaseState))
    else if i == |s.refunds| then (s, Refused(RefundNotFound))
    else
      var row := s.refunds[i];
      if row.submitIntents != 0 || !row.state.Validated? then (s, Refused(ReleaseAfterSubmissionForbidden))
      else
        var next := row.(state := target);
        (Write(s, i, next, at), Record(next.(updatedAt := at)))
  }

  function Step(s: Store, call: Call): (Store, Reply)
  {
    match call
    case Register(q, f, operations, at) => DoRegister(s, q, f, operations, at)
    case Commit(id, c, at) => DoCommit(s, id, c, at)
    case RecordSubmitIntent(id, at) => DoSubmitIntent(s, id, at)
    case RecordTechnicalReceipt(id, r, at) => DoReceipt(s, id, r, at)
    case Reconcile(id, o, verified, at) => DoReconcile(s, id, o, verified, at)
    case RecordRecoveredSignature(id, signature, ok, at) => DoRecoveredSignature(s, id, signature, ok, at)
    case RecordProviderDivergence(id, providers, idsOk, at) => DoDivergence(s, id, providers, idsOk, at)
    case ReleaseBeforeSubmission(id, target, at) => DoRelease(s, id, target, at)
  }

  /** The tables after a whole run, refused calls included. */
  function Run(s: Store, calls: seq<Call>): Store
    decreases |calls|
  {
    if |calls| == 0 then s else Run(Step(s, calls[0]).0, calls[1..])
  }
}
