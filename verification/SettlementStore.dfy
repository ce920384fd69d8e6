/**
 * What one transaction of the settlement runtime does to its tables.
 *
 * `Submit` and `Recover` of the runtime are several transactions with an executor call between them; here
 * each transaction is a step of its own, so that every interleaving of them is a run.
 */
module SettlementStore {
  import opened Tables
  import opened Journals
  import opened Channels

  datatype State =
    | Requested | Validated | ExecutionCommitted | Authorized | Submitted | Confirming | Reconciling | Completed
    | Rejected | FailedBeforeSubmission | InRecovery | InReview | InDispute
  {
    /** The states whose reservation no longer counts. */
    predicate Terminal() { Rejected? || FailedBeforeSubmission? || Completed? }
    predicate Recoverable() { InRecovery? || Reconciling? || InReview? || InDispute? }
    predicate BeforeSubmission() { Validated? || ExecutionCommitted? || Authorized? }
  }

  datatype SettlementRequest = SettlementRequest(
    wellFormed: bool, domain: Domain, channelId: string, account: string, epoch: nat, mint: string, wallet: string,
    settlementId: string, executionRequestId: string, obligationId: string, idempotencyKey: string,
    requested: nat, activatedBefore: nat, settledBefore: nat, vaultBefore: nat,
    snapshot: Channel, createdAt: int, expiresAt: int)

  datatype EconomicPlan = EconomicPlan(
    obligationId: string, mint: string, decimals: nat, amount: nat, source: string, destination: string, expiresAt: int)

  /** The value an execution commitment hash stands for. */
  datatype ExternalCommitment = ExternalCommitment(
    executionRequestId: string, obligationId: string, executorId: string, plan: EconomicPlan,
    messageHash: string, simulationHash: string, signer: string, constraints: string, expiresAt: int)

  datatype Prepared = Prepared(
    wellFormed: bool, executionRequestId: string, executorId: string, plan: EconomicPlan, messageHash: string,
    simulationHash: string, signer: string, constraints: string, expiresAt: int, commitment: ExternalCommitment)

  datatype Commitment = Commitment(
    request: SettlementRequest, executionRequestId: string, commitment: ExternalCommitment, messageHash: string,
    executorId: string, expectedSigner: string, expiresAt: int)

  datatype Authorization = Authorization(
    wellFormed: bool, authentic: bool, authorizationId: string, executionRequestId: string,
    commitment: ExternalCommitment, messageHash: string, signer: string, issuedAt: int, expiresAt: int)

  /** The fake executor derives its signature by hashing the commitment hash with the authorization id. */
  datatype Signature = Derived(commitment: ExternalCommitment, authorizationId: string) | Foreign(text: string)
  {
    predicate Empty() { this == Foreign("") }
  }

  datatype Technical = Technical(outcome: TechnicalOutcome, signature: Option<Signature>)

  datatype TechnicalOutcome = ExecutorAccepted | ExecutorRejected | ExecutorUnknown | ReceiptInvalid

  datatype Observation = Observation(
    wellFormed: bool, sourceId: string, channelId: string, account: string, epoch: nat, mint: string,
    destination: string, signature: Signature, settledBefore: nat, settledAfter: nat,
    vaultBefore: nat, vaultAfter: nat, recipientBefore: nat, recipientAfter: nat, observedAt: int)

  datatype Receipt = Receipt(settledAfter: nat, vaultAfter: int, signature: Option<Signature>,
    observations: seq<Observation>, completedAt: int)

  datatype Row = Row(
    settlementId: string, request: SettlementRequest, state: State, commitment: Option<Commitment>,
    authorization: Option<Authorization>, signature: Option<Signature>, receipt: Option<Receipt>, updatedAt: int)

  datatype Recovery = Recovery(attempt: nat, outcome: RecoveryOutcome, signature: Option<Signature>, submitIntents: nat)

  datatype RecoveryOutcome =
    | RecoveryConfirmed | RecoveryFailedBeforeBroadcast | RecoveryUnknown | RecoveryInvalid | ProviderDivergence

  datatype Store = Store(
    rows: seq<Row>, intents: set<string>, events: map<string, seq<Entry<State>>>,
    recoveries: map<string, seq<Recovery>>)

  const EMPTY := Store([], {}, map[], map[])

  datatype Refusal =
    | MalformedRequest | IdempotencyConflict | InvalidSnapshot(why: ChannelRefusal) | InvalidRequestWindow
    | RequestNotYetValid
    | RequestExpired | RequestOutlivesChannel | SnapshotContextMismatch | SnapshotTampering | SnapshotTotalMismatch
    | OverSettlement | SettlementAboveVault | SettlementLifecycleForbidden
    | ObligationNeedsRecovery | ObligationConflict | StaleSnapshot | ConcurrentOverSettlement
    | ConcurrentVaultExhaustion | IntegerOverflow
    | SettlementNotFound | JournalTimeRegressed | InvalidState
    | MalformedPrepared | ExecutionRequestMismatch | SignerMismatch | PreparedExpired | EconomicPlanMismatch
    | CommitmentTampering | CommitmentConflict
    | MalformedAuthorization | AuthorizationExpired | AuthorizationInvalid | AuthorizationConflict
    | AuthorizationBindingMismatch | AuthorizationOutlivesCommitment
    | SubmissionAlreadyAttempted | ExecutorMismatch
    | DivergenceUnproven | ObservationRequired | MalformedObservation | DuplicateObservationSource
    | ObservationUnverified

  datatype Reply = Done(row: Row) | Refused(why: Refusal)

  /** The (channel, epoch) whose activated right a settlement draws on. */
  datatype Scope = Scope(channelId: string, epoch: nat)

  function ScopeOf(q: SettlementRequest): Scope { Scope(q.channelId, q.epoch) }

  // ----- queries

  function HasId(id: string): Row -> bool { (row: Row) => row.settlementId == id }

  function Collides(q: SettlementRequest): Row -> bool
  {
    (row: Row) =>
      row.settlementId == q.settlementId
      || (ScopeOf(row.request) == ScopeOf(q) && row.request.idempotencyKey == q.idempotencyKey)
  }

  function SameObligation(q: SettlementRequest): Row -> bool
  {
    (row: Row) => ScopeOf(row.request) == ScopeOf(q) && row.request.obligationId == q.obligationId
  }

  function SameExecution(q: SettlementRequest): Row -> bool
  {
    (row: Row) => row.request.executionRequestId == q.executionRequestId
  }

  function SettledAfter(q: SettlementRequest): nat { q.settledBefore + q.requested }

  function ReservedAmount(scope: Scope): Row -> nat
  {
    (row: Row) => if ScopeOf(row.request) == scope && !row.state.Terminal() then row.request.requested else 0
  }

  function CompletedAfter(scope: Scope): Row -> nat
  {
    (row: Row) => if ScopeOf(row.request) == scope && row.state.Completed? then SettledAfter(row.request) else 0
  }

  function Reserved(s: Store, scope: Scope): nat { SumBy(s.rows, ReservedAmount(scope)) }

  function HighWater(s: Store, scope: Scope): nat { MaxBy(s.rows, CompletedAfter(scope)) }

  function Find(s: Store, id: string): (i: nat)
    ensures i <= |s.rows|
    ensures i < |s.rows| ==> s.rows[i].settlementId == id
    ensures i == |s.rows| ==> forall j :: 0 <= j < |s.rows| ==> s.rows[j].settlementId != id
  {
    FirstIndex(s.rows, HasId(id))
  }

  // ----- writes

  function History(s: Store, id: string): seq<Entry<State>> { if id in s.events then s.events[id] else [] }

  function Append(s: Store, id: string, state: State, at: int): Store
  {
    s.(events := s.events[id := Extend(History(s, id), state, at)])
  }

  /** UPDATE one settlement and journal its new state. */
  function Write(s: Store, i: nat, row: Row, at: int): Store
    requires i < |s.rows|
  {
    Append(s.(rows := s.rows[i := row.(updatedAt := at)]), s.rows[i].settlementId, row.state, at)
  }

  // ----- registration

  function ValidateRequest(q: SettlementRequest, c: Channel, now: int): (bad: Option<Refusal>)
    ensures bad.None? ==> ValidateChannel(c).Ok? && q.snapshot == c
    ensures bad.None? ==>
              0 < q.requested && q.settledBefore + q.requested <= q.activatedBefore && q.requested <= q.vaultBefore
    ensures bad.None? ==> q.activatedBefore == c.activated && q.settledBefore == c.settled
                          && q.vaultBefore == c.funded - c.settled - c.refunded
  {
    var projection := ValidateChannel(c);
    if projection.Err? then Some(InvalidSnapshot(projection.error))
    else if !q.wellFormed || q.requested == 0 || q.requested > U64_MAX then Some(MalformedRequest)
    else if q.expiresAt <= q.createdAt then Some(InvalidRequestWindow)
    else if now < q.createdAt then Some(RequestNotYetValid)
    else if now >= q.expiresAt then Some(RequestExpired)
    else if q.expiresAt > c.expiresAt then Some(RequestOutlivesChannel)
    else if q.domain != c.domain || q.channelId != c.identity.channelId || q.account != c.identity.account
            || q.epoch != c.identity.epoch || q.mint != c.identity.mint || Some(q.wallet) != c.recipientWallet then
      Some(SnapshotContextMismatch)
    else if q.snapshot != c then Some(SnapshotTampering)
    else if q.activatedBefore != c.activated || q.settledBefore != c.settled
            || q.vaultBefore != projection.value.vault then
      Some(SnapshotTotalMismatch)
    else if q.requested > q.activatedBefore - q.settledBefore then Some(OverSettlement)
    else if q.requested > q.vaultBefore then Some(SettlementAboveVault)
    else if !(c.status.Active? || c.status.Settling?) then Some(SettlementLifecycleForbidden)
    else None
  }

  /** Exactly which requests a snapshot supports. */
  lemma RequestIff(q: SettlementRequest, c: Channel, now: int)
    ensures ValidateRequest(q, c, now).None?
            <==> && ValidateChannel(c).Ok? && (c.status.Active? || c.status.Settling?)
                 && q.wellFormed && q.createdAt <= now < q.expiresAt <= c.expiresAt && q.snapshot == c
                 && q.domain == c.domain && q.channelId == c.identity.channelId && q.account == c.identity.account
                 && q.epoch == c.identity.epoch && q.mint == c.identity.mint && c.recipientWallet == Some(q.wallet)
                 && q.activatedBefore == c.activated && q.settledBefore == c.settled
                 && c.funded == q.vaultBefore + c.settled + c.refunded
                 && 0 < q.requested <= c.activated - c.settled && q.requested <= q.vaultBefore
  {
  }

  /** The checks made against the table, inside the transaction. */
  function CheckReservation(s: Store, q: SettlementRequest): (bad: Option<Refusal>)
    ensures bad.None? ==> HighWater(s, ScopeOf(q)) <= q.settledBefore
    ensures bad.None? ==> q.settledBefore + Reserved(s, ScopeOf(q)) + q.requested <= q.activatedBefore
    ensures bad.None? ==> Reserved(s, ScopeOf(q)) + q.requested <= q.vaultBefore
    ensures bad.None? ==> forall i :: 0 <= i < |s.rows| ==>
              !SameObligation(q)(s.rows[i]) && !SameExecution(q)(s.rows[i])
  {
    var scope, owner := ScopeOf(q), FirstIndex(s.rows, SameObligation(q));
    if owner < |s.rows| then
      Some(if s.rows[owner].state.InRecovery? then ObligationNeedsRecovery else ObligationConflict)
    else if q.settledBefore < HighWater(s, scope) then Some(StaleSnapshot)
    else if q.settledBefore + Reserved(s, scope) + q.requested > q.activatedBefore then Some(ConcurrentOverSettlement)
    else if Reserved(s, scope) + q.requested > q.vaultBefore then Some(ConcurrentVaultExhaustion)
    else if FirstIndex(s.rows, SameExecution(q)) < |s.rows| then Some(IdempotencyConflict)
    else if q.activatedBefore > I64_MAX || q.vaultBefore > I64_MAX then Some(IntegerOverflow)
    else None
  }

  function DoRegister(s: Store, q: SettlementRequest, c: Channel, at: int): (Store, Reply)
  {
    var known, i := Find(s, q.settlementId), FirstIndex(s.rows, Collides(q));
    if known < |s.rows| then
      if s.rows[known].request != q then (s, Refused(IdempotencyConflict)) else (s, Done(s.rows[known]))
    else
      var bad := ValidateRequest(q, c, at);
      if bad.Some? then (s, Refused(bad.value))
      else if i < |s.rows| then
        if s.rows[i].request != q then (s, Refused(IdempotencyConflict)) else (s, Done(s.rows[i]))
      else
        var full := CheckReservation(s, q);
        if full.Some? then (s, Refused(full.value))
        else
          var row := Row(q.settlementId, q, Validated, None, None, None, None, at);
          (Append(Append(s.(rows := s.rows + [row]), q.settlementId, Requested, at), q.settlementId, Validated, at),
            Done(row))
  }

  // ----- binding the execution

  function PlanOf(q: SettlementRequest): EconomicPlan
  {
    EconomicPlan(q.obligationId, q.mint, q.snapshot.decimals, q.requested, q.snapshot.vaultAccount, q.wallet,
      q.expiresAt)
  }

  function CommitmentOf(p: Prepared, obligationId: string): ExternalCommitment
  {
    ExternalCommitment(p.executionRequestId, obligationId, p.executorId, p.plan, p.messageHash, p.simulationHash,
                       p.signer, p.constraints, p.expiresAt)
  }

  function BindExecution(row: Row, p: Prepared, signer: string, at: int): (r: Result<Commitment, Refusal>)
    ensures r.Ok? ==>
              r.value.executionRequestId == row.request.executionRequestId == r.value.commitment.executionRequestId
    ensures r.Ok? ==> r.value.commitment.obligationId == row.request.obligationId
    ensures r.Ok? ==> r.value.commitment.plan == PlanOf(row.request)
    ensures r.Ok? ==>
              r.value.executorId == r.value.commitment.executorId
                && r.value.messageHash == r.value.commitment.messageHash
  {
    if !p.wellFormed then Err(MalformedPrepared)
    else if p.executionRequestId != row.request.executionRequestId then Err(ExecutionRequestMismatch)
    else if p.signer != signer then Err(SignerMismatch)
    else if p.expiresAt <= at then Err(PreparedExpired)
    else if p.plan != PlanOf(row.request) then Err(EconomicPlanMismatch)
    else if p.commitment != CommitmentOf(p, row.request.obligationId) then Err(CommitmentTampering)
    else Ok(Commitment(row.request, row.request.executionRequestId, p.commitment, p.messageHash, p.executorId, signer,
      p.expiresAt))
  }

  function DoCommit(s: Store, id: string, p: Prepared, signer: string, at: int): (Store, Reply)
  {
    var i := Find(s, id);
    if i == |s.rows| then (s, Refused(SettlementNotFound))
    else
      var row := s.rows[i];
      if at < row.updatedAt then (s, Refused(JournalTimeRegressed))
      else if row.state in {Requested, Rejected, FailedBeforeSubmission} then (s, Refused(InvalidState))
      else
        var binding := BindExecution(row, p, signer, at);
        if binding.Err? then (s, Refused(binding.error))
        else if !row.state.Validated? then
          if row.commitment != Some(binding.value) then (s, Refused(CommitmentConflict)) else (s, Done(row))
        else
          var next := row.(state := ExecutionCommitted, commitment := Some(binding.value));
          (Write(s, i, next, at), Done(next.(updatedAt := at)))
  }

  function DoAuthorize(s: Store, id: string, a: Authorization, verified: bool, at: int): (Store, Reply)
  {
    var i := Find(s, id);
    if !a.wellFormed then (s, Refused(MalformedAuthorization))
    else if a.issuedAt > at || a.expiresAt <= at || a.expiresAt <= a.issuedAt then (s, Refused(AuthorizationExpired))
    else if !verified then (s, Refused(AuthorizationInvalid))
    else if i == |s.rows| then (s, Refused(SettlementNotFound))
    else
      var row := s.rows[i];
      if at < row.updatedAt then (s, Refused(JournalTimeRegressed))
      else if row.state.Authorized? then
        if row.authorization != Some(a) then (s, Refused(AuthorizationConflict)) else (s, Done(row))
      else if !row.state.ExecutionCommitted? || row.commitment.None? then (s, Refused(InvalidState))
      else
        var c := row.commitment.value;
        if a.executionRequestId != c.executionRequestId || a.commitment != c.commitment
           || a.messageHash != c.messageHash || a.signer != c.expectedSigner then
          (s, Refused(AuthorizationBindingMismatch))
        else if a.expiresAt > c.expiresAt then (s, Refused(AuthorizationOutlivesCommitment))
        else
          var next := row.(state := Authorized, authorization := Some(a));
          (Write(s, i, next, at), Done(next.(updatedAt := at)))
  }

  // ----- submission

  /** The first transaction of submit: one intent, persisted before the executor is called. */
  function DoSubmitIntent(s: Store, id: string, executorId: string, at: int): (Store, Reply)
  {
    var i := Find(s, id);
    if i == |s.rows| then (s, Refused(SettlementNotFound))
    else
      var row := s.rows[i];
      if at < row.updatedAt then (s, Refused(JournalTimeRegressed))
      else if row.state in {Submitted, Confirming, Reconciling, Completed, InRecovery, InReview, InDispute} then
        (s, Refused(SubmissionAlreadyAttempted))
      else if !row.state.Authorized? || row.commitment.None? || row.authorization.None? then (s, Refused(InvalidState))
      else if at >= row.authorization.value.expiresAt then (s, Refused(AuthorizationExpired))
      else if at >= row.commitment.value.expiresAt then (s, Refused(PreparedExpired))
      else if executorId != row.commitment.value.executorId then (s, Refused(ExecutorMismatch))
      else if id in s.intents then (s, Refused(SubmissionAlreadyAttempted))
      else
        var next := row.(state := Submitted);
        (Write(s.(intents := s.intents + {id}), i, next, at), Done(next.(updatedAt := at)))
  }

  /** `_persist_technical`: what the executor's answer turns `submitted` into. */
  function DoPersist(s: Store, id: string, t: Technical, at: int): (Store, Reply)
  {
    var i := Find(s, id);
    if i == |s.rows| then (s, Refused(SettlementNotFound))
    else
      var row := s.rows[i];
      if !row.state.Submitted? then (s, Refused(InvalidState))
      else
        var bare := row.(signature := t.signature);
        match t.outcome
        case ExecutorAccepted =>
          var next := bare.(state := Reconciling);
          (Write(Write(s, i, bare.(state := Confirming), at), i, next, at), Done(next.(updatedAt := at)))
        case ExecutorRejected =>
          (Write(s, i, bare.(state := Rejected), at), Done(bare.(state := Rejected, updatedAt := at)))
        case ExecutorUnknown =>
          (Write(s, i, bare.(state := InRecovery), at), Done(bare.(state := InRecovery, updatedAt := at)))
        case ReceiptInvalid =>
          (Write(s, i, bare.(state := InReview), at), Done(bare.(state := InReview, updatedAt := at)))
  }

  // ----- recovery

  function RecoveryTarget(outcome: RecoveryOutcome): State
  {
    match outcome
    case RecoveryConfirmed => Reconciling
    case RecoveryFailedBeforeBroadcast => FailedBeforeSubmission
    case RecoveryUnknown => InRecovery
    case RecoveryInvalid => InReview
    case ProviderDivergence => InDispute
  }

  /** `_record_recovery`: writes whatever the row's state is by now; a signature once learned is kept. */
  function DoRecordRecovery(s: Store, id: string, outcome: RecoveryOutcome, signature: Option<Signature>,
                            at: int): (Store, Reply)
  {
    var i := Find(s, id);
    if i == |s.rows| then (s, Refused(SettlementNotFound))
    else
      var past := if id in s.recoveries then s.recoveries[id] else [];
      var record := Recovery(|past| + 1, outcome, signature, if id in s.intents then 1 else 0);
      var next := s.rows[i].(state := RecoveryTarget(outcome),
                             signature := if signature.Some? then signature else s.rows[i].signature);
      (Write(s.(recoveries := s.recoveries[id := past + [record]]), i, next, at), Done(next.(updatedAt := at)))
  }

  // ----- reconciliation

  /** What independent observations must agree on: everything but who saw it and when. */
  function Fingerprint(o: Observation): Observation { o.(sourceId := "", observedAt := 0) }

  predicate Agree(os: seq<Observation>)
  {
    forall i :: 0 <= i < |os| ==> Fingerprint(os[i]) == Fingerprint(os[0])
  }

  /** The observation shows exactly the requested effect: S up, V down and the recipient up by the amount. */
  predicate Exact(row: Row, o: Observation)
  {
    var q := row.request;
    && o.observedAt >= row.updatedAt
    && o.channelId == q.channelId && o.account == q.account && o.epoch == q.epoch && o.mint == q.mint
    && o.destination == q.wallet && Some(o.signature) == row.signature
    && o.settledBefore == q.settledBefore && o.settledAfter == q.settledBefore + q.requested
    && o.vaultBefore == q.vaultBefore && o.vaultAfter == q.vaultBefore - q.requested
    && o.recipientAfter - o.recipientBefore == q.requested
  }

  predicate AllExact(row: Row, os: seq<Observation>) { forall i :: 0 <= i < |os| ==> Exact(row, os[i]) }

  function CheckObservations(os: seq<Observation>, vouched: set<Observation>): (bad: Option<Refusal>)
    ensures bad.None? ==> |os| > 0 && forall i :: 0 <= i < |os| ==> os[i] in vouched && !os[i].signature.Empty()
  {
    if |os| == 0 then Some(ObservationRequired)
    else if exists i :: 0 <= i < |os| && (!os[i].wellFormed || os[i].signature.Empty()) then Some(MalformedObservation)
    else if exists i, j :: 0 <= i < j < |os| && os[i].sourceId == os[j].sourceId then Some(DuplicateObservationSource)
    else if exists i :: 0 <= i < |os| && os[i] !in vouched then Some(ObservationUnverified)
    else None
  }

  /** `vouched` holds the observations that the verifier bound to their own source accepts. */
  function DoReconcile(s: Store, id: string, os: seq<Observation>, vouched: set<Observation>, at: int): (Store, Reply)
  {
    var bad, i := CheckObservations(os, vouched), Find(s, id);
    if bad.Some? then (s, Refused(bad.value))
    else if i == |s.rows| then (s, Refused(SettlementNotFound))
    else
      var row := s.rows[i];
      if at < row.updatedAt then (s, Refused(JournalTimeRegressed))
      else if row.state.Completed? then (s, Done(row))
      else if !(row.state.Reconciling? || row.state.InReview? || row.state.InDispute?) then (s, Refused(InvalidState))
      else if !Agree(os) then
        (Write(s, i, row.(state := InDispute), at), Done(row.(state := InDispute, updatedAt := at)))
      else if !AllExact(row, os) then
        (Write(s, i, row.(state := InReview), at), Done(row.(state := InReview, updatedAt := at)))
      else
        var receipt := Receipt(SettledAfter(row.request), row.request.vaultBefore - row.request.requested,
          row.signature, os, at);
        var next := row.(state := Completed, receipt := Some(receipt));
        (Write(s, i, next, at), Done(next.(updatedAt := at)))
  }

  // ----- transactions

  datatype Txn =
    | Register(request: SettlementRequest, snapshot: Channel, at: int)
    | Commit(id: string, prepared: Prepared, signer: string, at: int)
    | Authorize(id: string, authorization: Authorization, verified: bool, at: int)
    | SubmitIntent(id: string, executorId: string, at: int)
    | Persist(id: string, technical: Technical, at: int)
    | RecordRecovery(id: string, outcome: RecoveryOutcome, signature: Option<Signature>, at: int)
    | Reconcile(id: string, observations: seq<Observation>, vouched: set<Observation>, at: int)

  function Apply(s: Store, t: Txn): (Store, Reply)
  {
    match t
    case Register(q, c, at) => DoRegister(s, q, c, at)
    case Commit(id, p, signer, at) => DoCommit(s, id, p, signer, at)
    case Authorize(id, a, verified, at) => DoAuthorize(s, id, a, verified, at)
    case SubmitIntent(id, executorId, at) => DoSubmitIntent(s, id, executorId, at)
    case Persist(id, technical, at) => DoPersist(s, id, technical, at)
    case RecordRecovery(id, outcome, signature, at) => DoRecordRecovery(s, id, outcome, signature, at)
    case Reconcile(id, os, vouched, at) => DoReconcile(s, id, os, vouched, at)
  }

  function Run(s: Store, txns: seq<Txn>): Store
    decreases |txns|
  {
    if |txns| == 0 then s else Run(Apply(s, txns[0]).0, txns[1..])
  }
}
