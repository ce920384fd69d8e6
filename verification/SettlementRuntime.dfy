/** The settlement runtime and the executor as objects; submit and recover call from one into the other. */
module SettlementRuntime {
  import opened Tables
  import opened Journals
  import opened Channels
  import opened SettlementStore
  import opened SettlementTheorems
  import opened Executor
  import opened SettlementExecution
  import opened SubmissionAnswers

  class FakeExternalExecutor {
    const executorId: string
    var executions: map<string, Execution>
    var consumed: map<string, string>
    var effects: map<string, string>

    ghost function Durable(): Ledger
      reads this
    {
      Ledger(executorId, executions, consumed, effects)
    }

    constructor (executorId: string)
      ensures Durable() == Ledger(executorId, map[], map[], map[])
    {
      this.executorId := executorId;
      executions, consumed, effects := map[], map[], map[];
    }

    method Prepare(input: PrepareInput, now: int) returns (r: Result<Prepared, ExecutorError>)
      modifies this
      ensures (Durable(), r) == DoPrepare(old(Durable()), input, now)
    {
      var bad := CheckPrepare(input, now);
      if bad.Some? {
        return Err(bad.value);
      }
      var q := input.request;
      if q.executionRequestId in executions {
        if executions[q.executionRequestId].input != input {
          return Err(InputConflict);
        }
        return Ok(executions[q.executionRequestId].prepared);
      }
      if exists id :: id in executions && executions[id].idempotencyKey == q.idempotencyKey {
        return Err(InputConflict);
      }
      if q.plan.obligationId in effects {
        return Err(ObligationAlreadyExecuted);
      }
      var prepared := PreparedFrom(executorId, input);
      executions := executions[q.executionRequestId :=
        Execution(q.idempotencyKey, q.plan.obligationId, input, StatePrepared, prepared, None, None)];
      r := Ok(prepared);
    }

    method AuthorizeAndExecute(a: Authorization, now: int) returns (r: Result<ExecutionReceipt, ExecutorError>)
      modifies this
      ensures (Durable(), r) == DoExecute(old(Durable()), a, now)
    {
      if !a.wellFormed || !a.authentic {
        return Err(UnsupportedAuthorization);
      }
      if a.issuedAt > now {
        return Err(AuthorizationNotActive);
      }
      if a.expiresAt <= now {
        return Err(LapsedAuthorization);
      }
      if a.authorizationId in consumed {
        return Err(AuthorizationReplay);
      }
      var id := a.executionRequestId;
      if id !in executions {
        return Err(AuthorizationMismatch);
      }
      var execution := executions[id];
      if execution.state.StateConfirmed? {
        return Err(ObligationAlreadyExecuted);
      }
      var binding := CheckBinding(a, execution, now);
      if binding.Some? {
        return Err(binding.value);
      }
      if execution.obligationId in effects {
        return Err(ObligationAlreadyExecuted);
      }
      consumed := consumed[a.authorizationId := id];
      executions := executions[id := execution.(state := StateAuthorized)];
      var signature := Derived(execution.prepared.commitment, a.authorizationId);
      var receipt := ExecutionReceipt(id, execution.prepared.commitment, execution.prepared.messageHash, signature);
      effects := effects[execution.obligationId := id];
      executions := executions[id := execution.(state := StateConfirmed, signature := Some(signature),
        receipt := Some(receipt))];
      assert executions == old(executions)[id := executions[id]];
      r := Ok(receipt);
    }

    method Recover(id: string) returns (r: Result<RecoveryAnswer, ExecutorError>)
      ensures r == DoRecover(Durable(), id)
    {
      if id !in executions {
        return Err(ExecutionMissing);
      }
      var e := executions[id];
      if e.state.StateConfirmed? {
        if e.receipt.None? {
          return Err(ReceiptMissing);
        }
        return Ok(RecoveryAnswer(RecoveryConfirmed, false, e.signature));
      }
      if e.state.StatePrepared? {
        return Ok(RecoveryAnswer(RecoveryFailedBeforeBroadcast, true, e.signature));
      }
      r := Ok(RecoveryAnswer(RecoveryUnknown, false, e.signature));
    }
  }

  // ----- the loops of reconcile

  /** len(set(sources)) != len(sources) */
  method SourcesRepeat(os: seq<Observation>) returns (repeated: bool)
    ensures repeated <==> exists i, j :: 0 <= i < j < |os| && os[i].sourceId == os[j].sourceId
  {
    var sources: set<string> := {};
    for i := 0 to |os|
      invariant forall x :: x in sources <==> exists j :: 0 <= j < i && os[j].sourceId == x
      invariant |sources| <= i
      invariant |sources| == i <==> forall j, k :: 0 <= j < k < i ==> os[j].sourceId != os[k].sourceId
    {
      sources := sources + {os[i].sourceId};
    }
    repeated := |sources| != |os|;
  }

  /** Shape, distinct sources, and a verifier of its own for each observation. */
  method ValidateObservations(os: seq<Observation>, vouched: set<Observation>) returns (bad: Option<Refusal>)
    ensures bad == CheckObservations(os, vouched)
  {
    if |os| == 0 {
      return Some(ObservationRequired);
    }
    for i := 0 to |os|
      invariant forall j :: 0 <= j < i ==> os[j].wellFormed && !os[j].signature.Empty()
    {
      if !os[i].wellFormed || os[i].signature.Empty() {
        return Some(MalformedObservation);
      }
    }
    var repeated := SourcesRepeat(os);
    if repeated {
      return Some(DuplicateObservationSource);
    }
    for i := 0 to |os|
      invariant forall j :: 0 <= j < i ==> os[j] in vouched
    {
      if os[i] !in vouched {
        return Some(ObservationUnverified);
      }
    }
    bad := None;
  }

  /** Do the observations disagree about anything but their source and time? */
  method Diverge(os: seq<Observation>) returns (diverged: bool)
    requires |os| > 0
    ensures diverged <==> !Agree(os)
  {
    var fingerprints: set<Observation> := {};
    for i := 0 to |os|
      invariant fingerprints == set j | 0 <= j < i :: Fingerprint(os[j])
      invariant i > 0 ==> (|fingerprints| <= 1 <==> forall j :: 0 <= j < i ==> Fingerprint(os[j]) == Fingerprint(os[0]))
      invariant i > 0 ==> Fingerprint(os[0]) in fingerprints
    {
      ghost var before := fingerprints;
      fingerprints := fingerprints + {Fingerprint(os[i])};
      if i > 0 {
        SmallSet(before, fingerprints, Fingerprint(os[0]), Fingerprint(os[i]));
        assert forall j :: 0 <= j < i ==> Fingerprint(os[j]) in before;
      } else {
        assert fingerprints == {Fingerprint(os[0])};
      }
    }
    diverged := |fingerprints| > 1;
  }

  lemma SmallSet<T>(before: set<T>, after: set<T>, first: T, next: T)
    requires first in before && after == before + {next}
    ensures |after| <= 1 <==> |before| <= 1 && next == first
  {
    if |after| <= 1 {
      assert {first} <= after && {next} <= after;
      if next != first {
        assert {first, next} <= after;
        SubsetSize({first, next}, after);
      } else {
        assert after == before;
      }
    } else if next == first {
      assert after == before;
    }
  }

  lemma SubsetSize<T>(a: set<T>, b: set<T>)
    requires a <= b
    ensures |a| <= |b|
  {
    assert b == a + (b - a);
  }

  datatype Mismatch =
    | ObservationTime | ChannelId | ChannelAccount | ChannelEpoch | Mint | Destination | TransactionSignature
    | SettledBefore | SettledAfterwards | VaultBefore | VaultAfterwards | RecipientDelta

  function MismatchesOf(row: Row, o: Observation): (m: seq<Mismatch>)
    ensures m == [] <==> Exact(row, o)
  {
    var q := row.request;
    (if o.observedAt < row.updatedAt then [ObservationTime] else [])
    + (if o.channelId != q.channelId then [ChannelId] else [])
    + (if o.account != q.account then [ChannelAccount] else [])
    + (if o.epoch != q.epoch then [ChannelEpoch] else [])
    + (if o.mint != q.mint then [Mint] else [])
    + (if o.destination != q.wallet then [Destination] else [])
    + (if Some(o.signature) != row.signature then [TransactionSignature] else [])
    + (if o.settledBefore != q.settledBefore then [SettledBefore] else [])
    + (if o.settledAfter != q.settledBefore + q.requested then [SettledAfterwards] else [])
    + (if o.vaultBefore != q.vaultBefore then [VaultBefore] else [])
    + (if o.vaultAfter != q.vaultBefore - q.requested then [VaultAfterwards] else [])
    + (if o.recipientAfter - o.recipientBefore != q.requested then [RecipientDelta] else [])
  }

  method FindMismatches(row: Row, os: seq<Observation>) returns (mismatches: seq<Mismatch>)
    ensures mismatches == [] <==> AllExact(row, os)
  {
    mismatches := [];
    for i := 0 to |os|
      invariant mismatches == [] <==> forall j :: 0 <= j < i ==> Exact(row, os[j])
    {
      mismatches := mismatches + MismatchesOf(row, os[i]);
    }
  }

  class SettlementRuntime {
    var rows: seq<Row>
    var intents: set<string>
    var events: map<string, seq<Entry<State>>>
    var recoveries: map<string, seq<Recovery>>

    ghost function Tables(): Store
      reads this
    {
      Store(rows, intents, events, recoveries)
    }

    constructor ()
      ensures Tables() == EMPTY
    {
      rows, intents, events, recoveries := [], {}, map[], map[];
    }

    method AppendEvent(id: string, state: State, at: int)
      modifies this`events
      ensures Tables() == Append(old(Tables()), id, state, at)
    {
      var past, sequence := [], 1;
      if id in events {
        past := events[id];
        if |past| > 0 {
          sequence := past[|past| - 1].sequence + 1;
        }
      }
      events := events[id := past + [Entry(sequence, state, at)]];
    }

    method SetRow(i: nat, row: Row, at: int)
      requires i < |rows| && row.settlementId == rows[i].settlementId
      modifies this`rows, this`events
      ensures Tables() == Write(old(Tables()), i, row, at)
    {
      rows := rows[i := row.(updatedAt := at)];
      AppendEvent(row.settlementId, row.state, at);
    }

    method RegisterRequest(q: SettlementRequest, c: Channel, at: int) returns (reply: Reply)
      modifies this
      ensures (Tables(), reply) == Apply(old(Tables()), Register(q, c, at))
    {
      var known := FirstIndex(rows, HasId(q.settlementId));
      if known < |rows| {
        if rows[known].request != q {
          return Refused(IdempotencyConflict);
        }
        return Done(rows[known]);
      }
      var bad := ValidateRequest(q, c, at);
      if bad.Some? {
        return Refused(bad.value);
      }
      var existing := FirstIndex(rows, Collides(q));
      if existing < |rows| {
        if rows[existing].request != q {
          return Refused(IdempotencyConflict);
        }
        return Done(rows[existing]);
      }
      var full := CheckReservation(Store(rows, intents, events, recoveries), q);
      if full.Some? {
        return Refused(full.value);
      }
      InsertRow(q, at);
      reply := Done(rows[|rows| - 1]);
    }

    /** INSERT as requested, then mark validated, journalling both. */
    method InsertRow(q: SettlementRequest, at: int)
      modifies this`rows, this`events
      ensures var row := Row(q.settlementId, q, Validated, None, None, None, None, at);
              Tables() == Append(Append(old(Tables()).(rows := old(rows) + [row]), q.settlementId, Requested, at),
                                 q.settlementId, Validated, at)
    {
      var row := Row(q.settlementId, q, Requested, None, None, None, None, at);
      rows := rows + [row];
      AppendEvent(q.settlementId, Requested, at);
      rows := rows[|rows| - 1 := row.(state := Validated)];
      AppendEvent(q.settlementId, Validated, at);
    }

    method CommitExecution(id: string, p: Prepared, signer: string, at: int) returns (reply: Reply)
      modifies this
      ensures (Tables(), reply) == Apply(old(Tables()), Commit(id, p, signer, at))
    {
      var i := FirstIndex(rows, HasId(id));
      if i == |rows| {
        return Refused(SettlementNotFound);
      }
      var row := rows[i];
      if at < row.updatedAt {
        return Refused(JournalTimeRegressed);
      }
      if row.state in {Requested, Rejected, FailedBeforeSubmission} {
        return Refused(InvalidState);
      }
      var binding := BindExecution(row, p, signer, at);
      if binding.Err? {
        return Refused(binding.error);
      }
      if !row.state.Validated? {
        if row.commitment != Some(binding.value) {
          return Refused(CommitmentConflict);
        }
        return Done(row);
      }
      SetRow(i, row.(state := ExecutionCommitted, commitment := Some(binding.value)), at);
      reply := Done(rows[i]);
    }

    method RecordAuthorization(id: string, a: Authorization, verified: bool, at: int) returns (reply: Reply)
      modifies this
      ensures (Tables(), reply) == Apply(old(Tables()), Authorize(id, a, verified, at))
    {
      if !a.wellFormed {
        return Refused(MalformedAuthorization);
      }
      if a.issuedAt > at || a.expiresAt <= at || a.expiresAt <= a.issuedAt {
        return Refused(AuthorizationExpired);
      }
      if !verified {
        return Refused(AuthorizationInvalid);
      }
      var i := FirstIndex(rows, HasId(id));
      if i == |rows| {
        return Refused(SettlementNotFound);
      }
      var row := rows[i];
      if at < row.updatedAt {
        return Refused(JournalTimeRegressed);
      }
      if row.state.Authorized? {
        if row.authorization != Some(a) {
          return Refused(AuthorizationConflict);
        }
        return Done(row);
      }
      if !row.state.ExecutionCommitted? || row.commitment.None? {
        return Refused(InvalidState);
      }
      var c := row.commitment.value;
      if a.executionRequestId != c.executionRequestId || a.commitment != c.commitment
         || a.messageHash != c.messageHash || a.signer != c.expectedSigner {
        return Refused(AuthorizationBindingMismatch);
      }
      if a.expiresAt > c.expiresAt {
        return Refused(AuthorizationOutlivesCommitment);
      }
      SetRow(i, row.(state := Authorized, authorization := Some(a)), at);
      reply := Done(rows[i]);
    }

    /** The first transaction of submit. */
    method PersistIntent(id: string, executorId: string, at: int) returns (reply: Reply)
      modifies this
      ensures (Tables(), reply) == DoSubmitIntent(old(Tables()), id, executorId, at)
      ensures reply.Done? ==> reply.row.authorization.Some?
    {
      var i := FirstIndex(rows, HasId(id));
      if i == |rows| {
        return Refused(SettlementNotFound);
      }
      var row := rows[i];
      if at < row.updatedAt {
        return Refused(JournalTimeRegressed);
      }
      if row.state in {Submitted, Confirming, Reconciling, Completed, InRecovery, InReview, InDispute} {
        return Refused(SubmissionAlreadyAttempted);
      }
      if !row.state.Authorized? || row.commitment.None? || row.authorization.None? {
        return Refused(InvalidState);
      }
      if at >= row.authorization.value.expiresAt {
        return Refused(AuthorizationExpired);
      }
      if at >= row.commitment.value.expiresAt {
        return Refused(Refusal.PreparedExpired);
      }
      if executorId != row.commitment.value.executorId {
        return Refused(ExecutorMismatch);
      }
      if id in intents {
        return Refused(SubmissionAlreadyAttempted);
      }
      intents := intents + {id};
      SetRow(i, row.(state := Submitted), at);
      reply := Done(rows[i]);
    }

    /** The last transaction of submit. */
    method PersistTechnical(id: string, t: Technical, at: int) returns (reply: Reply)
      modifies this
      ensures (Tables(), reply) == DoPersist(old(Tables()), id, t, at)
    {
      var i := FirstIndex(rows, HasId(id));
      if i == |rows| {
        return Refused(SettlementNotFound);
      }
      var row := rows[i];
      if !row.state.Submitted? {
        return Refused(InvalidState);
      }
      var target := PersistTarget(t.outcome);
      SetRow(i, row.(signature := t.signature, state := if target.Reconciling? then Confirming else target), at);
      if target.Reconciling? {
        SetRow(i, rows[i].(state := Reconciling), at);
      }
      reply := Done(rows[i]);
    }

    /** Persists one intent, calls the executor once, and persists what came of it. */
    method Submit(id: string, executor: FakeExternalExecutor, at: int, responseLost: bool) returns (reply: Reply)
      modifies this, executor
      ensures var (s, intent) := DoSubmitIntent(old(Tables()), id, executor.executorId, at);
              if intent.Refused? then
                Tables() == old(Tables()) && executor.Durable() == old(executor.Durable()) && reply == intent
              else
                && intent.row.authorization.Some?
                && var (x, answer) := DoExecute(old(executor.Durable()), intent.row.authorization.value, at);
                   && executor.Durable() == x
                   && (Tables(), reply) == DoPersist(s, id, TechnicalFrom(intent.row, answer, responseLost), at)
      ensures var i := Find(old(Tables()), id);
              DoSubmitIntent(old(Tables()), id, executor.executorId, at).1.Done? ==>
                && i < |old(rows)| == |rows| && old(rows)[i].authorization.Some? && rows == old(rows)[i := rows[i]]
                && var answer := DoExecute(old(executor.Durable()), old(rows)[i].authorization.value, at).1;
                   SubmittedAs(old(rows)[i], rows[i], answer, responseLost, at) && reply == Done(rows[i])
    {
      ghost var s := Tables();
      reply := PersistIntent(id, executor.executorId, at);
      if reply.Refused? {
        return;
      }
      var row := reply.row;
      var answer := executor.AuthorizeAndExecute(row.authorization.value, at);
      reply := PersistTechnical(id, TechnicalFrom(row, answer, responseLost), at);
      SubmitsExactly(s, Find(s, id), id, executor.executorId, at, answer, responseLost, Tables(), reply);
    }

    method RecordRecovered(id: string, outcome: RecoveryOutcome, signature: Option<Signature>, at: int)
      returns (reply: Reply)
      modifies this
      ensures (Tables(), reply) == DoRecordRecovery(old(Tables()), id, outcome, signature, at)
    {
      var i := FirstIndex(rows, HasId(id));
      if i == |rows| {
        return Refused(SettlementNotFound);
      }
      var past := [];
      if id in recoveries {
        past := recoveries[id];
      }
      var count := 0;
      if id in intents {
        count := 1;
      }
      recoveries := recoveries[id := past + [Recovery(|past| + 1, outcome, signature, count)]];
      var next := rows[i].(state := RecoveryTarget(outcome),
        signature := if signature.Some? then signature else rows[i].signature);
      SetRow(i, next, at);
      reply := Done(next.(updatedAt := at));
    }

    /** Asks for the status of the one submission; never submits again. */
    method Recover(id: string, executor: FakeExternalExecutor, at: int, unreachable: bool) returns (reply: Reply)
      modifies this
      ensures var i := Find(old(Tables()), id);
              var row := if i < |old(rows)| then Some(old(rows)[i]) else None;
              if row.Some? && row.value.state.Recoverable() && row.value.commitment.Some?
                 && row.value.commitment.value.executorId == executor.executorId then
                var th := RecordingFrom(id, DoRecover(executor.Durable(), row.value.request.executionRequestId),
                  unreachable);
                th.Recording? && (Tables(), reply) == DoRecordRecovery(old(Tables()), id, th.outcome, th.signature, at)
              else
                && Tables() == old(Tables())
                && reply == (if row.None? then Refused(SettlementNotFound)
                             else if row.value.state.Completed? then Done(row.value)
                             else if row.value.state.Recoverable() && row.value.commitment.Some? then
                               Refused(ExecutorMismatch)
                             else Refused(InvalidState))
    {
      var i := FirstIndex(rows, HasId(id));
      if i == |rows| {
        return Refused(SettlementNotFound);
      }
      var row := rows[i];
      if row.state.Completed? {
        return Done(row);
      }
      if !row.state.Recoverable() || row.commitment.None? {
        return Refused(InvalidState);
      }
      if row.commitment.value.executorId != executor.executorId {
        return Refused(ExecutorMismatch);
      }
      var answer := executor.Recover(row.request.executionRequestId);
      var th := RecordingFrom(id, answer, unreachable);
      reply := RecordRecovered(id, th.outcome, th.signature, at);
    }

    /** Records that providers disagree, without picking one. */
    method RecordProviderDivergence(id: string, providers: set<string>, idsOk: bool, at: int) returns (reply: Reply)
      modifies this
      ensures var i := Find(old(Tables()), id);
              if i < |old(rows)| && old(rows)[i].state.Recoverable() && |providers| >= 2 && idsOk then
                (Tables(), reply) == DoRecordRecovery(old(Tables()), id, ProviderDivergence, None, at)
              else
                && Tables() == old(Tables())
                && reply == Refused(if i == |old(rows)| then SettlementNotFound
                                    else if !old(rows)[i].state.Recoverable() then InvalidState
                                    else DivergenceUnproven)
    {
      var i := FirstIndex(rows, HasId(id));
      if i == |rows| {
        return Refused(SettlementNotFound);
      }
      if !rows[i].state.Recoverable() {
        return Refused(InvalidState);
      }
      if |providers| < 2 || !idsOk {
        return Refused(DivergenceUnproven);
      }
      reply := RecordRecovered(id, ProviderDivergence, None, at);
    }

    method ReconcileSettlement(id: string, os: seq<Observation>, vouched: set<Observation>, at: int)
      returns (reply: Reply)
      modifies this
      ensures (Tables(), reply) == Apply(old(Tables()), Reconcile(id, os, vouched, at))
    {
      var bad := ValidateObservations(os, vouched);
      if bad.Some? {
        return Refused(bad.value);
      }
      var diverged := Diverge(os);
      var i := FirstIndex(rows, HasId(id));
      if i == |rows| {
        return Refused(SettlementNotFound);
      }
      var row := rows[i];
      if at < row.updatedAt {
        return Refused(JournalTimeRegressed);
      }
      if row.state.Completed? {
        return Done(row);
      }
      if !(row.state.Reconciling? || row.state.InReview? || row.state.InDispute?) {
        return Refused(InvalidState);
      }
      if diverged {
        SetRow(i, row.(state := InDispute), at);
        return Done(rows[i]);
      }
      var mismatches := FindMismatches(row, os);
      if mismatches != [] {
        SetRow(i, row.(state := InReview), at);
        return Done(rows[i]);
      }
      var receipt := Receipt(SettledAfter(row.request), row.request.vaultBefore - row.request.requested,
        row.signature, os, at);
      SetRow(i, row.(state := Completed, receipt := Some(receipt)), at);
      reply := Done(rows[i]);
    }
  }
}
