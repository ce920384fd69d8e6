/** The refund journal as an object over its two tables. */
module RefundRuntime {
  import opened Tables
  import opened Journals
  import opened Channels
  import opened ClosePipeline
  import opened RefundStore

  class ClosureRuntime {
    var refunds: seq<RefundRow>
    var events: map<string, seq<Entry<OperationState>>>

    ghost function State(): Store
      reads this
    {
      Store(refunds, events)
    }

    constructor ()
      ensures State() == EMPTY
    {
      refunds, events := [], map[];
    }

    method AppendEvent(id: string, state: OperationState, at: int)
      modifies this`events
      ensures State() == Append(old(State()), id, state, at)
    {
      var sequence, past := 1, [];
      if id in events {
        past := events[id];
        if |past| > 0 {
          sequence := past[|past| - 1].sequence + 1;
        }
      }
      events := events[id := past + [Entry(sequence, state, at)]];
    }

    method WriteRow(i: nat, row: RefundRow, at: int) returns (reply: Reply)
      requires i < |refunds| && row.refundId == refunds[i].refundId
      modifies this
      ensures State() == Write(old(State()), i, row, at)
      ensures reply == Record(row.(updatedAt := at))
    {
      refunds := refunds[i := row.(updatedAt := at)];
      AppendEvent(row.refundId, row.state, at);
      reply := Record(refunds[i]);
    }

    method RegisterRefund(q: RefundRequest, f: FreezeSnapshot, operations: seq<OperationState>, at: int)
      returns (reply: Reply)
      modifies this
      ensures (State(), reply) == Step(old(State()), Register(q, f, operations, at))
    {
      var projection := ProjectRefund(q, f, at, operations);
      if projection.Err? {
        return Refused(ProjectionRefused(projection.error));
      }
      var p, scope := projection.value, ScopeOf(q);
      var existing := FirstIndex(refunds, Collides(q));
      if existing < |refunds| {
        if refunds[existing].request != q {
          return Refused(IdempotencyConflict);
        }
        return Record(refunds[existing]);
      }
      var reserved := SumBy(refunds, ReservedAmount(scope));
      var highWater := MaxBy(refunds, CompletedAfter(scope));
      if p.refundedBefore < highWater {
        return Refused(StaleFreezeSnapshot);
      }
      if reserved + p.requested > p.maximum {
        return Refused(AggregateRefundExceedsUnallocated);
      }
      if p.maximum > I64_MAX || p.refundedAfter > I64_MAX {
        return Refused(IntegerOverflow);
      }
      var row := RefundRow(q.refundId, q, p, Validated, None, 0, None, None, None, at);
      refunds := refunds + [row];
      AppendEvent(q.refundId, Validated, at);
      reply := Record(row);
    }

    method CommitExecution(id: string, c: Commitment, at: int) returns (reply: Reply)
      modifies this
      ensures (State(), reply) == Step(old(State()), Commit(id, c, at))
    {
      if !c.wellFormed {
        return Refused(MalformedCommitment);
      }
      if at >= c.expiresAt {
        return Refused(CommitmentExpired);
      }
      var i := FirstIndex(refunds, HasId(id));
      if i == |refunds| {
        return Refused(RefundNotFound);
      }
      var row := refunds[i];
      if row.state.ExecutionCommitted? {
        if row.commitment != Some(c) {
          return Refused(CommitmentConflict);
        }
        return Record(row);
      }
      if !row.state.Validated? {
        return Refused(CommitmentStateInvalid);
      }
      if c.request != row.request || c.projection != row.projection {
        return Refused(CommitmentMismatch);
      }
      reply := WriteRow(i, row.(state := ExecutionCommitted, commitment := Some(c)), at);
    }

    method SubmitIntent(id: string, at: int) returns (reply: Reply)
      modifies this
      ensures (State(), reply) == Step(old(State()), RecordSubmitIntent(id, at))
    {
      var i := FirstIndex(refunds, HasId(id));
      if i == |refunds| {
        return Refused(RefundNotFound);
      }
      var row := refunds[i];
      if row.state in {Submitted, InRecovery, Reconciling, Completed} {
        return Record(row);
      }
      if !row.state.ExecutionCommitted? {
        return Refused(SubmitStateInvalid);
      }
      reply := WriteRow(i, row.(state := Submitted, submitIntents := 1), at);
    }

    method TechnicalResult(id: string, r: TechnicalReceipt, at: int) returns (reply: Reply)
      modifies this
      ensures (State(), reply) == Step(old(State()), RecordTechnicalReceipt(id, r, at))
    {
      if !r.wellFormed {
        return Refused(MalformedReceipt);
      }
      var i := FirstIndex(refunds, HasId(id));
      if i == |refunds| {
        return Refused(RefundNotFound);
      }
      var row := refunds[i];
      if row.receipt.Some? {
        if row.receipt != Some(r) {
          return Refused(ReceiptConflict);
        }
        return Record(row);
      }
      var bad := CheckReceipt(row, r);
      if bad.Some? {
        return Refused(bad.value);
      }
      var state := InReview;
      if r.outcome.Unknown? {
        state := InRecovery;
      } else if r.outcome.Accepted? {
        state := Reconciling;
      }
      reply := WriteRow(i, row.(state := state, receipt := Some(r), signature := r.signature), at);
    }

    method ReconcileRefund(id: string, o: Observation, verified: bool, at: int) returns (reply: Reply)
      modifies this
      ensures (State(), reply) == Step(old(State()), Reconcile(id, o, verified, at))
    {
      if !o.wellFormed || o.signature == "" {
        return Refused(MalformedObservation);
      }
      if !verified {
        return Refused(ObservationUnverified);
      }
      var i := FirstIndex(refunds, HasId(id));
      if i == |refunds| {
        return Refused(RefundNotFound);
      }
      var row := refunds[i];
      if row.state.Completed? {
        return Record(row);
      }
      if !(row.state.Reconciling? || row.state.InRecovery?) {
        return Refused(ReconciliationStateInvalid);
      }
      var highWater := MaxBy(refunds, CompletedAfter(ScopeOf(row.request)));
      if row.projection.refundedBefore < highWater {
        reply := WriteRow(i, row.(state := InReview), at);
        return Refused(OverlappingRefundInterval);
      }
      if !Matches(row, o) {
        reply := WriteRow(i, row.(state := InReview), at);
        return Refused(ReconciliationMismatch);
      }
      if row.signature != Some(o.signature) {
        return Refused(ReconciliationSignatureMismatch);
      }
      reply := WriteRow(i, row.(state := Completed, reconciled := Some(o)), at);
    }

    method RecoveredSignature(id: string, signature: string, responseHashOk: bool, at: int) returns (reply: Reply)
      modifies this
      ensures (State(), reply) == Step(old(State()), RecordRecoveredSignature(id, signature, responseHashOk, at))
    {
      if signature == "" || !responseHashOk {
        return Refused(RecoveredSignatureMissing);
      }
      var i := FirstIndex(refunds, HasId(id));
      if i == |refunds| {
        return Refused(RefundNotFound);
      }
      var row := refunds[i];
      if row.state.Reconciling? {
        if row.signature != Some(signature) {
          return Refused(RecoverySignatureConflict);
        }
        return Record(row);
      }
      if !row.state.InRecovery? {
        return Refused(RecoveryStateInvalid);
      }
      if row.submitIntents != 1 {
        return Refused(SubmitIntentMissing);
      }
      reply := WriteRow(i, row.(state := Reconciling, signature := Some(signature)), at);
    }

    method ProviderDivergence(id: string, providers: set<string>, idsOk: bool, at: int) returns (reply: Reply)
      modifies this
      ensures (State(), reply) == Step(old(State()), RecordProviderDivergence(id, providers, idsOk, at))
    {
      if !idsOk || |providers| < 2 {
        return Refused(DivergenceUnproven);
      }
      var i := FirstIndex(refunds, HasId(id));
      if i == |refunds| {
        return Refused(RefundNotFound);
      }
      if refunds[i].state !in {InRecovery, Reconciling, InReview} {
        return Refused(DivergenceStateInvalid);
      }
      reply := WriteRow(i, refunds[i].(state := InDispute), at);
    }

    method Release(id: string, target: OperationState, at: int) returns (reply: Reply)
      modifies this
      ensures (State(), reply) == Step(old(State()), ReleaseBeforeSubmission(id, target, at))
    {
      if !target.Releasing() || target.Completed? {
        return Refused(InvalidReleaseState);
      }
      var i := FirstIndex(refunds, HasId(id));
      if i == |refunds| {
        return Refused(RefundNotFound);
      }
      var row := refunds[i];
      if row.submitIntents != 0 || !row.state.Validated? {
        return Refused(ReleaseAfterSubmissionForbidden);
      }
      reply := WriteRow(i, row.(state := target), at);
    }
  }
}
