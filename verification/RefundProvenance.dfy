/** In every run, whatever a refund shows was put there by a call that was entitled to. */
module RefundProvenance {
  import opened Tables
  import opened Channels
  import opened ClosePipeline
  import opened RefundStore
  import opened RefundTheorems
  import opened RefundAnswers

  /** What a refund shows and the state it is in both come from calls of the run. */
  ghost predicate Traced(row: RefundRow, calls: seq<Call>) { Recorded(row, calls) && Explained(row, calls) }

  /** Each thing recorded of a refund, with the call of the run that recorded it. */
  ghost predicate Recorded(row: RefundRow, calls: seq<Call>)
  {
    && Projected(row.request, row.projection, calls)
    && (row.commitment.Some? ==> BoundBy(row.refundId, row.commitment.value, calls))
    && (row.submitIntents > 0 ==> exists at :: RecordSubmitIntent(row.refundId, at) in calls)
    && (row.receipt.Some? ==> exists at :: RecordTechnicalReceipt(row.refundId, row.receipt.value, at) in calls)
    && (row.signature.Some? ==>
          || (row.receipt.Some? && row.receipt.value.signature == row.signature)
          || (exists at :: RecordRecoveredSignature(row.refundId, row.signature.value, true, at) in calls))
    && (row.reconciled.Some? ==> exists at :: Reconcile(row.refundId, row.reconciled.value, true, at) in calls)
  }

  ghost predicate Projected(q: RefundRequest, p: RefundProjection, calls: seq<Call>)
  {
    exists f, operations, at :: Register(q, f, operations, at) in calls && ProjectRefund(q, f, at, operations) == Ok(p)
  }

  ghost predicate BoundBy(id: string, c: Commitment, calls: seq<Call>)
  {
    exists at :: Commit(id, c, at) in calls && at < c.expiresAt
  }

  /** A refund is under review, disputed or released because a call of the run said so. */
  ghost predicate Explained(row: RefundRow, calls: seq<Call>)
  {
    match row.state
    case InReview =>
      || (row.receipt.Some? && row.receipt.value.outcome.Rejected?)
      || (exists o, at :: Reconcile(row.refundId, o, true, at) in calls)
    case InDispute =>
      exists providers, at :: RecordProviderDivergence(row.refundId, providers, true, at) in calls && |providers| >= 2
    case InRecovery => row.receipt.Some? && row.receipt.value.outcome.Unknown?
    case Completed => row.signature.Some? && row.reconciled == Some(Showing(row, row.signature.value))
    case RejectedBeforeSubmission | FailedBeforeSubmission | CancelledBeforeAuthorization =>
      exists at :: ReleaseBeforeSubmission(row.refundId, row.state, at) in calls
    case _ => true
  }

  ghost predicate AllTraced(rows: seq<RefundRow>, calls: seq<Call>)
  {
    forall i :: 0 <= i < |rows| ==> Traced(rows[i], calls)
  }

  lemma StillTraced(row: RefundRow, past: seq<Call>, call: Call)
    requires Traced(row, past)
    ensures Traced(row, past + [call])
  {
    assert forall c :: c in past ==> c in past + [call];
  }

  lemma MoveIsRecorded(row: RefundRow, next: RefundRow, high: nat, calls: seq<Call>, call: Call)
    requires Recorded(row, calls) && Does(call, row, next, high) && row.refundId == call.id && call in calls
    ensures Recorded(next, calls)
  {
  }

  lemma MoveIsExplained(row: RefundRow, next: RefundRow, high: nat, calls: seq<Call>, call: Call)
    requires Does(call, row, next, high) && row.refundId == call.id && call in calls
    ensures Explained(next, calls)
  {
  }

  lemma MoveIsTraced(row: RefundRow, next: RefundRow, high: nat, past: seq<Call>, call: Call)
    requires Traced(row, past) && Does(call, row, next, high) && row.refundId == call.id
    ensures Traced(next, past + [call])
  {
    StillTraced(row, past, call);
    assert call in past + [call];
    MoveIsRecorded(row, next, high, past + [call], call);
    MoveIsExplained(row, next, high, past + [call], call);
  }

  lemma FreshIsTraced(call: Call, p: RefundProjection, calls: seq<Call>)
    requires call.Register? && call in calls
    requires ProjectRefund(call.request, call.freeze, call.at, call.operations) == Ok(p)
    ensures Traced(Fresh(call.request, p, call.at), calls)
  {
    assert call == Register(call.request, call.freeze, call.operations, call.at);
  }

  lemma RegistrationIsTraced(s: Store, call: Call, past: seq<Call>, s': Store)
    requires call.Register? && AllTraced(s.refunds, past) && s' != s
    requires s' == DoRegister(s, call.request, call.freeze, call.operations, call.at).0
    ensures AllTraced(s'.refunds, past + [call])
  {
    var projection := ProjectRefund(call.request, call.freeze, call.at, call.operations);
    RegistersExactly(s, call.request, call.freeze, call.operations, call.at, s',
                     DoRegister(s, call.request, call.freeze, call.operations, call.at).1);
    FreshIsTraced(call, projection.value, past + [call]);
    InsertionIsTraced(s.refunds, Fresh(call.request, projection.value, call.at), past, call);
  }

  lemma InsertionIsTraced(rows: seq<RefundRow>, row: RefundRow, past: seq<Call>, call: Call)
    requires AllTraced(rows, past) && Traced(row, past + [call])
    ensures AllTraced(rows + [row], past + [call])
  {
    forall i | 0 <= i < |rows| ensures Traced(rows[i], past + [call]) {
      StillTraced(rows[i], past, call);
    }
  }

  lemma StepIsTraced(s: Store, call: Call, past: seq<Call>)
    requires AllTraced(s.refunds, past)
    ensures AllTraced(Step(s, call).0.refunds, past + [call])
  {
    var s' := Step(s, call).0;
    if s' == s {
      forall i | 0 <= i < |s.refunds| ensures Traced(s.refunds[i], past + [call]) {
        StillTraced(s.refunds[i], past, call);
      }
    } else if call.Register? {
      RegistrationIsTraced(s, call, past, s');
    } else {
      UpdateIsTraced(s, call, past, s');
    }
  }

  lemma AnsweredIsOwn(s: Store, call: Call, k: nat, i: nat, s': Store, reply: Reply)
    requires !call.Register? && k < |s.refunds| && s.refunds[k].refundId == call.id && i < |s'.refunds|
    requires Answered(s, call, k, s'.refunds[i], s', reply)
    ensures i < |s.refunds|
    ensures s'.refunds[i] != s.refunds[i] ==>
              i == k && Does(call, s.refunds[i], s'.refunds[i], HighWater(s, ScopeOf(s.refunds[i].request)))
  {
  }

  /** A call changes no refund but the one it names, and that one as it is entitled to. */
  lemma MovesItsOwn(s: Store, call: Call, i: nat, s': Store)
    requires !call.Register? && s' == Step(s, call).0 && i < |s'.refunds|
    ensures i < |s.refunds|
    ensures s'.refunds[i] != s.refunds[i] ==>
              && call.id == s.refunds[i].refundId
              && Does(call, s.refunds[i], s'.refunds[i], HighWater(s, ScopeOf(s.refunds[i].request)))
  {
    var k := Find(s, call.id);
    if k == |s.refunds| {
      UnknownIsRefused(s, call);
    } else {
      AnswersExactly(s, call, k, s'.refunds[i]);
      AnsweredIsOwn(s, call, k, i, s', Step(s, call).1);
    }
  }

  lemma UpdateIsTraced(s: Store, call: Call, past: seq<Call>, s': Store)
    requires AllTraced(s.refunds, past) && !call.Register? && s' == Step(s, call).0
    ensures AllTraced(s'.refunds, past + [call])
  {
    forall k | 0 <= k < |s'.refunds| ensures Traced(s'.refunds[k], past + [call]) {
      MovesItsOwn(s, call, k, s');
      if s'.refunds[k] == s.refunds[k] {
        StillTraced(s.refunds[k], past, call);
      } else {
        MoveIsTraced(s.refunds[k], s'.refunds[k], HighWater(s, ScopeOf(s.refunds[k].request)), past, call);
      }
    }
  }

  /** From tables already traced, every run leaves each refund traced to the calls made. */
  lemma {:induction false} RunIsTraced(s: Store, past: seq<Call>, calls: seq<Call>)
    requires AllTraced(s.refunds, past)
    ensures AllTraced(Run(s, calls).refunds, past + calls)
    decreases |calls|
  {
    if |calls| == 0 {
      assert past + calls == past;
    } else {
      StepIsTraced(s, calls[0], past);
      RunIsTraced(Step(s, calls[0]).0, past + [calls[0]], calls[1..]);
      assert past + [calls[0]] + calls[1..] == past + calls;
    }
  }

  /** The vouched observation of exactly this refund that completed it. */
  ghost predicate CompletedByCall(row: RefundRow, calls: seq<Call>)
  {
    && row.signature.Some? && row.reconciled == Some(Showing(row, row.signature.value))
    && exists at :: Reconcile(row.refundId, row.reconciled.value, true, at) in calls
  }

  lemma TracedCompletion(row: RefundRow, calls: seq<Call>)
    requires Traced(row, calls) && row.state.Completed?
    ensures CompletedByCall(row, calls)
  {
  }

  /** In every run, a completed refund was completed by an observation of exactly it that the verifier vouched for. */
  lemma CompletedWasVerified(calls: seq<Call>, i: nat)
    requires i < |Run(EMPTY, calls).refunds| && Run(EMPTY, calls).refunds[i].state.Completed?
    ensures CompletedByCall(Run(EMPTY, calls).refunds[i], calls)
  {
    RunIsTraced(EMPTY, [], calls);
    assert [] + calls == calls;
    TracedCompletion(Run(EMPTY, calls).refunds[i], calls);
  }

  /** Only a vouched observation completes: it is the very observation recorded. */
  lemma CompletionIsReconciliation(s: Store, call: Call, i: nat)
    requires i < |s.refunds| && !s.refunds[i].state.Completed?
    requires i < |Step(s, call).0.refunds| && Step(s, call).0.refunds[i].state.Completed?
    ensures call.Reconcile? && call.id == s.refunds[i].refundId && call.verified
    ensures Step(s, call).0.refunds[i].reconciled == Some(call.observation)
  {
    if call.Register? {
      RegistersExactly(s, call.request, call.freeze, call.operations, call.at, Step(s, call).0, Step(s, call).1);
    } else {
      MovesItsOwn(s, call, i, Step(s, call).0);
    }
  }

  /** Without the verifier's word, reconciliation writes nothing. */
  lemma UnverifiedWritesNothing(s: Store, id: string, o: Observation, at: int)
    ensures Step(s, Reconcile(id, o, false, at)).0 == s
    ensures Step(s, Reconcile(id, o, false, at)).1 in {Refused(MalformedObservation), Refused(ObservationUnverified)}
  {
  }
}
