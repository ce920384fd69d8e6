/** Exactly when the reservations of a scope are safe from every continuation of the run. */
module RefundExactness {
  import opened Tables
  import opened Channels
  import opened ClosePipeline
  import opened RefundStore
  import opened RefundTheorems
  import opened RefundConservation

  lemma FindAt(s: Store, i: nat)
    requires DistinctIds(s.refunds) && i < |s.refunds|
    ensures Find(s, s.refunds[i].refundId) == i
  {
  }

  /** How far a refund is from completion. */
  function Distance(state: OperationState): nat
  {
    match state
    case Validated => 4
    case ExecutionCommitted => 3
    case Submitted => 2
    case InRecovery => 2
    case Reconciling => 1
    case _ => 0
  }

  predicate Advances(row: RefundRow, next: RefundRow)
  {
    && next.refundId == row.refundId && next.request == row.request && next.projection == row.projection
    && (if row.state.Reconciling? then next.state.Completed?
        else next.state in {ExecutionCommitted, Submitted, Reconciling} && Distance(next.state) < Distance(row.state))
  }

  lemma CommitAdvances(s: Store, i: nat) returns (call: Call, next: RefundRow)
    requires i < |s.refunds| && Find(s, s.refunds[i].refundId) == i && s.refunds[i].state.Validated?
    requires RowSound(s.refunds[i])
    ensures Step(s, call).0.refunds == s.refunds[i := next] && Advances(s.refunds[i], next) && RowSound(next)
  {
    var row := s.refunds[i];
    var c := Commitment.Commitment(true, row.request, row.projection, "execution", "commitment", "executor", 1);
    call := Commit(row.refundId, c, 0);
    next := row.(state := ExecutionCommitted, commitment := Some(c), updatedAt := 0);
    assert Step(s, call) == DoCommit(s, row.refundId, c, 0);
  }

  lemma SubmitAdvances(s: Store, i: nat) returns (call: Call, next: RefundRow)
    requires i < |s.refunds| && Find(s, s.refunds[i].refundId) == i && s.refunds[i].state.ExecutionCommitted?
    requires RowSound(s.refunds[i])
    ensures Step(s, call).0.refunds == s.refunds[i := next] && Advances(s.refunds[i], next) && RowSound(next)
  {
    var row := s.refunds[i];
    call := RecordSubmitIntent(row.refundId, 0);
    next := row.(state := Submitted, submitIntents := 1, updatedAt := 0);
    assert Step(s, call) == DoSubmitIntent(s, row.refundId, 0);
  }

  lemma ReceiptAdvances(s: Store, i: nat) returns (call: Call, next: RefundRow)
    requires i < |s.refunds| && Find(s, s.refunds[i].refundId) == i && s.refunds[i].state.Submitted?
    requires RowSound(s.refunds[i])
    ensures Step(s, call).0.refunds == s.refunds[i := next] && Advances(s.refunds[i], next) && RowSound(next)
  {
    var row := s.refunds[i];
    var c := row.commitment.value;
    var r := TechnicalReceipt(true, row.refundId, row.request, c.executionRequestId, c.executionCommitmentHash,
                              Accepted, SignatureKnown, Some("signature"));
    call := RecordTechnicalReceipt(row.refundId, r, 0);
    next := row.(state := Reconciling, receipt := Some(r), signature := Some("signature"), updatedAt := 0);
    assert Step(s, call) == DoReceipt(s, row.refundId, r, 0);
  }

  lemma RecoveryAdvances(s: Store, i: nat) returns (call: Call, next: RefundRow)
    requires i < |s.refunds| && Find(s, s.refunds[i].refundId) == i && s.refunds[i].state.InRecovery?
    requires RowSound(s.refunds[i])
    ensures Step(s, call).0.refunds == s.refunds[i := next] && Advances(s.refunds[i], next) && RowSound(next)
  {
    var row := s.refunds[i];
    call := RecordRecoveredSignature(row.refundId, "signature", true, 0);
    next := row.(state := Reconciling, signature := Some("signature"), updatedAt := 0);
    assert Step(s, call) == DoRecoveredSignature(s, row.refundId, "signature", true, 0);
  }

  lemma ReconcileAdvances(s: Store, i: nat) returns (call: Call, next: RefundRow)
    requires i < |s.refunds| && Find(s, s.refunds[i].refundId) == i && s.refunds[i].state.Reconciling?
    requires RowSound(s.refunds[i])
    requires HighWater(s, ScopeOf(s.refunds[i].request)) <= s.refunds[i].projection.refundedBefore
    ensures Step(s, call).0.refunds == s.refunds[i := next] && Advances(s.refunds[i], next) && RowSound(next)
  {
    var row := s.refunds[i];
    var q, p := row.request, row.projection;
    var o := Observation(true, q.domain, q.channel.channelId, q.channel.account, q.channel.epoch, q.channel.mint,
                         q.destination, row.refundId, q, p, row.signature.value, p.funded, p.activated, p.settled,
                         p.refundedBefore, p.refundedAfter, p.vaultBefore, p.vaultAfter);
    assert Matches(row, o);
    call := Reconcile(row.refundId, o, true, 0);
    next := row.(state := Completed, reconciled := Some(o), updatedAt := 0);
    assert Step(s, call) == DoReconcile(s, row.refundId, o, true, 0);
  }

  lemma Advance(s: Store, i: nat) returns (call: Call, s': Store, next: RefundRow)
    requires DistinctIds(s.refunds) && i < |s.refunds| && RowSound(s.refunds[i])
    requires CanComplete(s.refunds[i], ScopeOf(s.refunds[i].request), HighWater(s, ScopeOf(s.refunds[i].request)))
    ensures s' == Step(s, call).0 && s'.refunds == s.refunds[i := next]
    ensures DistinctIds(s'.refunds) && RowSound(next) && Advances(s.refunds[i], next)
  {
    var row := s.refunds[i];
    FindAt(s, i);
    if row.state.Validated? {
      call, next := CommitAdvances(s, i);
    } else if row.state.ExecutionCommitted? {
      call, next := SubmitAdvances(s, i);
    } else if row.state.Submitted? {
      call, next := ReceiptAdvances(s, i);
    } else if row.state.InRecovery? {
      call, next := RecoveryAdvances(s, i);
    } else {
      call, next := ReconcileAdvances(s, i);
    }
    s' := Step(s, call).0;
  }

  lemma StaysCompletable(s: Store, i: nat, next: RefundRow, s': Store)
    requires i < |s.refunds| && s'.refunds == s.refunds[i := next]
    requires Advances(s.refunds[i], next) && !next.state.Completed?
    requires CanComplete(s.refunds[i], ScopeOf(next.request), HighWater(s, ScopeOf(next.request)))
    ensures CanComplete(next, ScopeOf(next.request), HighWater(s', ScopeOf(next.request)))
    ensures Distance(next.state) < Distance(s.refunds[i].state)
  {
  }

  /** Some sequence of calls leads from one store to the other. */
  ghost predicate Reaches(s: Store, s': Store) { exists calls :: s' == Run(s, calls) }

  lemma ReachesNext(s: Store, call: Call, middle: Store, s': Store)
    requires middle == Step(s, call).0 && Reaches(middle, s')
    ensures Reaches(s, s')
  {
    var rest :| s' == Run(middle, rest);
    assert ([call] + rest)[1..] == rest;
    assert s' == Run(s, [call] + rest);
  }

  lemma ReachesSelf(s: Store)
    ensures Reaches(s, s)
  {
    assert s == Run(s, []);
  }

  /** A refund that no completed refund has overtaken, and that is not under review, can always be completed. */
  lemma {:induction false} DriveToCompletion(s: Store, i: nat) returns (s': Store, done: RefundRow)
    requires DistinctIds(s.refunds) && i < |s.refunds| && RowSound(s.refunds[i])
    requires CanComplete(s.refunds[i], ScopeOf(s.refunds[i].request), HighWater(s, ScopeOf(s.refunds[i].request)))
    ensures Reaches(s, s') && s'.refunds == s.refunds[i := done]
    ensures done.state.Completed? && done.request == s.refunds[i].request && done.projection == s.refunds[i].projection
    decreases Distance(s.refunds[i].state)
  {
    var call, middle, next := Advance(s, i);
    if next.state.Completed? {
      s', done := middle, next;
      ReachesSelf(middle);
    } else {
      StaysCompletable(s, i, next, middle);
      s', done := DriveToCompletion(middle, i);
      assert s.refunds[i := next][i := done] == s.refunds[i := done];
    }
    ReachesNext(s, call, middle, s');
  }

  /** An uncovered scope has a continuation, registering nothing, that breaks the bound. */
  lemma UncoveredBreaks(s: Store, scope: Scope, cap: nat) returns (s': Store)
    requires DistinctIds(s.refunds) && RowsSound(s.refunds) && !Covered(s, scope, cap)
    ensures Reaches(s, s') && |s'.refunds| == |s.refunds|
    ensures HighWater(s', scope) + Reserved(s', scope) > cap
  {
    if HighWater(s, scope) + Reserved(s, scope) > cap {
      s' := s;
      ReachesSelf(s);
    } else {
      var i :| 0 <= i < |s.refunds| && CanComplete(s.refunds[i], scope, HighWater(s, scope))
               && s.refunds[i].projection.refundedBefore + Reserved(s, scope) > cap;
      assert RowSound(s.refunds[i]);
      s' := CompletionBreaks(s, i, cap);
    }
  }

  lemma CompletionBreaks(s: Store, i: nat, cap: nat) returns (s': Store)
    requires DistinctIds(s.refunds) && i < |s.refunds| && RowSound(s.refunds[i])
    requires CanComplete(s.refunds[i], ScopeOf(s.refunds[i].request), HighWater(s, ScopeOf(s.refunds[i].request)))
    requires s.refunds[i].projection.refundedBefore + Reserved(s, ScopeOf(s.refunds[i].request)) > cap
    ensures Reaches(s, s') && |s'.refunds| == |s.refunds|
    ensures HighWater(s', ScopeOf(s.refunds[i].request)) + Reserved(s', ScopeOf(s.refunds[i].request)) > cap
  {
    var done;
    s', done := DriveToCompletion(s, i);
    CompletionAggregates(s, i, done, ScopeOf(s.refunds[i].request));
  }

  lemma CompletionAggregates(s: Store, i: nat, done: RefundRow, scope: Scope)
    requires i < |s.refunds| && RowSound(s.refunds[i]) && ScopeOf(s.refunds[i].request) == scope
    requires !s.refunds[i].state.Releasing() && done.state.Completed?
    requires done.request == s.refunds[i].request && done.projection == s.refunds[i].projection
    ensures var rows := s.refunds[i := done];
            && MaxBy(rows, CompletedAfter(scope)) >= done.projection.refundedBefore + done.projection.requested
            && SumBy(rows, ReservedAmount(scope)) == Reserved(s, scope) - done.projection.requested
            && SumBy(rows, CompletedAmount(scope)) == CompletedTotal(s, scope) + done.projection.requested
  {
    var rows := s.refunds[i := done];
    SumAfterUpdate(s.refunds, CompletedAmount(scope), i, done);
    SumAfterUpdate(s.refunds, ReservedAmount(scope), i, done);
    assert CompletedAfter(scope)(rows[i]) <= MaxBy(rows, CompletedAfter(scope));
  }

  lemma QuietChangeKeepsCovered(s: Store, change: Change, s': Store, at: int, scope: Scope, cap: nat)
    requires Good(s) && Applies(s, change, s', at) && Covered(s, scope, cap) && |s'.refunds| == |s.refunds|
    ensures Covered(s', scope, cap)
  {
    if change.Update? {
      assert RowSound(s.refunds[change.i]);
      MoveKeepsCovered(s, change.i, change.row, scope, cap);
    }
  }

  lemma {:induction false} CoveredSurvives(s: Store, calls: seq<Call>, scope: Scope, cap: nat)
    requires Good(s) && Covered(s, scope, cap) && |Run(s, calls).refunds| == |s.refunds|
    ensures Covered(Run(s, calls), scope, cap)
    decreases |calls|
  {
    if |calls| > 0 {
      var s', rest := Step(s, calls[0]).0, calls[1..];
      var change := StepChanges(s, calls[0]);
      StepPersists(s, calls[0]);
      RunPersists(s', rest);
      QuietChangeKeepsCovered(s, change, s', calls[0].at, scope, cap);
      StepKeepsGood(s, calls[0]);
      CoveredSurvives(s', rest, scope, cap);
    }
  }

  /**
   * The bound "completed plus reserved <= cap" survives every continuation that registers nothing new if and
   * only if each refund that could still complete would leave it intact.
   */
  lemma CoveredExactly(s: Store, scope: Scope, cap: nat)
    requires Good(s)
    ensures Covered(s, scope, cap) <==>
              forall s' :: Reaches(s, s') && |s'.refunds| == |s.refunds| ==>
                HighWater(s', scope) + Reserved(s', scope) <= cap
  {
    if Covered(s, scope, cap) {
      forall s' | Reaches(s, s') && |s'.refunds| == |s.refunds|
        ensures HighWater(s', scope) + Reserved(s', scope) <= cap
      {
        var calls :| s' == Run(s, calls);
        CoveredSurvives(s, calls, scope, cap);
      }
    } else {
      var s' := UncoveredBreaks(s, scope, cap);
    }
  }
}
