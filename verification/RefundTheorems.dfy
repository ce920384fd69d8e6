/** What every run of the refund journal keeps. */
module RefundTheorems {
  import opened Tables
  import opened Journals
  import opened Channels
  import opened ClosePipeline
  import opened RefundStore

  // ----- one call changes at most one row

  datatype Change = Nothing | Insert(row: RefundRow) | Update(i: nat, row: RefundRow)

  /** A fresh registration fits under the capacity its own snapshot leaves. */
  predicate Fits(s: Store, row: RefundRow)
  {
    var p, scope := row.projection, ScopeOf(row.request);
    && ProjectionOf(p, row.request.freeze) && row.refundId == row.request.refundId
    && HighWater(s, scope) <= p.refundedBefore
    && Reserved(s, scope) + p.requested <= p.maximum
    && row.state.Validated? && row.submitIntents == 0 && row.reconciled.None? && row.receipt.None?
    && (forall i :: 0 <= i < |s.refunds| ==> s.refunds[i].refundId != row.refundId)
  }

  /** One journalled move of a refund; `high` is the high-water mark of its scope before the move. */
  predicate Moves(row: RefundRow, next: RefundRow, high: nat)
  {
    && next.refundId == row.refundId && next.request == row.request && next.projection == row.projection
    && !row.state.Releasing()
    && Edge(row.state, next.state)
    && (next.state.Releasing() && !next.state.Completed? ==> row.submitIntents == 0)
    && next.submitIntents == (if next.state.Submitted? then 1 else row.submitIntents)
    && (next.state.ExecutionCommitted? ==> next.commitment.Some? && next.receipt == row.receipt)
    && (next.state.Submitted? ==> next.commitment == row.commitment && next.receipt == row.receipt)
    && (next.state.Reconciling? ==> next.signature.Some? && next.signature.value != "")
    && if next.state.Completed? then
         && high <= row.projection.refundedBefore
         && next.reconciled.Some? && Matches(row, next.reconciled.value)
         && next.signature == row.signature == Some(next.reconciled.value.signature)
       else
         next.reconciled == row.reconciled
  }

  /** The state graph of a refund. */
  predicate Edge(from: OperationState, to: OperationState)
  {
    match from
    case Validated => to.ExecutionCommitted? || (to.Releasing() && !to.Completed?)
    case ExecutionCommitted => to.Submitted?
    case Submitted => to.InRecovery? || to.Reconciling? || to.InReview?
    case InRecovery => to.Reconciling? || to.InReview? || to.InDispute? || to.Completed?
    case Reconciling => to.InReview? || to.InDispute? || to.Completed?
    case InReview => to.InDispute?
    case _ => false
  }

  predicate Applies(s: Store, change: Change, s': Store, at: int)
  {
    match change
    case Nothing => s' == s
    case Insert(row) =>
      Fits(s, row) && s' == Append(s.(refunds := s.refunds + [row]), row.refundId, row.state, at)
    case Update(i, row) =>
      && i < |s.refunds| && Moves(s.refunds[i], row, HighWater(s, ScopeOf(row.request)))
      && s' == Append(s.(refunds := s.refunds[i := row]), row.refundId, row.state, at)
  }

  lemma RegisterChanges(s: Store, q: RefundRequest, f: FreezeSnapshot, ops: seq<OperationState>, at: int)
    returns (change: Change)
    ensures Applies(s, change, DoRegister(s, q, f, ops, at).0, at)
  {
    var (s', reply) := DoRegister(s, q, f, ops, at);
    change := if s' == s then Nothing else Insert(reply.row);
  }

  lemma CommitChanges(s: Store, id: string, c: Commitment, at: int) returns (change: Change)
    ensures Applies(s, change, DoCommit(s, id, c, at).0, at)
  {
    var (s', i) := (DoCommit(s, id, c, at).0, Find(s, id));
    change := if s' == s then Nothing else Update(i, s'.refunds[i]);
  }

  lemma SubmitIntentChanges(s: Store, id: string, at: int) returns (change: Change)
    ensures Applies(s, change, DoSubmitIntent(s, id, at).0, at)
  {
    var (s', i) := (DoSubmitIntent(s, id, at).0, Find(s, id));
    change := if s' == s then Nothing else Update(i, s'.refunds[i]);
  }

  lemma ReceiptChanges(s: Store, id: string, r: TechnicalReceipt, at: int) returns (change: Change)
    ensures Applies(s, change, DoReceipt(s, id, r, at).0, at)
  {
    var (s', i) := (DoReceipt(s, id, r, at).0, Find(s, id));
    change := if s' == s then Nothing else Update(i, s'.refunds[i]);
  }

  lemma ReconcileChanges(s: Store, id: string, o: Observation, verified: bool, at: int) returns (change: Change)
    ensures Applies(s, change, DoReconcile(s, id, o, verified, at).0, at)
  {
    var (s', reply) := DoReconcile(s, id, o, verified, at);
    if s' == s {
      return Nothing;
    }
    var i := Find(s, id);
    var row := s.refunds[i];
    var next := if reply.Record? then row.(state := Completed, reconciled := Some(o)) else row.(state := InReview);
    assert s' == Write(s, i, next, at);
    assert Moves(row, next.(updatedAt := at), HighWater(s, ScopeOf(row.request)));
    change := Update(i, next.(updatedAt := at));
  }

  lemma RecoveredSignatureChanges(s: Store, id: string, signature: string, ok: bool, at: int) returns (change: Change)
    ensures Applies(s, change, DoRecoveredSignature(s, id, signature, ok, at).0, at)
  {
    var (s', i) := (DoRecoveredSignature(s, id, signature, ok, at).0, Find(s, id));
    change := if s' == s then Nothing else Update(i, s'.refunds[i]);
  }

  lemma DivergenceChanges(s: Store, id: string, providers: set<string>, ok: bool, at: int) returns (change: Change)
    ensures Applies(s, change, DoDivergence(s, id, providers, ok, at).0, at)
  {
    var (s', i) := (DoDivergence(s, id, providers, ok, at).0, Find(s, id));
    change := if s' == s then Nothing else Update(i, s'.refunds[i]);
  }

  lemma ReleaseChanges(s: Store, id: string, target: OperationState, at: int) returns (change: Change)
    ensures Applies(s, change, DoRelease(s, id, target, at).0, at)
  {
    var (s', i) := (DoRelease(s, id, target, at).0, Find(s, id));
    change := if s' == s then Nothing else Update(i, s'.refunds[i]);
  }

  /** Whatever the call and whether or not it is refused, at most one row changes, along the state graph. */
  lemma StepChanges(s: Store, call: Call) returns (change: Change)
    ensures Applies(s, change, Step(s, call).0, call.at)
  {
    match call
    case Register(q, f, operations, at) => change := RegisterChanges(s, q, f, operations, at);
    case Commit(id, c, at) => change := CommitChanges(s, id, c, at);
    case RecordSubmitIntent(id, at) => change := SubmitIntentChanges(s, id, at);
    case RecordTechnicalReceipt(id, r, at) => change := ReceiptChanges(s, id, r, at);
    case Reconcile(id, o, verified, at) => change := ReconcileChanges(s, id, o, verified, at);
    case RecordRecoveredSignature(id, signature, ok, at) =>
      change := RecoveredSignatureChanges(s, id, signature, ok, at);
    case RecordProviderDivergence(id, providers, ok, at) => change := DivergenceChanges(s, id, providers, ok, at);
    case ReleaseBeforeSubmission(id, target, at) => change := ReleaseChanges(s, id, target, at);
  }

  // ----- rows and journals

  /** A refund carries a submit intent exactly when it has gone past execution_committed. */
  predicate RowSound(row: RefundRow)
  {
    && row.refundId == row.request.refundId
    && ProjectionOf(row.projection, row.request.freeze)
    && row.submitIntents == (if Unsubmitted(row.state) then 0 else 1)
    && (row.state in {Validated, ExecutionCommitted, Submitted} ==> row.receipt.None?)
    && (row.state in {ExecutionCommitted, Submitted} ==> row.commitment.Some?)
    && (row.state.Reconciling? ==> row.signature.Some? && row.signature.value != "")
    && (row.state.Completed? <==> row.reconciled.Some?)
    && (row.state.Completed? ==>
          Matches(row, row.reconciled.value) && row.signature == Some(row.reconciled.value.signature))
  }

  predicate Unsubmitted(state: OperationState)
  {
    state.Validated? || state.ExecutionCommitted? || (state.Releasing() && !state.Completed?)
  }

  /** Numbered from 1 without gaps, a path of the state graph, ending in the row's state. */
  predicate JournalOf(history: seq<Entry<OperationState>>, state: OperationState)
  {
    && EndsIn(history, state)
    && history[0].state == Validated
    && (forall k :: 0 < k < |history| ==> Edge(history[k - 1].state, history[k].state))
  }

  predicate Disjoint(a: RefundRow, b: RefundRow)
  {
    || a.projection.refundedAfter <= b.projection.refundedBefore
    || b.projection.refundedAfter <= a.projection.refundedBefore
  }

  ghost predicate DistinctIds(rows: seq<RefundRow>)
  {
    forall i, j :: 0 <= i < j < |rows| ==> rows[i].refundId != rows[j].refundId
  }

  ghost predicate RowsSound(rows: seq<RefundRow>)
  {
    forall i :: 0 <= i < |rows| ==> RowSound(rows[i])
  }

  ghost predicate CompletedDisjoint(rows: seq<RefundRow>)
  {
    forall i, j :: 0 <= i < j < |rows| && rows[i].state.Completed? && rows[j].state.Completed?
                   && ScopeOf(rows[i].request) == ScopeOf(rows[j].request)
                   ==> Disjoint(rows[i], rows[j])
  }

  ghost predicate Journalled(s: Store)
  {
    && (forall i :: 0 <= i < |s.refunds| ==> JournalOf(History(s, s.refunds[i].refundId), s.refunds[i].state))
    && (forall id :: id in s.events ==> Find(s, id) < |s.refunds|)
  }

  /** What a scope's completed refunds paid never exceeds where the last of them ended. */
  ghost predicate TotalsBounded(rows: seq<RefundRow>)
  {
    forall scope :: SumBy(rows, CompletedAmount(scope)) <= MaxBy(rows, CompletedAfter(scope))
  }

  ghost predicate Good(s: Store)
  {
    && DistinctIds(s.refunds) && RowsSound(s.refunds) && CompletedDisjoint(s.refunds)
    && Journalled(s) && TotalsBounded(s.refunds)
  }

  lemma JournalExtends(history: seq<Entry<OperationState>>, from: OperationState, to: OperationState, at: int)
    requires JournalOf(history, from) && Edge(from, to)
    ensures JournalOf(Extend(history, to, at), to)
  {
  }

  lemma InsertKeepsJournals(s: Store, row: RefundRow, s': Store, at: int)
    requires Journalled(s)
    requires forall i :: 0 <= i < |s.refunds| ==> s.refunds[i].refundId != row.refundId
    requires row.state.Validated?
    requires s' == Append(s.(refunds := s.refunds + [row]), row.refundId, row.state, at)
    ensures Journalled(s')
  {
    assert row.refundId !in s.events;
    forall i | 0 <= i < |s'.refunds| ensures JournalOf(History(s', s'.refunds[i].refundId), s'.refunds[i].state) {
      if i < |s.refunds| {
        assert History(s', s.refunds[i].refundId) == History(s, s.refunds[i].refundId);
      }
    }
    forall id | id in s'.events ensures Find(s', id) < |s'.refunds| {
      if id == row.refundId {
        assert s'.refunds[|s.refunds|].refundId == id;
      } else {
        assert s'.refunds[Find(s, id)].refundId == id;
      }
    }
  }

  lemma UpdateKeepsJournals(s: Store, i: nat, row: RefundRow, s': Store, at: int)
    requires DistinctIds(s.refunds) && Journalled(s)
    requires i < |s.refunds| && row.refundId == s.refunds[i].refundId && Edge(s.refunds[i].state, row.state)
    requires s' == Append(s.(refunds := s.refunds[i := row]), row.refundId, row.state, at)
    ensures Journalled(s')
  {
    forall k | 0 <= k < |s'.refunds| ensures JournalOf(History(s', s'.refunds[k].refundId), s'.refunds[k].state) {
      if k == i {
        JournalExtends(History(s, row.refundId), s.refunds[i].state, row.state, at);
      } else {
        assert s.refunds[k].refundId != row.refundId;
        assert History(s', s.refunds[k].refundId) == History(s, s.refunds[k].refundId);
      }
    }
    forall id | id in s'.events ensures Find(s', id) < |s'.refunds| {
      assert id == row.refundId || id in s.events;
      assert s'.refunds[if id == row.refundId then i else Find(s, id)].refundId == id;
    }
  }

  lemma InsertKeepsTotals(rows: seq<RefundRow>, row: RefundRow)
    requires TotalsBounded(rows) && row.state.Validated?
    ensures TotalsBounded(rows + [row])
  {
  }

  /** A move raises the high-water mark of a scope, or leaves it. */
  lemma UpdateRaisesHighWater(s: Store, i: nat, row: RefundRow, scope: Scope)
    requires i < |s.refunds| && Moves(s.refunds[i], row, HighWater(s, ScopeOf(row.request)))
    ensures HighWater(s, scope) <= HighWater(s.(refunds := s.refunds[i := row]), scope)
    ensures CompletedAfter(scope)(row) <= HighWater(s.(refunds := s.refunds[i := row]), scope)
  {
    var rows, after := s.refunds[i := row], CompletedAfter(scope);
    assert after(rows[i]) <= MaxBy(rows, after);
    forall k | 0 <= k < |rows| ensures after(s.refunds[k]) <= MaxBy(rows, after) {
      assert after(s.refunds[k]) <= after(rows[k]);
    }
    MaxIsAtMost(s.refunds, after, MaxBy(rows, after));
  }

  lemma UpdateKeepsTotals(s: Store, i: nat, row: RefundRow)
    requires TotalsBounded(s.refunds)
    requires i < |s.refunds| && Moves(s.refunds[i], row, HighWater(s, ScopeOf(row.request)))
    requires SoundProjection(row.projection)
    ensures TotalsBounded(s.refunds[i := row])
  {
    var rows := s.refunds[i := row];
    forall scope ensures SumBy(rows, CompletedAmount(scope)) <= MaxBy(rows, CompletedAfter(scope)) {
      SumAfterUpdate(s.refunds, CompletedAmount(scope), i, row);
      UpdateRaisesHighWater(s, i, row, scope);
    }
  }

  lemma UpdateKeepsDisjoint(s: Store, i: nat, row: RefundRow)
    requires CompletedDisjoint(s.refunds)
    requires i < |s.refunds| && Moves(s.refunds[i], row, HighWater(s, ScopeOf(row.request)))
    ensures CompletedDisjoint(s.refunds[i := row])
  {
  }

  lemma MoveKeepsRowSound(row: RefundRow, next: RefundRow, high: nat)
    requires RowSound(row) && Moves(row, next, high)
    ensures RowSound(next)
  {
  }

  lemma InsertKeepsRows(rows: seq<RefundRow>, row: RefundRow)
    requires DistinctIds(rows) && RowsSound(rows) && CompletedDisjoint(rows)
    requires forall i :: 0 <= i < |rows| ==> rows[i].refundId != row.refundId
    requires RowSound(row) && row.state.Validated?
    ensures DistinctIds(rows + [row]) && RowsSound(rows + [row]) && CompletedDisjoint(rows + [row])
  {
  }

  lemma UpdateKeepsRows(s: Store, i: nat, row: RefundRow)
    requires DistinctIds(s.refunds) && RowsSound(s.refunds)
    requires i < |s.refunds| && Moves(s.refunds[i], row, HighWater(s, ScopeOf(row.request)))
    ensures DistinctIds(s.refunds[i := row]) && RowsSound(s.refunds[i := row])
  {
    MoveKeepsRowSound(s.refunds[i], row, HighWater(s, ScopeOf(row.request)));
  }

  lemma ChangeKeepsGood(s: Store, change: Change, s': Store, at: int)
    requires Good(s) && Applies(s, change, s', at)
    ensures Good(s')
  {
    match change
    case Nothing =>
    case Insert(row) =>
      InsertKeepsRows(s.refunds, row);
      InsertKeepsJournals(s, row, s', at);
      InsertKeepsTotals(s.refunds, row);
    case Update(i, row) =>
      UpdateKeepsRows(s, i, row);
      UpdateKeepsJournals(s, i, row, s', at);
      UpdateKeepsTotals(s, i, row);
      UpdateKeepsDisjoint(s, i, row);
  }

  lemma StepKeepsGood(s: Store, call: Call)
    requires Good(s)
    ensures Good(Step(s, call).0)
  {
    var change := StepChanges(s, call);
    ChangeKeepsGood(s, change, Step(s, call).0, call.at);
  }

  /** Every reachable pair of tables is Good. */
  lemma {:induction false} RunKeepsGood(s: Store, calls: seq<Call>)
    requires Good(s)
    ensures Good(Run(s, calls))
    decreases |calls|
  {
    if |calls| > 0 {
      StepKeepsGood(s, calls[0]);
      RunKeepsGood(Step(s, calls[0]).0, calls[1..]);
    }
  }
}
