/**
 * Reservations against the activated right.
 *
 * `_record_recovery` does not look at the row's state again, so a recovery decided before a settlement
 * completed can be written after it.  A run is fresh when no such write lands on a row that has stopped
 * being recoverable.  Runs of whole public methods are fresh; `SettlementPublic` proves it.
 */
module SettlementReservations {
  import opened Tables
  import opened Journals
  import opened Channels
  import opened SettlementStore
  import opened SettlementTheorems

  predicate Fresh(s: Store, t: Txn)
  {
    t.RecordRecovery? && Find(s, t.id) < |s.rows| ==> s.rows[Find(s, t.id)].state.Recoverable()
  }

  predicate FreshRun(s: Store, txns: seq<Txn>)
    decreases |txns|
  {
    |txns| > 0 ==> Fresh(s, txns[0]) && FreshRun(Apply(s, txns[0]).0, txns[1..])
  }

  /** The state graph of a settlement in a fresh run: nothing leaves rejected, failed or completed. */
  predicate Edge(from: State, to: State)
  {
    match from
    case Validated => to.ExecutionCommitted?
    case ExecutionCommitted => to.Authorized?
    case Authorized => to.Submitted?
    case Submitted => to.Reconciling? || to.Rejected? || to.InRecovery? || to.InReview?
    case InRecovery => to.Recoverable() || to.FailedBeforeSubmission?
    case Reconciling => to.Recoverable() || to.FailedBeforeSubmission? || to.Completed?
    case InReview => to.Recoverable() || to.FailedBeforeSubmission? || to.Completed?
    case InDispute => to.Recoverable() || to.FailedBeforeSubmission? || to.Completed?
    case _ => false
  }

  lemma FreshMoves(row: Row, next: Row, t: Txn)
    requires Moves(row, next, t) && (t.RecordRecovery? ==> row.state.Recoverable())
    ensures Edge(row.state, next.state) && next.request == row.request
  {
  }

  /** The last registered request of the scope. */
  function Latest(rows: seq<Row>, scope: Scope): Option<SettlementRequest>
  {
    if |rows| == 0 then None
    else if ScopeOf(rows[|rows| - 1].request) == scope then Some(rows[|rows| - 1].request)
    else Latest(rows[..|rows| - 1], scope)
  }

  /** S never went backwards from one registered snapshot of the scope to the next. */
  ghost predicate SettledNondecreasing(rows: seq<Row>, scope: Scope)
  {
    forall i, j :: 0 <= i < j < |rows| && ScopeOf(rows[i].request) == scope && ScopeOf(rows[j].request) == scope
      ==> rows[i].request.settledBefore <= rows[j].request.settledBefore
  }

  /** What is settled plus what is reserved stays within the latest registered activated total. */
  ghost predicate Within(s: Store, scope: Scope)
  {
    match Latest(s.rows, scope)
    case None => HighWater(s, scope) + Reserved(s, scope) == 0
    case Some(q) =>
      && HighWater(s, scope) + Reserved(s, scope) <= q.activatedBefore
      && q.settledBefore + Reserved(s, scope) <= q.activatedBefore
  }

  /** The bound itself: settled plus reserved within the activated total of the latest registered snapshot. */
  ghost predicate WithinActivated(s: Store, scope: Scope)
  {
    match Latest(s.rows, scope)
    case None => true
    case Some(q) => HighWater(s, scope) + Reserved(s, scope) <= q.activatedBefore
  }

  lemma {:induction false} LatestAgrees(a: seq<Row>, b: seq<Row>, scope: Scope)
    requires |a| == |b| && forall i :: 0 <= i < |a| ==> a[i].request == b[i].request
    ensures Latest(a, scope) == Latest(b, scope)
  {
    if |a| > 0 {
      LatestAgrees(a[..|a| - 1], b[..|b| - 1], scope);
    }
  }

  lemma MoveAggregates(rows: seq<Row>, i: nat, row: Row, scope: Scope)
    requires i < |rows| && row.request == rows[i].request && Edge(rows[i].state, row.state)
    ensures MaxBy(rows[i := row], CompletedAfter(scope)) <=
              var top, after := MaxBy(rows, CompletedAfter(scope)), CompletedAfter(scope)(row);
              if after > top then after else top
    ensures SumBy(rows[i := row], ReservedAmount(scope)) ==
              SumBy(rows, ReservedAmount(scope))
              - (if row.state.Terminal() && ScopeOf(row.request) == scope then row.request.requested else 0)
  {
    var after := CompletedAfter(scope);
    SumAfterUpdate(rows, ReservedAmount(scope), i, row);
    var top := if after(row) > MaxBy(rows, after) then after(row) else MaxBy(rows, after);
    var rows' := rows[i := row];
    forall k | 0 <= k < |rows'| ensures after(rows'[k]) <= top {
    }
    MaxIsAtMost(rows', after, top);
  }

  lemma {:induction false} LatestKeepsRequests(rows: seq<Row>, i: nat, row: Row, scope: Scope)
    requires i < |rows| && row.request == rows[i].request
    ensures Latest(rows[i := row], scope) == Latest(rows, scope)
  {
    var last := |rows| - 1;
    if i < last {
      assert rows[i := row][..last] == rows[..last][i := row];
      LatestKeepsRequests(rows[..last], i, row, scope);
    } else {
      assert rows[i := row][..last] == rows[..last];
    }
  }

  lemma {:induction false} LatestIsHighest(rows: seq<Row>, i: nat, scope: Scope)
    requires SettledNondecreasing(rows, scope) && i < |rows| && ScopeOf(rows[i].request) == scope
    ensures Latest(rows, scope).Some? && rows[i].request.settledBefore <= Latest(rows, scope).value.settledBefore
  {
    var last := |rows| - 1;
    if ScopeOf(rows[last].request) != scope {
      LatestIsHighest(rows[..last], i, scope);
    }
  }

  lemma UpdateKeepsWithin(s: Store, i: nat, row: Row, s': Store, scope: Scope)
    requires Within(s, scope) && SettledNondecreasing(s.rows, scope)
    requires i < |s.rows| && row.request == s.rows[i].request && Edge(s.rows[i].state, row.state)
    requires s'.rows == s.rows[i := row]
    ensures Within(s', scope)
  {
    MoveAggregates(s.rows, i, row, scope);
    LatestKeepsRequests(s.rows, i, row, scope);
    if ScopeOf(row.request) == scope {
      LatestIsHighest(s.rows, i, scope);
    }
  }

  lemma InsertKeepsWithin(s: Store, row: Row, s': Store, scope: Scope)
    requires Within(s, scope) && Fits(s, row) && s'.rows == s.rows + [row]
    ensures Within(s', scope)
  {
    SumAfterInsert(s.rows, ReservedAmount(scope), row);
    MaxAfterInsert(s.rows, CompletedAfter(scope), row);
    assert s'.rows[..|s.rows|] == s.rows;
  }

  lemma ChangeKeepsWithin(s: Store, t: Txn, change: Change, s': Store, scope: Scope)
    requires Within(s, scope) && Distinct(s.rows) && SettledNondecreasing(s.rows, scope) && Fresh(s, t)
    requires Applies(s, t, change, s')
    ensures Within(s', scope)
  {
    match change
    case Nothing =>
    case Insert(row) => InsertKeepsWithin(s, row, s', scope);
    case Update(i, row) =>
      assert Find(s, t.id) == i;
      FreshMoves(s.rows[i], row, t);
      UpdateKeepsWithin(s, i, row, s', scope);
  }

  lemma FreshFollowsSubmission(s: Store, t: Txn)
    requires Good(s) && Fresh(s, t)
    ensures t.RecordRecovery? && Find(s, t.id) < |s.rows| ==> t.id in s.intents
  {
  }

  /** Requests are never withdrawn or rewritten. */
  predicate Extends(before: seq<Row>, after: seq<Row>)
  {
    |before| <= |after| && forall i :: 0 <= i < |before| ==> after[i].request == before[i].request
  }

  lemma ChangeExtends(s: Store, t: Txn, change: Change, s': Store)
    requires Applies(s, t, change, s')
    ensures Extends(s.rows, s'.rows)
  {
  }

  lemma ApplyExtends(s: Store, t: Txn)
    ensures Extends(s.rows, Apply(s, t).0.rows)
  {
    var change := ApplyChanges(s, t);
    ChangeExtends(s, t, change, Apply(s, t).0);
  }

  lemma {:induction false} RunExtends(s: Store, txns: seq<Txn>)
    ensures Extends(s.rows, Run(s, txns).rows)
    decreases |txns|
  {
    if |txns| > 0 {
      ApplyExtends(s, txns[0]);
      RunExtends(Apply(s, txns[0]).0, txns[1..]);
    }
  }

  /**
   * Through any fresh interleaving of transactions, the settled high-water mark plus every outstanding
   * reservation of a (channel, epoch) stays within the activated total of its latest registered snapshot.
   */
  lemma {:induction false} SettlementsStayWithinActivated(s: Store, txns: seq<Txn>, scope: Scope)
    requires Good(s) && Within(s, scope) && FreshRun(s, txns) && SettledNondecreasing(Run(s, txns).rows, scope)
    ensures Good(Run(s, txns)) && Within(Run(s, txns), scope)
    decreases |txns|
  {
    if |txns| > 0 {
      var t, rest := txns[0], txns[1..];
      var s' := Apply(s, t).0;
      var change := ApplyChanges(s, t);
      ApplyExtends(s, t);
      RunExtends(s', rest);
      ChangeKeepsWithin(s, t, change, s', scope);
      FreshKeepsGood(s, t, change, s');
      SettlementsStayWithinActivated(s', rest, scope);
    }
  }

  lemma FreshKeepsGood(s: Store, t: Txn, change: Change, s': Store)
    requires Good(s) && Fresh(s, t) && Applies(s, t, change, s')
    ensures Good(s')
  {
    FreshFollowsSubmission(s, t);
    match change
    case Nothing =>
    case Insert(row) => InsertKeepsGood(s, t, row, s');
    case Update(i, row) => UpdateKeepsGood(s, t, i, row, s');
  }

  lemma OnlyRecoveryReopens(s: Store, t: Txn, change: Change, s': Store, i: nat)
    requires Applies(s, t, change, s') && Distinct(s.rows) && i < |s.rows| && s.rows[i].state.Completed?
    requires t.RecordRecovery? ==> (change.Nothing? <==> Find(s, t.id) == |s.rows|)
    ensures i < |s'.rows|
    ensures !s'.rows[i].state.Completed? <==> t.RecordRecovery? && t.id == s.rows[i].settlementId
  {
  }

  /** A completed settlement is left exactly by a recovery recorded for it after the fact. */
  lemma CompletedLeftExactlyByStaleRecovery(s: Store, t: Txn, i: nat)
    requires Good(s) && i < |s.rows| && s.rows[i].state.Completed?
    ensures i < |Apply(s, t).0.rows|
    ensures !Apply(s, t).0.rows[i].state.Completed? <==> t.RecordRecovery? && t.id == s.rows[i].settlementId
  {
    var change;
    if t.RecordRecovery? {
      change := RecoveryChanges(s, t);
    } else {
      change := ApplyChanges(s, t);
    }
    OnlyRecoveryReopens(s, t, change, Apply(s, t).0, i);
  }

  lemma RecoveryReserves(s: Store, t: Txn, change: Change, s': Store, i: nat, scope: Scope)
    requires Applies(s, t, change, s') && Distinct(s.rows) && i < |s.rows| && s.rows[i].state.Completed?
    requires change.Update?
    requires t.RecordRecovery? && t.id == s.rows[i].settlementId && !t.outcome.RecoveryFailedBeforeBroadcast?
    requires scope == ScopeOf(s.rows[i].request)
    ensures s'.rows == s.rows[i := change.row] && !change.row.state.Completed?
    ensures SumBy(s'.rows, ReservedAmount(scope)) == SumBy(s.rows, ReservedAmount(scope)) + s.rows[i].request.requested
  {
    SumAfterUpdate(s.rows, ReservedAmount(scope), i, change.row);
  }

  /** The high-water mark stays when another row reaches it. */
  lemma HighWaterStays(rows: seq<Row>, i: nat, row: Row, scope: Scope, j: nat)
    requires i < |rows| && j < |rows| && j != i && !row.state.Completed?
    requires CompletedAfter(scope)(rows[j]) == MaxBy(rows, CompletedAfter(scope))
    ensures MaxBy(rows[i := row], CompletedAfter(scope)) == MaxBy(rows, CompletedAfter(scope))
  {
    var after, top := rows[i := row], MaxBy(rows, CompletedAfter(scope));
    forall k | 0 <= k < |after| ensures CompletedAfter(scope)(after[k]) <= top {
      assert k != i ==> after[k] == rows[k];
    }
    MaxIsAtMost(after, CompletedAfter(scope), top);
    assert after[j] == rows[j];
  }

  /**
   * What such a write costs: the settled amount is reserved a second time, while the high-water mark stays where
   * it is whenever another completed settlement reaches it.
   */
  lemma StaleRecoveryReservesAgain(s: Store, t: Txn, i: nat, scope: Scope)
    requires Good(s) && i < |s.rows| && s.rows[i].state.Completed? && scope == ScopeOf(s.rows[i].request)
    requires t.RecordRecovery? && t.id == s.rows[i].settlementId && !t.outcome.RecoveryFailedBeforeBroadcast?
    ensures Reserved(Apply(s, t).0, scope) == Reserved(s, scope) + s.rows[i].request.requested
    ensures forall j :: 0 <= j < |s.rows| && j != i && CompletedAfter(scope)(s.rows[j]) == HighWater(s, scope) ==>
              HighWater(Apply(s, t).0, scope) == HighWater(s, scope)
  {
    var change := RecoveryChanges(s, t);
    RecoveryReserves(s, t, change, Apply(s, t).0, i, scope);
    forall j | 0 <= j < |s.rows| && j != i && CompletedAfter(scope)(s.rows[j]) == HighWater(s, scope)
      ensures HighWater(Apply(s, t).0, scope) == HighWater(s, scope)
    {
      HighWaterStays(s.rows, i, change.row, scope, j);
    }
  }
}
