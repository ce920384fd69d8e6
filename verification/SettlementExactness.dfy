/** Exactly when the reservations and the completed intervals of a scope are safe from every fresh continuation. */
module SettlementExactness {
  import opened Tables
  import opened Channels
  import opened SettlementStore
  import opened SettlementTheorems
  import opened SettlementReservations

  /** Some fresh run leads from one store to the other. */
  ghost predicate FreshlyReaches(s: Store, s': Store)
  {
    exists txns :: FreshRun(s, txns) && s' == Run(s, txns)
  }

  lemma ReachesSelf(s: Store)
    ensures FreshlyReaches(s, s)
  {
    assert FreshRun(s, []) && s == Run(s, []);
  }

  lemma ReachesNext(s: Store, t: Txn, middle: Store, s': Store)
    requires middle == Apply(s, t).0 && Fresh(s, t) && FreshlyReaches(middle, s')
    ensures FreshlyReaches(s, s')
  {
    var rest :| FreshRun(middle, rest) && s' == Run(middle, rest);
    assert ([t] + rest)[1..] == rest;
    assert FreshRun(s, [t] + rest) && s' == Run(s, [t] + rest);
  }

  lemma {:induction false} ReachesAfter(s: Store, txns: seq<Txn>, middle: Store, s': Store)
    requires FreshRun(s, txns) && middle == Run(s, txns) && FreshlyReaches(middle, s')
    ensures FreshlyReaches(s, s')
    decreases |txns|
  {
    if |txns| > 0 {
      var next := Apply(s, txns[0]).0;
      ReachesAfter(next, txns[1..], middle, s');
      ReachesNext(s, txns[0], next, s');
    }
  }

  lemma ReachesOn(s: Store, middle: Store, s': Store)
    requires FreshlyReaches(s, middle) && FreshlyReaches(middle, s')
    ensures FreshlyReaches(s, s')
  {
    var txns :| FreshRun(s, txns) && middle == Run(s, txns);
    ReachesAfter(s, txns, middle, s');
  }

  // ----- any open settlement can be completed

  predicate HasSignature(row: Row) { row.signature.Some? && !row.signature.value.Empty() }

  /** How far a settlement is from completion. */
  function Distance(row: Row): nat
  {
    match row.state
    case Validated => 5
    case ExecutionCommitted => 4
    case Authorized => 3
    case Reconciling => if HasSignature(row) then 1 else 2
    case _ => 2
  }

  /** One step nearer to completion, or completed. */
  predicate Advances(row: Row, next: Row)
  {
    && next.request == row.request && next.settlementId == row.settlementId
    && (next.state.Completed? || (!next.state.Terminal() && Distance(next) < Distance(row)))
  }

  /** The row as the table finds it. */
  predicate At(s: Store, i: nat)
  {
    i < |s.rows| && Find(s, s.rows[i].settlementId) == i && RowSound(s.rows[i], s.rows[i].settlementId in s.intents)
  }

  lemma CommitAdvances(s: Store, i: nat) returns (t: Txn, next: Row)
    requires At(s, i) && s.rows[i].state.Validated?
    ensures t.Commit? && Apply(s, t).0.rows == s.rows[i := next] && Advances(s.rows[i], next)
  {
    var row, at := s.rows[i], s.rows[i].updatedAt;
    var bare := Prepared(true, row.request.executionRequestId, "", PlanOf(row.request), "", "", "", "", at + 1,
                         ExternalCommitment("", "", "", PlanOf(row.request), "", "", "", "", 0));
    var p := bare.(commitment := CommitmentOf(bare, row.request.obligationId));
    t := Commit(row.settlementId, p, "", at);
    next := row.(state := ExecutionCommitted, commitment := Some(BindExecution(row, p, "", at).value), updatedAt := at);
    assert Apply(s, t) == DoCommit(s, row.settlementId, p, "", at);
  }

  lemma AuthorizeAdvances(s: Store, i: nat) returns (t: Txn, next: Row)
    requires At(s, i) && s.rows[i].state.ExecutionCommitted?
    ensures t.Authorize? && Apply(s, t).0.rows == s.rows[i := next] && Advances(s.rows[i], next)
  {
    var row, at, c := s.rows[i], s.rows[i].updatedAt, s.rows[i].commitment.value;
    var a := Authorization(true, true, "", c.executionRequestId, c.commitment, c.messageHash, c.expectedSigner, at,
      c.expiresAt);
    t := Authorize(row.settlementId, a, true, at);
    next := row.(state := Authorized, authorization := Some(a), updatedAt := at);
    assert Apply(s, t) == DoAuthorize(s, row.settlementId, a, true, at);
  }

  lemma SubmitAdvances(s: Store, i: nat) returns (t: Txn, next: Row)
    requires At(s, i) && s.rows[i].state.Authorized?
    ensures t.SubmitIntent? && Apply(s, t).0.rows == s.rows[i := next] && Advances(s.rows[i], next)
  {
    var row, at, executor := s.rows[i], s.rows[i].updatedAt, s.rows[i].commitment.value.executorId;
    t := SubmitIntent(row.settlementId, executor, at);
    next := row.(state := Submitted, updatedAt := at);
    assert Apply(s, t) == DoSubmitIntent(s, row.settlementId, executor, at);
  }

  const SIGNATURE: Signature := Foreign("signature")

  lemma PersistAdvances(s: Store, i: nat) returns (t: Txn, next: Row)
    requires At(s, i) && s.rows[i].state.Submitted?
    ensures t.Persist? && Apply(s, t).0.rows == s.rows[i := next] && Advances(s.rows[i], next)
  {
    var row, at, technical := s.rows[i], s.rows[i].updatedAt, Technical(ExecutorAccepted, Some(SIGNATURE));
    t := Persist(row.settlementId, technical, at);
    next := row.(state := Reconciling, signature := Some(SIGNATURE), updatedAt := at);
    assert Apply(s, t) == DoPersist(s, row.settlementId, technical, at);
  }

  lemma RecoveryAdvances(s: Store, i: nat) returns (t: Txn, next: Row)
    requires At(s, i) && s.rows[i].state.Recoverable() && !(s.rows[i].state.Reconciling? && HasSignature(s.rows[i]))
    ensures t.RecordRecovery? && t.id == s.rows[i].settlementId
    ensures Apply(s, t).0.rows == s.rows[i := next] && Advances(s.rows[i], next)
  {
    var row, at := s.rows[i], s.rows[i].updatedAt;
    t := RecordRecovery(row.settlementId, RecoveryConfirmed, Some(SIGNATURE), at);
    next := row.(state := Reconciling, signature := Some(SIGNATURE), updatedAt := at);
    assert Apply(s, t) == DoRecordRecovery(s, row.settlementId, RecoveryConfirmed, Some(SIGNATURE), at);
  }

  /** An observation that shows exactly what the settlement asked for. */
  function Witness(row: Row): (o: Observation)
    requires HasSignature(row) && row.request.requested <= row.request.vaultBefore
    ensures Exact(row, o)
  {
    var q := row.request;
    Observation(true, "", q.channelId, q.account, q.epoch, q.mint, q.wallet, row.signature.value,
                q.settledBefore, q.settledBefore + q.requested, q.vaultBefore, q.vaultBefore - q.requested,
                0, q.requested, row.updatedAt)
  }

  lemma ReconcileAdvances(s: Store, i: nat) returns (t: Txn, next: Row)
    requires At(s, i) && s.rows[i].state.Reconciling? && HasSignature(s.rows[i])
    ensures t.Reconcile? && Apply(s, t).0.rows == s.rows[i := next] && Advances(s.rows[i], next)
  {
    var row, at, os := s.rows[i], s.rows[i].updatedAt, [Witness(s.rows[i])];
    t := Reconcile(row.settlementId, os, {os[0]}, at);
    assert CheckObservations(os, {os[0]}).None? && Agree(os) && AllExact(row, os);
    assert Apply(s, t) == DoReconcile(s, row.settlementId, os, {os[0]}, at);
    next := DoReconcile(s, row.settlementId, os, {os[0]}, at).1.row;
  }

  lemma Advance(s: Store, i: nat) returns (t: Txn, s': Store, next: Row)
    requires Good(s) && i < |s.rows| && !s.rows[i].state.Terminal()
    ensures s' == Apply(s, t).0 && s'.rows == s.rows[i := next] && Good(s') && Fresh(s, t) && Advances(s.rows[i], next)
  {
    var row := s.rows[i];
    assert At(s, i);
    if row.state.Validated? {
      t, next := CommitAdvances(s, i);
    } else if row.state.ExecutionCommitted? {
      t, next := AuthorizeAdvances(s, i);
    } else if row.state.Authorized? {
      t, next := SubmitAdvances(s, i);
    } else if row.state.Submitted? {
      t, next := PersistAdvances(s, i);
    } else if row.state.Reconciling? && HasSignature(row) {
      t, next := ReconcileAdvances(s, i);
    } else {
      t, next := RecoveryAdvances(s, i);
    }
    s' := Apply(s, t).0;
    ApplyKeepsGood(s, t);
  }

  /** A settlement that is neither completed, rejected nor failed can always be completed. */
  lemma {:induction false} DriveToCompletion(s: Store, i: nat) returns (s': Store, done: Row)
    requires Good(s) && i < |s.rows| && !s.rows[i].state.Terminal()
    ensures FreshlyReaches(s, s') && Good(s') && s'.rows == s.rows[i := done]
    ensures done.state.Completed? && done.request == s.rows[i].request && done.settlementId == s.rows[i].settlementId
    decreases Distance(s.rows[i])
  {
    var t, middle, next := Advance(s, i);
    if next.state.Completed? {
      s', done := middle, next;
      ReachesSelf(middle);
    } else {
      s', done := DriveToCompletion(middle, i);
      assert s.rows[i := next][i := done] == s.rows[i := done];
    }
    ReachesNext(s, t, middle, s');
  }

  // ----- reservations

  predicate OpenIn(row: Row, scope: Scope) { ScopeOf(row.request) == scope && !row.state.Terminal() }

  /** Settled and reserved fit in `cap`, and would still fit if any one open settlement completed now. */
  ghost predicate Covered(s: Store, scope: Scope, cap: nat)
  {
    && HighWater(s, scope) + Reserved(s, scope) <= cap
    && forall i :: 0 <= i < |s.rows| && OpenIn(s.rows[i], scope) ==>
      s.rows[i].request.settledBefore + Reserved(s, scope) <= cap
  }

  lemma MoveKeepsCovered(s: Store, i: nat, row: Row, s': Store, scope: Scope, cap: nat)
    requires Covered(s, scope, cap) && i < |s.rows| && s'.rows == s.rows[i := row]
    requires row.request == s.rows[i].request && Edge(s.rows[i].state, row.state)
    ensures Covered(s', scope, cap)
  {
    MoveAggregates(s.rows, i, row, scope);
    assert row.state.Completed? && ScopeOf(row.request) == scope ==> OpenIn(s.rows[i], scope);
    forall k | 0 <= k < |s'.rows| && OpenIn(s'.rows[k], scope)
      ensures s'.rows[k].request.settledBefore + Reserved(s', scope) <= cap
    {
      assert OpenIn(s.rows[k], scope);
    }
  }

  /** What a fresh transaction does when it registers nothing: nothing, or one move along the state graph. */
  lemma FreshMove(s: Store, t: Txn, s': Store) returns (change: Change)
    requires Good(s) && Fresh(s, t) && s' == Apply(s, t).0 && |s'.rows| == |s.rows|
    ensures Good(s') && !change.Insert? && (change.Nothing? ==> s' == s)
    ensures change.Update? ==>
              && change.i < |s.rows| && s'.rows == s.rows[change.i := change.row]
              && change.row.request == s.rows[change.i].request && Edge(s.rows[change.i].state, change.row.state)
  {
    change := ApplyChanges(s, t);
    FreshKeepsGood(s, t, change, s');
    if change.Update? {
      assert Find(s, t.id) == change.i;
      FreshMoves(s.rows[change.i], change.row, t);
    }
  }

  lemma {:induction false} CoveredSurvives(s: Store, txns: seq<Txn>, scope: Scope, cap: nat)
    requires Good(s) && Covered(s, scope, cap) && FreshRun(s, txns) && |Run(s, txns).rows| == |s.rows|
    ensures Covered(Run(s, txns), scope, cap)
    decreases |txns|
  {
    if |txns| > 0 {
      var s' := Apply(s, txns[0]).0;
      ApplyExtends(s, txns[0]);
      RunExtends(s', txns[1..]);
      var change := FreshMove(s, txns[0], s');
      if change.Update? {
        MoveKeepsCovered(s, change.i, change.row, s', scope, cap);
      }
      CoveredSurvives(s', txns[1..], scope, cap);
    }
  }

  lemma CompletionAggregates(s: Store, i: nat, done: Row, scope: Scope)
    requires i < |s.rows| && OpenIn(s.rows[i], scope) && done.state.Completed? && done.request == s.rows[i].request
    ensures var rows := s.rows[i := done];
            && MaxBy(rows, CompletedAfter(scope)) >= SettledAfter(done.request)
            && SumBy(rows, ReservedAmount(scope)) == Reserved(s, scope) - done.request.requested
  {
    var rows := s.rows[i := done];
    SumAfterUpdate(s.rows, ReservedAmount(scope), i, done);
    assert CompletedAfter(scope)(rows[i]) <= MaxBy(rows, CompletedAfter(scope));
  }

  /** An uncovered scope has a fresh continuation, registering nothing, that breaks the bound. */
  lemma UncoveredBreaks(s: Store, scope: Scope, cap: nat) returns (s': Store)
    requires Good(s) && !Covered(s, scope, cap)
    ensures FreshlyReaches(s, s') && |s'.rows| == |s.rows|
    ensures HighWater(s', scope) + Reserved(s', scope) > cap
  {
    if HighWater(s, scope) + Reserved(s, scope) > cap {
      s' := s;
      ReachesSelf(s);
    } else {
      var i :| 0 <= i < |s.rows| && OpenIn(s.rows[i], scope)
        && s.rows[i].request.settledBefore + Reserved(s, scope) > cap;
      var done;
      s', done := DriveToCompletion(s, i);
      CompletionAggregates(s, i, done, scope);
    }
  }

  /**
   * "Settled plus reserved <= cap" survives every fresh continuation that registers nothing if and only if each
   * settlement still open would leave it intact by completing.
   */
  lemma CoveredExactly(s: Store, scope: Scope, cap: nat)
    requires Good(s)
    ensures Covered(s, scope, cap) <==>
              forall s' :: FreshlyReaches(s, s') && |s'.rows| == |s.rows| ==>
                HighWater(s', scope) + Reserved(s', scope) <= cap
  {
    if Covered(s, scope, cap) {
      forall s' | FreshlyReaches(s, s') && |s'.rows| == |s.rows|
        ensures HighWater(s', scope) + Reserved(s', scope) <= cap
      {
        var txns :| FreshRun(s, txns) && s' == Run(s, txns);
        CoveredSurvives(s, txns, scope, cap);
      }
    } else {
      var s' := UncoveredBreaks(s, scope, cap);
    }
  }

  lemma SameLatest(s: Store, s': Store, txns: seq<Txn>, scope: Scope)
    requires s' == Run(s, txns) && |s'.rows| == |s.rows|
    ensures Latest(s'.rows, scope) == Latest(s.rows, scope)
  {
    RunExtends(s, txns);
    LatestAgrees(s.rows, s'.rows, scope);
  }

  /** From which stores every fresh continuation without registrations stays within the activated total. */
  lemma WithinActivatedExactly(s: Store, scope: Scope, cap: nat)
    requires Good(s) && Latest(s.rows, scope).Some? && cap == Latest(s.rows, scope).value.activatedBefore
    ensures Covered(s, scope, cap) <==>
              forall s' :: FreshlyReaches(s, s') && |s'.rows| == |s.rows| ==> WithinActivated(s', scope)
  {
    forall s' | FreshlyReaches(s, s') && |s'.rows| == |s.rows|
      ensures WithinActivated(s', scope) <==> HighWater(s', scope) + Reserved(s', scope) <= cap
    {
      var txns :| FreshRun(s, txns) && s' == Run(s, txns);
      SameLatest(s, s', txns, scope);
    }
    CoveredExactly(s, scope, cap);
  }

  // ----- the room a registration must leave

  /** Every open settlement of the scope could still complete beside the newcomer. */
  ghost predicate Room(s: Store, q: SettlementRequest)
  {
    forall i :: 0 <= i < |s.rows| && OpenIn(s.rows[i], ScopeOf(q)) ==>
      s.rows[i].request.settledBefore + Reserved(s, ScopeOf(q)) + q.requested <= q.activatedBefore
  }

  lemma InsertAggregates(rows: seq<Row>, row: Row, scope: Scope)
    requires row.state.Validated?
    ensures MaxBy(rows + [row], CompletedAfter(scope)) == MaxBy(rows, CompletedAfter(scope))
    ensures SumBy(rows + [row], ReservedAmount(scope)) ==
              SumBy(rows, ReservedAmount(scope)) + (if ScopeOf(row.request) == scope then row.request.requested else 0)
  {
    SumAfterInsert(rows, ReservedAmount(scope), row);
    MaxAfterInsert(rows, CompletedAfter(scope), row);
  }

  /** The newcomer itself fits, whether it stays open or completes. */
  predicate NewcomerFits(s: Store, row: Row)
  {
    var q := row.request;
    && row.state.Validated? && HighWater(s, ScopeOf(q)) <= q.settledBefore
    && q.settledBefore + Reserved(s, ScopeOf(q)) + q.requested <= q.activatedBefore
  }

  lemma NewcomerCovers(s: Store, row: Row, s': Store, scope: Scope)
    requires NewcomerFits(s, row) && s'.rows == s.rows + [row] && scope == ScopeOf(row.request)
    ensures Covered(s', scope, row.request.activatedBefore) <==> Room(s, row.request)
  {
    InsertAggregates(s.rows, row, scope);
    assert forall i :: 0 <= i < |s.rows| ==> s'.rows[i] == s.rows[i];
    assert s'.rows[|s.rows|] == row;
  }

  /** An accepted registration leaves its scope covered if and only if there was room; nothing else is needed. */
  lemma RegistrationCovers(s: Store, row: Row, s': Store)
    requires Fits(s, row) && s'.rows == s.rows + [row]
    ensures Covered(s', ScopeOf(row.request), row.request.activatedBefore) <==> Room(s, row.request)
  {
    assert NewcomerFits(s, row);
    NewcomerCovers(s, row, s', ScopeOf(row.request));
  }

  lemma StrangerKeepsCovered(s: Store, row: Row, s': Store, scope: Scope, cap: nat)
    requires Covered(s, scope, cap) && row.state.Validated? && scope != ScopeOf(row.request)
    requires s'.rows == s.rows + [row]
    ensures Covered(s', scope, cap)
  {
    InsertAggregates(s.rows, row, scope);
    assert forall i :: 0 <= i < |s.rows| ==> s'.rows[i] == s.rows[i];
  }

  /** Covered up to the activated total of the latest registered snapshot, if there is one. */
  ghost predicate CoveredNow(s: Store, scope: Scope)
  {
    Latest(s.rows, scope).Some? ==> Covered(s, scope, Latest(s.rows, scope).value.activatedBefore)
  }

  lemma LatestAfterInsert(rows: seq<Row>, row: Row, scope: Scope)
    ensures Latest(rows + [row], scope) ==
              if ScopeOf(row.request) == scope then Some(row.request) else Latest(rows, scope)
  {
    assert (rows + [row])[..|rows|] == rows;
  }

  lemma InsertCoversNow(s: Store, row: Row, s': Store, scope: Scope)
    requires CoveredNow(s, scope) && NewcomerFits(s, row) && s'.rows == s.rows + [row]
    requires ScopeOf(row.request) == scope ==> Room(s, row.request)
    ensures CoveredNow(s', scope)
  {
    LatestAfterInsert(s.rows, row, scope);
    if ScopeOf(row.request) == scope {
      NewcomerCovers(s, row, s', scope);
    } else if Latest(s.rows, scope).Some? {
      StrangerKeepsCovered(s, row, s', scope, Latest(s.rows, scope).value.activatedBefore);
    }
  }

  lemma ChangeCoversNow(s: Store, t: Txn, change: Change, s': Store, scope: Scope)
    requires Distinct(s.rows) && CoveredNow(s, scope) && Fresh(s, t) && Applies(s, t, change, s')
    requires change.Insert? && ScopeOf(change.row.request) == scope ==> Room(s, change.row.request)
    ensures CoveredNow(s', scope)
  {
    match change
    case Nothing =>
    case Insert(row) =>
      assert NewcomerFits(s, row);
      InsertCoversNow(s, row, s', scope);
    case Update(i, row) =>
      assert Find(s, t.id) == i;
      FreshMoves(s.rows[i], row, t);
      LatestKeepsRequests(s.rows, i, row, scope);
      if Latest(s.rows, scope).Some? {
        MoveKeepsCovered(s, i, row, s', scope, Latest(s.rows, scope).value.activatedBefore);
      }
  }

  predicate Registers(s: Store, t: Txn) { t.Register? && |Apply(s, t).0.rows| > |s.rows| }

  lemma InsertedIsRequested(s: Store, t: Txn)
    requires Registers(s, t)
    ensures Apply(s, t).0.rows[|s.rows|].request == t.request
  {
    assert Apply(s, t) == DoRegister(s, t.request, t.snapshot, t.at);
  }

  /** A fresh run in which every accepted registration finds room. */
  ghost predicate RoomyRun(s: Store, txns: seq<Txn>)
    decreases |txns|
  {
    |txns| > 0 ==>
      && Fresh(s, txns[0]) && (Registers(s, txns[0]) ==> Room(s, txns[0].request))
      && RoomyRun(Apply(s, txns[0]).0, txns[1..])
  }

  lemma RoomyStep(s: Store, t: Txn, s': Store, scope: Scope)
    requires Good(s) && CoveredNow(s, scope) && Fresh(s, t) && s' == Apply(s, t).0
    requires Registers(s, t) ==> Room(s, t.request)
    ensures Good(s') && CoveredNow(s', scope)
  {
    var change := ApplyChanges(s, t);
    FreshKeepsGood(s, t, change, s');
    if change.Insert? {
      InsertedIsRequested(s, t);
    }
    ChangeCoversNow(s, t, change, s', scope);
  }

  /** With room at every registration the bound holds in every fresh run, in whatever order the snapshots came. */
  lemma {:induction false} RoomyRunsStayWithinActivated(s: Store, txns: seq<Txn>, scope: Scope)
    requires Good(s) && CoveredNow(s, scope) && RoomyRun(s, txns)
    ensures WithinActivated(Run(s, txns), scope)
    decreases |txns|
  {
    if |txns| > 0 {
      var s' := Apply(s, txns[0]).0;
      RoomyStep(s, txns[0], s', scope);
      RoomyRunsStayWithinActivated(s', txns[1..], scope);
    }
  }

  // ----- completed intervals

  /** The two requests move S over intervals that do not meet. */
  predicate Apart(a: SettlementRequest, b: SettlementRequest)
  {
    SettledAfter(a) <= b.settledBefore || SettledAfter(b) <= a.settledBefore
  }

  predicate CompletedIn(row: Row, scope: Scope) { ScopeOf(row.request) == scope && row.state.Completed? }

  /** Completed, or still able to complete. */
  predicate LiveIn(row: Row, scope: Scope)
  {
    ScopeOf(row.request) == scope && !row.state.Rejected? && !row.state.FailedBeforeSubmission?
  }

  ghost predicate CompletedApart(rows: seq<Row>, scope: Scope)
  {
    forall i, j :: 0 <= i < j < |rows| && CompletedIn(rows[i], scope) && CompletedIn(rows[j], scope) ==>
      Apart(rows[i].request, rows[j].request)
  }

  ghost predicate LiveApart(rows: seq<Row>, scope: Scope)
  {
    forall i, j :: 0 <= i < j < |rows| && LiveIn(rows[i], scope) && LiveIn(rows[j], scope) ==>
      Apart(rows[i].request, rows[j].request)
  }

  lemma MoveKeepsApart(rows: seq<Row>, i: nat, row: Row, scope: Scope)
    requires LiveApart(rows, scope) && i < |rows| && row.request == rows[i].request && Edge(rows[i].state, row.state)
    ensures LiveApart(rows[i := row], scope)
  {
    assert LiveIn(row, scope) ==> LiveIn(rows[i], scope);
  }

  lemma {:induction false} ApartSurvives(s: Store, txns: seq<Txn>, scope: Scope)
    requires Good(s) && LiveApart(s.rows, scope) && FreshRun(s, txns) && |Run(s, txns).rows| == |s.rows|
    ensures LiveApart(Run(s, txns).rows, scope)
    decreases |txns|
  {
    if |txns| > 0 {
      var s' := Apply(s, txns[0]).0;
      ApplyExtends(s, txns[0]);
      RunExtends(s', txns[1..]);
      var change := FreshMove(s, txns[0], s');
      if change.Update? {
        MoveKeepsApart(s.rows, change.i, change.row, scope);
      }
      ApartSurvives(s', txns[1..], scope);
    }
  }

  /** Completes a live settlement, unless it is completed already. */
  lemma Complete(s: Store, i: nat, scope: Scope) returns (s': Store, done: Row)
    requires Good(s) && i < |s.rows| && LiveIn(s.rows[i], scope)
    ensures FreshlyReaches(s, s') && Good(s') && s'.rows == s.rows[i := done]
    ensures CompletedIn(done, scope) && done.request == s.rows[i].request && done.settlementId == s.rows[i].settlementId
  {
    if s.rows[i].state.Completed? {
      s', done := s, s.rows[i];
      ReachesSelf(s);
    } else {
      s', done := DriveToCompletion(s, i);
    }
  }

  /** Any two live settlements can both be completed. */
  lemma CompleteBoth(s: Store, i: nat, j: nat, scope: Scope) returns (s': Store)
    requires Good(s) && i < j < |s.rows| && LiveIn(s.rows[i], scope) && LiveIn(s.rows[j], scope)
    ensures FreshlyReaches(s, s') && Good(s') && |s'.rows| == |s.rows|
    ensures CompletedIn(s'.rows[i], scope) && CompletedIn(s'.rows[j], scope)
    ensures s'.rows[i].request == s.rows[i].request && s'.rows[j].request == s.rows[j].request
  {
    var one, a := Complete(s, i, scope);
    var both, b := Complete(one, j, scope);
    ReachesOn(s, one, both);
    s' := both;
  }

  /** Live settlements whose intervals meet can be completed into each other. */
  lemma MeetingBreaks(s: Store, scope: Scope) returns (s': Store)
    requires Good(s) && !LiveApart(s.rows, scope)
    ensures FreshlyReaches(s, s') && |s'.rows| == |s.rows| && !CompletedApart(s'.rows, scope)
  {
    var i, j :| 0 <= i < j < |s.rows| && LiveIn(s.rows[i], scope) && LiveIn(s.rows[j], scope)
                && !Apart(s.rows[i].request, s.rows[j].request);
    s' := CompleteBoth(s, i, j, scope);
  }

  /**
   * The completed intervals of a scope stay disjoint through every fresh continuation that registers nothing if
   * and only if any two settlements that are completed or can still complete have disjoint intervals.
   */
  lemma ApartExactly(s: Store, scope: Scope)
    requires Good(s)
    ensures LiveApart(s.rows, scope) <==>
              forall s' :: FreshlyReaches(s, s') && |s'.rows| == |s.rows| ==> CompletedApart(s'.rows, scope)
  {
    if LiveApart(s.rows, scope) {
      forall s' | FreshlyReaches(s, s') && |s'.rows| == |s.rows| ensures CompletedApart(s'.rows, scope) {
        var txns :| FreshRun(s, txns) && s' == Run(s, txns);
        ApartSurvives(s, txns, scope);
      }
    } else {
      var s' := MeetingBreaks(s, scope);
    }
  }

  // ----- the guard at registration

  /** No live settlement of the request's scope ends above where the request starts. */
  ghost predicate Guard(rows: seq<Row>, q: SettlementRequest)
  {
    forall i :: 0 <= i < |rows| && LiveIn(rows[i], ScopeOf(q)) ==> SettledAfter(rows[i].request) <= q.settledBefore
  }

  /**
   * Where S never went backwards, a registration keeps the live intervals disjoint if and only if it passes the
   * guard, which reads only the table and the request.
   */
  lemma GuardExactly(rows: seq<Row>, row: Row)
    requires LiveApart(rows, ScopeOf(row.request)) && LiveIn(row, ScopeOf(row.request)) && row.request.requested > 0
    requires forall i :: 0 <= i < |rows| ==> rows[i].request.requested > 0
    requires SettledNondecreasing(rows + [row], ScopeOf(row.request))
    ensures LiveApart(rows + [row], ScopeOf(row.request)) <==> Guard(rows, row.request)
  {
    var all, scope := rows + [row], ScopeOf(row.request);
    forall i | 0 <= i < |rows| && LiveIn(rows[i], scope)
      ensures rows[i].request.settledBefore <= row.request.settledBefore
      ensures LiveApart(all, scope) ==> Apart(rows[i].request, row.request)
    {
      assert all[i] == rows[i] && all[|rows|] == row;
    }
  }

  /** A fresh run in which every accepted registration passes the guard. */
  ghost predicate GuardedRun(s: Store, txns: seq<Txn>)
    decreases |txns|
  {
    |txns| > 0 ==>
      && Fresh(s, txns[0]) && (Registers(s, txns[0]) ==> Guard(s.rows, txns[0].request))
      && GuardedRun(Apply(s, txns[0]).0, txns[1..])
  }

  lemma InsertKeepsApart(rows: seq<Row>, row: Row, scope: Scope)
    requires LiveApart(rows, scope) && Guard(rows, row.request)
    ensures LiveApart(rows + [row], scope)
  {
  }

  lemma GuardedChangeKeepsApart(s: Store, t: Txn, change: Change, s': Store, scope: Scope)
    requires Distinct(s.rows) && LiveApart(s.rows, scope) && Fresh(s, t) && Applies(s, t, change, s')
    requires change.Insert? ==> Guard(s.rows, change.row.request)
    ensures LiveApart(s'.rows, scope)
  {
    match change
    case Nothing =>
    case Insert(row) => InsertKeepsApart(s.rows, row, scope);
    case Update(i, row) =>
      assert Find(s, t.id) == i;
      FreshMoves(s.rows[i], row, t);
      MoveKeepsApart(s.rows, i, row, scope);
  }

  lemma GuardedStep(s: Store, t: Txn, s': Store, scope: Scope)
    requires Good(s) && LiveApart(s.rows, scope) && Fresh(s, t) && s' == Apply(s, t).0
    requires Registers(s, t) ==> Guard(s.rows, t.request)
    ensures Good(s') && LiveApart(s'.rows, scope)
  {
    var change := ApplyChanges(s, t);
    FreshKeepsGood(s, t, change, s');
    if change.Insert? {
      InsertedIsRequested(s, t);
    }
    GuardedChangeKeepsApart(s, t, change, s', scope);
  }

  lemma {:induction false} GuardedRunKeepsLiveApart(s: Store, txns: seq<Txn>, scope: Scope)
    requires Good(s) && LiveApart(s.rows, scope) && GuardedRun(s, txns)
    ensures LiveApart(Run(s, txns).rows, scope)
    decreases |txns|
  {
    if |txns| > 0 {
      var s' := Apply(s, txns[0]).0;
      GuardedStep(s, txns[0], s', scope);
      GuardedRunKeepsLiveApart(s', txns[1..], scope);
    }
  }

  lemma CompletedAreLive(rows: seq<Row>, scope: Scope)
    requires LiveApart(rows, scope)
    ensures CompletedApart(rows, scope)
  {
  }

  /** With the guard in place, completed settlements would occupy disjoint intervals of S in every fresh run. */
  lemma GuardedRunsStayApart(txns: seq<Txn>, scope: Scope)
    requires GuardedRun(EMPTY, txns)
    ensures CompletedApart(Run(EMPTY, txns).rows, scope)
  {
    GuardedRunKeepsLiveApart(EMPTY, txns, scope);
    CompletedAreLive(Run(EMPTY, txns).rows, scope);
  }
}
