/** A run of the whole world, from nothing, that completes a settlement and then reopens it. */
module SettlementReopening {
  import opened Tables
  import opened Channels
  import opened SettlementStore
  import opened SettlementTheorems
  import opened SettlementExactness
  import opened SettlementWitnesses
  import opened Executor
  import opened SettlementExecution
  import opened SettlementGuarantees

  // ----- what each transaction does to a table of one row

  lemma OneRowIsFound(s: Store, row: Row)
    requires s.rows == [row]
    ensures Find(s, row.settlementId) == 0
  {
  }

  function InputFor(q: SettlementRequest): PrepareInput
  {
    PrepareInput(ExecutionRequest(true, q.executionRequestId, "", PlanOf(q), PlanOf(q), PlanOf(q), 1),
                 Simulation(true, 1, ""), "", "", "", 1)
  }

  function PreparedFor(q: SettlementRequest, executorId: string): Prepared { PreparedFrom(executorId, InputFor(q)) }

  lemma Prepares(x: Ledger, q: SettlementRequest) returns (x': Ledger, e: Execution)
    requires x.executions == map[] && x.effects == map[] && q.expiresAt == 1
    ensures x' == DoPrepare(x, InputFor(q), 0).0 && x' == x.(executions := map[q.executionRequestId := e])
    ensures e.prepared == PreparedFor(q, x.executorId) && e.obligationId == q.obligationId && e.state.StatePrepared?
  {
    x' := DoPrepare(x, InputFor(q), 0).0;
    e := x'.executions[q.executionRequestId];
  }

  predicate CommittedFor(row: Row, p: Prepared)
  {
    && row.commitment.Some? && row.commitment.value.executionRequestId == row.request.executionRequestId
    && row.commitment.value.commitment == p.commitment && row.commitment.value.messageHash == p.messageHash
    && row.commitment.value.executorId == p.executorId && row.commitment.value.expectedSigner == p.signer
    && row.commitment.value.expiresAt == p.expiresAt
  }

  lemma Commits(s: Store, q: SettlementRequest, p: Prepared) returns (s': Store, row: Row)
    requires s.rows == [NewRow(q)] && p == PreparedFor(q, p.executorId)
    ensures s' == DoCommit(s, q.settlementId, p, p.signer, 0).0
    ensures s'.rows == [row] && s'.intents == s.intents
    ensures row.settlementId == q.settlementId && row.request == q && row.updatedAt == 0
    ensures row.state.ExecutionCommitted? && CommittedFor(row, p)
  {
    OneRowIsFound(s, NewRow(q));
    s' := DoCommit(s, q.settlementId, p, p.signer, 0).0;
    row := s'.rows[0];
  }

  function GrantFor(row: Row, p: Prepared): Authorization
  {
    Authorization(true, true, "grant", row.request.executionRequestId, p.commitment, p.messageHash, p.signer, 0, 1)
  }

  lemma Authorizes(s: Store, row: Row, p: Prepared) returns (s': Store, next: Row)
    requires s.rows == [row] && row.state.ExecutionCommitted? && CommittedFor(row, p) && row.updatedAt == 0
    requires p.expiresAt == 1
    ensures s' == DoAuthorize(s, row.settlementId, GrantFor(row, p), true, 0).0
    ensures s'.rows == [next] && s'.intents == s.intents
    ensures next == row.(state := Authorized, authorization := Some(GrantFor(row, p)))
  {
    OneRowIsFound(s, row);
    s' := DoAuthorize(s, row.settlementId, GrantFor(row, p), true, 0).0;
    next := s'.rows[0];
  }

  lemma Intends(s: Store, row: Row, p: Prepared) returns (s': Store, next: Row)
    requires s.rows == [row] && row.state.Authorized? && CommittedFor(row, p) && row.updatedAt == 0 && p.expiresAt == 1
    requires row.authorization == Some(GrantFor(row, p)) && row.settlementId !in s.intents
    ensures DoSubmitIntent(s, row.settlementId, p.executorId, 0) == (s', Done(next))
    ensures s'.rows == [next] && next == row.(state := Submitted)
  {
    OneRowIsFound(s, row);
    s' := DoSubmitIntent(s, row.settlementId, p.executorId, 0).0;
    next := s'.rows[0];
  }

  lemma Executes(x: Ledger, row: Row, p: Prepared) returns (x': Ledger, answer: Result<ExecutionReceipt, ExecutorError>)
    requires CommittedFor(row, p) && p == PreparedFor(row.request, x.executorId) && x.effects == map[]
    requires x.consumed == map[]
    requires row.request.executionRequestId in x.executions
    requires x.executions[row.request.executionRequestId].prepared == p
    requires x.executions[row.request.executionRequestId].state.StatePrepared?
    requires x.executions[row.request.executionRequestId].obligationId == row.request.obligationId
    ensures DoExecute(x, GrantFor(row, p), 0) == (x', answer) && x'.executorId == x.executorId
    ensures TechnicalFrom(row, answer, false) == Technical(ExecutorAccepted, Some(Derived(p.commitment, "grant")))
  {
    assert CheckBinding(GrantFor(row, p), x.executions[row.request.executionRequestId], 0).None?;
    x' := DoExecute(x, GrantFor(row, p), 0).0;
    answer := DoExecute(x, GrantFor(row, p), 0).1;
  }

  lemma Persists(s: Store, row: Row, signature: Signature) returns (s': Store, next: Row)
    requires s.rows == [row] && row.state.Submitted?
    ensures s' == DoPersist(s, row.settlementId, Technical(ExecutorAccepted, Some(signature)), 0).0
    ensures s'.rows == [next] && next == row.(state := Reconciling, signature := Some(signature), updatedAt := 0)
  {
    OneRowIsFound(s, row);
    s' := DoPersist(s, row.settlementId, Technical(ExecutorAccepted, Some(signature)), 0).0;
    next := s'.rows[0];
  }

  // ----- the run, from its end to its beginning

  /** Some interleaving leads from one world to the other. */
  ghost predicate Arrives(w: World, w': World) { exists steps :: w' == Interleave(w, steps) }

  lemma ArrivesHere(w: World)
    ensures Arrives(w, w)
  {
    assert w == Interleave(w, []);
  }

  lemma ArrivesNext(w: World, step: Step, middle: World, w': World)
    requires middle == Next(w, step) && Arrives(middle, w')
    ensures Arrives(w, w')
  {
    var rest :| w' == Interleave(middle, rest);
    assert ([step] + rest)[1..] == rest;
    assert w' == Interleave(w, [step] + rest);
  }

  lemma ByTable(w: World, t: Txn, s: Store, middle: World, w': World)
    requires SingleTransaction(t) && s == Apply(w.store, t).0 && middle == w.(store := s) && Arrives(middle, w')
    ensures Arrives(w, w')
  {
    ArrivesNext(w, Table(t), middle, w');
  }

  lemma ByPrepare(w: World, input: PrepareInput, at: int, middle: World, w': World)
    requires middle == w.(ledger := DoPrepare(w.ledger, input, at).0) && Arrives(middle, w')
    ensures Arrives(w, w')
  {
    ArrivesNext(w, PrepareExecution(input, at), middle, w');
  }

  lemma BySubmit(w: World, k: nat, id: string, at: int, middle: World, w': World)
    requires middle == BeginSubmit(w, k, id, at) && Arrives(middle, w')
    ensures Arrives(w, w')
  {
    ArrivesNext(w, Submit(k, id, at), middle, w');
  }

  lemma ByCall(w: World, k: nat, at: int, lost: bool, middle: World, w': World)
    requires middle == Call(w, k, at, lost) && Arrives(middle, w')
    ensures Arrives(w, w')
  {
    ArrivesNext(w, CallExecutor(k, at, lost), middle, w');
  }

  lemma ByAnswer(w: World, k: nat, at: int, middle: World, w': World)
    requires middle == WriteAnswer(w, k, at) && Arrives(middle, w')
    ensures Arrives(w, w')
  {
    ArrivesNext(w, PersistAnswer(k, at), middle, w');
  }

  lemma ByRecover(w: World, k: nat, id: string, middle: World, w': World)
    requires middle == BeginRecover(w, k, id) && Arrives(middle, w')
    ensures Arrives(w, w')
  {
    ArrivesNext(w, StartRecover(k, id), middle, w');
  }

  lemma ByAsk(w: World, k: nat, unreachable: bool, middle: World, w': World)
    requires middle == Ask(w, k, unreachable) && Arrives(middle, w')
    ensures Arrives(w, w')
  {
    ArrivesNext(w, AskExecutor(k, unreachable), middle, w');
  }

  lemma ByWrite(w: World, k: nat, at: int, middle: World, w': World)
    requires middle == WriteRecord(w, k, at) && Arrives(middle, w')
    ensures Arrives(w, w')
  {
    ArrivesNext(w, WriteRecovery(k, at), middle, w');
  }

  /** The one settlement of the world is completed, and a recovery decided earlier has still to be written. */
  predicate CompletedUnderRecovery(w: World, id: string)
  {
    && |w.store.rows| == 1 && w.store.rows[0].settlementId == id && w.store.rows[0].state.Completed?
    && w.threads == map[1 := Recording(id, RecoveryUnknown, None)]
  }

  /** The one settlement of the world waits for reconciliation, and nothing runs. */
  predicate Reconcilable(w: World, row: Row)
  {
    && w.store.rows == [row] && row.state.Reconciling? && HasSignature(row)
      && row.request.requested <= row.request.vaultBefore
    && row.updatedAt == 0 && row.commitment.Some? && row.commitment.value.executorId == w.ledger.executorId
    && w.threads == map[]
  }

  lemma Reconciles(s: Store, row: Row) returns (t: Txn, s': Store)
    requires s.rows == [row] && row.state.Reconciling? && HasSignature(row)
    requires row.request.requested <= row.request.vaultBefore
    requires row.updatedAt == 0
    ensures SingleTransaction(t) && s' == Apply(s, t).0
    ensures |s'.rows| == 1 && s'.rows[0].settlementId == row.settlementId && s'.rows[0].state.Completed?
  {
    OneRowIsFound(s, row);
    var o := Witness(row);
    t := Reconcile(row.settlementId, [o], {o}, 0);
    assert CheckObservations([o], {o}).None? && Agree([o]) && AllExact(row, [o]);
    s' := Apply(s, t).0;
    assert s' == DoReconcile(s, row.settlementId, [o], {o}, 0).0;
  }

  lemma StartsRecovery(w: World, row: Row) returns (asking: World, recording: World)
    requires Reconcilable(w, row)
    ensures asking == BeginRecover(w, 1, row.settlementId) && recording == Ask(asking, 1, true)
    ensures recording == w.(threads := map[1 := Recording(row.settlementId, RecoveryUnknown, None)])
  {
    OneRowIsFound(w.store, row);
    asking := BeginRecover(w, 1, row.settlementId);
    recording := Ask(asking, 1, true);
  }

  lemma FromReconciling(w: World, row: Row) returns (w': World)
    requires Reconcilable(w, row)
    ensures Arrives(w, w') && CompletedUnderRecovery(w', row.settlementId)
  {
    var asking, recording := StartsRecovery(w, row);
    var t, s := Reconciles(recording.store, row);
    w' := recording.(store := s);
    ArrivesHere(w');
    ByTable(recording, t, s, w', w');
    ByAsk(asking, 1, true, recording, w');
    ByRecover(w, 1, row.settlementId, asking, w');
  }

  lemma Answers(w: World, row: Row, signature: Signature) returns (w': World, next: Row)
    requires w.store.rows == [row] && row.state.Submitted?
    requires w.threads == map[0 := Persisting(row.settlementId, Technical(ExecutorAccepted, Some(signature)))]
    ensures w' == WriteAnswer(w, 0, 0)
    ensures w'.store.rows == [next] && next == row.(state := Reconciling, signature := Some(signature), updatedAt := 0)
    ensures w'.threads == map[] && w'.ledger == w.ledger
  {
    var s;
    s, next := Persists(w.store, row, signature);
    w' := WriteAnswer(w, 0, 0);
    assert w.threads - {0} == map[];
  }

  /** Submitted, with the executor ready for exactly this call. */
  predicate Callable(w: World, row: Row, p: Prepared)
  {
    && w.store.rows == [row] && row.state.Submitted? && CommittedFor(row, p)
      && p == PreparedFor(row.request, w.ledger.executorId)
    && row.request.requested <= row.request.vaultBefore && Expects(w.ledger, row.request, p)
    && w.threads == map[0 := Calling(row.settlementId, GrantFor(row, p))]
  }

  /** The executor holds the prepared execution of this request, and has executed nothing. */
  predicate Expects(x: Ledger, q: SettlementRequest, p: Prepared)
  {
    && x.effects == map[] && x.consumed == map[] && q.executionRequestId in x.executions
    && x.executions[q.executionRequestId].prepared == p && x.executions[q.executionRequestId].state.StatePrepared?
    && x.executions[q.executionRequestId].obligationId == q.obligationId
  }

  lemma Calls(w: World, row: Row, p: Prepared) returns (w': World)
    requires Callable(w, row, p)
    ensures w' == Call(w, 0, 0, false) && w'.store == w.store && w'.ledger.executorId == w.ledger.executorId
    ensures w'.threads ==
              map[0 := Persisting(row.settlementId, Technical(ExecutorAccepted, Some(Derived(p.commitment, "grant"))))]
  {
    OneRowIsFound(w.store, row);
    var x, answer := Executes(w.ledger, row, p);
    w' := Call(w, 0, 0, false);
  }

  lemma FromSubmitted(w: World, row: Row, p: Prepared) returns (w': World)
    requires Callable(w, row, p)
    ensures Arrives(w, w') && CompletedUnderRecovery(w', row.settlementId)
  {
    var called := Calls(w, row, p);
    var answered, next := Answers(called, row, Derived(p.commitment, "grant"));
    w' := FromReconciling(answered, next);
    ByAnswer(called, 0, 0, answered, w');
    ByCall(w, 0, 0, false, called, w');
  }

  /** A table of one row about to be submitted, beside a ready executor. */
  predicate Submittable(w: World, row: Row, p: Prepared)
  {
    && w.store.rows == [row] && row.settlementId !in w.store.intents && w.threads == map[]
    && CommittedFor(row, p) && p == PreparedFor(row.request, w.ledger.executorId)
    && row.request.requested <= row.request.vaultBefore && row.updatedAt == 0 && Expects(w.ledger, row.request, p)
  }

  lemma Submits(w: World, row: Row, p: Prepared) returns (w': World, next: Row)
    requires Submittable(w, row, p) && row.state.Authorized? && row.authorization == Some(GrantFor(row, p))
    ensures w' == BeginSubmit(w, 0, row.settlementId, 0) && Callable(w', next, p)
    ensures next.settlementId == row.settlementId
  {
    var s;
    s, next := Intends(w.store, row, p);
    w' := BeginSubmit(w, 0, row.settlementId, 0);
  }

  lemma FromAuthorized(w: World, row: Row, p: Prepared) returns (w': World)
    requires Submittable(w, row, p) && row.state.Authorized? && row.authorization == Some(GrantFor(row, p))
    ensures Arrives(w, w') && CompletedUnderRecovery(w', row.settlementId)
  {
    var submitted, next := Submits(w, row, p);
    w' := FromSubmitted(submitted, next, p);
    BySubmit(w, 0, row.settlementId, 0, submitted, w');
  }

  lemma GrantStep(w: World, row: Row, p: Prepared) returns (t: Txn, w': World, next: Row)
    requires Submittable(w, row, p) && row.state.ExecutionCommitted?
    ensures SingleTransaction(t) && w' == w.(store := Apply(w.store, t).0)
    ensures Submittable(w', next, p) && next.settlementId == row.settlementId
    ensures next.state.Authorized? && next.authorization == Some(GrantFor(next, p))
  {
    var s;
    s, next := Authorizes(w.store, row, p);
    t := Authorize(row.settlementId, GrantFor(row, p), true, 0);
    assert Apply(w.store, t) == DoAuthorize(w.store, row.settlementId, GrantFor(row, p), true, 0);
    w' := w.(store := s);
  }

  lemma FromCommitted(w: World, row: Row, p: Prepared) returns (w': World)
    requires Submittable(w, row, p) && row.state.ExecutionCommitted?
    ensures Arrives(w, w') && CompletedUnderRecovery(w', row.settlementId)
  {
    var t, granted, next := GrantStep(w, row, p);
    w' := FromAuthorized(granted, next, p);
    ByTable(w, t, granted.store, granted, w');
  }

  /** One registered settlement and nothing else. */
  predicate Registered(w: World, q: SettlementRequest)
  {
    && w.store.rows == [NewRow(q)] && q.settlementId !in w.store.intents && w.threads == map[]
    && q.requested <= q.vaultBefore && q.expiresAt == 1
  }

  lemma CommitStep(w: World, q: SettlementRequest, p: Prepared) returns (t: Txn, w': World, next: Row)
    requires Registered(w, q) && p == PreparedFor(q, w.ledger.executorId) && Expects(w.ledger, q, p)
    ensures SingleTransaction(t) && w' == w.(store := Apply(w.store, t).0)
    ensures Submittable(w', next, p) && next.settlementId == q.settlementId && next.state.ExecutionCommitted?
  {
    var s;
    s, next := Commits(w.store, q, p);
    t := Commit(q.settlementId, p, p.signer, 0);
    assert Apply(w.store, t) == DoCommit(w.store, q.settlementId, p, p.signer, 0);
    w' := w.(store := s);
  }

  lemma FromPrepared(w: World, q: SettlementRequest, p: Prepared) returns (w': World)
    requires Registered(w, q) && p == PreparedFor(q, w.ledger.executorId) && Expects(w.ledger, q, p)
    ensures Arrives(w, w') && CompletedUnderRecovery(w', q.settlementId)
  {
    var t, committed, next := CommitStep(w, q, p);
    w' := FromCommitted(committed, next, p);
    ByTable(w, t, committed.store, committed, w');
  }

  lemma PrepareStep(w: World, q: SettlementRequest) returns (w': World)
    requires Registered(w, q) && w.ledger.executions == map[] && w.ledger.effects == map[] && w.ledger.consumed == map[]
    ensures w' == w.(ledger := DoPrepare(w.ledger, InputFor(q), 0).0)
    ensures Registered(w', q) && Expects(w'.ledger, q, PreparedFor(q, w'.ledger.executorId))
  {
    var x, e := Prepares(w.ledger, q);
    w' := w.(ledger := x);
  }

  lemma FromRegistered(w: World, q: SettlementRequest) returns (w': World)
    requires Registered(w, q) && w.ledger.executions == map[] && w.ledger.effects == map[] && w.ledger.consumed == map[]
    ensures Arrives(w, w') && CompletedUnderRecovery(w', q.settlementId)
  {
    var prepared := PrepareStep(w, q);
    w' := FromPrepared(prepared, q, PreparedFor(q, prepared.ledger.executorId));
    ByPrepare(w, InputFor(q), 0, prepared, w');
  }

  lemma AcceptsHalf(s: Store, c: Channel, q: SettlementRequest) returns (t: Txn, s': Store)
    requires s.rows == [] && ValidateRequest(q, c, 0).None? && CheckReservation(s, q).None?
    requires Find(s, q.settlementId) == 0 && FirstIndex(s.rows, Collides(q)) == 0
    ensures SingleTransaction(t) && s' == Apply(s, t).0 && s'.rows == [NewRow(q)] && s'.intents == s.intents
  {
    t := Register(q, c, 0);
    s' := Apply(s, t).0;
    assert s' == DoRegister(s, q, c, 0).0;
  }

  /** Some settlement can be registered first. */
  lemma FirstRegistration(s: Store, id: string, from: nat) returns (t: Txn, s': Store, q: SettlementRequest)
    requires s.rows == [] && from <= 5
    ensures SingleTransaction(t) && s' == Apply(s, t).0 && s'.rows == [NewRow(q)] && s'.intents == s.intents
    ensures q.settlementId == id && q.requested <= q.vaultBefore && q.expiresAt == 1
  {
    var c := Sample(from);
    PayableIf(c);
    q := Half(c, id);
    HalfIsFree(s, c, q);
    t, s' := AcceptsHalf(s, c, q);
  }

  lemma HalfIsFree(s: Store, c: Channel, q: SettlementRequest)
    requires s.rows == [] && Payable(c) && q == Half(c, q.settlementId)
    ensures ValidateRequest(q, c, 0).None? && CheckReservation(s, q).None?
    ensures Find(s, q.settlementId) == 0 && FirstIndex(s.rows, Collides(q)) == 0
  {
    HalfIsSupported(c, q.settlementId);
    NoRows(ReservedAmount(ScopeOf(q)));
    NoRows(CompletedAfter(ScopeOf(q)));
    ReservationFits(s, q);
  }

  /** Nothing registered, prepared or running. */
  predicate Fresh(w: World)
  {
    && w.store.rows == [] && w.store.intents == {} && w.threads == map[]
    && w.ledger.executions == map[] && w.ledger.effects == map[] && w.ledger.consumed == map[]
  }

  lemma StartIsFresh(executorId: string)
    ensures Fresh(Start(executorId))
  {
  }

  /** From nothing to a settlement completed under a running recovery. */
  lemma ReachesCompletion(w: World, id: string) returns (w': World)
    requires Fresh(w)
    ensures Arrives(w, w') && CompletedUnderRecovery(w', id)
  {
    var t, s, q := FirstRegistration(w.store, id, 0);
    var registered := w.(store := s);
    w' := FromRegistered(registered, q);
    ByTable(w, t, s, registered, w');
  }

  /** And the late write takes it out of completed again. */
  lemma WriteReopens(w: World, id: string) returns (w': World)
    requires CompletedUnderRecovery(w, id)
    ensures Arrives(w, w')
    ensures |w'.store.rows| == 1 && w'.store.rows[0].settlementId == id && w'.store.rows[0].state.InRecovery?
  {
    OneRowIsFound(w.store, w.store.rows[0]);
    w' := WriteRecord(w, 1, 0);
    ArrivesHere(w');
    ByWrite(w, 1, 0, w', w');
  }

  /** From nothing to completed and, by a recovery decided before, back to needing recovery. */
  lemma CompletedIsReopened(w: World, id: string) returns (completed: World, reopened: World)
    requires Fresh(w)
    ensures Arrives(w, completed) && CompletedUnderRecovery(completed, id) && Arrives(completed, reopened)
    ensures |reopened.store.rows| == 1 && reopened.store.rows[0].settlementId == id
    ensures reopened.store.rows[0].state.InRecovery?
  {
    completed := ReachesCompletion(w, id);
    reopened := WriteReopens(completed, id);
  }
}
