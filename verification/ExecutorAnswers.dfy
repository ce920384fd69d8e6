/** What each call of the executor answers, exactly, and that an authorization it accepted is spent for good. */
module ExecutorAnswers {
  import opened Tables
  import opened Channels
  import opened SettlementStore
  import opened SettlementAnswers
  import opened Executor

  // ----- prepare

  /** The plan is the approved one, and everything the execution rests on outlives it. */
  predicate Preparable(input: PrepareInput, now: int)
  {
    var q := input.request;
    && q.wellFormed && q.plan == q.planHashOf == q.approvedPlan && now < q.approvalExpiresAt
    && input.simulation.success && now < input.expiresAt
    && input.expiresAt <= input.simulation.validUntil && input.expiresAt <= q.plan.expiresAt
  }

  /** Neither the request id nor its idempotency key is known, and its obligation has no effect yet. */
  ghost predicate Unused(x: Ledger, q: ExecutionRequest)
  {
    && q.executionRequestId !in x.executions && q.plan.obligationId !in x.effects
    && forall id :: id in x.executions ==> x.executions[id].idempotencyKey != q.idempotencyKey
  }

  /** The prepared execution carries the input, under this executor's name, committed to the plan's obligation. */
  predicate PreparedAs(p: Prepared, input: PrepareInput, executorId: string)
  {
    && p.wellFormed && p.executionRequestId == input.request.executionRequestId && p.executorId == executorId
    && p.plan == input.request.plan && p.messageHash == input.messageHash
    && p.simulationHash == input.simulation.hash && p.signer == input.signer && p.constraints == input.constraints
    && p.expiresAt == input.expiresAt && Commits(p.commitment, p, input.request.plan.obligationId)
  }

  /** A prepared execution waits, unsigned, for its authorization. */
  function Waiting(input: PrepareInput, p: Prepared): Execution
  {
    var q := input.request;
    Execution(q.idempotencyKey, q.plan.obligationId, input, StatePrepared, p, None, None)
  }

  ghost predicate SoOfPreparation(why: ExecutorError, x: Ledger, input: PrepareInput, now: int)
  {
    var q := input.request;
    match why
    case UnsupportedRequest => !q.wellFormed
    case PlanHashMismatch => q.planHashOf != q.plan
    case ApprovalMismatch => q.approvedPlan != q.plan
    case ApprovalExpired => q.approvalExpiresAt <= now
    case PlanExpired => q.plan.expiresAt <= now
    case PreparationExpired => input.expiresAt <= now
    case SimulationFailed => !input.simulation.success
    case SimulationExpired => input.simulation.validUntil <= now
    case PreparedOutlivesSimulation => input.simulation.validUntil < input.expiresAt
    case PreparedOutlivesPlan => q.plan.expiresAt < input.expiresAt
    case InputConflict =>
      || (q.executionRequestId in x.executions && x.executions[q.executionRequestId].input != input)
      || (exists id :: id in x.executions && x.executions[id].idempotencyKey == q.idempotencyKey)
    case ObligationAlreadyExecuted => q.plan.obligationId in x.effects
    case _ => false
  }

  lemma PreparableExactly(input: PrepareInput, now: int)
    ensures CheckPrepare(input, now).None? <==> Preparable(input, now)
    ensures CheckPrepare(input, now).Some? ==>
              forall x :: SoOfPreparation(CheckPrepare(input, now).value, x, input, now)
  {
  }

  /**
   * A preparable input is prepared once: the first time it is stored as given, the second time the stored one is
   * returned, and a different input under its id or key is refused.
   */
  lemma PreparesExactly(x: Ledger, input: PrepareInput, now: int, x': Ledger, r: Result<Prepared, ExecutorError>)
    requires (x', r) == DoPrepare(x, input, now)
    ensures var q, id := input.request, input.request.executionRequestId;
            && (x' != x <==> Preparable(input, now) && Unused(x, q))
            && (x' != x ==>
                  && r.Ok? && PreparedAs(r.value, input, x.executorId)
                  && x' == x.(executions := x.executions[id := Waiting(input, r.value)]))
            && (x' == x && r.Ok? <==>
                  Preparable(input, now) && id in x.executions && x.executions[id].input == input)
            && (x' == x && r.Ok? ==> r.value == x.executions[id].prepared)
            && (r.Err? ==> SoOfPreparation(r.error, x, input, now))
  {
    PreparableExactly(input, now);
    if x' != x {
      assert input.request.executionRequestId in x'.executions;
    }
  }

  // ----- authorize and execute

  /** The authorization names this prepared execution in every particular, and ends no later. */
  predicate Covers(a: Authorization, e: Execution)
  {
    && a.executionRequestId == e.prepared.executionRequestId && a.commitment == e.prepared.commitment
    && a.messageHash == e.prepared.messageHash && a.signer == e.prepared.signer
    && Commits(e.prepared.commitment, e.prepared, e.obligationId)
  }

  /** Well formed, genuine and inside its window. */
  predicate Active(a: Authorization, now: int) { InForce(a, a.authentic, now) }

  predicate Executable(x: Ledger, a: Authorization, now: int)
  {
    && Active(a, now) && a.authorizationId !in x.consumed && a.executionRequestId in x.executions
    && var e := x.executions[a.executionRequestId];
       && !e.state.StateConfirmed? && Covers(a, e) && e.obligationId !in x.effects
       && now < e.prepared.expiresAt && a.expiresAt <= e.prepared.expiresAt
  }

  predicate SoOfExecution(why: ExecutorError, x: Ledger, a: Authorization, now: int)
  {
    var known := a.executionRequestId in x.executions;
    match why
    case UnsupportedAuthorization => !a.wellFormed || !a.authentic
    case AuthorizationNotActive => now < a.issuedAt
    case LapsedAuthorization => a.expiresAt <= now
    case AuthorizationReplay => a.authorizationId in x.consumed
    case AuthorizationMismatch => !known || !Covers(a, x.executions[a.executionRequestId])
    case PreparationExpired => known && x.executions[a.executionRequestId].prepared.expiresAt <= now
    case AuthorizationOutlivesPrepared => known && x.executions[a.executionRequestId].prepared.expiresAt < a.expiresAt
    case ObligationAlreadyExecuted =>
      && known
      && (|| x.executions[a.executionRequestId].state.StateConfirmed?
          || x.executions[a.executionRequestId].obligationId in x.effects)
    case _ => false
  }

  /** What one transaction leaves: the execution confirmed and signed, its authorization spent, its effect applied. */
  function Applied(x: Ledger, a: Authorization, receipt: ExecutionReceipt): Ledger
    requires a.executionRequestId in x.executions
  {
    var id, e := a.executionRequestId, x.executions[a.executionRequestId];
    var done := e.(state := StateConfirmed, signature := Some(receipt.signature), receipt := Some(receipt));
    Ledger(x.executorId,
           x.executions[id := done],
           x.consumed[a.authorizationId := id],
           x.effects[e.obligationId := id])
  }

  lemma ExecutableExactly(x: Ledger, a: Authorization, now: int)
    ensures CheckExecute(x, a, now).None? <==> Executable(x, a, now)
    ensures CheckExecute(x, a, now).Some? ==> SoOfExecution(CheckExecute(x, a, now).value, x, a, now)
  {
  }

  /**
   * A call applies its effect exactly when the authorization is active, unspent and covers a prepared execution of
   * an obligation without effect.  Then it leaves all three tables changed together; otherwise none.
   */
  lemma ExecutesExactly(x: Ledger, a: Authorization, now: int, x': Ledger, r: Result<ExecutionReceipt, ExecutorError>)
    requires (x', r) == DoExecute(x, a, now)
    ensures r.Ok? <==> Executable(x, a, now)
    ensures r.Ok? ==>
              && r.value == ExecutionReceipt(a.executionRequestId, a.commitment, a.messageHash,
                                          Derived(a.commitment, a.authorizationId))
              && x' == Applied(x, a, r.value)
    ensures r.Err? ==> x' == x && SoOfExecution(r.error, x, a, now)
  {
    ExecutableExactly(x, a, now);
  }

  // ----- over whole runs of the ledger

  datatype LedgerCall = Prepare(input: PrepareInput, at: int) | Execute(authorization: Authorization, at: int)

  function Serve(x: Ledger, call: LedgerCall): Ledger
  {
    match call
    case Prepare(input, at) => DoPrepare(x, input, at).0
    case Execute(a, at) => DoExecute(x, a, at).0
  }

  function Served(x: Ledger, calls: seq<LedgerCall>): Ledger
    decreases |calls|
  {
    if |calls| == 0 then x else Served(Serve(x, calls[0]), calls[1..])
  }

  /** Executions, effects and consumed authorizations correspond one to one in every ledger a run reaches. */
  lemma {:induction false} ServedIsSound(x: Ledger, calls: seq<LedgerCall>)
    requires Sound(x)
    ensures Sound(Served(x, calls))
    decreases |calls|
  {
    if |calls| > 0 {
      var x' := Serve(x, calls[0]);
      match calls[0] {
        case Prepare(input, at) => PrepareKeepsSound(x, input, at, x');
        case Execute(a, at) => ExecuteKeepsSound(x, a, at, x');
      }
      ServedIsSound(x', calls[1..]);
    }
  }

  lemma ServeKeepsSpent(x: Ledger, call: LedgerCall, authorization: string)
    requires authorization in x.consumed
    ensures authorization in Serve(x, call).consumed
    ensures Serve(x, call).consumed[authorization] == x.consumed[authorization]
  {
    match call
    case Prepare(input, at) => PreparesExactly(x, input, at, DoPrepare(x, input, at).0, DoPrepare(x, input, at).1);
    case Execute(a, at) => ExecutesExactly(x, a, at, DoExecute(x, a, at).0, DoExecute(x, a, at).1);
  }

  lemma {:induction false} ServedKeepsSpent(x: Ledger, calls: seq<LedgerCall>, authorization: string)
    requires authorization in x.consumed
    ensures authorization in Served(x, calls).consumed
    ensures Served(x, calls).consumed[authorization] == x.consumed[authorization]
    decreases |calls|
  {
    if |calls| > 0 {
      ServeKeepsSpent(x, calls[0], authorization);
      ServedKeepsSpent(Serve(x, calls[0]), calls[1..], authorization);
    }
  }

  /** Once accepted, an authorization is a replay in every later ledger, for as long as it is active. */
  lemma ReplayIsRefused(x: Ledger, a: Authorization, at: int, calls: seq<LedgerCall>, later: int)
    requires DoExecute(x, a, at).1.Ok? && Active(a, later)
    ensures DoExecute(Served(DoExecute(x, a, at).0, calls), a, later)
            == (Served(DoExecute(x, a, at).0, calls), Err(AuthorizationReplay))
  {
    var x' := DoExecute(x, a, at).0;
    ExecutesExactly(x, a, at, x', DoExecute(x, a, at).1);
    ServedKeepsSpent(x', calls, a.authorizationId);
  }

  /** An execution that a settlement binds and authorizes, while both last, is one the executor will apply. */
  lemma BoundIsExecutable(x: Ledger, input: PrepareInput, q: SettlementRequest, signer: string, a: Authorization,
                          at: int, now: int)
    requires DoPrepare(x, input, at).0 != x && Sound(x)
    requires var p := DoPrepare(x, input, at).1.value;
             Bindable(q, p, signer, at) && Names(a, Bound(q, p, signer)) && a.expiresAt <= p.expiresAt
    requires Active(a, now) && a.authorizationId !in x.consumed
    ensures DoExecute(DoPrepare(x, input, at).0, a, now).1.Ok?
  {
    var (x', r) := DoPrepare(x, input, at);
    PreparesExactly(x, input, at, x', r);
    ExecutesExactly(x', a, now, DoExecute(x', a, now).0, DoExecute(x', a, now).1);
  }

  /** The status of a request nobody prepared is an error, and asking writes nothing. */
  lemma RecoversExactly(x: Ledger, id: string)
    requires Sound(x)
    ensures DoRecover(x, id) == if id !in x.executions then Err(ExecutionMissing)
                                else if Executed(x, id) then
                                  Ok(RecoveryAnswer(RecoveryConfirmed, false, x.executions[id].signature))
                                else Ok(RecoveryAnswer(RecoveryFailedBeforeBroadcast, true, None))
  {
    if id in x.executions {
      assert ExecutionSound(x.effects, id, x.executions[id]);
    }
  }
}
