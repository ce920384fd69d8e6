/** The durable fake executor: prepare, authorize-and-execute, recover. */
module Executor {
  import opened Tables
  import opened Channels
  import opened SettlementStore

  datatype ExecutionRequest = ExecutionRequest(
    wellFormed: bool, executionRequestId: string, idempotencyKey: string,
    plan: EconomicPlan, planHashOf: EconomicPlan, approvedPlan: EconomicPlan, approvalExpiresAt: int)

  datatype Simulation = Simulation(success: bool, validUntil: int, hash: string)

  /** Everything the input fingerprint covers, with the hash of the message derived from the plan. */
  datatype PrepareInput = PrepareInput(
    request: ExecutionRequest, simulation: Simulation, signer: string, constraints: string, messageHash: string,
    expiresAt: int)

  datatype ExecutionState = StatePrepared | StateAuthorized | StateConfirmed

  datatype ExecutionReceipt = ExecutionReceipt(
    executionRequestId: string, commitment: ExternalCommitment, messageHash: string, signature: Signature)

  datatype Execution = Execution(
    idempotencyKey: string, obligationId: string, input: PrepareInput, state: ExecutionState, prepared: Prepared,
    signature: Option<Signature>, receipt: Option<ExecutionReceipt>)

  /** `consumed` maps authorization ids and `effects` obligation ids to execution request ids. */
  datatype Ledger = Ledger(
    executorId: string, executions: map<string, Execution>, consumed: map<string, string>, effects: map<string, string>)

  datatype ExecutorError =
    | UnsupportedRequest | PlanHashMismatch | ApprovalMismatch | ApprovalExpired | PlanExpired | PreparationExpired
    | SimulationFailed | SimulationExpired | PreparedOutlivesSimulation | PreparedOutlivesPlan
    | InputConflict | ObligationAlreadyExecuted
    | UnsupportedAuthorization | AuthorizationNotActive | LapsedAuthorization | AuthorizationReplay
    | AuthorizationMismatch
    | AuthorizationOutlivesPrepared | ExecutionMissing | ReceiptMissing
    | DefinitivelyRejected                               // an executor may say so; this one never does

  function CheckPrepare(input: PrepareInput, now: int): (bad: Option<ExecutorError>)
  {
    var q := input.request;
    if !q.wellFormed then Some(UnsupportedRequest)
    else if q.planHashOf != q.plan then Some(PlanHashMismatch)
    else if q.approvedPlan != q.plan then Some(ApprovalMismatch)
    else if q.approvalExpiresAt <= now then Some(ApprovalExpired)
    else if q.plan.expiresAt <= now then Some(PlanExpired)
    else if input.expiresAt <= now then Some(PreparationExpired)
    else if !input.simulation.success then Some(SimulationFailed)
    else if input.simulation.validUntil <= now then Some(SimulationExpired)
    else if input.expiresAt > input.simulation.validUntil then Some(PreparedOutlivesSimulation)
    else if input.expiresAt > q.plan.expiresAt then Some(PreparedOutlivesPlan)
    else None
  }

  function PreparedFrom(executorId: string, input: PrepareInput): Prepared
  {
    var q := input.request;
    Prepared(true, q.executionRequestId, executorId, q.plan, input.messageHash, input.simulation.hash,
             input.signer, input.constraints, input.expiresAt,
             ExternalCommitment(q.executionRequestId, q.plan.obligationId, executorId, q.plan, input.messageHash,
                                input.simulation.hash, input.signer, input.constraints, input.expiresAt))
  }

  function DoPrepare(x: Ledger, input: PrepareInput, now: int): (Ledger, Result<Prepared, ExecutorError>)
  {
    var bad, q := CheckPrepare(input, now), input.request;
    if bad.Some? then (x, Err(bad.value))
    else if q.executionRequestId in x.executions then
      var known := x.executions[q.executionRequestId];
      (x, if known.input == input then Ok(known.prepared) else Err(InputConflict))
    else if exists id :: id in x.executions && x.executions[id].idempotencyKey == q.idempotencyKey then
      (x, Err(InputConflict))
    else if q.plan.obligationId in x.effects then (x, Err(ObligationAlreadyExecuted))
    else
      var prepared := PreparedFrom(x.executorId, input);
      var execution := Execution(q.idempotencyKey, q.plan.obligationId, input, StatePrepared, prepared, None, None);
      (x.(executions := x.executions[q.executionRequestId := execution]), Ok(prepared))
  }

  /** `_verify_binding` */
  function CheckBinding(a: Authorization, execution: Execution, now: int): (bad: Option<ExecutorError>)
    ensures bad.None? ==>
              a.commitment == execution.prepared.commitment == CommitmentOf(execution.prepared, execution.obligationId)
  {
    var p := execution.prepared;
    if a.executionRequestId != p.executionRequestId || a.commitment != p.commitment || a.messageHash != p.messageHash
       || a.signer != p.signer then Some(AuthorizationMismatch)
    else if p.commitment != CommitmentOf(p, execution.obligationId) then Some(AuthorizationMismatch)
    else if p.expiresAt <= now then Some(PreparationExpired)
    else if a.expiresAt > p.expiresAt then Some(AuthorizationOutlivesPrepared)
    else None
  }

  function CheckExecute(x: Ledger, a: Authorization, now: int): (bad: Option<ExecutorError>)
    ensures bad.None? ==>
              && a.executionRequestId in x.executions && a.authorizationId !in x.consumed
              && x.executions[a.executionRequestId].state != StateConfirmed
              && CheckBinding(a, x.executions[a.executionRequestId], now).None?
              && x.executions[a.executionRequestId].obligationId !in x.effects
  {
    if !a.wellFormed || !a.authentic then Some(UnsupportedAuthorization)
    else if a.issuedAt > now then Some(AuthorizationNotActive)
    else if a.expiresAt <= now then Some(LapsedAuthorization)
    else if a.authorizationId in x.consumed then Some(AuthorizationReplay)
    else if a.executionRequestId !in x.executions then Some(AuthorizationMismatch)
    else
      var execution := x.executions[a.executionRequestId];
      if execution.state.StateConfirmed? then Some(ObligationAlreadyExecuted)
      else
        var binding := CheckBinding(a, execution, now);
        if binding.Some? then binding
        else if execution.obligationId in x.effects then Some(ObligationAlreadyExecuted)
        else None
  }

  /** The one transaction that applies an effect, before any response is returned or lost. */
  function DoExecute(x: Ledger, a: Authorization, now: int): (Ledger, Result<ExecutionReceipt, ExecutorError>)
  {
    var bad, id := CheckExecute(x, a, now), a.executionRequestId;
    if bad.Some? then (x, Err(bad.value))
    else
      var execution := x.executions[id];
      var signature := Derived(execution.prepared.commitment, a.authorizationId);
      var receipt := ExecutionReceipt(id, execution.prepared.commitment, execution.prepared.messageHash, signature);
      var done := execution.(state := StateConfirmed, signature := Some(signature), receipt := Some(receipt));
      (x.(executions := x.executions[id := done],
          consumed := x.consumed[a.authorizationId := id],
          effects := x.effects[execution.obligationId := id]), Ok(receipt))
  }

  datatype RecoveryAnswer = RecoveryAnswer(outcome: RecoveryOutcome, mayRematerialize: bool,
    signature: Option<Signature>)

  /** Answers from the stored state of this request alone; it never executes. */
  function DoRecover(x: Ledger, id: string): Result<RecoveryAnswer, ExecutorError>
  {
    if id !in x.executions then Err(ExecutionMissing)
    else
      var e := x.executions[id];
      match e.state
      case StateConfirmed =>
        if e.receipt.None? then Err(ReceiptMissing) else Ok(RecoveryAnswer(RecoveryConfirmed, false, e.signature))
      case StatePrepared => Ok(RecoveryAnswer(RecoveryFailedBeforeBroadcast, true, e.signature))
      case StateAuthorized => Ok(RecoveryAnswer(RecoveryUnknown, false, e.signature))
  }

  // ----- what every call keeps

  predicate Executed(x: Ledger, id: string)
  {
    id in x.executions && x.executions[id].state.StateConfirmed?
  }

  /** Confirmed means signed, receipted and applied to its obligation; anything else means none of these. */
  predicate ExecutionSound(effects: map<string, string>, id: string, e: Execution)
  {
    && e.prepared.executionRequestId == id && !e.state.StateAuthorized?
    && (e.state.StateConfirmed? <==> e.obligationId in effects && effects[e.obligationId] == id)
    && (if e.state.StateConfirmed? then
          && e.signature.Some? && !e.signature.value.Empty()
          && e.receipt == Some(ExecutionReceipt(id, e.prepared.commitment, e.prepared.messageHash, e.signature.value))
        else e.signature.None? && e.receipt.None?)
  }

  /** The confirmed execution that spent this authorization, signed under it. */
  predicate SpentBy(x: Ledger, authorization: string, id: string)
  {
    && Executed(x, id)
    && x.executions[id].signature == Some(Derived(x.executions[id].prepared.commitment, authorization))
  }

  /** Each consumed authorization belongs to the one execution it confirmed, and each confirmed execution to one. */
  ghost predicate ConsumedSound(x: Ledger)
  {
    && (forall authorization :: authorization in x.consumed ==> SpentBy(x, authorization, x.consumed[authorization]))
    && (forall id :: Executed(x, id) ==>
          exists authorization :: authorization in x.consumed && x.consumed[authorization] == id)
  }

  /** Confirmed executions, effects and consumed authorizations correspond one to one; nothing is left half done. */
  ghost predicate Sound(x: Ledger)
  {
    && ConsumedSound(x)
    && (forall id :: id in x.executions ==> ExecutionSound(x.effects, id, x.executions[id]))
    && (forall obligation :: obligation in x.effects ==>
          Executed(x, x.effects[obligation]) && x.executions[x.effects[obligation]].obligationId == obligation)
  }

  /** Every execution but `id` is untouched. */
  ghost predicate SameExcept(x: Ledger, x': Ledger, id: string)
  {
    && x'.executorId == x.executorId
    && forall other :: other in x.executions && other != id ==>
      other in x'.executions && x'.executions[other] == x.executions[other]
  }

  lemma PrepareKeepsConsumed(x: Ledger, input: PrepareInput, now: int, x': Ledger)
    requires ConsumedSound(x) && x' == DoPrepare(x, input, now).0
    ensures ConsumedSound(x') && x'.consumed == x.consumed
  {
    forall a | a in x'.consumed ensures SpentBy(x', a, x'.consumed[a]) {
      assert SpentBy(x, a, x.consumed[a]);
    }
    forall id | Executed(x', id) ensures exists a :: a in x'.consumed && x'.consumed[a] == id {
      assert Executed(x, id);
    }
  }

  /** A success spends the authorization, which was unspent, on this execution; a refusal spends nothing. */
  lemma ExecuteKeepsConsumed(x: Ledger, a: Authorization, now: int, x': Ledger)
    requires ConsumedSound(x) && x' == DoExecute(x, a, now).0
    ensures ConsumedSound(x')
    ensures DoExecute(x, a, now).1.Err? ==> x' == x
    ensures DoExecute(x, a, now).1.Ok? ==>
              && a.authorizationId !in x.consumed
              && x'.consumed == x.consumed[a.authorizationId := a.executionRequestId]
              && SpentBy(x', a.authorizationId, a.executionRequestId)
  {
    if x' != x {
      forall c | c in x'.consumed ensures SpentBy(x', c, x'.consumed[c]) {
        if c != a.authorizationId {
          assert SpentBy(x, c, x.consumed[c]);
        }
      }
      forall id | Executed(x', id) ensures exists c :: c in x'.consumed && x'.consumed[c] == id {
        if id == a.executionRequestId {
          assert x'.consumed[a.authorizationId] == id;
        } else {
          assert Executed(x, id);
          var c :| c in x.consumed && x.consumed[c] == id;
          assert x'.consumed[c] == id;
        }
      }
    }
  }

  lemma PrepareKeepsSound(x: Ledger, input: PrepareInput, now: int, x': Ledger)
    requires Sound(x) && x' == DoPrepare(x, input, now).0
    ensures Sound(x') && x'.effects == x.effects && SameExcept(x, x', input.request.executionRequestId)
    ensures x'.consumed == x.consumed
    ensures input.request.executionRequestId in x.executions ==> x' == x
  {
    PrepareKeepsConsumed(x, input, now, x');
    if x' != x {
      var id := input.request.executionRequestId;
      assert ExecutionSound(x'.effects, id, x'.executions[id]);
      forall o | o in x'.effects ensures Executed(x', x'.effects[o]) && x'.executions[x'.effects[o]].obligationId == o {
        assert Executed(x, x.effects[o]);
      }
    }
  }

  /** The confirmed execution, its receipt and its effect, put into a ledger that had none of them. */
  ghost predicate Confirms(x: Ledger, id: string, signature: Signature, x': Ledger)
  {
    && id in x.executions && !Executed(x, id) && x.executions[id].obligationId !in x.effects && !signature.Empty()
    && var e := x.executions[id];
       var receipt := ExecutionReceipt(id, e.prepared.commitment, e.prepared.messageHash, signature);
       && x'.executions == x.executions[id :=
                             e.(state := StateConfirmed, signature := Some(signature), receipt := Some(receipt))]
       && x'.effects == x.effects[e.obligationId := id]
  }

  lemma ConfirmingKeepsExecutions(x: Ledger, id: string, signature: Signature, x': Ledger, other: string)
    requires Sound(x) && Confirms(x, id, signature, x') && other in x'.executions
    ensures ExecutionSound(x'.effects, other, x'.executions[other])
  {
    assert ExecutionSound(x.effects, id, x.executions[id]) && ExecutionSound(x.effects, other, x.executions[other]);
  }

  lemma ConfirmingKeepsEffects(x: Ledger, id: string, signature: Signature, x': Ledger, o: string)
    requires Sound(x) && Confirms(x, id, signature, x') && o in x'.effects
    ensures Executed(x', x'.effects[o]) && x'.executions[x'.effects[o]].obligationId == o
  {
    if o != x.executions[id].obligationId {
      assert Executed(x, x.effects[o]);
    }
  }

  /** An execution either changes nothing or turns exactly one unconfirmed request into a confirmed one. */
  lemma ExecuteKeepsSound(x: Ledger, a: Authorization, now: int, x': Ledger)
    requires Sound(x) && x' == DoExecute(x, a, now).0
    ensures Sound(x') && SameExcept(x, x', a.executionRequestId)
    ensures if DoExecute(x, a, now).1.Err? then x' == x
            else !Executed(x, a.executionRequestId) && Executed(x', a.executionRequestId)
                 && a.executionRequestId in x.executions && x'.executions.Keys == x.executions.Keys
                 && x'.executions[a.executionRequestId].receipt == Some(DoExecute(x, a, now).1.value)
                 && x'.consumed == x.consumed[a.authorizationId := a.executionRequestId]
                 && SpentBy(x', a.authorizationId, a.executionRequestId)
  {
    ExecuteKeepsConsumed(x, a, now, x');
    if x' != x {
      var id := a.executionRequestId;
      var signature := Derived(x.executions[id].prepared.commitment, a.authorizationId);
      assert ExecutionSound(x.effects, id, x.executions[id]);
      assert Confirms(x, id, signature, x');
      forall other | other in x'.executions ensures ExecutionSound(x'.effects, other, x'.executions[other]) {
        ConfirmingKeepsExecutions(x, id, signature, x', other);
      }
      forall o | o in x'.effects ensures Executed(x', x'.effects[o]) && x'.executions[x'.effects[o]].obligationId == o {
        ConfirmingKeepsEffects(x, id, signature, x', o);
      }
    }
  }

  /**
   * Recovery says "failed before broadcast" exactly when there is no effect, and "confirmed" exactly when there is
   * one.
   */
  lemma RecoveryIsTruthful(x: Ledger, id: string)
    requires Sound(x) && id in x.executions
    ensures DoRecover(x, id).Ok?
    ensures DoRecover(x, id).value.mayRematerialize <==>
              forall obligation :: obligation in x.effects ==> x.effects[obligation] != id
    ensures DoRecover(x, id).value.outcome.RecoveryConfirmed? <==>
              exists obligation :: obligation in x.effects && x.effects[obligation] == id
    ensures DoRecover(x, id).value.signature == x.executions[id].signature
  {
  }
}
