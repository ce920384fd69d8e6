/**
 * What each call of the refund journal answers, exactly, and what every row owes to the calls of the run.
 *
 * A call either moves its refund, or repeats what is already recorded, or is refused for a reason that is so.
 */
module RefundAnswers {
  import opened Tables
  import opened Journals
  import opened Channels
  import opened ClosePipeline
  import opened RefundStore
  import opened RefundTheorems

  // ----- one call on a registered refund

  /** The receipt answers the committed execution of this refund. */
  predicate Answering(r: TechnicalReceipt, row: RefundRow)
  {
    && r.wellFormed && r.refundId == row.refundId && r.request == row.request && row.commitment.Some?
    && r.executionRequestId == row.commitment.value.executionRequestId
    && r.executionCommitmentHash == row.commitment.value.executionCommitmentHash
  }

  /** A known outcome, with a signature exactly as its status says; an accepted one is signed. */
  predicate Conclusive(r: TechnicalReceipt)
  {
    && !r.outcome.OtherOutcome? && !r.signatureStatus.OtherSignatureStatus? && r.signature != Some("")
    && (r.signatureStatus.SignatureKnown? ==> r.signature.Some?)
    && (r.outcome.Accepted? ==> r.signatureStatus.SignatureKnown?)
  }

  function AfterReceipt(outcome: TechnicalOutcome): OperationState
  {
    match outcome
    case Accepted => Reconciling
    case Unknown => InRecovery
    case _ => InReview
  }

  /** The one observation, up to its signature, that shows this refund paid from the balances it was projected on. */
  function Showing(row: RefundRow, signature: string): Observation
  {
    var q, p := row.request, row.projection;
    Observation(true, q.domain, q.channel.channelId, q.channel.account, q.channel.epoch, q.channel.mint,
                q.destination, row.refundId, q, p, signature, p.funded, p.activated, p.settled,
                p.refundedBefore, p.refundedAfter, p.vaultBefore, p.vaultAfter)
  }

  /** The verifier vouches for an observation of a refund that waits for one. */
  predicate Reconcilable(row: RefundRow, o: Observation, verified: bool)
  {
    verified && o.wellFormed && o.signature != "" && (row.state.Reconciling? || row.state.InRecovery?)
  }

  /** The call moves the refund from `row` to `next`; `high` is the high-water mark of its scope. */
  predicate Does(call: Call, row: RefundRow, next: RefundRow, high: nat)
  {
    match call
    case Register(_, _, _, _) => false
    case Commit(_, c, at) =>
      && row.state.Validated? && c.wellFormed && at < c.expiresAt
      && c.request == row.request && c.projection == row.projection
      && next == row.(state := ExecutionCommitted, commitment := Some(c), updatedAt := at)
    case RecordSubmitIntent(_, at) =>
      row.state.ExecutionCommitted? && next == row.(state := Submitted, submitIntents := 1, updatedAt := at)
    case RecordTechnicalReceipt(_, r, at) =>
      && row.state.Submitted? && row.submitIntents == 1 && row.receipt.None? && Answering(r, row) && Conclusive(r)
      && next == row.(state := AfterReceipt(r.outcome), receipt := Some(r), signature := r.signature, updatedAt := at)
    case Reconcile(_, o, verified, at) =>
      && Reconcilable(row, o, verified)
      && if high <= row.projection.refundedBefore && o == Showing(row, o.signature) then
           && row.signature == Some(o.signature)
           && next == row.(state := Completed, reconciled := Some(o), updatedAt := at)
         else
           next == row.(state := InReview, updatedAt := at)
    case RecordRecoveredSignature(_, signature, responseHashOk, at) =>
      && row.state.InRecovery? && row.submitIntents == 1 && signature != "" && responseHashOk
      && next == row.(state := Reconciling, signature := Some(signature), updatedAt := at)
    case RecordProviderDivergence(_, providers, idsOk, at) =>
      && row.state in {InRecovery, Reconciling, InReview} && idsOk && |providers| >= 2
      && next == row.(state := InDispute, updatedAt := at)
    case ReleaseBeforeSubmission(_, target, at) =>
      && row.state.Validated? && row.submitIntents == 0 && target.Releasing() && !target.Completed?
      && next == row.(state := target, updatedAt := at)
  }

  /** The call asks for what is recorded already. */
  predicate Repeats(call: Call, row: RefundRow)
  {
    match call
    case Commit(_, c, at) =>
      c.wellFormed && at < c.expiresAt && row.state.ExecutionCommitted? && row.commitment == Some(c)
    case RecordSubmitIntent(_, _) => row.state in {Submitted, InRecovery, Reconciling, Completed}
    case RecordTechnicalReceipt(_, r, _) => r.wellFormed && row.receipt == Some(r)
    case Reconcile(_, o, verified, _) => verified && o.wellFormed && o.signature != "" && row.state.Completed?
    case RecordRecoveredSignature(_, signature, responseHashOk, _) =>
      signature != "" && responseHashOk && row.state.Reconciling? && row.signature == Some(signature)
    case _ => false
  }

  /** The reason given is so, of the call and the refund it names. */
  predicate SoOf(why: Refusal, call: Call, row: RefundRow, high: nat)
  {
    match call
    case Register(_, _, _, _) => false
    case Commit(_, c, at) =>
      (match why
       case MalformedCommitment => !c.wellFormed
       case CommitmentExpired => c.expiresAt <= at
       case CommitmentConflict => row.state.ExecutionCommitted? && row.commitment != Some(c)
       case CommitmentStateInvalid => row.state !in {Validated, ExecutionCommitted}
       case CommitmentMismatch => c.request != row.request || c.projection != row.projection
       case _ => false)
    case RecordSubmitIntent(_, _) =>
      why.SubmitStateInvalid?
        && row.state !in {ExecutionCommitted, Submitted, InRecovery, Reconciling, Completed}
    case RecordTechnicalReceipt(_, r, _) => SoOfReceipt(why, r, row)
    case Reconcile(_, o, verified, _) =>
      (match why
       case MalformedObservation => !o.wellFormed || o.signature == ""
       case ObservationUnverified => !verified
       case ReconciliationStateInvalid => row.state !in {Reconciling, InRecovery, Completed}
       case OverlappingRefundInterval => row.projection.refundedBefore < high
       case ReconciliationMismatch => o != Showing(row, o.signature)
       case ReconciliationSignatureMismatch => row.signature != Some(o.signature)
       case _ => false)
    case RecordRecoveredSignature(_, signature, responseHashOk, _) =>
      (match why
       case RecoveredSignatureMissing => signature == "" || !responseHashOk
       case RecoverySignatureConflict => row.state.Reconciling? && row.signature != Some(signature)
       case RecoveryStateInvalid => row.state !in {InRecovery, Reconciling}
       case SubmitIntentMissing => row.submitIntents != 1
       case _ => false)
    case RecordProviderDivergence(_, providers, idsOk, _) =>
      (match why
       case DivergenceUnproven => !idsOk || |providers| < 2
       case DivergenceStateInvalid => row.state !in {InRecovery, Reconciling, InReview}
       case _ => false)
    case ReleaseBeforeSubmission(_, target, _) =>
      (match why
       case InvalidReleaseState => !target.Releasing() || target.Completed?
       case ReleaseAfterSubmissionForbidden => !row.state.Validated? || row.submitIntents != 0
       case _ => false)
  }

  predicate SoOfReceipt(why: Refusal, r: TechnicalReceipt, row: RefundRow)
  {
    match why
    case MalformedReceipt => !r.wellFormed
    case ReceiptConflict => row.receipt.Some? && row.receipt.value != r
    case ReceiptStateInvalid => !row.state.Submitted?
    case SubmitIntentMissing => row.submitIntents != 1
    case ReceiptMismatch => !Answering(r, row)
    case InvalidOutcome => r.outcome.OtherOutcome?
    case InvalidSignatureStatus => r.signatureStatus.OtherSignatureStatus?
    case SignatureMissing => r.signatureStatus.SignatureKnown? && (r.signature.None? || r.signature == Some(""))
    case InvalidTransactionSignature => r.signature == Some("")
    case AcceptedSignatureUnknown => r.outcome.Accepted? && !r.signatureStatus.SignatureKnown?
    case _ => false
  }

  /** Row `i` becomes `next`, journalled; nothing else changes. */
  predicate Moved(s: Store, i: nat, next: RefundRow, at: int, s': Store)
  {
    && i < |s.refunds| && next.state != s.refunds[i].state
    && s' == Append(s.(refunds := s.refunds[i := next]), s.refunds[i].refundId, next.state, at)
  }

  /** The reply to a call that moved its refund: a review is written before it is refused. */
  predicate RepliesTo(call: Call, next: RefundRow, reply: Reply)
  {
    if call.Reconcile? && next.state.InReview? then reply.Refused? else reply == Record(next)
  }

  predicate Answered(s: Store, call: Call, i: nat, next: RefundRow, s': Store, reply: Reply)
    requires i < |s.refunds|
  {
    var row, high := s.refunds[i], HighWater(s, ScopeOf(s.refunds[i].request));
    && (Does(call, row, next, high) <==> Moved(s, i, next, call.at, s'))
    && (Does(call, row, next, high) ==> RepliesTo(call, next, reply))
    && (Repeats(call, row) <==> s' == s && reply.Record?)
    && (Repeats(call, row) ==> reply.row == row)
    && (reply.Refused? ==> SoOf(reply.why, call, row, high))
    && (s' == s || (i < |s'.refunds| && Moved(s, i, s'.refunds[i], call.at, s')))
  }

  /** What a call comes to, put together from its three possible outcomes. */
  lemma Assemble(s: Store, call: Call, i: nat, moved: RefundRow, next: RefundRow, s': Store, reply: Reply)
    requires i < |s.refunds|
    requires var row, high := s.refunds[i], HighWater(s, ScopeOf(s.refunds[i].request));
             && (Does(call, row, moved, high) ==> Moved(s, i, moved, call.at, s') && RepliesTo(call, moved, reply))
             && (!Does(call, row, moved, high) ==> s' == s && !Does(call, row, next, high))
             && (Does(call, row, next, high) ==> next == moved)
             && (Repeats(call, row) ==> s' == s && reply == Record(row))
             && (!Repeats(call, row) && s' == s ==> reply.Refused?)
             && (reply.Refused? ==> SoOf(reply.why, call, row, high))
    ensures Answered(s, call, i, next, s', reply)
  {
    if Moved(s, i, next, call.at, s') {
      assert s'.refunds[i] == next;
    }
  }

  lemma CommitAnswers(s: Store, call: Call, i: nat, next: RefundRow, s': Store, reply: Reply)
    requires call.Commit? && i < |s.refunds| && Find(s, call.id) == i
    requires (s', reply) == DoCommit(s, call.id, call.commitment, call.at)
    ensures Answered(s, call, i, next, s', reply)
  {
    var moved := s.refunds[i].(state := ExecutionCommitted, commitment := Some(call.commitment), updatedAt := call.at);
    Assemble(s, call, i, moved, next, s', reply);
  }

  lemma SubmitAnswers(s: Store, call: Call, i: nat, next: RefundRow, s': Store, reply: Reply)
    requires call.RecordSubmitIntent? && i < |s.refunds| && Find(s, call.id) == i
    requires (s', reply) == DoSubmitIntent(s, call.id, call.at)
    ensures Answered(s, call, i, next, s', reply)
  {
    var moved := s.refunds[i].(state := Submitted, submitIntents := 1, updatedAt := call.at);
    Assemble(s, call, i, moved, next, s', reply);
  }

  /** A receipt passes its checks exactly when it belongs to this submission and is conclusive. */
  lemma ReceiptIff(row: RefundRow, r: TechnicalReceipt)
    requires r.wellFormed && row.receipt.None?
    ensures CheckReceipt(row, r).None? <==>
              row.state.Submitted? && row.submitIntents == 1 && Answering(r, row) && Conclusive(r)
    ensures CheckReceipt(row, r).Some? ==> SoOfReceipt(CheckReceipt(row, r).value, r, row)
  {
  }

  lemma ReceiptAnswers(s: Store, call: Call, i: nat, next: RefundRow, s': Store, reply: Reply)
    requires call.RecordTechnicalReceipt? && i < |s.refunds| && Find(s, call.id) == i
    requires (s', reply) == DoReceipt(s, call.id, call.receipt, call.at)
    ensures Answered(s, call, i, next, s', reply)
  {
    var row, r := s.refunds[i], call.receipt;
    var moved := row.(state := AfterReceipt(r.outcome), receipt := Some(r), signature := r.signature,
                      updatedAt := call.at);
    if r.wellFormed && row.receipt.None? {
      ReceiptIff(row, r);
    }
    Assemble(s, call, i, moved, next, s', reply);
  }

  lemma RecoveredSignatureAnswers(s: Store, call: Call, i: nat, next: RefundRow, s': Store, reply: Reply)
    requires call.RecordRecoveredSignature? && i < |s.refunds| && Find(s, call.id) == i
    requires (s', reply) == DoRecoveredSignature(s, call.id, call.signature, call.responseHashOk, call.at)
    ensures Answered(s, call, i, next, s', reply)
  {
    var moved := s.refunds[i].(state := Reconciling, signature := Some(call.signature), updatedAt := call.at);
    Assemble(s, call, i, moved, next, s', reply);
  }

  lemma DivergenceAnswers(s: Store, call: Call, i: nat, next: RefundRow, s': Store, reply: Reply)
    requires call.RecordProviderDivergence? && i < |s.refunds| && Find(s, call.id) == i
    requires (s', reply) == DoDivergence(s, call.id, call.providers, call.idsOk, call.at)
    ensures Answered(s, call, i, next, s', reply)
  {
    var moved := s.refunds[i].(state := InDispute, updatedAt := call.at);
    Assemble(s, call, i, moved, next, s', reply);
  }

  lemma ReleaseAnswers(s: Store, call: Call, i: nat, next: RefundRow, s': Store, reply: Reply)
    requires call.ReleaseBeforeSubmission? && i < |s.refunds| && Find(s, call.id) == i
    requires (s', reply) == DoRelease(s, call.id, call.target, call.at)
    ensures Answered(s, call, i, next, s', reply)
  {
    var moved := s.refunds[i].(state := call.target, updatedAt := call.at);
    Assemble(s, call, i, moved, next, s', reply);
  }

  lemma MatchesExactly(row: RefundRow, o: Observation)
    requires o.wellFormed
    ensures Matches(row, o) <==> o == Showing(row, o.signature)
  {
  }

  /** What an observation the verifier vouches for comes to. */
  predicate Comes(s: Store, i: nat, o: Observation, at: int, s': Store, reply: Reply)
    requires i < |s.refunds|
  {
    var row, high := s.refunds[i], HighWater(s, ScopeOf(s.refunds[i].request));
    if row.projection.refundedBefore < high then
      s' == Write(s, i, row.(state := InReview), at) && reply == Refused(OverlappingRefundInterval)
    else if o != Showing(row, o.signature) then
      s' == Write(s, i, row.(state := InReview), at) && reply == Refused(ReconciliationMismatch)
    else if row.signature != Some(o.signature) then
      s' == s && reply == Refused(ReconciliationSignatureMismatch)
    else
      var next := row.(state := Completed, reconciled := Some(o), updatedAt := at);
      s' == Write(s, i, next, at) && reply == Record(next)
  }

  lemma ReconcileComes(s: Store, id: string, o: Observation, at: int, i: nat, s': Store, reply: Reply)
    requires i < |s.refunds| && Find(s, id) == i && Reconcilable(s.refunds[i], o, true)
    requires (s', reply) == DoReconcile(s, id, o, true, at)
    ensures Comes(s, i, o, at, s', reply)
  {
    MatchesExactly(s.refunds[i], o);
  }

  lemma ReviewAnswers(s: Store, call: Call, i: nat, next: RefundRow, s': Store, reply: Reply)
    requires call.Reconcile? && i < |s.refunds| && Reconcilable(s.refunds[i], call.observation, call.verified)
    requires Comes(s, i, call.observation, call.at, s', reply)
    requires s.refunds[i].projection.refundedBefore < HighWater(s, ScopeOf(s.refunds[i].request))
             || call.observation != Showing(s.refunds[i], call.observation.signature)
    ensures Answered(s, call, i, next, s', reply)
  {
    Assemble(s, call, i, s.refunds[i].(state := InReview, updatedAt := call.at), next, s', reply);
  }

  lemma CompletionAnswers(s: Store, call: Call, i: nat, next: RefundRow, s': Store, reply: Reply)
    requires call.Reconcile? && i < |s.refunds| && Reconcilable(s.refunds[i], call.observation, call.verified)
    requires Comes(s, i, call.observation, call.at, s', reply)
    requires HighWater(s, ScopeOf(s.refunds[i].request)) <= s.refunds[i].projection.refundedBefore
    requires call.observation == Showing(s.refunds[i], call.observation.signature)
    ensures Answered(s, call, i, next, s', reply)
  {
    var done := s.refunds[i].(state := Completed, reconciled := Some(call.observation), updatedAt := call.at);
    Assemble(s, call, i, done, next, s', reply);
  }

  lemma ReconcileAnswers(s: Store, call: Call, i: nat, next: RefundRow, s': Store, reply: Reply)
    requires call.Reconcile? && i < |s.refunds| && Find(s, call.id) == i
    requires (s', reply) == DoReconcile(s, call.id, call.observation, call.verified, call.at)
    ensures Answered(s, call, i, next, s', reply)
  {
    var row, o := s.refunds[i], call.observation;
    if Reconcilable(row, o, call.verified) {
      ReconcileComes(s, call.id, o, call.at, i, s', reply);
      if HighWater(s, ScopeOf(row.request)) <= row.projection.refundedBefore && o == Showing(row, o.signature) {
        CompletionAnswers(s, call, i, next, s', reply);
      } else {
        ReviewAnswers(s, call, i, next, s', reply);
      }
    } else {
      Assemble(s, call, i, row, next, s', reply);
    }
  }

  /** Exactly when a call moves its refund, to what, when it repeats, and why it is refused. */
  lemma AnswersExactly(s: Store, call: Call, i: nat, next: RefundRow)
    requires !call.Register? && i < |s.refunds| && Find(s, call.id) == i
    ensures Answered(s, call, i, next, Step(s, call).0, Step(s, call).1)
  {
    var (s', reply) := Step(s, call);
    match call
    case Commit(_, _, _) => CommitAnswers(s, call, i, next, s', reply);
    case RecordSubmitIntent(_, _) => SubmitAnswers(s, call, i, next, s', reply);
    case RecordTechnicalReceipt(_, _, _) => ReceiptAnswers(s, call, i, next, s', reply);
    case Reconcile(_, _, _, _) => ReconcileAnswers(s, call, i, next, s', reply);
    case RecordRecoveredSignature(_, _, _, _) => RecoveredSignatureAnswers(s, call, i, next, s', reply);
    case RecordProviderDivergence(_, _, _, _) => DivergenceAnswers(s, call, i, next, s', reply);
    case ReleaseBeforeSubmission(_, _, _) => ReleaseAnswers(s, call, i, next, s', reply);
  }

  /** The reason is so of the arguments alone. */
  predicate SoOfArguments(why: Refusal, call: Call)
  {
    match why
    case MalformedCommitment => call.Commit? && !call.commitment.wellFormed
    case CommitmentExpired => call.Commit? && call.commitment.expiresAt <= call.at
    case MalformedReceipt => call.RecordTechnicalReceipt? && !call.receipt.wellFormed
    case MalformedObservation => call.Reconcile? && (!call.observation.wellFormed || call.observation.signature == "")
    case ObservationUnverified => call.Reconcile? && !call.verified
    case RecoveredSignatureMissing => call.RecordRecoveredSignature? && (call.signature == "" || !call.responseHashOk)
    case DivergenceUnproven => call.RecordProviderDivergence? && (!call.idsOk || |call.providers| < 2)
    case InvalidReleaseState =>
      call.ReleaseBeforeSubmission? && (!call.target.Releasing() || call.target.Completed?)
    case _ => false
  }

  /** A refund nobody registered: nothing is written, and either the arguments are at fault or it is not found. */
  lemma UnknownIsRefused(s: Store, call: Call)
    requires !call.Register? && forall i :: 0 <= i < |s.refunds| ==> s.refunds[i].refundId != call.id
    ensures Step(s, call).0 == s && Step(s, call).1.Refused?
    ensures Step(s, call).1.why == RefundNotFound || SoOfArguments(Step(s, call).1.why, call)
  {
  }

  // ----- registration

  /** Another refund has the id, or the idempotency key within the channel and epoch. */
  predicate Taken(q: RefundRequest, row: RefundRow)
  {
    || row.refundId == q.refundId
    || (&& row.request.channel.channelId == q.channel.channelId && row.request.channel.epoch == q.channel.epoch
        && row.request.idempotencyKey == q.idempotencyKey)
  }

  /** The amount fits above every completed refund of the scope, beside everything still reserved, in a column. */
  predicate HasRoom(s: Store, q: RefundRequest, a: Accounting)
  {
    && HighWater(s, ScopeOf(q)) <= a.refunded
    && a.refunded + a.activated + Reserved(s, ScopeOf(q)) + q.requested <= a.funded
    && a.funded - a.refunded - a.activated <= I64_MAX && a.refunded + q.requested <= I64_MAX
  }

  /** A new refund starts validated, with nothing committed, submitted or observed. */
  function Fresh(q: RefundRequest, p: RefundProjection, at: int): RefundRow
  {
    RefundRow(q.refundId, q, p, Validated, None, 0, None, None, None, at)
  }

  /** The reason a registration is refused is so. */
  predicate SoOfRegistration(why: Refusal, s: Store, q: RefundRequest, f: FreezeSnapshot, at: int,
                             operations: seq<OperationState>)
  {
    match why
    case ProjectionRefused(reason) => ProjectRefund(q, f, at, operations) == Err(reason)
    case IdempotencyConflict => exists i :: 0 <= i < |s.refunds| && Taken(q, s.refunds[i]) && s.refunds[i].request != q
    case StaleFreezeSnapshot => f.accounting.refunded < HighWater(s, ScopeOf(q))
    case AggregateRefundExceedsUnallocated =>
      f.accounting.funded
        < f.accounting.refunded + f.accounting.activated + Reserved(s, ScopeOf(q)) + q.requested
    case IntegerOverflow =>
      || f.accounting.funded - f.accounting.refunded - f.accounting.activated > I64_MAX
      || f.accounting.refunded + q.requested > I64_MAX
    case _ => false
  }

  /** Exactly which refunds are registered, and as what. */
  lemma RegistersExactly(s: Store, q: RefundRequest, f: FreezeSnapshot, operations: seq<OperationState>, at: int,
                         s': Store, reply: Reply)
    requires (s', reply) == DoRegister(s, q, f, operations, at)
    ensures var projection := ProjectRefund(q, f, at, operations);
            && (s' != s <==> && projection.Ok? && HasRoom(s, q, f.accounting)
                             && forall i :: 0 <= i < |s.refunds| ==> !Taken(q, s.refunds[i]))
            && (s' != s ==>
                  && s' == Append(s.(refunds := s.refunds + [Fresh(q, projection.value, at)]), q.refundId, Validated,
                                  at)
                  && reply == Record(Fresh(q, projection.value, at)))
            && (reply.Record? && s' == s ==> projection.Ok? && reply.row in s.refunds && reply.row.request == q)
            && (reply.Refused? ==> SoOfRegistration(reply.why, s, q, f, at, operations))
  {
    var first := FirstIndex(s.refunds, Collides(q));
    if first == |s.refunds| {
      assert forall i :: 0 <= i < |s.refunds| ==> !Collides(q)(s.refunds[i]);
    } else {
      assert Taken(q, s.refunds[first]);
    }
    if s' != s {
      assert s'.refunds == s.refunds + [reply.row];
    }
  }

  /** Asking again for a refund that is registered returns it, unless another one has its id or its key. */
  lemma RegistrationRepeats(s: Store, q: RefundRequest, f: FreezeSnapshot, operations: seq<OperationState>, at: int,
                            i: nat)
    requires i < |s.refunds| && Taken(q, s.refunds[i]) && ProjectRefund(q, f, at, operations).Ok?
    requires forall j :: 0 <= j < |s.refunds| && Taken(q, s.refunds[j]) ==> s.refunds[j].request == q
    ensures DoRegister(s, q, f, operations, at).0 == s && DoRegister(s, q, f, operations, at).1.Record?
  {
    assert Collides(q)(s.refunds[i]);
  }
}
