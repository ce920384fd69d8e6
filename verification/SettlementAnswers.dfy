/**
 * What each settlement transaction answers, exactly.
 *
 * A transaction either moves its settlement, or repeats what is already recorded, or is refused for a reason
 * that is so.
 */
module SettlementAnswers {
  import opened Tables
  import opened Journals
  import opened Channels
  import opened SettlementStore

  // ----- what is asked of a commitment

  /** The prepared plan moves exactly the requested amount from the channel's vault to the recipient's wallet. */
  predicate Economics(plan: EconomicPlan, q: SettlementRequest)
  {
    && plan.obligationId == q.obligationId && plan.mint == q.mint && plan.decimals == q.snapshot.decimals
    && plan.amount == q.requested && plan.source == q.snapshot.vaultAccount && plan.destination == q.wallet
    && plan.expiresAt == q.expiresAt
  }

  /** The commitment is to this prepared execution, for this obligation, and to nothing else. */
  predicate Commits(c: ExternalCommitment, p: Prepared, obligationId: string)
  {
    && c.executionRequestId == p.executionRequestId && c.obligationId == obligationId && c.executorId == p.executorId
    && c.plan == p.plan && c.messageHash == p.messageHash && c.simulationHash == p.simulationHash
    && c.signer == p.signer && c.constraints == p.constraints && c.expiresAt == p.expiresAt
  }

  predicate Bindable(q: SettlementRequest, p: Prepared, signer: string, at: int)
  {
    && p.wellFormed && p.executionRequestId == q.executionRequestId && p.signer == signer
    && at < p.expiresAt && Economics(p.plan, q) && Commits(p.commitment, p, q.obligationId)
  }

  function Bound(q: SettlementRequest, p: Prepared, signer: string): Commitment
  {
    Commitment(q, p.executionRequestId, p.commitment, p.messageHash, p.executorId, p.signer, p.expiresAt)
  }

  // ----- what is asked of an authorization and of an answer

  /** Verified, and inside its window. */
  predicate InForce(a: Authorization, verified: bool, at: int)
  {
    a.wellFormed && verified && a.issuedAt <= at < a.expiresAt
  }

  predicate Names(a: Authorization, c: Commitment)
  {
    && a.executionRequestId == c.executionRequestId && a.commitment == c.commitment
    && a.messageHash == c.messageHash && a.signer == c.expectedSigner
  }

  function Concluded(outcome: TechnicalOutcome): State
  {
    match outcome
    case ExecutorAccepted => Reconciling
    case ExecutorRejected => Rejected
    case ExecutorUnknown => InRecovery
    case ReceiptInvalid => InReview
  }

  /** A recovery decides the state alone; a signature once learned is not unlearned. */
  function Recovered(row: Row, outcome: RecoveryOutcome, signature: Option<Signature>, at: int): Row
  {
    var learned := if signature.None? then row.signature else signature;
    match outcome
    case RecoveryConfirmed => row.(state := Reconciling, signature := learned, updatedAt := at)
    case RecoveryFailedBeforeBroadcast => row.(state := FailedBeforeSubmission, signature := learned, updatedAt := at)
    case RecoveryUnknown => row.(state := InRecovery, signature := learned, updatedAt := at)
    case RecoveryInvalid => row.(state := InReview, signature := learned, updatedAt := at)
    case ProviderDivergence => row.(state := InDispute, signature := learned, updatedAt := at)
  }

  // ----- what is asked of observations

  /** Something was seen, well formed and signed, by distinct sources, each vouched for. */
  ghost predicate Usable(os: seq<Observation>, vouched: set<Observation>)
  {
    && |os| > 0
    && (forall i :: 0 <= i < |os| ==> os[i].wellFormed && !os[i].signature.Empty() && os[i] in vouched)
    && (forall i, j :: 0 <= i < j < |os| ==> os[i].sourceId != os[j].sourceId)
  }

  /** Two observations differ in more than who saw it and when. */
  predicate Contradict(a: Observation, b: Observation)
  {
    a.(sourceId := b.sourceId, observedAt := b.observedAt) != b
  }

  ghost predicate Diverging(os: seq<Observation>)
  {
    exists i, j :: 0 <= i < |os| && 0 <= j < |os| && Contradict(os[i], os[j])
  }

  /** Field by field the effect this settlement asked for, under the signature it learned, not seen before that. */
  predicate Demonstrates(o: Observation, row: Row)
  {
    var q := row.request;
    && row.updatedAt <= o.observedAt && row.signature == Some(o.signature)
    && (o.channelId, o.account, o.epoch, o.mint, o.destination) == (q.channelId, q.account, q.epoch, q.mint, q.wallet)
    && (o.settledBefore, o.settledAfter) == (q.settledBefore, SettledAfter(q))
    && o.vaultBefore == q.vaultBefore == o.vaultAfter + q.requested
    && o.recipientAfter == o.recipientBefore + q.requested
  }

  ghost predicate Mistaken(os: seq<Observation>, row: Row)
  {
    exists i :: 0 <= i < |os| && !Demonstrates(os[i], row)
  }

  function Completion(row: Row, os: seq<Observation>, at: int): Row
  {
    row.(state := Completed, updatedAt := at,
      receipt := Some(Receipt(SettledAfter(row.request), row.request.vaultBefore - row.request.requested,
                              row.signature, os, at)))
  }

  /** Contradiction is a dispute, a missed effect is a review, and anything else completes. */
  ghost function Verdict(row: Row, os: seq<Observation>, at: int): Row
  {
    if Diverging(os) then row.(state := InDispute, updatedAt := at)
    else if Mistaken(os, row) then row.(state := InReview, updatedAt := at)
    else Completion(row, os, at)
  }

  /** Waiting for reconciliation, and not written later than now. */
  predicate Awaiting(row: Row, at: int)
  {
    row.updatedAt <= at && (row.state.Reconciling? || row.state.InReview? || row.state.InDispute?)
  }

  // ----- one transaction on a registered settlement

  /** The transaction moves the settlement from `row` to `next`; `submitted` says whether it has an intent. */
  ghost predicate Does(t: Txn, row: Row, next: Row, submitted: bool)
  {
    match t
    case Register(_, _, _) => false
    case Commit(_, p, signer, at) =>
      && row.updatedAt <= at && row.state.Validated? && Bindable(row.request, p, signer, at)
      && next == row.(state := ExecutionCommitted, commitment := Some(Bound(row.request, p, signer)), updatedAt := at)
    case Authorize(_, a, verified, at) =>
      && row.updatedAt <= at && row.state.ExecutionCommitted? && InForce(a, verified, at)
      && row.commitment.Some? && Names(a, row.commitment.value) && a.expiresAt <= row.commitment.value.expiresAt
      && next == row.(state := Authorized, authorization := Some(a), updatedAt := at)
    case SubmitIntent(_, executorId, at) =>
      && row.updatedAt <= at && row.state.Authorized? && !submitted
      && row.commitment.Some? && executorId == row.commitment.value.executorId && at < row.commitment.value.expiresAt
      && row.authorization.Some? && at < row.authorization.value.expiresAt
      && next == row.(state := Submitted, updatedAt := at)
    case Persist(_, technical, at) =>
      && row.state.Submitted?
      && next == row.(state := Concluded(technical.outcome), signature := technical.signature, updatedAt := at)
    case RecordRecovery(_, outcome, signature, at) => next == Recovered(row, outcome, signature, at)
    case Reconcile(_, os, vouched, at) =>
      Awaiting(row, at) && Usable(os, vouched) && next == Verdict(row, os, at)
  }

  /** The transaction asks for what is recorded already. */
  ghost predicate Repeats(t: Txn, row: Row)
  {
    match t
    case Commit(_, p, signer, at) =>
      && row.updatedAt <= at && row.state !in {Requested, Validated, Rejected, FailedBeforeSubmission}
      && Bindable(row.request, p, signer, at) && row.commitment == Some(Bound(row.request, p, signer))
    case Authorize(_, a, verified, at) =>
      row.updatedAt <= at && row.state.Authorized? && InForce(a, verified, at) && row.authorization == Some(a)
    case Reconcile(_, os, vouched, at) => row.updatedAt <= at && row.state.Completed? && Usable(os, vouched)
    case _ => false
  }

  /** The reason given is so, of the transaction and the settlement it names. */
  ghost predicate SoOf(why: Refusal, t: Txn, row: Row, submitted: bool)
  {
    match t
    case Register(_, _, _) => false
    case Commit(_, p, signer, at) => SoOfBinding(why, row, p, signer, at) || SoOfCommitted(why, row, p, signer, at)
    case Authorize(_, a, verified, at) =>
      (match why
       case MalformedAuthorization => !a.wellFormed
       case AuthorizationExpired => !(a.issuedAt <= at < a.expiresAt)
       case AuthorizationInvalid => !verified
       case JournalTimeRegressed => at < row.updatedAt
       case AuthorizationConflict => row.state.Authorized? && row.authorization != Some(a)
       case InvalidState => row.state !in {Authorized, ExecutionCommitted} || row.commitment.None?
       case AuthorizationBindingMismatch => row.commitment.Some? && !Names(a, row.commitment.value)
       case AuthorizationOutlivesCommitment => row.commitment.Some? && row.commitment.value.expiresAt < a.expiresAt
       case _ => false)
    case SubmitIntent(_, executorId, at) =>
      (match why
       case JournalTimeRegressed => at < row.updatedAt
       case SubmissionAlreadyAttempted =>
         submitted || row.state in {Submitted, Confirming, Reconciling, Completed, InRecovery, InReview, InDispute}
       case InvalidState =>
         || row.commitment.None? || row.authorization.None?
         || row.state in {Requested, Validated, ExecutionCommitted, Rejected, FailedBeforeSubmission}
       case AuthorizationExpired => row.authorization.Some? && row.authorization.value.expiresAt <= at
       case PreparedExpired => row.commitment.Some? && row.commitment.value.expiresAt <= at
       case ExecutorMismatch => row.commitment.Some? && row.commitment.value.executorId != executorId
       case _ => false)
    case Persist(_, _, _) => why.InvalidState? && !row.state.Submitted?
    case RecordRecovery(_, _, _, _) => false
    case Reconcile(_, os, vouched, at) => SoOfObservations(why, os, vouched) || SoOfReconciled(why, row, at)
  }

  predicate SoOfBinding(why: Refusal, row: Row, p: Prepared, signer: string, at: int)
  {
    match why
    case MalformedPrepared => !p.wellFormed
    case ExecutionRequestMismatch => p.executionRequestId != row.request.executionRequestId
    case SignerMismatch => p.signer != signer
    case PreparedExpired => p.expiresAt <= at
    case EconomicPlanMismatch => !Economics(p.plan, row.request)
    case CommitmentTampering => !Commits(p.commitment, p, row.request.obligationId)
    case _ => false
  }

  predicate SoOfCommitted(why: Refusal, row: Row, p: Prepared, signer: string, at: int)
  {
    match why
    case JournalTimeRegressed => at < row.updatedAt
    case InvalidState => row.state in {Requested, Rejected, FailedBeforeSubmission}
    case CommitmentConflict => !row.state.Validated? && row.commitment != Some(Bound(row.request, p, signer))
    case _ => false
  }

  predicate SoOfReconciled(why: Refusal, row: Row, at: int)
  {
    match why
    case JournalTimeRegressed => at < row.updatedAt
    case InvalidState => row.state !in {Reconciling, InReview, InDispute, Completed}
    case _ => false
  }

  ghost predicate SoOfObservations(why: Refusal, os: seq<Observation>, vouched: set<Observation>)
  {
    match why
    case ObservationRequired => |os| == 0
    case MalformedObservation => exists i :: 0 <= i < |os| && (!os[i].wellFormed || os[i].signature.Empty())
    case DuplicateObservationSource => exists i, j :: 0 <= i < j < |os| && os[i].sourceId == os[j].sourceId
    case ObservationUnverified => exists i :: 0 <= i < |os| && os[i] !in vouched
    case _ => false
  }

  /** The journal entries a move leaves: an accepted submission is confirming on its way to reconciling. */
  function Journal(t: Txn, past: seq<Entry<State>>, next: Row): seq<Entry<State>>
  {
    if t.Persist? && t.technical.outcome.ExecutorAccepted? then
      Extend(Extend(past, Confirming, t.at), Reconciling, t.at)
    else Extend(past, next.state, t.at)
  }

  /** The attempts recorded for a settlement, with the one that this recovery adds. */
  function Attempts(t: Txn, past: seq<Recovery>, submitted: bool): seq<Recovery>
    requires t.RecordRecovery?
  {
    past + [Recovery(|past| + 1, t.outcome, t.signature, if submitted then 1 else 0)]
  }

  /** Row `i` becomes `next`, with the journal entry, the intent or the attempt that goes with the move. */
  function After(s: Store, t: Txn, i: nat, next: Row): Store
    requires !t.Register? && i < |s.rows|
  {
    var past := if t.id in s.recoveries then s.recoveries[t.id] else [];
    Store(s.rows[i := next],
          if t.SubmitIntent? then s.intents + {t.id} else s.intents,
          s.events[t.id := Journal(t, History(s, t.id), next)],
          if t.RecordRecovery? then s.recoveries[t.id := Attempts(t, past, t.id in s.intents)] else s.recoveries)
  }

  ghost predicate Answered(s: Store, t: Txn, i: nat, next: Row, s': Store, reply: Reply)
    requires !t.Register? && i < |s.rows|
  {
    var row, submitted := s.rows[i], t.id in s.intents;
    && (Does(t, row, next, submitted) <==> s' == After(s, t, i, next))
    && (Does(t, row, next, submitted) ==> reply == Done(next))
    && (Repeats(t, row) <==> s' == s && reply.Done?)
    && (Repeats(t, row) ==> reply.row == row)
    && (reply.Refused? ==> SoOf(reply.why, t, row, submitted))
    && (s' == s || (i < |s'.rows| && s' == After(s, t, i, s'.rows[i])))
  }

  lemma AfterIsAnother(s: Store, t: Txn, i: nat, next: Row)
    requires !t.Register? && i < |s.rows|
    ensures After(s, t, i, next) != s && After(s, t, i, next).rows[i] == next
  {
    assert |History(After(s, t, i, next), t.id)| > |History(s, t.id)|;
  }

  /** What a transaction comes to, put together from its three possible outcomes. */
  lemma Assemble(s: Store, t: Txn, i: nat, moved: Row, next: Row, s': Store, reply: Reply)
    requires !t.Register? && i < |s.rows|
    requires var row, submitted := s.rows[i], t.id in s.intents;
             && (Does(t, row, moved, submitted) ==> s' == After(s, t, i, moved) && reply == Done(moved))
             && (!Does(t, row, moved, submitted) ==> s' == s && !Does(t, row, next, submitted))
             && (Does(t, row, next, submitted) ==> next == moved)
             && (Repeats(t, row) ==> s' == s && reply == Done(row))
             && (!Repeats(t, row) && s' == s ==> reply.Refused?)
             && (reply.Refused? ==> SoOf(reply.why, t, row, submitted))
    ensures Answered(s, t, i, next, s', reply)
  {
    AfterIsAnother(s, t, i, moved);
    AfterIsAnother(s, t, i, next);
  }

  /** A prepared execution binds exactly when it is this settlement's own, and then to all of it. */
  lemma BindsExactly(row: Row, p: Prepared, signer: string, at: int)
    ensures BindExecution(row, p, signer, at).Ok? <==> Bindable(row.request, p, signer, at)
    ensures Bindable(row.request, p, signer, at) ==>
              BindExecution(row, p, signer, at).value == Bound(row.request, p, signer)
    ensures BindExecution(row, p, signer, at).Err? ==>
              SoOfBinding(BindExecution(row, p, signer, at).error, row, p, signer, at)
  {
  }

  /** What a binding that is allowed comes to: written once, and conflicting or the same from then on. */
  lemma BoundComes(s: Store, t: Txn, i: nat, s': Store, reply: Reply)
    requires t.Commit? && i < |s.rows| && Find(s, t.id) == i && Bindable(s.rows[i].request, t.prepared, t.signer, t.at)
    requires s.rows[i].updatedAt <= t.at && s.rows[i].state !in {Requested, Rejected, FailedBeforeSubmission}
    requires (s', reply) == DoCommit(s, t.id, t.prepared, t.signer, t.at)
    ensures var row, bound := s.rows[i], Some(Bound(s.rows[i].request, t.prepared, t.signer));
            if row.state.Validated? then
              var next := row.(state := ExecutionCommitted, commitment := bound, updatedAt := t.at);
              s' == Write(s, i, next, t.at) && reply == Done(next)
            else s' == s && reply == (if row.commitment == bound then Done(row) else Refused(CommitmentConflict))
  {
    BindsExactly(s.rows[i], t.prepared, t.signer, t.at);
  }

  lemma UnboundComes(s: Store, t: Txn, i: nat, s': Store, reply: Reply)
    requires t.Commit? && i < |s.rows| && Find(s, t.id) == i
    requires s.rows[i].updatedAt <= t.at && s.rows[i].state !in {Requested, Rejected, FailedBeforeSubmission} ==>
               !Bindable(s.rows[i].request, t.prepared, t.signer, t.at)
    requires (s', reply) == DoCommit(s, t.id, t.prepared, t.signer, t.at)
    ensures s' == s && reply.Refused? && SoOf(reply.why, t, s.rows[i], false)
  {
    BindsExactly(s.rows[i], t.prepared, t.signer, t.at);
  }

  lemma CommitAnswers(s: Store, t: Txn, i: nat, next: Row, s': Store, reply: Reply)
    requires t.Commit? && i < |s.rows| && Find(s, t.id) == i
    requires (s', reply) == DoCommit(s, t.id, t.prepared, t.signer, t.at)
    ensures Answered(s, t, i, next, s', reply)
  {
    var row := s.rows[i];
    var moved := row.(state := ExecutionCommitted, commitment := Some(Bound(row.request, t.prepared, t.signer)),
                      updatedAt := t.at);
    if row.updatedAt <= t.at && row.state !in {Requested, Rejected, FailedBeforeSubmission}
       && Bindable(row.request, t.prepared, t.signer, t.at) {
      BoundComes(s, t, i, s', reply);
      Assemble(s, t, i, moved, next, s', reply);
    } else {
      UnboundComes(s, t, i, s', reply);
      Assemble(s, t, i, moved, next, s', reply);
    }
  }

  lemma AuthorizeAnswers(s: Store, t: Txn, i: nat, next: Row, s': Store, reply: Reply)
    requires t.Authorize? && i < |s.rows| && Find(s, t.id) == i
    requires (s', reply) == DoAuthorize(s, t.id, t.authorization, t.verified, t.at)
    ensures Answered(s, t, i, next, s', reply)
  {
    var moved := s.rows[i].(state := Authorized, authorization := Some(t.authorization), updatedAt := t.at);
    Assemble(s, t, i, moved, next, s', reply);
  }

  lemma SubmitIntentComes(s: Store, t: Txn, i: nat, s': Store, reply: Reply)
    requires t.SubmitIntent? && i < |s.rows| && Find(s, t.id) == i
    requires (s', reply) == DoSubmitIntent(s, t.id, t.executorId, t.at)
    ensures var next := s.rows[i].(state := Submitted, updatedAt := t.at);
            if Does(t, s.rows[i], next, t.id in s.intents) then s' == After(s, t, i, next) && reply == Done(next)
            else s' == s && reply.Refused? && SoOf(reply.why, t, s.rows[i], t.id in s.intents)
  {
  }

  lemma SubmitIntentAnswers(s: Store, t: Txn, i: nat, next: Row, s': Store, reply: Reply)
    requires t.SubmitIntent? && i < |s.rows| && Find(s, t.id) == i
    requires (s', reply) == DoSubmitIntent(s, t.id, t.executorId, t.at)
    ensures Answered(s, t, i, next, s', reply)
  {
    SubmitIntentComes(s, t, i, s', reply);
    Assemble(s, t, i, s.rows[i].(state := Submitted, updatedAt := t.at), next, s', reply);
  }

  /** Confirming and then reconciling, in one transaction, leaves the last row and both entries. */
  lemma WrittenTwice(s: Store, t: Txn, i: nat, first: Row, next: Row)
    requires t.Persist? && t.technical.outcome.ExecutorAccepted? && i < |s.rows| && s.rows[i].settlementId == t.id
    requires first.settlementId == t.id && first.state.Confirming?
    requires next.state.Reconciling? && next.updatedAt == t.at
    ensures Write(Write(s, i, first, t.at), i, next, t.at) == After(s, t, i, next)
  {
    var written := Write(s, i, first, t.at);
    assert History(written, t.id) == Extend(History(s, t.id), Confirming, t.at);
    assert written.rows[i := next] == s.rows[i := next];
  }

  /** The executor's answer is written once, or twice when it passes through confirming. */
  lemma PersistWrites(s: Store, t: Txn, i: nat, s': Store, reply: Reply)
    requires t.Persist? && i < |s.rows| && Find(s, t.id) == i && s.rows[i].state.Submitted?
    requires (s', reply) == DoPersist(s, t.id, t.technical, t.at)
    ensures var next := s.rows[i].(state := Concluded(t.technical.outcome), signature := t.technical.signature,
                                   updatedAt := t.at);
            s' == After(s, t, i, next) && reply == Done(next)
  {
    if t.technical.outcome.ExecutorAccepted? {
      var next := s.rows[i].(state := Reconciling, signature := t.technical.signature, updatedAt := t.at);
      WrittenTwice(s, t, i, s.rows[i].(state := Confirming, signature := t.technical.signature), next);
    }
  }

  lemma PersistAnswers(s: Store, t: Txn, i: nat, next: Row, s': Store, reply: Reply)
    requires t.Persist? && i < |s.rows| && Find(s, t.id) == i
    requires (s', reply) == DoPersist(s, t.id, t.technical, t.at)
    ensures Answered(s, t, i, next, s', reply)
  {
    var moved := s.rows[i].(state := Concluded(t.technical.outcome), signature := t.technical.signature,
                            updatedAt := t.at);
    if s.rows[i].state.Submitted? {
      PersistWrites(s, t, i, s', reply);
      Assemble(s, t, i, moved, next, s', reply);
    } else {
      assert s' == s && reply == Refused(InvalidState);
      Assemble(s, t, i, moved, next, s', reply);
    }
  }

  lemma RecordRecoveryAnswers(s: Store, t: Txn, i: nat, next: Row, s': Store, reply: Reply)
    requires t.RecordRecovery? && i < |s.rows| && Find(s, t.id) == i
    requires (s', reply) == DoRecordRecovery(s, t.id, t.outcome, t.signature, t.at)
    ensures Answered(s, t, i, next, s', reply)
  {
    Assemble(s, t, i, Recovered(s.rows[i], t.outcome, t.signature, t.at), next, s', reply);
  }

  // ----- reconciliation: which failure leads where

  /** Observations agree exactly when no two of them contradict each other. */
  lemma AgreeExactly(os: seq<Observation>)
    ensures Agree(os) <==> !Diverging(os)
  {
    if Agree(os) {
      forall i, j | 0 <= i < |os| && 0 <= j < |os| ensures !Contradict(os[i], os[j]) {
        assert Fingerprint(os[i]) == Fingerprint(os[j]);
        SameFingerprint(os[i], os[j]);
      }
    } else {
      var i :| 0 <= i < |os| && Fingerprint(os[i]) != Fingerprint(os[0]);
      SameFingerprint(os[i], os[0]);
    }
  }

  lemma SameFingerprint(a: Observation, b: Observation)
    ensures Fingerprint(a) == Fingerprint(b) <==> !Contradict(a, b)
  {
  }

  lemma ExactExactly(row: Row, os: seq<Observation>)
    requires row.request.requested <= row.request.vaultBefore
    ensures AllExact(row, os) <==> !Mistaken(os, row)
  {
    forall i | 0 <= i < |os| ensures Exact(row, os[i]) <==> Demonstrates(os[i], row) {
    }
    if !AllExact(row, os) {
      var i :| 0 <= i < |os| && !Exact(row, os[i]);
      assert !Demonstrates(os[i], row);
    }
  }

  lemma UsableExactly(os: seq<Observation>, vouched: set<Observation>)
    ensures CheckObservations(os, vouched).None? <==> Usable(os, vouched)
    ensures CheckObservations(os, vouched).Some? ==>
              SoOfObservations(CheckObservations(os, vouched).value, os, vouched)
  {
  }

  lemma ReconcileWrites(s: Store, t: Txn, i: nat, s': Store, reply: Reply)
    requires t.Reconcile? && i < |s.rows| && Find(s, t.id) == i
    requires s.rows[i].request.requested <= s.rows[i].request.vaultBefore
    requires Awaiting(s.rows[i], t.at) && Usable(t.observations, t.vouched)
    requires (s', reply) == DoReconcile(s, t.id, t.observations, t.vouched, t.at)
    ensures var next := Verdict(s.rows[i], t.observations, t.at);
            s' == Write(s, i, next, t.at) && reply == Done(next)
  {
    AgreeExactly(t.observations);
    ExactExactly(s.rows[i], t.observations);
    UsableExactly(t.observations, t.vouched);
  }

  lemma UnreconciledAnswers(s: Store, t: Txn, i: nat, next: Row, s': Store, reply: Reply)
    requires t.Reconcile? && i < |s.rows| && Find(s, t.id) == i
    requires !(Awaiting(s.rows[i], t.at) && Usable(t.observations, t.vouched))
    requires (s', reply) == DoReconcile(s, t.id, t.observations, t.vouched, t.at)
    ensures Answered(s, t, i, next, s', reply)
  {
    UsableExactly(t.observations, t.vouched);
    Assemble(s, t, i, s.rows[i], next, s', reply);
  }

  lemma ReconcileAnswers(s: Store, t: Txn, i: nat, next: Row, s': Store, reply: Reply)
    requires t.Reconcile? && i < |s.rows| && Find(s, t.id) == i
    requires s.rows[i].request.requested <= s.rows[i].request.vaultBefore
    requires (s', reply) == DoReconcile(s, t.id, t.observations, t.vouched, t.at)
    ensures Answered(s, t, i, next, s', reply)
  {
    if Awaiting(s.rows[i], t.at) && Usable(t.observations, t.vouched) {
      ReconcileWrites(s, t, i, s', reply);
      Assemble(s, t, i, Verdict(s.rows[i], t.observations, t.at), next, s', reply);
    } else {
      UnreconciledAnswers(s, t, i, next, s', reply);
    }
  }

  /** Exactly when a transaction moves its settlement, to what, when it repeats, and why it is refused. */
  lemma AnswersExactly(s: Store, t: Txn, i: nat, next: Row)
    requires !t.Register? && i < |s.rows| && Find(s, t.id) == i
    requires s.rows[i].request.requested <= s.rows[i].request.vaultBefore
    ensures Answered(s, t, i, next, Apply(s, t).0, Apply(s, t).1)
  {
    var (s', reply) := Apply(s, t);
    match t
    case Commit(_, _, _, _) => CommitAnswers(s, t, i, next, s', reply);
    case Authorize(_, _, _, _) => AuthorizeAnswers(s, t, i, next, s', reply);
    case SubmitIntent(_, _, _) => SubmitIntentAnswers(s, t, i, next, s', reply);
    case Persist(_, _, _) => PersistAnswers(s, t, i, next, s', reply);
    case RecordRecovery(_, _, _, _) => RecordRecoveryAnswers(s, t, i, next, s', reply);
    case Reconcile(_, _, _, _) => ReconcileAnswers(s, t, i, next, s', reply);
  }

  /**
   * Usable observations of a settlement that waits for them dispute it exactly when two of them contradict each
   * other, send it to review exactly when none do and one misses the effect, and complete it otherwise.
   */
  lemma VerdictExactly(s: Store, i: nat, os: seq<Observation>, vouched: set<Observation>, at: int)
    requires i < |s.rows| && Find(s, s.rows[i].settlementId) == i
    requires s.rows[i].request.requested <= s.rows[i].request.vaultBefore
    requires Awaiting(s.rows[i], at) && Usable(os, vouched)
    ensures var (s', reply) := Apply(s, Reconcile(s.rows[i].settlementId, os, vouched, at));
            && i < |s'.rows| && reply == Done(s'.rows[i])
            && (s'.rows[i].state.InDispute? <==> Diverging(os))
            && (s'.rows[i].state.InReview? <==> !Diverging(os) && Mistaken(os, s.rows[i]))
            && (s'.rows[i].state.Completed? <==> !Diverging(os) && !Mistaken(os, s.rows[i]))
  {
    var t, next := Reconcile(s.rows[i].settlementId, os, vouched, at), Verdict(s.rows[i], os, at);
    ReconcileAnswers(s, t, i, next, Apply(s, t).0, Apply(s, t).1);
    AfterIsAnother(s, t, i, next);
  }

  /** A settlement nobody registered: nothing is written. */
  lemma UnknownIsRefused(s: Store, t: Txn)
    requires !t.Register? && forall i :: 0 <= i < |s.rows| ==> s.rows[i].settlementId != t.id
    ensures Apply(s, t).0 == s && Apply(s, t).1.Refused?
    ensures Apply(s, t).1.why == SettlementNotFound
            || (t.Authorize? && !InForce(t.authorization, t.verified, t.at))
            || (t.Reconcile? && !Usable(t.observations, t.vouched))
  {
    if t.Reconcile? {
      UsableExactly(t.observations, t.vouched);
    }
  }

  // ----- registration

  /** The request quotes this snapshot, which supports it at this time. */
  predicate Supported(q: SettlementRequest, c: Channel, now: int)
  {
    && ValidateChannel(c).Ok? && (c.status.Active? || c.status.Settling?)
    && q.wellFormed && q.createdAt <= now < q.expiresAt <= c.expiresAt
    && SameContext(q, c) && q.snapshot == c && SameTotals(q, c)
    && 0 < q.requested <= c.activated - c.settled && q.requested <= c.funded - c.settled - c.refunded
  }

  predicate SameContext(q: SettlementRequest, c: Channel)
  {
    && (q.domain, q.channelId, q.account) == (c.domain, c.identity.channelId, c.identity.account)
    && (q.epoch, q.mint) == (c.identity.epoch, c.identity.mint) && c.recipientWallet == Some(q.wallet)
  }

  predicate SameTotals(q: SettlementRequest, c: Channel)
  {
    && q.activatedBefore == c.activated && q.settledBefore == c.settled
    && c.funded == q.vaultBefore + c.settled + c.refunded
  }

  /** The amount fits above what is completed and beside what is reserved, and is nobody else's. */
  ghost predicate HasRoom(s: Store, q: SettlementRequest)
  {
    && HighWater(s, ScopeOf(q)) <= q.settledBefore
    && q.settledBefore + Reserved(s, ScopeOf(q)) + q.requested <= q.activatedBefore <= I64_MAX
    && Reserved(s, ScopeOf(q)) + q.requested <= q.vaultBefore <= I64_MAX
    && forall i :: 0 <= i < |s.rows| ==> !Competes(s.rows[i].request, q)
  }

  /** For the same obligation of the channel and epoch, or under the same execution request. */
  predicate Competes(a: SettlementRequest, b: SettlementRequest)
  {
    || (a.channelId == b.channelId && a.epoch == b.epoch && a.obligationId == b.obligationId)
    || a.executionRequestId == b.executionRequestId
  }

  /** Another settlement has the id, or the idempotency key within the channel and epoch. */
  predicate Taken(q: SettlementRequest, row: Row)
  {
    || row.settlementId == q.settlementId
    || (row.request.channelId == q.channelId && row.request.epoch == q.epoch
        && row.request.idempotencyKey == q.idempotencyKey)
  }

  /** A new settlement is requested and found valid, with nothing committed, authorized or learned. */
  function Fresh(q: SettlementRequest, at: int): Row
  {
    Row(q.settlementId, q, Validated, None, None, None, None, at)
  }

  function AfterRegistration(s: Store, q: SettlementRequest, at: int): Store
  {
    var past := History(s, q.settlementId);
    s.(rows := s.rows + [Fresh(q, at)],
       events := s.events[q.settlementId := Extend(Extend(past, Requested, at), Validated, at)])
  }

  /** The reason a request is refused is so, of the request and the snapshot. */
  predicate SoOfRequest(why: Refusal, q: SettlementRequest, c: Channel, now: int)
  {
    match why
    case InvalidSnapshot(reason) => ValidateChannel(c) == Err(reason)
    case MalformedRequest => !q.wellFormed || q.requested == 0 || q.requested > U64_MAX
    case InvalidRequestWindow => q.expiresAt <= q.createdAt
    case RequestNotYetValid => now < q.createdAt
    case RequestExpired => q.expiresAt <= now
    case RequestOutlivesChannel => c.expiresAt < q.expiresAt
    case SnapshotContextMismatch => !SameContext(q, c)
    case SnapshotTampering => q.snapshot != c
    case SnapshotTotalMismatch => !SameTotals(q, c)
    case OverSettlement => c.activated - c.settled < q.requested
    case SettlementAboveVault => false                   // what is within A - S is within V
    case SettlementLifecycleForbidden => !c.status.Active? && !c.status.Settling?
    case _ => false
  }

  /** The reason a reservation is refused is so, of the request and the table. */
  ghost predicate SoOfReservation(why: Refusal, s: Store, q: SettlementRequest)
  {
    var scope := ScopeOf(q);
    match why
    case IdempotencyConflict =>
      || (exists i :: 0 <= i < |s.rows| && Taken(q, s.rows[i]) && s.rows[i].request != q)
      || (exists i :: 0 <= i < |s.rows| && s.rows[i].request.executionRequestId == q.executionRequestId)
    case ObligationNeedsRecovery =>
      exists i :: 0 <= i < |s.rows| && SameObligation(q)(s.rows[i]) && s.rows[i].state.InRecovery?
    case ObligationConflict =>
      exists i :: 0 <= i < |s.rows| && SameObligation(q)(s.rows[i]) && !s.rows[i].state.InRecovery?
    case StaleSnapshot => q.settledBefore < HighWater(s, scope)
    case ConcurrentOverSettlement => q.activatedBefore < q.settledBefore + Reserved(s, scope) + q.requested
    case ConcurrentVaultExhaustion => q.vaultBefore < Reserved(s, scope) + q.requested
    case IntegerOverflow => q.activatedBefore > I64_MAX || q.vaultBefore > I64_MAX
    case _ => false
  }

  lemma SupportedExactly(q: SettlementRequest, c: Channel, now: int)
    ensures ValidateRequest(q, c, now).None? <==> Supported(q, c, now)
    ensures ValidateRequest(q, c, now).Some? ==> SoOfRequest(ValidateRequest(q, c, now).value, q, c, now)
  {
    RequestIff(q, c, now);
  }

  /** The two queries find nothing exactly when nobody competes. */
  lemma CompetitorIsFound(s: Store, q: SettlementRequest)
    ensures (forall i :: 0 <= i < |s.rows| ==> !Competes(s.rows[i].request, q)) <==>
              FirstIndex(s.rows, SameObligation(q)) == |s.rows| == FirstIndex(s.rows, SameExecution(q))
  {
    assert forall i :: 0 <= i < |s.rows| ==>
      (Competes(s.rows[i].request, q) <==> SameObligation(q)(s.rows[i]) || SameExecution(q)(s.rows[i]));
    var owner, user := FirstIndex(s.rows, SameObligation(q)), FirstIndex(s.rows, SameExecution(q));
    if owner < |s.rows| {
      assert Competes(s.rows[owner].request, q);
    } else if user < |s.rows| {
      assert Competes(s.rows[user].request, q);
    }
  }

  lemma RoomRefusedForReason(s: Store, q: SettlementRequest)
    ensures CheckReservation(s, q).Some? ==> SoOfReservation(CheckReservation(s, q).value, s, q)
  {
  }

  lemma RoomExactly(s: Store, q: SettlementRequest)
    ensures CheckReservation(s, q).None? <==> HasRoom(s, q)
    ensures CheckReservation(s, q).Some? ==> SoOfReservation(CheckReservation(s, q).value, s, q)
  {
    CompetitorIsFound(s, q);
    RoomRefusedForReason(s, q);
  }

  lemma UntakenIsFree(s: Store, q: SettlementRequest)
    requires forall i :: 0 <= i < |s.rows| ==> !Taken(q, s.rows[i])
    ensures Find(s, q.settlementId) == |s.rows| == FirstIndex(s.rows, Collides(q))
  {
    assert forall i :: 0 <= i < |s.rows| ==> !Collides(q)(s.rows[i]) && !HasId(q.settlementId)(s.rows[i]);
  }

  /** A request that collides with nothing is registered exactly when the snapshot and the table allow it. */
  lemma UntakenComes(s: Store, q: SettlementRequest, c: Channel, at: int, s': Store, reply: Reply)
    requires (s', reply) == DoRegister(s, q, c, at) && forall i :: 0 <= i < |s.rows| ==> !Taken(q, s.rows[i])
    ensures Supported(q, c, at) && HasRoom(s, q) ==> s' == AfterRegistration(s, q, at) && reply == Done(Fresh(q, at))
    ensures !(Supported(q, c, at) && HasRoom(s, q)) ==> s' == s && reply.Refused?
    ensures reply.Refused? ==> SoOfRequest(reply.why, q, c, at) || SoOfReservation(reply.why, s, q)
  {
    var bad, full := ValidateRequest(q, c, at), CheckReservation(s, q);
    UntakenIsFree(s, q);
    SupportedExactly(q, c, at);
    RoomExactly(s, q);
    UntakenIsDecided(s, q, c, at, bad, full);
  }

  lemma UntakenIsDecided(s: Store, q: SettlementRequest, c: Channel, at: int, bad: Option<Refusal>,
                         full: Option<Refusal>)
    requires Find(s, q.settlementId) == |s.rows| == FirstIndex(s.rows, Collides(q))
    requires bad == ValidateRequest(q, c, at) && full == CheckReservation(s, q)
    ensures DoRegister(s, q, c, at) ==
              if bad.Some? then (s, Refused(bad.value))
              else if full.Some? then (s, Refused(full.value))
              else (AfterRegistration(s, q, at), Done(Fresh(q, at)))
  {
    InsertedComes(s, q, at);
  }

  lemma InsertedComes(s: Store, q: SettlementRequest, at: int)
    ensures var inserted := s.(rows := s.rows + [Fresh(q, at)]);
            Append(Append(inserted, q.settlementId, Requested, at), q.settlementId, Validated, at)
            == AfterRegistration(s, q, at)
  {
  }

  /** One that collides is answered from the table or refused. */
  lemma TakenComes(s: Store, q: SettlementRequest, c: Channel, at: int, i: nat, s': Store, reply: Reply)
    requires (s', reply) == DoRegister(s, q, c, at) && i < |s.rows| && Taken(q, s.rows[i])
    ensures s' == s
    ensures match reply
            case Done(row) => row in s.rows && row.request == q
            case Refused(why) =>
              SoOfRequest(why, q, c, at)
              || (why == IdempotencyConflict
                  && exists k :: 0 <= k < |s.rows| && Taken(q, s.rows[k]) && s.rows[k].request != q)
  {
    var known, first := Find(s, q.settlementId), FirstIndex(s.rows, Collides(q));
    SupportedExactly(q, c, at);
    assert Collides(q)(s.rows[i]);
    assert Taken(q, s.rows[first]);
    if known < |s.rows| {
      assert Taken(q, s.rows[known]);
    }
  }

  /** Exactly which settlements are registered, as what, and why the others are not. */
  lemma RegistersExactly(s: Store, q: SettlementRequest, c: Channel, at: int, s': Store, reply: Reply)
    requires (s', reply) == DoRegister(s, q, c, at)
    ensures s' != s <==> && Supported(q, c, at) && HasRoom(s, q)
                         && forall i :: 0 <= i < |s.rows| ==> !Taken(q, s.rows[i])
    ensures s' != s ==> s' == AfterRegistration(s, q, at) && reply == Done(Fresh(q, at))
    ensures reply.Done? && s' == s ==> reply.row in s.rows && reply.row.request == q
    ensures reply.Refused? ==> SoOfRequest(reply.why, q, c, at) || SoOfReservation(reply.why, s, q)
  {
    if i :| 0 <= i < |s.rows| && Taken(q, s.rows[i]) {
      TakenComes(s, q, c, at, i, s', reply);
    } else {
      UntakenComes(s, q, c, at, s', reply);
      assert |AfterRegistration(s, q, at).rows| > |s.rows|;
    }
  }

  /** Asking again for a settlement that is registered returns it. */
  lemma RegistrationRepeats(s: Store, q: SettlementRequest, c: Channel, at: int, i: nat)
    requires i < |s.rows| && Find(s, q.settlementId) == i && s.rows[i].request == q
    ensures DoRegister(s, q, c, at) == (s, Done(s.rows[i]))
  {
  }
}
