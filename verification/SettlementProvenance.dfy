/** In every run of transactions, whatever a settlement shows was put there by a transaction that was entitled to. */
module SettlementProvenance {
  import opened Tables
  import opened Channels
  import opened SettlementStore
  import opened SettlementAnswers

  /** What a settlement shows and the state it is in both come from transactions of the run. */
  ghost predicate Traced(row: Row, txns: seq<Txn>) { Recorded(row, txns) && Explained(row, txns) }

  /** Each thing recorded of a settlement, with the transaction of the run that recorded it. */
  ghost predicate Recorded(row: Row, txns: seq<Txn>)
  {
    && Registered(row.request, txns)
    && (row.commitment.Some? ==> BoundBy(row.settlementId, row.request, row.commitment.value, txns))
    && (row.authorization.Some? ==> AuthorizedBy(row.settlementId, row.authorization.value, txns))
    && (row.signature.Some? ==> Learned(row.settlementId, row.signature, txns))
    && (row.receipt.Some? ==> ReconciledBy(row.settlementId, row.receipt.value.observations, txns))
  }

  /** A snapshot supported the request when it was registered. */
  ghost predicate Registered(q: SettlementRequest, txns: seq<Txn>)
  {
    exists c, at :: Register(q, c, at) in txns && Supported(q, c, at)
  }

  ghost predicate BoundBy(id: string, q: SettlementRequest, c: Commitment, txns: seq<Txn>)
  {
    exists p, signer, at :: Commit(id, p, signer, at) in txns && Bindable(q, p, signer, at) && c == Bound(q, p, signer)
  }

  /** The authorization was verified, and in force, when it was recorded. */
  ghost predicate AuthorizedBy(id: string, a: Authorization, txns: seq<Txn>)
  {
    exists at :: Authorize(id, a, true, at) in txns && InForce(a, true, at)
  }

  /** The observations were usable and agreed when they completed the settlement. */
  ghost predicate ReconciledBy(id: string, os: seq<Observation>, txns: seq<Txn>)
  {
    exists vouched, at :: Reconcile(id, os, vouched, at) in txns && Usable(os, vouched) && !Diverging(os)
  }

  /** The executor's answer, or a recovery, brought this signature. */
  ghost predicate Learned(id: string, signature: Option<Signature>, txns: seq<Txn>)
  {
    || (exists outcome, at :: Persist(id, Technical(outcome, signature), at) in txns)
    || (exists outcome, at :: RecordRecovery(id, outcome, signature, at) in txns)
  }

  /** What the executor answered, or a recovery found. */
  ghost predicate Concludes(id: string, answer: TechnicalOutcome, finding: RecoveryOutcome, txns: seq<Txn>)
  {
    || (exists signature, at :: Persist(id, Technical(answer, signature), at) in txns)
    || (exists signature, at :: RecordRecovery(id, finding, signature, at) in txns)
  }

  /** The state of a settlement is the outcome of some transaction of the run. */
  ghost predicate Explained(row: Row, txns: seq<Txn>)
  {
    var id := row.settlementId;
    match row.state
    case ExecutionCommitted => row.commitment.Some?
    case Authorized => row.authorization.Some?
    case Submitted => exists executorId, at :: SubmitIntent(id, executorId, at) in txns
    case Reconciling => Concludes(id, ExecutorAccepted, RecoveryConfirmed, txns)
    case Rejected => exists signature, at :: Persist(id, Technical(ExecutorRejected, signature), at) in txns
    case FailedBeforeSubmission =>
      exists signature, at :: RecordRecovery(id, RecoveryFailedBeforeBroadcast, signature, at) in txns
    case InRecovery => Concludes(id, ExecutorUnknown, RecoveryUnknown, txns)
    case InReview =>
      || Concludes(id, ReceiptInvalid, RecoveryInvalid, txns)
      || (exists os, vouched, at :: Reconcile(id, os, vouched, at) in txns && Usable(os, vouched) && !Diverging(os))
    case InDispute =>
      || (exists signature, at :: RecordRecovery(id, ProviderDivergence, signature, at) in txns)
      || (exists os, vouched, at :: Reconcile(id, os, vouched, at) in txns && Usable(os, vouched) && Diverging(os))
    case Completed => row.receipt.Some? && row.receipt.value.signature == row.signature
    case _ => row.state.Validated?
  }

  ghost predicate AllTraced(rows: seq<Row>, txns: seq<Txn>)
  {
    forall i :: 0 <= i < |rows| ==> Traced(rows[i], txns)
  }

  lemma StillTraced(row: Row, past: seq<Txn>, t: Txn)
    requires Traced(row, past)
    ensures Traced(row, past + [t])
  {
    assert forall x :: x in past ==> x in past + [t];
  }

  lemma SubmissionIsRecorded(row: Row, next: Row, past: seq<Txn>, t: Txn, submitted: bool)
    requires Recorded(row, past + [t]) && Does(t, row, next, submitted) && row.settlementId == t.id && t in past + [t]
    requires t.Commit? || t.Authorize? || t.SubmitIntent? || t.Persist?
    ensures Recorded(next, past + [t])
  {
  }

  lemma RecoveryLearns(id: string, known: Option<Signature>, t: Txn, txns: seq<Txn>)
    requires t.RecordRecovery? && t.id == id && t in txns && (known.Some? ==> Learned(id, known, txns))
    ensures var learned := if t.signature.None? then known else t.signature;
            learned.Some? ==> Learned(id, learned, txns)
  {
    assert RecordRecovery(id, t.outcome, t.signature, t.at) in txns;
  }

  lemma RecoveryIsRecorded(row: Row, next: Row, past: seq<Txn>, t: Txn, submitted: bool)
    requires Recorded(row, past + [t]) && Does(t, row, next, submitted) && row.settlementId == t.id && t in past + [t]
    requires t.RecordRecovery?
    ensures Recorded(next, past + [t])
  {
    RecoveryLearns(row.settlementId, row.signature, t, past + [t]);
    var learned := if t.signature.None? then row.signature else t.signature;
    RecoveryKeeps(row, next, t, learned);
    RecordedWith(row, next, learned, past + [t]);
  }

  lemma RecoveryKeeps(row: Row, next: Row, t: Txn, learned: Option<Signature>)
    requires t.RecordRecovery? && next == Recovered(row, t.outcome, t.signature, t.at)
    requires learned == if t.signature.None? then row.signature else t.signature
    ensures next == row.(state := next.state, signature := learned, updatedAt := t.at)
  {
  }

  lemma RecordedWith(row: Row, next: Row, learned: Option<Signature>, txns: seq<Txn>)
    requires Recorded(row, txns) && next == row.(state := next.state, signature := learned, updatedAt := next.updatedAt)
    requires learned.Some? ==> Learned(row.settlementId, learned, txns)
    ensures Recorded(next, txns)
  {
  }

  lemma ReconciliationIsRecorded(row: Row, next: Row, past: seq<Txn>, t: Txn, submitted: bool)
    requires Recorded(row, past + [t]) && Does(t, row, next, submitted) && row.settlementId == t.id && t in past + [t]
    requires t.Reconcile?
    ensures Recorded(next, past + [t])
  {
    assert t == Reconcile(row.settlementId, t.observations, t.vouched, t.at);
    assert next == row.(state := next.state, receipt := next.receipt, updatedAt := t.at);
    if next.receipt != row.receipt {
      assert next.receipt.value.observations == t.observations;
    }
  }

  lemma MoveIsExplained(row: Row, next: Row, past: seq<Txn>, t: Txn, submitted: bool)
    requires Does(t, row, next, submitted) && row.settlementId == t.id && t in past + [t]
    ensures Explained(next, past + [t])
  {
  }

  lemma MoveIsTraced(row: Row, next: Row, past: seq<Txn>, t: Txn, submitted: bool)
    requires Traced(row, past) && Does(t, row, next, submitted) && row.settlementId == t.id
    ensures Traced(next, past + [t])
  {
    StillTraced(row, past, t);
    assert t in past + [t];
    if t.RecordRecovery? {
      RecoveryIsRecorded(row, next, past, t, submitted);
    } else if t.Reconcile? {
      ReconciliationIsRecorded(row, next, past, t, submitted);
    } else {
      SubmissionIsRecorded(row, next, past, t, submitted);
    }
    MoveIsExplained(row, next, past, t, submitted);
  }

  lemma FreshIsTraced(t: Txn, txns: seq<Txn>)
    requires t.Register? && t in txns && Supported(t.request, t.snapshot, t.at)
    ensures Traced(Fresh(t.request, t.at), txns)
  {
    assert t == Register(t.request, t.snapshot, t.at);
  }

  lemma InsertionIsTraced(rows: seq<Row>, row: Row, past: seq<Txn>, t: Txn)
    requires AllTraced(rows, past) && Traced(row, past + [t])
    ensures AllTraced(rows + [row], past + [t])
  {
    forall i | 0 <= i < |rows| ensures Traced(rows[i], past + [t]) {
      StillTraced(rows[i], past, t);
    }
  }

  lemma RegistrationIsTraced(s: Store, t: Txn, past: seq<Txn>, s': Store)
    requires t.Register? && AllTraced(s.rows, past) && s' == DoRegister(s, t.request, t.snapshot, t.at).0 && s' != s
    ensures AllTraced(s'.rows, past + [t])
  {
    RegistersExactly(s, t.request, t.snapshot, t.at, s', DoRegister(s, t.request, t.snapshot, t.at).1);
    FreshIsTraced(t, past + [t]);
    InsertionIsTraced(s.rows, Fresh(t.request, t.at), past, t);
  }

  lemma AnsweredIsOwn(s: Store, t: Txn, k: nat, i: nat, s': Store, reply: Reply)
    requires !t.Register? && k < |s.rows| && s.rows[k].settlementId == t.id && i < |s'.rows|
    requires Answered(s, t, k, s'.rows[i], s', reply)
    ensures i < |s.rows|
    ensures s'.rows[i] != s.rows[i] ==> i == k && Does(t, s.rows[i], s'.rows[i], t.id in s.intents)
  {
  }

  /** A transaction changes no settlement but the one it names, and that one as it is entitled to. */
  lemma MovesItsOwn(s: Store, t: Txn, i: nat, s': Store, past: seq<Txn>)
    requires AllTraced(s.rows, past) && !t.Register? && s' == Apply(s, t).0 && i < |s'.rows|
    ensures i < |s.rows|
    ensures s'.rows[i] != s.rows[i] ==>
              t.id == s.rows[i].settlementId && Does(t, s.rows[i], s'.rows[i], t.id in s.intents)
  {
    var k := Find(s, t.id);
    if k == |s.rows| {
      UnknownIsRefused(s, t);
    } else {
      RequestedIsInVault(s.rows[k], past);
      AnswersExactly(s, t, k, s'.rows[i]);
      AnsweredIsOwn(s, t, k, i, s', Apply(s, t).1);
    }
  }

  lemma RequestedIsInVault(row: Row, txns: seq<Txn>)
    requires Traced(row, txns)
    ensures row.request.requested <= row.request.vaultBefore
  {
  }

  lemma ApplyIsTraced(s: Store, t: Txn, past: seq<Txn>)
    requires AllTraced(s.rows, past)
    ensures AllTraced(Apply(s, t).0.rows, past + [t])
  {
    var s' := Apply(s, t).0;
    if t.Register? && s' != s {
      RegistrationIsTraced(s, t, past, s');
    } else {
      forall k | 0 <= k < |s'.rows| ensures Traced(s'.rows[k], past + [t]) {
        if s' != s {
          MovesItsOwn(s, t, k, s', past);
        }
        if s'.rows[k] == s.rows[k] {
          StillTraced(s.rows[k], past, t);
        } else {
          MoveIsTraced(s.rows[k], s'.rows[k], past, t, t.id in s.intents);
        }
      }
    }
  }

  /** From tables already traced, every run of transactions leaves each settlement traced to those made. */
  lemma {:induction false} RunIsTraced(s: Store, past: seq<Txn>, txns: seq<Txn>)
    requires AllTraced(s.rows, past)
    ensures AllTraced(Run(s, txns).rows, past + txns)
    decreases |txns|
  {
    if |txns| == 0 {
      assert past + txns == past;
    } else {
      ApplyIsTraced(s, txns[0], past);
      RunIsTraced(Apply(s, txns[0]).0, past + [txns[0]], txns[1..]);
      assert past + [txns[0]] + txns[1..] == past + txns;
    }
  }

  /** In every run, each settlement's request, binding, authorization, signature, receipt and state is accounted for. */
  lemma EverySettlementIsTraced(txns: seq<Txn>, i: nat)
    requires i < |Run(EMPTY, txns).rows|
    ensures Traced(Run(EMPTY, txns).rows[i], txns)
  {
    var past: seq<Txn> := [];
    RunIsTraced(EMPTY, past, txns);
    assert past + txns == txns;
  }
}
