/** What every run of settlement transactions keeps. */
module SettlementTheorems {
  import opened Tables
  import opened Journals
  import opened Channels
  import opened SettlementStore

  // ----- one transaction changes at most one row

  datatype Change = Nothing | Insert(row: Row) | Update(i: nat, row: Row)

  /** A fresh registration fits under what its own snapshot leaves of the activated right. */
  predicate Fits(s: Store, row: Row)
  {
    var q, scope := row.request, ScopeOf(row.request);
    && row.settlementId == q.settlementId
      && row == Row(q.settlementId, q, Validated, None, None, None, None, row.updatedAt)
    && 0 < q.requested <= q.vaultBefore
    && HighWater(s, scope) <= q.settledBefore
    && q.settledBefore + Reserved(s, scope) + q.requested <= q.activatedBefore
    && (forall i :: 0 <= i < |s.rows| ==>
          s.rows[i].settlementId != row.settlementId && !SameObligation(q)(s.rows[i]) && !SameExecution(q)(s.rows[i]))
  }

  function PersistTarget(outcome: TechnicalOutcome): State
  {
    match outcome
    case ExecutorAccepted => Reconciling
    case ExecutorRejected => Rejected
    case ExecutorUnknown => InRecovery
    case ReceiptInvalid => InReview
  }

  /** The commitment binds the row's own execution request, obligation and economics. */
  predicate Binds(c: Commitment, q: SettlementRequest)
  {
    && c.executionRequestId == q.executionRequestId == c.commitment.executionRequestId
    && c.commitment.obligationId == q.obligationId && c.commitment.plan == PlanOf(q)
    && c.executorId == c.commitment.executorId
  }

  /** The authorization names exactly the committed execution. */
  predicate Authorizes(a: Authorization, c: Commitment)
  {
    a.executionRequestId == c.executionRequestId && a.commitment == c.commitment && a.messageHash == c.messageHash
  }

  /** What the transaction does to the row it changes. */
  predicate Moves(row: Row, next: Row, t: Txn)
  {
    match t
    case Register(_, _, _) => false
    case Commit(_, _, _, at) =>
      && row.state.Validated? && next.commitment.Some? && Binds(next.commitment.value, row.request)
      && at < next.commitment.value.expiresAt
      && next == row.(state := ExecutionCommitted, commitment := next.commitment, updatedAt := at)
    case Authorize(_, a, _, at) =>
      && row.state.ExecutionCommitted? && row.commitment.Some? && Authorizes(a, row.commitment.value)
      && at < a.expiresAt <= row.commitment.value.expiresAt
      && next == row.(state := Authorized, authorization := Some(a), updatedAt := at)
    case SubmitIntent(_, executorId, at) =>
      && row.state.Authorized? && row.commitment.Some? && row.authorization.Some?
      && executorId == row.commitment.value.executorId
      && next == row.(state := Submitted, updatedAt := at)
    case Persist(_, technical, at) =>
      && row.state.Submitted?
      && next == row.(state := PersistTarget(technical.outcome), signature := technical.signature, updatedAt := at)
    case RecordRecovery(_, outcome, signature, at) =>
      next == row.(state := RecoveryTarget(outcome),
        signature := if signature.Some? then signature else row.signature, updatedAt := at)
    case Reconcile(_, os, vouched, at) =>
      && (row.state.Reconciling? || row.state.InReview? || row.state.InDispute?)
      && if !Agree(os) then next == row.(state := InDispute, updatedAt := at)
         else if !AllExact(row, os) then next == row.(state := InReview, updatedAt := at)
         else
           && next.receipt.Some? && CompletedBy(next.receipt.value, row, os, vouched)
           && next == row.(state := Completed, receipt := next.receipt, updatedAt := at)
  }

  /**
   * The receipt rests on verified observations, each showing exactly the requested effect under the row's signature.
   */
  predicate CompletedBy(r: Receipt, row: Row, os: seq<Observation>, vouched: set<Observation>)
  {
    && r.observations == os && |os| > 0 && AllExact(row, os)
    && (forall i :: 0 <= i < |os| ==> os[i] in vouched)
    && r.signature == row.signature && row.signature.Some? && !row.signature.value.Empty()
    && r.settledAfter == SettledAfter(row.request)
  }

  /** Other histories stay; this one, if it ended in the old state, ends in the new one. */
  ghost predicate JournalFollows(s: Store, s': Store, id: string, from: State, to: State)
  {
    && (forall other :: other != id ==> History(s', other) == History(s, other))
    && (EndsIn(History(s, id), from) ==> EndsIn(History(s', id), to))
  }

  ghost predicate Applies(s: Store, t: Txn, change: Change, s': Store)
  {
    match change
    case Nothing => s' == s
    case Insert(row) =>
      && t.Register? && Fits(s, row) && s'.rows == s.rows + [row] && s'.intents == s.intents
      && (forall other :: other != row.settlementId ==> History(s', other) == History(s, other))
      && (History(s, row.settlementId) == [] ==> EndsIn(History(s', row.settlementId), Validated))
    case Update(i, row) =>
      && !t.Register? && i < |s.rows| && s.rows[i].settlementId == t.id && Moves(s.rows[i], row, t)
      && s'.rows == s.rows[i := row]
      && s'.intents == (if t.SubmitIntent? then s.intents + {t.id} else s.intents)
      && (t.SubmitIntent? ==> t.id !in s.intents)
      && JournalFollows(s, s', t.id, s.rows[i].state, row.state)
  }

  lemma WriteJournals(s: Store, i: nat, row: Row, at: int)
    requires i < |s.rows|
    ensures JournalFollows(s, Write(s, i, row, at), s.rows[i].settlementId, s.rows[i].state, row.state)
  {
  }

  lemma RegisterJournals(s: Store, id: string, at: int)
    requires History(s, id) == []
    ensures EndsIn(History(Append(Append(s, id, Requested, at), id, Validated, at), id), Validated)
  {
  }

  lemma RegisterFits(s: Store, q: SettlementRequest, at: int)
    requires 0 < q.requested <= q.vaultBefore && CheckReservation(s, q).None?
    requires FirstIndex(s.rows, Collides(q)) == |s.rows|
    ensures Fits(s, Row(q.settlementId, q, Validated, None, None, None, None, at))
  {
  }

  /** A registration that changes the tables passed every check and inserted the fresh row, journalled twice. */
  lemma RegisterInserts(s: Store, q: SettlementRequest, c: Channel, at: int, s': Store)
    requires s' == DoRegister(s, q, c, at).0 && s' != s
    ensures 0 < q.requested <= q.vaultBefore && CheckReservation(s, q).None?
    ensures FirstIndex(s.rows, Collides(q)) == |s.rows|
    ensures var inserted := s.(rows := s.rows + [Row(q.settlementId, q, Validated, None, None, None, None, at)]);
            s' == Append(Append(inserted, q.settlementId, Requested, at), q.settlementId, Validated, at)
  {
  }

  lemma RegisterChanges(s: Store, t: Txn) returns (change: Change)
    requires t.Register?
    ensures Applies(s, t, change, Apply(s, t).0)
  {
    var s', q := Apply(s, t).0, t.request;
    if s' == s {
      return Nothing;
    }
    RegisterInserts(s, q, t.snapshot, t.at, s');
    RegisterFits(s, q, t.at);
    change := Insert(Row(q.settlementId, q, Validated, None, None, None, None, t.at));
    InsertApplies(s, t, change.row, s');
  }

  lemma InsertApplies(s: Store, t: Txn, row: Row, s': Store)
    requires t.Register? && Fits(s, row)
    requires var inserted := s.(rows := s.rows + [row]);
             s' == Append(Append(inserted, row.settlementId, Requested, t.at), row.settlementId, Validated, t.at)
    ensures Applies(s, t, Insert(row), s')
  {
    if History(s, row.settlementId) == [] {
      RegisterJournals(s.(rows := s.rows + [row]), row.settlementId, t.at);
    }
  }

  lemma CommitChanges(s: Store, t: Txn) returns (change: Change)
    requires t.Commit?
    ensures Applies(s, t, change, Apply(s, t).0)
  {
    var (s', reply) := DoCommit(s, t.id, t.prepared, t.signer, t.at);
    var i := Find(s, t.id);
    change := if s' == s then Nothing else Update(i, s'.rows[i]);
    if change.Update? {
      WriteJournals(s, i, s'.rows[i], t.at);
    }
  }

  lemma AuthorizeChanges(s: Store, t: Txn) returns (change: Change)
    requires t.Authorize?
    ensures Applies(s, t, change, Apply(s, t).0)
  {
    var (s', reply) := DoAuthorize(s, t.id, t.authorization, t.verified, t.at);
    var i := Find(s, t.id);
    change := if s' == s then Nothing else Update(i, s'.rows[i]);
    if change.Update? {
      WriteJournals(s, i, s'.rows[i], t.at);
    }
  }

  lemma SubmitIntentChanges(s: Store, t: Txn) returns (change: Change)
    requires t.SubmitIntent?
    ensures Applies(s, t, change, Apply(s, t).0)
  {
    var (s', reply) := DoSubmitIntent(s, t.id, t.executorId, t.at);
    var i := Find(s, t.id);
    change := if s' == s then Nothing else Update(i, s'.rows[i]);
    if change.Update? {
      WriteJournals(s.(intents := s.intents + {t.id}), i, s'.rows[i], t.at);
    }
  }

  /** Confirming and then reconciling, in one transaction, leaves both entries in the journal. */
  lemma WriteTwiceJournals(s: Store, i: nat, first: Row, second: Row, at: int)
    requires i < |s.rows| && first.settlementId == s.rows[i].settlementId
    ensures var s' := Write(Write(s, i, first, at), i, second, at);
            && s'.rows == s.rows[i := second.(updatedAt := at)] && s'.intents == s.intents
            && JournalFollows(s, s', s.rows[i].settlementId, s.rows[i].state, second.state)
  {
  }

  lemma PersistChanges(s: Store, t: Txn) returns (change: Change)
    requires t.Persist?
    ensures Applies(s, t, change, Apply(s, t).0)
  {
    var (s', reply) := DoPersist(s, t.id, t.technical, t.at);
    var i := Find(s, t.id);
    if s' == s {
      return Nothing;
    }
    var next := s.rows[i].(signature := t.technical.signature, state := PersistTarget(t.technical.outcome));
    change := Update(i, next.(updatedAt := t.at));
    if t.technical.outcome.ExecutorAccepted? {
      WriteTwiceJournals(s, i, next.(state := Confirming), next, t.at);
    } else {
      WriteJournals(s, i, next, t.at);
    }
  }

  lemma RecoveryChanges(s: Store, t: Txn) returns (change: Change)
    requires t.RecordRecovery?
    ensures Applies(s, t, change, Apply(s, t).0)
    ensures change.Nothing? <==> Find(s, t.id) == |s.rows|
  {
    var (s', reply) := DoRecordRecovery(s, t.id, t.outcome, t.signature, t.at);
    var i := Find(s, t.id);
    if i == |s.rows| {
      return Nothing;
    }
    change := Update(i, s'.rows[i]);
    WriteJournals(s.(recoveries := s'.recoveries), i, s'.rows[i], t.at);
  }

  lemma ReconcileChanges(s: Store, t: Txn) returns (change: Change)
    requires t.Reconcile?
    ensures Applies(s, t, change, Apply(s, t).0)
  {
    var (s', reply) := DoReconcile(s, t.id, t.observations, t.vouched, t.at);
    if s' == s {
      return Nothing;
    }
    var i, next := Find(s, t.id), reply.row;
    assert s' == Write(s, i, next, t.at);
    WriteJournals(s, i, next, t.at);
    assert Moves(s.rows[i], next, t) by {
      if next.state.Completed? {
        assert Exact(s.rows[i], t.observations[0]);
        assert CompletedBy(next.receipt.value, s.rows[i], t.observations, t.vouched);
      }
    }
    change := Update(i, next);
  }

  lemma ApplyChanges(s: Store, t: Txn) returns (change: Change)
    ensures Applies(s, t, change, Apply(s, t).0)
  {
    match t
    case Register(_, _, _) => change := RegisterChanges(s, t);
    case Commit(_, _, _, _) => change := CommitChanges(s, t);
    case Authorize(_, _, _, _) => change := AuthorizeChanges(s, t);
    case SubmitIntent(_, _, _) => change := SubmitIntentChanges(s, t);
    case Persist(_, _, _) => change := PersistChanges(s, t);
    case RecordRecovery(_, _, _, _) => change := RecoveryChanges(s, t);
    case Reconcile(_, _, _, _) => change := ReconcileChanges(s, t);
  }

  // ----- rows, intents and journals

  /** A completed settlement: verified observations of exactly this effect, under a signature the row learned. */
  predicate ProperlyCompleted(row: Row)
  {
    && row.receipt.Some? && |row.receipt.value.observations| > 0
    && row.receipt.value.signature == row.signature && row.signature.Some? && !row.signature.value.Empty()
    && row.receipt.value.settledAfter == row.request.settledBefore + row.request.requested
    && forall i :: 0 <= i < |row.receipt.value.observations| ==> ShowsEffect(row.receipt.value.observations[i], row)
  }

  predicate ShowsEffect(o: Observation, row: Row)
  {
    && o.channelId == row.request.channelId && o.epoch == row.request.epoch && o.destination == row.request.wallet
    && Some(o.signature) == row.signature
    && o.settledAfter - o.settledBefore == row.request.requested && o.settledBefore == row.request.settledBefore
    && o.vaultBefore - o.vaultAfter == row.request.requested && o.vaultBefore == row.request.vaultBefore
    && o.recipientAfter - o.recipientBefore == row.request.requested
  }

  predicate RowSound(row: Row, submitted: bool)
  {
    && row.settlementId == row.request.settlementId
    && 0 < row.request.requested <= row.request.vaultBefore
    && row.request.settledBefore + row.request.requested <= row.request.activatedBefore
    && (submitted <==> !row.state.BeforeSubmission())
    && !row.state.Requested? && !row.state.Confirming?
    && (!row.state.Validated? ==> row.commitment.Some? && Binds(row.commitment.value, row.request))
    && (!row.state.Validated? && !row.state.ExecutionCommitted? ==>
          row.authorization.Some? && Authorizes(row.authorization.value, row.commitment.value))
    && (row.state.ExecutionCommitted? ==> row.updatedAt < row.commitment.value.expiresAt)
    && (row.state.Authorized? ==> row.updatedAt < row.authorization.value.expiresAt <= row.commitment.value.expiresAt)
    && (row.state.BeforeSubmission() || row.state.Submitted? ==> row.signature.None?)
    && (row.state.Completed? ==> ProperlyCompleted(row))
  }

  /** Settlement ids, execution requests and the obligations of a scope are used once. */
  ghost predicate Distinct(rows: seq<Row>)
  {
    forall i, j :: 0 <= i < j < |rows| ==>
      && rows[i].settlementId != rows[j].settlementId
      && rows[i].request.executionRequestId != rows[j].request.executionRequestId
      && (ScopeOf(rows[i].request) == ScopeOf(rows[j].request) ==>
            rows[i].request.obligationId != rows[j].request.obligationId)
  }

  ghost predicate RowsSound(rows: seq<Row>, intents: set<string>)
  {
    forall i :: 0 <= i < |rows| ==> RowSound(rows[i], rows[i].settlementId in intents)
  }

  ghost predicate Journalled(s: Store)
  {
    && (forall i :: 0 <= i < |s.rows| ==> EndsIn(History(s, s.rows[i].settlementId), s.rows[i].state))
    && (forall id :: Find(s, id) == |s.rows| ==> History(s, id) == [] && id !in s.intents)
  }

  ghost predicate Good(s: Store)
  {
    Distinct(s.rows) && RowsSound(s.rows, s.intents) && Journalled(s)
  }

  lemma MoveKeepsRowSound(row: Row, next: Row, t: Txn, submitted: bool)
    requires RowSound(row, submitted) && Moves(row, next, t) && (t.RecordRecovery? ==> submitted)
    ensures RowSound(next, submitted || t.SubmitIntent?)
  {
    if next.state.Completed? {
      forall i | 0 <= i < |next.receipt.value.observations|
        ensures ShowsEffect(next.receipt.value.observations[i], next)
      {
        assert Exact(row, next.receipt.value.observations[i]);
      }
    }
  }

  lemma InsertKeepsRows(rows: seq<Row>, intents: set<string>, row: Row)
    requires Distinct(rows) && RowsSound(rows, intents) && row.settlementId !in intents && RowSound(row, false)
    requires forall i :: 0 <= i < |rows| ==>
      rows[i].settlementId != row.settlementId && !SameObligation(row.request)(rows[i])
        && !SameExecution(row.request)(rows[i])
    ensures Distinct(rows + [row]) && RowsSound(rows + [row], intents)
  {
  }

  lemma InsertKeepsJournals(s: Store, row: Row, s': Store)
    requires Journalled(s) && s'.rows == s.rows + [row] && s'.intents == s.intents && row.state.Validated?
    requires forall other :: other != row.settlementId ==> History(s', other) == History(s, other)
    requires EndsIn(History(s', row.settlementId), Validated)
    requires forall i :: 0 <= i < |s.rows| ==> s.rows[i].settlementId != row.settlementId
    ensures Journalled(s')
  {
    forall i | 0 <= i < |s'.rows| ensures EndsIn(History(s', s'.rows[i].settlementId), s'.rows[i].state) {
      if i < |s.rows| {
        assert EndsIn(History(s, s.rows[i].settlementId), s.rows[i].state);
      }
    }
    forall id | Find(s', id) == |s'.rows| ensures History(s', id) == [] && id !in s'.intents {
      assert s'.rows[|s.rows|] == row;
      forall j | 0 <= j < |s.rows| ensures s.rows[j].settlementId != id {
        assert s'.rows[j] == s.rows[j];
      }
    }
  }

  lemma InsertKeepsGood(s: Store, t: Txn, row: Row, s': Store)
    requires Good(s) && Applies(s, t, Insert(row), s')
    ensures Good(s')
  {
    assert Find(s, row.settlementId) == |s.rows|;
    InsertKeepsJournals(s, row, s');
    InsertKeepsRows(s.rows, s.intents, row);
  }

  /** Row `i` was rewritten under its own id and its journal followed. */
  ghost predicate Rewrites(s: Store, i: nat, row: Row, s': Store)
  {
    && i < |s.rows| && row.settlementId == s.rows[i].settlementId && s'.rows == s.rows[i := row]
    && (s'.intents == s.intents || s'.intents == s.intents + {row.settlementId})
    && JournalFollows(s, s', row.settlementId, s.rows[i].state, row.state)
  }

  lemma RewriteKeepsJournals(s: Store, i: nat, row: Row, s': Store)
    requires Distinct(s.rows) && Journalled(s) && Rewrites(s, i, row, s')
    ensures Journalled(s')
  {
    forall k | 0 <= k < |s'.rows| ensures EndsIn(History(s', s'.rows[k].settlementId), s'.rows[k].state) {
      assert EndsIn(History(s, s.rows[k].settlementId), s.rows[k].state);
      assert k != i ==> s.rows[k].settlementId != row.settlementId;
    }
    RewriteKeepsUnknown(s, i, row, s');
  }

  lemma RewriteKeepsUnknown(s: Store, i: nat, row: Row, s': Store)
    requires Journalled(s) && Rewrites(s, i, row, s')
    ensures forall id :: Find(s', id) == |s'.rows| ==> History(s', id) == [] && id !in s'.intents
  {
    forall id | Find(s', id) == |s'.rows| ensures History(s', id) == [] && id !in s'.intents {
      assert s'.rows[i] == row;
      forall j | 0 <= j < |s.rows| ensures s.rows[j].settlementId != id {
        assert s'.rows[j].settlementId == s.rows[j].settlementId;
      }
    }
  }

  lemma UpdateKeepsRows(rows: seq<Row>, intents: set<string>, t: Txn, i: nat, row: Row)
    requires Distinct(rows) && RowsSound(rows, intents) && i < |rows|
    requires row.request == rows[i].request && row.settlementId == rows[i].settlementId
    requires RowSound(row, row.settlementId in intents || t.SubmitIntent?)
    ensures Distinct(rows[i := row])
    ensures RowsSound(rows[i := row], if t.SubmitIntent? then intents + {row.settlementId} else intents)
  {
  }

  lemma UpdateKeepsGood(s: Store, t: Txn, i: nat, row: Row, s': Store)
    requires Good(s) && Applies(s, t, Update(i, row), s') && (t.RecordRecovery? ==> t.id in s.intents)
    ensures Good(s')
  {
    assert Rewrites(s, i, row, s');
    RewriteKeepsJournals(s, i, row, s');
    assert RowSound(s.rows[i], t.id in s.intents);
    MoveKeepsRowSound(s.rows[i], row, t, t.id in s.intents);
    UpdateKeepsRows(s.rows, s.intents, t, i, row);
  }

  /** Every transaction keeps the tables Good, provided recoveries are recorded for submitted settlements only. */
  lemma ApplyKeepsGood(s: Store, t: Txn)
    requires Good(s) && (t.RecordRecovery? ==> t.id in s.intents)
    ensures Good(Apply(s, t).0)
  {
    var change := ApplyChanges(s, t);
    match change
    case Nothing =>
    case Insert(row) => InsertKeepsGood(s, t, row, Apply(s, t).0);
    case Update(i, row) => UpdateKeepsGood(s, t, i, row, Apply(s, t).0);
  }
}
