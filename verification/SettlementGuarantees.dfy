/** What a caller may conclude about the executor from the settlement tables, in every run. */
module SettlementGuarantees {
  import opened Tables
  import opened Journals
  import opened Channels
  import opened SettlementStore
  import opened SettlementTheorems
  import opened Executor
  import opened SettlementExecution

  lemma StartIsSafe(executorId: string)
    ensures Safe(Start(executorId))
  {
  }

  /** The effect of an execution request: the one obligation it was applied to. */
  ghost predicate OneEffect(x: Ledger, req: string)
  {
    exists obligation ::
      && obligation in x.effects && x.effects[obligation] == req
      && forall other :: other in x.effects && x.effects[other] == req ==> other == obligation
  }

  lemma ExecutedHasOneEffect(x: Ledger, req: string)
    requires Sound(x)
    ensures Executed(x, req) <==> OneEffect(x, req)
  {
  }

  /**
   * Under every interleaving, with lost responses and dying threads, the executor is called at most once per
   * settlement, and so at most once per obligation of a (channel, epoch).
   */
  lemma AtMostOneCall(executorId: string, steps: seq<Step>, w: World, a: nat, b: nat)
    requires w == Interleave(Start(executorId), steps) && a < b < |w.calls|
    ensures w.calls[a] != w.calls[b]
    ensures var i, j := Find(w.store, w.calls[a]), Find(w.store, w.calls[b]);
            && i < |w.store.rows| && j < |w.store.rows|
            && (ScopeOf(w.store.rows[i].request) == ScopeOf(w.store.rows[j].request) ==>
                  w.store.rows[i].request.obligationId != w.store.rows[j].request.obligationId)
  {
    StartIsSafe(executorId);
    RunKeepsSafe(Start(executorId), steps);
    CallsAreDistinct(w.store, w.calls, a, b);
  }

  lemma CallsAreDistinct(s: Store, calls: seq<string>, a: nat, b: nat)
    requires Distinct(s.rows) && CalledOnce(s, calls) && a < b < |calls|
    ensures calls[a] != calls[b]
    ensures var i, j := Find(s, calls[a]), Find(s, calls[b]);
            && i < |s.rows| && j < |s.rows|
            && (ScopeOf(s.rows[i].request) == ScopeOf(s.rows[j].request) ==>
                  s.rows[i].request.obligationId != s.rows[j].request.obligationId)
  {
  }

  /** What each state and the recorded signature say about the effect. */
  lemma TableTellsTheTruth(executorId: string, steps: seq<Step>, w: World, i: nat)
    requires w == Interleave(Start(executorId), steps) && i < |w.store.rows|
    ensures var row, req := w.store.rows[i], w.store.rows[i].request.executionRequestId;
            && (row.signature.Some? ==> OneEffect(w.ledger, req) && Signed(w.ledger, row.request, row.signature.value))
            && (row.state.Reconciling? || row.state.Completed? ==> OneEffect(w.ledger, req))
            && (row.state.FailedBeforeSubmission? ==> !OneEffect(w.ledger, req))
            && (row.state.Completed? ==>
                  ProperlyCompleted(row) && row.settlementId in w.store.intents && row.settlementId in w.calls)
  {
    StartIsSafe(executorId);
    RunKeepsSafe(Start(executorId), steps);
    var row := w.store.rows[i];
    assert Linked(row, w.ledger, row.settlementId in w.calls);
    assert RowSound(row, row.settlementId in w.store.intents);
    ExecutedHasOneEffect(w.ledger, row.request.executionRequestId);
  }

  // ----- once the call is spent without an effect, there never will be one

  /** The settlement's one call has been made and nothing came of it. */
  ghost predicate Spent(w: World, i: nat, id: string, req: string)
  {
    && i < |w.store.rows| && w.store.rows[i].settlementId == id && w.store.rows[i].request.executionRequestId == req
    && id in w.calls && !Executed(w.ledger, req)
  }

  /** Rows keep their place, their id and their execution request. */
  ghost predicate RowsStay(s: Store, s': Store)
  {
    && |s.rows| <= |s'.rows|
    && forall i :: 0 <= i < |s.rows| ==>
         s'.rows[i].settlementId == s.rows[i].settlementId && s'.rows[i].request == s.rows[i].request
  }

  lemma ChangeStays(s: Store, t: Txn, change: Change, s': Store)
    requires Applies(s, t, change, s')
    ensures RowsStay(s, s')
  {
  }

  lemma StoreStays(w: World, step: Step)
    ensures RowsStay(w.store, Next(w, step).store)
  {
    match step
    case Table(t) =>
      var change := ApplyChanges(w.store, t);
      ChangeStays(w.store, t, change, Apply(w.store, t).0);
    case Submit(k, id, at) =>
      var t := SubmitIntent(id, w.ledger.executorId, at);
      var change := SubmitIntentChanges(w.store, t);
      ChangeStays(w.store, t, change, Apply(w.store, t).0);
    case PersistAnswer(k, at) =>
      if k in w.threads && w.threads[k].Persisting? {
        var t := Persist(w.threads[k].id, w.threads[k].technical, at);
        var change := PersistChanges(w.store, t);
        ChangeStays(w.store, t, change, Apply(w.store, t).0);
      }
    case WriteRecovery(k, at) =>
      if k in w.threads && w.threads[k].Recording? {
        var t := RecordRecovery(w.threads[k].id, w.threads[k].outcome, w.threads[k].signature, at);
        var change := RecoveryChanges(w.store, t);
        ChangeStays(w.store, t, change, Apply(w.store, t).0);
      }
    case _ =>
  }

  /** A thread still to call works for a settlement not called yet, hence for another execution request. */
  lemma CallerIsAnother(w: World, k: nat, i: nat, id: string, req: string)
    requires Distinct(w.store.rows) && RowsSound(w.store.rows, w.store.intents)
    requires ThreadsOk(w.store, w.ledger, w.calls, w.threads)
    requires Spent(w, i, id, req) && k in w.threads && w.threads[k].Calling?
    ensures w.threads[k].authorization.executionRequestId != req
  {
  }

  lemma CallKeepsSpent(w: World, k: nat, at: int, responseLost: bool, i: nat, id: string, req: string)
    requires Safe(w) && Spent(w, i, id, req)
    ensures Spent(Call(w, k, at, responseLost), i, id, req)
  {
    if k in w.threads && w.threads[k].Calling? {
      CallerIsAnother(w, k, i, id, req);
      var a := w.threads[k].authorization;
      ExecuteIsLater(w.ledger, a, at, DoExecute(w.ledger, a, at).0);
    }
  }

  lemma NextKeepsSpent(w: World, step: Step, i: nat, id: string, req: string)
    requires Safe(w) && Spent(w, i, id, req)
    ensures Spent(Next(w, step), i, id, req)
  {
    StoreStays(w, step);
    match step
    case CallExecutor(k, at, responseLost) => CallKeepsSpent(w, k, at, responseLost, i, id, req);
    case PrepareExecution(input, at) => PrepareIsLater(w.ledger, input, at, DoPrepare(w.ledger, input, at).0);
    case _ =>
  }

  /** A settlement that failed before submission has no effect and, whatever happens next, never will. */
  lemma {:induction false} SpentForever(w: World, steps: seq<Step>, i: nat, id: string, req: string)
    requires Safe(w) && Spent(w, i, id, req)
    ensures Spent(Interleave(w, steps), i, id, req)
    decreases |steps|
  {
    if |steps| > 0 {
      NextKeepsSpent(w, steps[0], i, id, req);
      NextKeepsSafe(w, steps[0]);
      SpentForever(Next(w, steps[0]), steps[1..], i, id, req);
    }
  }

  lemma FailedIsSpent(w: World, i: nat)
    requires Safe(w) && i < |w.store.rows| && w.store.rows[i].state.FailedBeforeSubmission?
    ensures Spent(w, i, w.store.rows[i].settlementId, w.store.rows[i].request.executionRequestId)
  {
  }

  // ----- completed is terminal only without overtaking

  lemma RecoveryInProgress(w: World, i: nat, k: nat) returns (w': World)
    requires Distinct(w.store.rows) && i < |w.store.rows| && w.store.rows[i].state.Recoverable() && k !in w.threads
    requires w.store.rows[i].commitment.Some? && w.store.rows[i].commitment.value.executorId == w.ledger.executorId
    ensures w' == Ask(BeginRecover(w, k, w.store.rows[i].settlementId), k, true)
    ensures w' == w.(threads := w.threads[k := Recording(w.store.rows[i].settlementId, RecoveryUnknown, None)])
  {
    FindIs(w.store, i);
    w' := Ask(BeginRecover(w, k, w.store.rows[i].settlementId), k, true);
  }

  lemma ReconcileCompletes(s: Store, i: nat, os: seq<Observation>, vouched: set<Observation>, at: int)
    requires Distinct(s.rows) && i < |s.rows| && s.rows[i].state.Reconciling? && at >= s.rows[i].updatedAt
    requires CheckObservations(os, vouched).None? && Agree(os) && AllExact(s.rows[i], os)
    ensures var s' := DoReconcile(s, s.rows[i].settlementId, os, vouched, at).0;
            |s'.rows| == |s.rows| && s'.rows[i].state.Completed? && Find(s', s.rows[i].settlementId) == i
  {
  }

  /** Any settlement about to complete can be completed under a running recovery and then reopened by it. */
  lemma LateRecoveryReopens(w: World, i: nat, k: nat, os: seq<Observation>, vouched: set<Observation>, at: int)
    requires Distinct(w.store.rows) && i < |w.store.rows| && w.store.rows[i].state.Reconciling? && k !in w.threads
    requires w.store.rows[i].commitment.Some? && w.store.rows[i].commitment.value.executorId == w.ledger.executorId
    requires CheckObservations(os, vouched).None? && Agree(os) && AllExact(w.store.rows[i], os)
    requires at >= w.store.rows[i].updatedAt
    ensures var id := w.store.rows[i].settlementId;
            var recovering := Ask(BeginRecover(w, k, id), k, true);
            var completed := recovering.(store := DoReconcile(recovering.store, id, os, vouched, at).0);
            var reopened := WriteRecord(completed, k, at);
            && i < |completed.store.rows| && completed.store.rows[i].state.Completed?
            && i < |reopened.store.rows| && reopened.store.rows[i].state.InRecovery?
  {
    var recovering := RecoveryInProgress(w, i, k);
    ReconcileCompletes(w.store, i, os, vouched, at);
  }
}
