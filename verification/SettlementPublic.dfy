/** Runs of whole public methods, each finished before the next begins: they are fresh. */
module SettlementPublic {
  import opened Tables
  import opened Channels
  import opened SettlementStore
  import opened SettlementTheorems
  import opened SettlementReservations
  import opened SettlementExactness

  /** A public method with its arguments; what an executor answers is an argument too. */
  datatype Call =
    | CallRegister(request: SettlementRequest, snapshot: Channel, at: int)
    | CallCommit(id: string, prepared: Prepared, signer: string, at: int)
    | CallAuthorize(id: string, authorization: Authorization, verified: bool, at: int)
    | CallSubmit(id: string, executorId: string, technical: Technical, at: int)
    | CallRecover(id: string, executorId: string, outcome: RecoveryOutcome, signature: Option<Signature>, at: int)
    | CallDivergence(id: string, providers: set<string>, at: int)
    | CallReconcile(id: string, observations: seq<Observation>, vouched: set<Observation>, at: int)

  predicate MayRecover(s: Store, id: string)
  {
    Find(s, id) < |s.rows| && s.rows[Find(s, id)].state.Recoverable()
  }

  /** The commitment names this executor. */
  predicate CommittedTo(s: Store, id: string, executorId: string)
  {
    var i := Find(s, id);
    i < |s.rows| && s.rows[i].commitment.Some? && s.rows[i].commitment.value.executorId == executorId
  }

  /** The transactions one call makes from this store. */
  function Transactions(s: Store, call: Call): seq<Txn>
  {
    match call
    case CallRegister(q, c, at) => [Register(q, c, at)]
    case CallCommit(id, p, signer, at) => [Commit(id, p, signer, at)]
    case CallAuthorize(id, a, verified, at) => [Authorize(id, a, verified, at)]
    case CallSubmit(id, executorId, technical, at) =>
      var intent := SubmitIntent(id, executorId, at);
      if Apply(s, intent).1.Refused? then [intent] else [intent, Persist(id, technical, at)]
    case CallRecover(id, executorId, outcome, signature, at) =>
      if MayRecover(s, id) && CommittedTo(s, id, executorId) then [RecordRecovery(id, outcome, signature, at)] else []
    case CallDivergence(id, providers, at) =>
      if MayRecover(s, id) && |providers| >= 2 then [RecordRecovery(id, ProviderDivergence, None, at)] else []
    case CallReconcile(id, os, vouched, at) => [Reconcile(id, os, vouched, at)]
  }

  function Whole(s: Store, call: Call): Store { Run(s, Transactions(s, call)) }

  function WholeRun(s: Store, calls: seq<Call>): Store
    decreases |calls|
  {
    if |calls| == 0 then s else WholeRun(Whole(s, calls[0]), calls[1..])
  }

  lemma OneTransaction(s: Store, t: Txn)
    ensures Run(s, [t]) == Apply(s, t).0
    ensures FreshRun(s, [t]) <==> Fresh(s, t)
  {
    assert [t][1..] == [];
    assert Run(Apply(s, t).0, []) == Apply(s, t).0;
  }

  lemma TwoTransactions(s: Store, t: Txn, u: Txn)
    ensures Run(s, [t, u]) == Apply(Apply(s, t).0, u).0
    ensures FreshRun(s, [t, u]) <==> Fresh(s, t) && Fresh(Apply(s, t).0, u)
  {
    assert [t, u][1..] == [u];
    OneTransaction(Apply(s, t).0, u);
  }

  /** Submit as a whole: nothing without an intent, otherwise the intent and then the executor's answer. */
  lemma WholeSubmit(s: Store, id: string, executorId: string, technical: Technical, at: int)
    ensures var (s', intent) := DoSubmitIntent(s, id, executorId, at);
            Whole(s, CallSubmit(id, executorId, technical, at)) ==
              if intent.Refused? then s else DoPersist(s', id, technical, at).0
  {
    var t := SubmitIntent(id, executorId, at);
    assert Apply(s, t) == DoSubmitIntent(s, id, executorId, at);
    OneTransaction(s, t);
    TwoTransactions(s, t, Persist(id, technical, at));
  }

  /** Recover as a whole writes only to a settlement that is recoverable when it is called. */
  lemma WholeRecover(s: Store, id: string, executorId: string, outcome: RecoveryOutcome, signature: Option<Signature>,
                     at: int)
    ensures Whole(s, CallRecover(id, executorId, outcome, signature, at)) ==
              if MayRecover(s, id) && CommittedTo(s, id, executorId) then
                DoRecordRecovery(s, id, outcome, signature, at).0
              else s
  {
    OneTransaction(s, RecordRecovery(id, outcome, signature, at));
  }

  lemma CallIsFresh(s: Store, call: Call)
    ensures FreshRun(s, Transactions(s, call))
  {
    if call.CallSubmit? {
      var t := SubmitIntent(call.id, call.executorId, call.at);
      OneTransaction(s, t);
      TwoTransactions(s, t, Persist(call.id, call.technical, call.at));
    } else if |Transactions(s, call)| == 1 {
      OneTransaction(s, Transactions(s, call)[0]);
    }
  }

  /** Running each public method to its end before the next begins yields a fresh run. */
  lemma {:induction false} WholeRunIsFresh(s: Store, calls: seq<Call>)
    ensures FreshlyReaches(s, WholeRun(s, calls))
    decreases |calls|
  {
    if |calls| == 0 {
      ReachesSelf(s);
    } else {
      var s' := Whole(s, calls[0]);
      WholeRunIsFresh(s', calls[1..]);
      CallIsFresh(s, calls[0]);
      ReachesAfter(s, Transactions(s, calls[0]), s', WholeRun(s', calls[1..]));
    }
  }

  /**
   * With public methods atomic and S nondecreasing across registrations, settled plus reserved stays within the
   * activated total of the latest registered snapshot.
   */
  lemma WholeRunsStayWithinActivated(calls: seq<Call>, scope: Scope)
    requires SettledNondecreasing(WholeRun(EMPTY, calls).rows, scope)
    ensures Within(WholeRun(EMPTY, calls), scope)
  {
    WholeRunIsFresh(EMPTY, calls);
    var s := WholeRun(EMPTY, calls);
    var txns :| FreshRun(EMPTY, txns) && s == Run(EMPTY, txns);
    SettlementsStayWithinActivated(EMPTY, txns, scope);
  }
}
