/** What a submission and a recovery persist, in terms of what the executor answered and whether it was heard. */
module SubmissionAnswers {
  import opened Tables
  import opened Channels
  import opened SettlementStore
  import opened SettlementTheorems
  import opened SettlementAnswers
  import opened Executor
  import opened ExecutorAnswers
  import opened SettlementExecution

  // ----- submit

  /** The receipt is for the committed execution and is signed. */
  predicate Acknowledges(receipt: ExecutionReceipt, row: Row)
  {
    && row.commitment.Some? && receipt.executionRequestId == row.request.executionRequestId
    && receipt.commitment == row.commitment.value.commitment
    && receipt.messageHash == row.commitment.value.messageHash && receipt.signature != Foreign("")
  }

  /**
   * Definitively rejected, the submission is over.  Unheard or refused in any other way, it needs recovery and no
   * signature is kept.  Heard, it is reconciled under the receipt's signature if the receipt acknowledges the
   * commitment, and reviewed if it does not.
   */
  predicate SubmittedAs(row: Row, next: Row, answer: Result<ExecutionReceipt, ExecutorError>, responseLost: bool,
                        at: int)
  {
    var heard, rejected := answer.Ok? && !responseLost, answer == Err(DefinitivelyRejected) && !responseLost;
    && next == row.(state := next.state, signature := next.signature, updatedAt := at)
    && (next.state.Rejected? <==> rejected)
    && (next.state.InRecovery? <==> !heard && !rejected)
    && (next.state.Reconciling? <==> heard && Acknowledges(answer.value, row))
    && (next.state.InReview? <==> heard && !Acknowledges(answer.value, row))
    && next.signature == if next.state.Reconciling? then Some(answer.value.signature) else None
  }

  /** The whole of submit, once its intent is accepted. */
  lemma SubmitsExactly(s: Store, i: nat, id: string, executorId: string, at: int,
                       answer: Result<ExecutionReceipt, ExecutorError>, responseLost: bool, s': Store, reply: Reply)
    requires i < |s.rows| && Find(s, id) == i && DoSubmitIntent(s, id, executorId, at).1.Done?
    requires var (s1, intent) := DoSubmitIntent(s, id, executorId, at);
             (s', reply) == DoPersist(s1, id, TechnicalFrom(intent.row, answer, responseLost), at)
    ensures |s'.rows| == |s.rows| && s'.rows == s.rows[i := s'.rows[i]] && s'.intents == s.intents + {id}
    ensures SubmittedAs(s.rows[i], s'.rows[i], answer, responseLost, at) && reply == Done(s'.rows[i])
  {
    var (s1, intent) := DoSubmitIntent(s, id, executorId, at);
    assert s1.rows == s.rows[i := intent.row] && intent.row == s.rows[i].(state := Submitted, updatedAt := at);
    SameIds(s, s1, id, i);
    PersistsAs(s1, i, id, answer, responseLost, at, s', reply);
  }

  lemma SameIds(s: Store, s': Store, id: string, i: nat)
    requires i < |s.rows| && |s'.rows| == |s.rows| && Find(s, id) == i
    requires forall k :: 0 <= k < |s.rows| ==> s'.rows[k].settlementId == s.rows[k].settlementId
    ensures Find(s', id) == i
  {
    assert forall k :: 0 <= k < i ==> !HasId(id)(s.rows[k]);
    assert forall k :: 0 <= k < i ==> !HasId(id)(s'.rows[k]);
    assert HasId(id)(s'.rows[i]);
  }

  lemma PersistsAs(s: Store, i: nat, id: string, answer: Result<ExecutionReceipt, ExecutorError>, responseLost: bool,
                   at: int, s': Store, reply: Reply)
    requires i < |s.rows| && Find(s, id) == i && s.rows[i].state.Submitted?
    requires (s', reply) == DoPersist(s, id, TechnicalFrom(s.rows[i], answer, responseLost), at)
    ensures |s'.rows| == |s.rows| && s'.rows == s.rows[i := s'.rows[i]] && s'.intents == s.intents
    ensures SubmittedAs(s.rows[i], s'.rows[i], answer, responseLost, at) && reply == Done(s'.rows[i])
  {
    var t := Persist(id, TechnicalFrom(s.rows[i], answer, responseLost), at);
    PersistAnswers(s, t, i, reply.row, s', reply);
  }

  /**
   * With a fresh authorization that the executor can apply, and its response heard, the settlement goes straight to
   * reconciling under the signature the ledger now holds.
   */
  lemma HeardIsReconciling(x: Ledger, row: Row, a: Authorization, now: int, next: Row, at: int)
    requires Sound(x) && row.commitment.Some? && Binds(row.commitment.value, row.request)
    requires row.authorization == Some(a) && Authorizes(a, row.commitment.value) && Executable(x, a, now)
    requires SubmittedAs(row, next, DoExecute(x, a, now).1, false, at)
    ensures next.state.Reconciling? && next.signature.Some?
    ensures Signed(DoExecute(x, a, now).0, row.request, next.signature.value)
  {
    ExecutesExactly(x, a, now, DoExecute(x, a, now).0, DoExecute(x, a, now).1);
  }

  // ----- in the interleaved world

  /** Does the step act for this thread? */
  predicate ActsFor(step: Step, k: nat)
  {
    match step
    case Table(_) => false
    case PrepareExecution(_, _) => false
    case _ => step.k == k
  }

  lemma OthersLeaveThread(w: World, step: Step, k: nat)
    requires k in w.threads && !ActsFor(step, k)
    ensures k in Next(w, step).threads && Next(w, step).threads[k] == w.threads[k]
  {
  }

  lemma {:induction false} OthersKeepWaiting(w: World, steps: seq<Step>, k: nat)
    requires k in w.threads && forall i :: 0 <= i < |steps| ==> !ActsFor(steps[i], k)
    ensures k in Interleave(w, steps).threads && Interleave(w, steps).threads[k] == w.threads[k]
    decreases |steps|
  {
    if |steps| > 0 {
      OthersLeaveThread(w, steps[0], k);
      OthersKeepWaiting(Next(w, steps[0]), steps[1..], k);
    }
  }

  /** After a call whose response was lost the thread knows nothing, whatever the executor did. */
  lemma LostCallKnowsNothing(w: World, k: nat, at: int)
    requires Safe(w) && k in w.threads && w.threads[k].Calling?
    ensures var w' := Next(w, CallExecutor(k, at, true));
            && Safe(w') && k in w'.threads
            && w'.threads[k] == Persisting(w.threads[k].id, Technical(ExecutorUnknown, None))
  {
    NextKeepsSafe(w, CallExecutor(k, at, true));
  }

  lemma PersistStep(w: World, k: nat, at: int)
    ensures Next(w, PersistAnswer(k, at)) == WriteAnswer(w, k, at)
  {
  }

  /** And whatever runs in between, what it then writes is needs_recovery, with no signature. */
  lemma LostResponseNeedsRecovery(w: World, k: nat, at: int, called: World, steps: seq<Step>, waiting: World,
                                  later: int, s': Store)
    requires Safe(w) && k in w.threads && w.threads[k].Calling?
    requires called == Next(w, CallExecutor(k, at, true))
    requires waiting == Interleave(called, steps) && forall i :: 0 <= i < |steps| ==> !ActsFor(steps[i], k)
    requires s' == Next(waiting, PersistAnswer(k, later)).store
    ensures var i := Find(s', w.threads[k].id);
            i < |s'.rows| && s'.rows[i].state.InRecovery? && s'.rows[i].signature.None?
  {
    LostCallKnowsNothing(w, k, at);
    OthersKeepWaiting(called, steps, k);
    RunKeepsSafe(called, steps);
    PersistStep(waiting, k, later);
    UnknownIsWritten(waiting, k, w.threads[k].id, later, s');
  }

  lemma UnknownIsWritten(w: World, k: nat, id: string, at: int, s': Store)
    requires Distinct(w.store.rows) && ThreadsOk(w.store, w.ledger, w.calls, w.threads)
    requires k in w.threads && w.threads[k] == Persisting(id, Technical(ExecutorUnknown, None))
    requires s' == WriteAnswer(w, k, at).store
    ensures var i := Find(s', id); i < |s'.rows| && s'.rows[i].state.InRecovery? && s'.rows[i].signature.None?
  {
    var i := Find(w.store, id);
    ThreadOf(w.store, w.ledger, w.calls, w.threads, k, i);
    UnknownPersists(w.store, i, id, at, s');
  }

  lemma UnknownPersists(s: Store, i: nat, id: string, at: int, s': Store)
    requires i < |s.rows| && Find(s, id) == i && s.rows[i].state.Submitted?
    requires s' == DoPersist(s, id, Technical(ExecutorUnknown, None), at).0
    ensures Find(s', id) == i < |s'.rows| && s'.rows[i].state.InRecovery? && s'.rows[i].signature.None?
  {
    SameIds(s, s', id, i);
  }

  /** A dying thread takes what it knew with it, and nothing that was written or applied. */
  lemma DeathLosesTheThread(w: World, k: nat)
    ensures var w' := Next(w, Die(k));
            && k !in w'.threads
            && (forall l :: l in w.threads && l != k ==> l in w'.threads && w'.threads[l] == w.threads[l])
            && w'.store == w.store && w'.ledger == w.ledger && w'.calls == w.calls
  {
  }

  // ----- recover

  /** The executor's answer does not contradict itself. */
  predicate Consistent(a: RecoveryAnswer)
  {
    if a.outcome.RecoveryConfirmed? then !a.mayRematerialize && a.signature.Some? && a.signature != Some(Foreign(""))
    else a.signature.None? && (a.mayRematerialize <==> a.outcome.RecoveryFailedBeforeBroadcast?)
  }

  /** What is recorded of any executor's answer. */
  lemma RecordsExactly(id: string, answer: Result<RecoveryAnswer, ExecutorError>, unreachable: bool, th: Thread)
    requires th == RecordingFrom(id, answer, unreachable)
    ensures var heard := answer.Ok? && !unreachable;
            && th.Recording? && th.id == id
            && (th.outcome.RecoveryInvalid? <==> heard && !Consistent(answer.value))
            && (th.outcome.RecoveryConfirmed? <==>
                  heard && Consistent(answer.value) && answer.value.outcome.RecoveryConfirmed?)
            && (th.outcome.RecoveryFailedBeforeBroadcast? <==>
                  heard && Consistent(answer.value) && answer.value.outcome.RecoveryFailedBeforeBroadcast?)
            && !th.outcome.ProviderDivergence?
            && th.signature == if th.outcome.RecoveryConfirmed? then answer.value.signature else None
  {
  }

  /** Asked of this executor: confirmed with its signature, failed before broadcast, or unknown; never invalid. */
  lemma AsksExactly(x: Ledger, id: string, req: string, unreachable: bool)
    requires Sound(x)
    ensures RecordingFrom(id, DoRecover(x, req), unreachable) ==
              if unreachable || req !in x.executions then Recording(id, RecoveryUnknown, None)
              else if Executed(x, req) then Recording(id, RecoveryConfirmed, x.executions[req].signature)
              else Recording(id, RecoveryFailedBeforeBroadcast, None)
  {
    RecoversExactly(x, req);
    if req in x.executions {
      assert ExecutionSound(x.effects, req, x.executions[req]);
    }
  }

  /** A submission starts exactly when its intent is accepted, and holds the authorization that was recorded. */
  lemma SubmissionStartsExactly(w: World, k: nat, id: string, at: int, w': World)
    requires k !in w.threads && Find(w.store, id) < |w.store.rows| && w' == BeginSubmit(w, k, id, at)
    ensures var row := w.store.rows[Find(w.store, id)];
            && (k in w'.threads <==>
                  exists next :: Does(SubmitIntent(id, w.ledger.executorId, at), row, next, id in w.store.intents))
            && (k in w'.threads ==> row.authorization.Some? && w'.threads[k] == Calling(id, row.authorization.value))
            && (k !in w'.threads ==> w' == w)
  {
    var i, t := Find(w.store, id), SubmitIntent(id, w.ledger.executorId, at);
    var next := w.store.rows[i].(state := Submitted, updatedAt := at);
    var (s', reply) := DoSubmitIntent(w.store, id, w.ledger.executorId, at);
    SubmitIntentAnswers(w.store, t, i, next, s', reply);
  }

  /** A recovery starts exactly for a recoverable settlement committed to this executor, and asks for its request. */
  lemma RecoveryStartsExactly(w: World, k: nat, id: string)
    requires k !in w.threads && Find(w.store, id) < |w.store.rows|
    ensures var row, w' := w.store.rows[Find(w.store, id)], Next(w, StartRecover(k, id));
            && (k in w'.threads <==>
                  && row.state in {InRecovery, Reconciling, InReview, InDispute} && row.commitment.Some?
                  && row.commitment.value.executorId == w.ledger.executorId)
            && (k in w'.threads ==> w'.threads[k] == Asking(id, row.request.executionRequestId))
  {
  }

  /** A thread that records a divergence starts exactly for a recoverable settlement and two providers. */
  lemma DivergesExactly(w: World, k: nat, id: string, providers: set<string>)
    requires k !in w.threads && Find(w.store, id) < |w.store.rows|
    ensures var row, w' := w.store.rows[Find(w.store, id)], Next(w, StartDivergence(k, id, providers));
            && (k in w'.threads <==>
                  row.state in {InRecovery, Reconciling, InReview, InDispute} && |providers| >= 2)
            && (k in w'.threads ==> w'.threads[k] == Recording(id, ProviderDivergence, None))
  {
  }
}
