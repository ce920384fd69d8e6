/**
 * The settlement runtime driving the executor, at the granularity of single transactions.
 *
 * A running `submit` or `recover` is a thread that holds what it has learned between its transactions.
 * Any thread may be overtaken by any other, may lose the executor's response, or may die.
 */
module SettlementExecution {
  import opened Tables
  import opened Journals
  import opened Channels
  import opened SettlementStore
  import opened SettlementTheorems
  import opened Executor

  datatype Thread =
    | Calling(id: string, authorization: Authorization)          // intent committed, executor not called yet
    | Persisting(id: string, technical: Technical)               // executor answered, answer not written yet
    | Asking(id: string, executionRequestId: string)             // recovery allowed, executor not asked yet
    | Recording(id: string, outcome: RecoveryOutcome, signature: Option<Signature>)  // answer not written yet

  /** `calls` lists the settlements for which authorize_and_execute was called, in order. */
  datatype World = World(store: Store, ledger: Ledger, threads: map<nat, Thread>, calls: seq<string>)

  datatype Step =
    | Table(txn: Txn)
    | Submit(k: nat, id: string, at: int)
    | CallExecutor(k: nat, at: int, responseLost: bool)
    | PersistAnswer(k: nat, at: int)
    | StartRecover(k: nat, id: string)
    | AskExecutor(k: nat, unreachable: bool)
    | StartDivergence(k: nat, id: string, providers: set<string>)
    | WriteRecovery(k: nat, at: int)
    | PrepareExecution(input: PrepareInput, at: int)
    | Die(k: nat)

  predicate SingleTransaction(t: Txn) { t.Register? || t.Commit? || t.Authorize? || t.Reconcile? }

  /** `_validate_executor_receipt` followed by the choice of what to persist. */
  function TechnicalFrom(row: Row, answer: Result<ExecutionReceipt, ExecutorError>, responseLost: bool): Technical
  {
    if answer == Err(DefinitivelyRejected) && !responseLost then Technical(ExecutorRejected, None)
    else if answer.Err? || responseLost then Technical(ExecutorUnknown, None)
    else if row.commitment.Some? && answer.value.executionRequestId == row.request.executionRequestId
            && answer.value.commitment == row.commitment.value.commitment
            && answer.value.messageHash == row.commitment.value.messageHash && !answer.value.signature.Empty() then
      Technical(ExecutorAccepted, Some(answer.value.signature))
    else Technical(ReceiptInvalid, None)
  }

  /** `_normalize_recovery_result` followed by the choice of what to record. */
  function RecordingFrom(id: string, answer: Result<RecoveryAnswer, ExecutorError>, unreachable: bool): Thread
  {
    if unreachable || answer.Err? then Recording(id, RecoveryUnknown, None)
    else
      var a := answer.value;
      if a.outcome.RecoveryConfirmed? then
        if a.mayRematerialize || a.signature.None? || a.signature.value.Empty() then
          Recording(id, RecoveryInvalid, None)
        else Recording(id, RecoveryConfirmed, a.signature)
      else if a.signature.Some? || a.mayRematerialize != a.outcome.RecoveryFailedBeforeBroadcast? then
        Recording(id, RecoveryInvalid, None)
      else
        var nothing := a.outcome.RecoveryFailedBeforeBroadcast?;
        Recording(id, if nothing then RecoveryFailedBeforeBroadcast else RecoveryUnknown, None)
  }

  /** May a recovery of this settlement begin now? */
  predicate MayRecover(w: World, id: string)
  {
    var i := Find(w.store, id);
    i < |w.store.rows| && w.store.rows[i].state.Recoverable()
  }

  function BeginSubmit(w: World, k: nat, id: string, at: int): World
  {
    var (store, reply) := DoSubmitIntent(w.store, id, w.ledger.executorId, at);
    if k in w.threads || reply.Refused? || reply.row.authorization.None? then w
    else w.(store := store, threads := w.threads[k := Calling(id, reply.row.authorization.value)])
  }

  function Call(w: World, k: nat, at: int, responseLost: bool): World
  {
    if k !in w.threads || !w.threads[k].Calling? then w
    else
      var thread, i := w.threads[k], Find(w.store, w.threads[k].id);
      if i == |w.store.rows| then w
      else
        var (ledger, answer) := DoExecute(w.ledger, thread.authorization, at);
        var technical := TechnicalFrom(w.store.rows[i], answer, responseLost);
        w.(ledger := ledger, threads := w.threads[k := Persisting(thread.id, technical)],
          calls := w.calls + [thread.id])
  }

  function WriteAnswer(w: World, k: nat, at: int): World
  {
    if k !in w.threads || !w.threads[k].Persisting? then w
    else w.(store := DoPersist(w.store, w.threads[k].id, w.threads[k].technical, at).0, threads := w.threads - {k})
  }

  function BeginRecover(w: World, k: nat, id: string): World
  {
    if k in w.threads || !MayRecover(w, id) then w
    else
      var row := w.store.rows[Find(w.store, id)];
      if row.commitment.None? || row.commitment.value.executorId != w.ledger.executorId then w
      else w.(threads := w.threads[k := Asking(id, row.request.executionRequestId)])
  }

  function Ask(w: World, k: nat, unreachable: bool): World
  {
    if k !in w.threads || !w.threads[k].Asking? then w
    else
      var answer := DoRecover(w.ledger, w.threads[k].executionRequestId);
      w.(threads := w.threads[k := RecordingFrom(w.threads[k].id, answer, unreachable)])
  }

  function BeginDivergence(w: World, k: nat, id: string, providers: set<string>): World
  {
    if k in w.threads || !MayRecover(w, id) || |providers| < 2 then w
    else w.(threads := w.threads[k := Recording(id, ProviderDivergence, None)])
  }

  function WriteRecord(w: World, k: nat, at: int): World
  {
    if k !in w.threads || !w.threads[k].Recording? then w
    else
      var th := w.threads[k];
      w.(store := DoRecordRecovery(w.store, th.id, th.outcome, th.signature, at).0, threads := w.threads - {k})
  }

  /** A step whose guard fails leaves the world as it is. */
  function Next(w: World, step: Step): World
  {
    match step
    case Table(t) => if SingleTransaction(t) then w.(store := Apply(w.store, t).0) else w
    case Submit(k, id, at) => BeginSubmit(w, k, id, at)
    case CallExecutor(k, at, responseLost) => Call(w, k, at, responseLost)
    case PersistAnswer(k, at) => WriteAnswer(w, k, at)
    case StartRecover(k, id) => BeginRecover(w, k, id)
    case AskExecutor(k, unreachable) => Ask(w, k, unreachable)
    case StartDivergence(k, id, providers) => BeginDivergence(w, k, id, providers)
    case WriteRecovery(k, at) => WriteRecord(w, k, at)
    case PrepareExecution(input, at) => w.(ledger := DoPrepare(w.ledger, input, at).0)
    case Die(k) => w.(threads := w.threads - {k})
  }

  function Interleave(w: World, steps: seq<Step>): World
    decreases |steps|
  {
    if |steps| == 0 then w else Interleave(Next(w, steps[0]), steps[1..])
  }

  function Start(executorId: string): World { World(EMPTY, Ledger(executorId, map[], map[], map[]), map[], []) }

  // ----- the invariant

  /** The executor's stored signature for this settlement's execution request. */
  predicate Signed(x: Ledger, q: SettlementRequest, signature: Signature)
  {
    Executed(x, q.executionRequestId) && x.executions[q.executionRequestId].signature == Some(signature)
  }

  /** How a settlement stands to the executor's ledger. */
  predicate Linked(row: Row, x: Ledger, called: bool)
  {
    && (called ==> !row.state.BeforeSubmission())
    && (!called ==> row.state.BeforeSubmission() || row.state.Submitted?)
    && (row.signature.Some? ==> Signed(x, row.request, row.signature.value))
    && (row.state.FailedBeforeSubmission? ==> !Executed(x, row.request.executionRequestId))
    && (row.state.Reconciling? || row.state.Completed? ==> row.signature.Some?)
    && !row.state.Rejected?
  }

  /** What a thread knows about the settlement it works for. */
  predicate ThreadOk(row: Row, x: Ledger, called: bool, th: Thread)
  {
    match th
    case Calling(_, a) => row.state.Submitted? && !called && row.authorization == Some(a)
    case Persisting(_, t) =>
      && row.state.Submitted? && called && !t.outcome.ExecutorRejected?
      && (t.signature.Some? ==> Signed(x, row.request, t.signature.value))
      && (t.outcome.ExecutorAccepted? ==> t.signature.Some?)
    case Asking(_, req) => called && !row.state.Submitted? && req == row.request.executionRequestId
    case Recording(_, outcome, signature) =>
      && called && !row.state.Submitted?
      && (signature.Some? ==> Signed(x, row.request, signature.value))
      && (outcome.RecoveryConfirmed? ==> signature.Some?)
      && (outcome.RecoveryFailedBeforeBroadcast? ==> !Executed(x, row.request.executionRequestId))
  }

  ghost predicate RowsLinked(s: Store, x: Ledger, calls: seq<string>)
  {
    forall i :: 0 <= i < |s.rows| ==> Linked(s.rows[i], x, s.rows[i].settlementId in calls)
  }

  ghost predicate ThreadsOk(s: Store, x: Ledger, calls: seq<string>, threads: map<nat, Thread>)
  {
    && (forall k :: k in threads ==>
          Find(s, threads[k].id) < |s.rows|
            && ThreadOk(s.rows[Find(s, threads[k].id)], x, threads[k].id in calls, threads[k]))
    && (forall k, l :: k in threads && l in threads && k != l && InFlight(threads[k]) && InFlight(threads[l]) ==>
          threads[k].id != threads[l].id)
  }

  predicate InFlight(th: Thread) { th.Calling? || th.Persisting? }

  /** No settlement appears twice among the calls, and each call belongs to a registered settlement. */
  ghost predicate CalledOnce(s: Store, calls: seq<string>)
  {
    && (forall i, j :: 0 <= i < j < |calls| ==> calls[i] != calls[j])
    && (forall i :: 0 <= i < |calls| ==> Find(s, calls[i]) < |s.rows|)
  }

  /** Rows, threads and calls agree with each other and with the ledger. */
  ghost predicate Tied(s: Store, x: Ledger, calls: seq<string>, threads: map<nat, Thread>)
  {
    RowsLinked(s, x, calls) && ThreadsOk(s, x, calls, threads) && CalledOnce(s, calls)
  }

  ghost predicate Safe(w: World)
  {
    Good(w.store) && Sound(w.ledger) && Tied(w.store, w.ledger, w.calls, w.threads)
  }

  // ----- the ledger only moves forward

  /** Executed requests stay as they are; of the others at most `except` becomes executed. */
  ghost predicate Later(x: Ledger, x': Ledger, except: Option<string>)
  {
    && (forall id :: Executed(x, id) ==> Executed(x', id) && x'.executions[id] == x.executions[id])
    && (forall id :: !Executed(x, id) && Some(id) != except ==> !Executed(x', id))
  }

  lemma LinkedLater(row: Row, x: Ledger, x': Ledger, except: Option<string>, called: bool)
    requires Linked(row, x, called) && Later(x, x', except)
    requires Some(row.request.executionRequestId) == except ==> !row.state.FailedBeforeSubmission?
    ensures Linked(row, x', called)
  {
  }

  lemma ThreadLater(row: Row, x: Ledger, x': Ledger, except: Option<string>, called: bool, th: Thread)
    requires ThreadOk(row, x, called, th) && Later(x, x', except)
    requires Some(row.request.executionRequestId) == except ==> !th.Recording?
    ensures ThreadOk(row, x', called, th)
  {
  }

  // ----- frames

  lemma FindIs(s: Store, i: nat)
    requires Distinct(s.rows) && i < |s.rows|
    ensures Find(s, s.rows[i].settlementId) == i
  {
  }

  lemma FindAfterUpdate(s: Store, s': Store, i: nat, row: Row, id: string)
    requires i < |s.rows| && row.settlementId == s.rows[i].settlementId && s'.rows == s.rows[i := row]
    requires Distinct(s.rows) && Distinct(s'.rows)
    ensures Find(s', id) == Find(s, id)
  {
    var j := Find(s, id);
    if j < |s.rows| {
      assert s'.rows[j].settlementId == id;
      FindIs(s', j);
    } else {
      assert forall k :: 0 <= k < |s.rows| ==> s'.rows[k].settlementId == s.rows[k].settlementId;
    }
  }

  lemma RowsAfterUpdate(s: Store, s': Store, x: Ledger, calls: seq<string>, i: nat, row: Row)
    requires RowsLinked(s, x, calls) && i < |s.rows| && s'.rows == s.rows[i := row]
    requires row.settlementId == s.rows[i].settlementId && Linked(row, x, row.settlementId in calls)
    ensures RowsLinked(s', x, calls)
  {
  }

  lemma ThreadsAfterUpdate(s: Store, s': Store, x: Ledger, calls: seq<string>, threads: map<nat, Thread>, i: nat,
                           row: Row)
    requires ThreadsOk(s, x, calls, threads) && Distinct(s.rows) && Distinct(s'.rows)
    requires i < |s.rows| && row.settlementId == s.rows[i].settlementId && s'.rows == s.rows[i := row]
    requires forall k :: k in threads && threads[k].id == row.settlementId ==>
               ThreadOk(row, x, row.settlementId in calls, threads[k])
    ensures ThreadsOk(s', x, calls, threads)
  {
    forall k | k in threads
      ensures Find(s', threads[k].id) < |s'.rows|
      ensures ThreadOk(s'.rows[Find(s', threads[k].id)], x, threads[k].id in calls, threads[k])
    {
      FindAfterUpdate(s, s', i, row, threads[k].id);
    }
  }

  lemma CallsAfterUpdate(s: Store, s': Store, calls: seq<string>, i: nat, row: Row)
    requires CalledOnce(s, calls) && Distinct(s.rows) && Distinct(s'.rows)
    requires i < |s.rows| && row.settlementId == s.rows[i].settlementId && s'.rows == s.rows[i := row]
    ensures CalledOnce(s', calls)
  {
    forall j | 0 <= j < |calls| ensures Find(s', calls[j]) < |s'.rows| {
      FindAfterUpdate(s, s', i, row, calls[j]);
    }
  }

  /** Rewriting one row, together with what its own threads may now rely on, keeps everything tied. */
  lemma TiedAfterUpdate(s: Store, s': Store, x: Ledger, calls: seq<string>, threads: map<nat, Thread>, i: nat, row: Row)
    requires Tied(s, x, calls, threads) && Distinct(s.rows) && Distinct(s'.rows)
    requires i < |s.rows| && s'.rows == s.rows[i := row] && row.settlementId == s.rows[i].settlementId
    requires Linked(row, x, row.settlementId in calls)
    requires forall k :: k in threads && threads[k].id == row.settlementId ==>
               ThreadOk(row, x, row.settlementId in calls, threads[k])
    ensures Tied(s', x, calls, threads)
  {
    RowsAfterUpdate(s, s', x, calls, i, row);
    ThreadsAfterUpdate(s, s', x, calls, threads, i, row);
    CallsAfterUpdate(s, s', calls, i, row);
  }

  lemma ThreadOf(s: Store, x: Ledger, calls: seq<string>, threads: map<nat, Thread>, k: nat, i: nat)
    requires ThreadsOk(s, x, calls, threads) && Distinct(s.rows)
    requires k in threads && i < |s.rows| && threads[k].id == s.rows[i].settlementId
    ensures ThreadOk(s.rows[i], x, threads[k].id in calls, threads[k])
  {
  }

  lemma FewerThreads(s: Store, x: Ledger, calls: seq<string>, threads: map<nat, Thread>, k: nat)
    requires Tied(s, x, calls, threads)
    ensures Tied(s, x, calls, threads - {k})
  {
  }

  /** A thread may be added for a settlement, or advanced, when it knows what its new kind must know. */
  lemma TiedAfterThread(s: Store, x: Ledger, calls: seq<string>, threads: map<nat, Thread>, k: nat, th: Thread)
    requires Tied(s, x, calls, threads) && Find(s, th.id) < |s.rows|
    requires ThreadOk(s.rows[Find(s, th.id)], x, th.id in calls, th)
    requires InFlight(th) ==> forall l :: l in threads && l != k && InFlight(threads[l]) ==> threads[l].id != th.id
    ensures Tied(s, x, calls, threads[k := th])
  {
  }

  // ----- registration, commitment, authorization, reconciliation

  lemma TiedAfterInsert(s: Store, s': Store, x: Ledger, calls: seq<string>, threads: map<nat, Thread>, row: Row)
    requires Tied(s, x, calls, threads) && Distinct(s'.rows) && s'.rows == s.rows + [row]
    requires row.state.Validated? && row.signature.None?
    ensures Tied(s', x, calls, threads)
  {
    forall id | Find(s, id) < |s.rows| ensures Find(s', id) == Find(s, id) {
      assert s'.rows[Find(s, id)] == s.rows[Find(s, id)];
      FindIs(s', Find(s, id));
    }
    assert s'.rows[|s.rows|] == row;
    forall j | 0 <= j < |calls| ensures calls[j] != row.settlementId {
      assert s'.rows[Find(s, calls[j])].settlementId == calls[j];
    }
    forall i | 0 <= i < |s'.rows| ensures Linked(s'.rows[i], x, s'.rows[i].settlementId in calls) {
    }
  }

  lemma QuietMove(row: Row, next: Row, t: Txn, x: Ledger, called: bool)
    requires Moves(row, next, t) && (t.Commit? || t.Authorize? || t.Reconcile?) && Linked(row, x, called)
    ensures Linked(next, x, called)
    ensures forall th :: ThreadOk(row, x, called, th) ==> ThreadOk(next, x, called, th)
  {
  }

  lemma TiedAfterQuietMove(s: Store, s': Store, x: Ledger, calls: seq<string>, threads: map<nat, Thread>, t: Txn,
                           i: nat, row: Row)
    requires Tied(s, x, calls, threads) && Distinct(s.rows) && Distinct(s'.rows)
    requires t.Commit? || t.Authorize? || t.Reconcile?
    requires i < |s.rows| && Moves(s.rows[i], row, t) && s'.rows == s.rows[i := row]
    ensures Tied(s', x, calls, threads)
  {
    var id := s.rows[i].settlementId;
    assert Linked(s.rows[i], x, id in calls);
    QuietMove(s.rows[i], row, t, x, id in calls);
    forall k | k in threads && threads[k].id == id ensures ThreadOk(row, x, id in calls, threads[k]) {
      ThreadOf(s, x, calls, threads, k, i);
    }
    TiedAfterUpdate(s, s', x, calls, threads, i, row);
  }

  lemma TableKeepsSafe(w: World, t: Txn)
    requires Safe(w) && SingleTransaction(t)
    ensures Safe(w.(store := Apply(w.store, t).0))
  {
    var s' := Apply(w.store, t).0;
    ApplyKeepsGood(w.store, t);
    var change := ApplyChanges(w.store, t);
    match change
    case Nothing =>
    case Insert(row) => TiedAfterInsert(w.store, s', w.ledger, w.calls, w.threads, row);
    case Update(i, row) => TiedAfterQuietMove(w.store, s', w.ledger, w.calls, w.threads, t, i, row);
  }

  // ----- submission

  lemma SubmitMove(row: Row, next: Row, t: Txn, x: Ledger, called: bool, th: Thread)
    requires t.SubmitIntent? && Moves(row, next, t) && Linked(row, x, called)
    ensures Linked(next, x, called) && !called && !ThreadOk(row, x, called, th)
    ensures next.state.Submitted? && next.authorization == row.authorization
  {
  }

  lemma TiedAfterSubmit(s: Store, s': Store, x: Ledger, calls: seq<string>, threads: map<nat, Thread>, t: Txn, i: nat,
                        row: Row, k: nat)
    requires Tied(s, x, calls, threads) && Distinct(s.rows) && Distinct(s'.rows)
    requires t.SubmitIntent? && i < |s.rows| && s.rows[i].settlementId == t.id
    requires Moves(s.rows[i], row, t) && s'.rows == s.rows[i := row]
    requires row.authorization.Some? && k !in threads
    ensures Tied(s', x, calls, threads[k := Calling(t.id, row.authorization.value)])
  {
    var th := Calling(t.id, row.authorization.value);
    assert Linked(s.rows[i], x, t.id in calls);
    SubmitMove(s.rows[i], row, t, x, t.id in calls, th);
    forall l | l in threads ensures threads[l].id != t.id {
      if threads[l].id == t.id {
        ThreadOf(s, x, calls, threads, l, i);
        SubmitMove(s.rows[i], row, t, x, t.id in calls, threads[l]);
      }
    }
    TiedAfterUpdate(s, s', x, calls, threads, i, row);
    FindIs(s', i);
    TiedAfterThread(s', x, calls, threads, k, th);
  }

  lemma SubmitKeepsSafe(w: World, k: nat, id: string, at: int)
    requires Safe(w)
    ensures Safe(BeginSubmit(w, k, id, at))
  {
    var t := SubmitIntent(id, w.ledger.executorId, at);
    var (s', reply) := DoSubmitIntent(w.store, id, w.ledger.executorId, at);
    assert Apply(w.store, t) == (s', reply);
    if k !in w.threads && reply.Done? && reply.row.authorization.Some? {
      var change := SubmitIntentChanges(w.store, t);
      ApplyKeepsGood(w.store, t);
      SubmitReply(w.store, t);
      TiedAfterSubmit(w.store, s', w.ledger, w.calls, w.threads, t, change.i, change.row, k);
    }
  }

  lemma SubmitReply(s: Store, t: Txn)
    requires t.SubmitIntent? && Apply(s, t).1.Done?
    ensures Find(s, t.id) < |s.rows| && Apply(s, t).0 != s && Apply(s, t).0.rows[Find(s, t.id)] == Apply(s, t).1.row
  {
  }

  // ----- the executor call

  lemma ExecuteIsLater(x: Ledger, a: Authorization, now: int, x': Ledger)
    requires Sound(x) && x' == DoExecute(x, a, now).0
    ensures Sound(x') && Later(x, x', Some(a.executionRequestId))
    ensures DoExecute(x, a, now).1.Ok? ==>
              && Executed(x', a.executionRequestId)
              && x'.executions[a.executionRequestId].signature == Some(DoExecute(x, a, now).1.value.signature)
  {
    var r := DoExecute(x, a, now).1;
    ExecuteKeepsSound(x, a, now, x');
    if r.Ok? {
      LaterExcept(x, x', a.executionRequestId);
      ReceiptIsSigned(x', a.executionRequestId, r.value);
    }
  }

  lemma LaterExcept(x: Ledger, x': Ledger, id: string)
    requires SameExcept(x, x', id) && !Executed(x, id) && id in x.executions && x'.executions.Keys == x.executions.Keys
    ensures Later(x, x', Some(id))
  {
  }

  lemma ReceiptIsSigned(x: Ledger, id: string, receipt: ExecutionReceipt)
    requires Sound(x) && Executed(x, id) && x.executions[id].receipt == Some(receipt)
    ensures x.executions[id].signature == Some(receipt.signature)
  {
    assert ExecutionSound(x.effects, id, x.executions[id]);
  }

  lemma PersistingKnows(row: Row, x: Ledger, a: Authorization, now: int, responseLost: bool)
    requires Sound(x) && a.executionRequestId == row.request.executionRequestId && row.state.Submitted?
    ensures var (x', answer) := DoExecute(x, a, now);
            ThreadOk(row, x', true, Persisting(row.settlementId, TechnicalFrom(row, answer, responseLost)))
  {
  }

  lemma RowsAfterCall(s: Store, x: Ledger, x': Ledger, calls: seq<string>, i: nat)
    requires RowsLinked(s, x, calls) && Distinct(s.rows) && i < |s.rows|
    requires s.rows[i].state.Submitted? && s.rows[i].signature.None?
    requires Later(x, x', Some(s.rows[i].request.executionRequestId))
    ensures RowsLinked(s, x', calls + [s.rows[i].settlementId])
  {
  }

  lemma OtherThreadsAfterCall(s: Store, x: Ledger, x': Ledger, calls: seq<string>, i: nat, j: nat, th: Thread)
    requires Distinct(s.rows) && i < |s.rows| && j < |s.rows| && i != j && th.id == s.rows[j].settlementId
    requires ThreadOk(s.rows[j], x, th.id in calls, th) && Later(x, x', Some(s.rows[i].request.executionRequestId))
    ensures ThreadOk(s.rows[j], x', th.id in calls + [s.rows[i].settlementId], th)
  {
  }

  lemma ThreadsAfterCall(s: Store, x: Ledger, x': Ledger, calls: seq<string>, threads: map<nat, Thread>, k: nat,
                         i: nat, th: Thread)
    requires ThreadsOk(s, x, calls, threads) && Distinct(s.rows) && i < |s.rows|
    requires k in threads && threads[k].Calling? && threads[k].id == s.rows[i].settlementId == th.id && th.Persisting?
    requires Later(x, x', Some(s.rows[i].request.executionRequestId)) && ThreadOk(s.rows[i], x', true, th)
    ensures ThreadsOk(s, x', calls + [th.id], threads[k := th])
  {
    FindIs(s, i);
    forall l | l in threads && l != k
      ensures Find(s, threads[l].id) < |s.rows|
      ensures ThreadOk(s.rows[Find(s, threads[l].id)], x', threads[l].id in calls + [th.id], threads[l])
    {
      var j := Find(s, threads[l].id);
      assert ThreadOk(s.rows[j], x, threads[l].id in calls, threads[l]);
      OtherThreadsAfterCall(s, x, x', calls, i, j, threads[l]);
    }
  }

  lemma TiedAfterCall(s: Store, x: Ledger, x': Ledger, calls: seq<string>, threads: map<nat, Thread>, k: nat, i: nat,
                      th: Thread)
    requires Tied(s, x, calls, threads) && Distinct(s.rows) && i < |s.rows|
    requires k in threads && threads[k].Calling? && threads[k].id == s.rows[i].settlementId == th.id && th.Persisting?
    requires s.rows[i].signature.None? && Later(x, x', Some(s.rows[i].request.executionRequestId))
    requires ThreadOk(s.rows[i], x', true, th)
    ensures Tied(s, x', calls + [th.id], threads[k := th])
  {
    ThreadOf(s, x, calls, threads, k, i);
    FindIs(s, i);
    RowsAfterCall(s, x, x', calls, i);
    ThreadsAfterCall(s, x, x', calls, threads, k, i, th);
  }

  lemma CallKeepsSafe(w: World, k: nat, at: int, responseLost: bool)
    requires Safe(w)
    ensures Safe(Call(w, k, at, responseLost))
  {
    if k in w.threads && w.threads[k].Calling? {
      var i, a := Find(w.store, w.threads[k].id), w.threads[k].authorization;
      var row := w.store.rows[i];
      ThreadOf(w.store, w.ledger, w.calls, w.threads, k, i);
      assert RowSound(row, row.settlementId in w.store.intents);
      var (x', answer) := DoExecute(w.ledger, a, at);
      ExecuteIsLater(w.ledger, a, at, x');
      PersistingKnows(row, w.ledger, a, at, responseLost);
      TiedAfterCall(w.store, w.ledger, x', w.calls, w.threads, k, i,
        Persisting(row.settlementId, TechnicalFrom(row, answer, responseLost)));
    }
  }

  lemma TiedAfterPersist(s: Store, s': Store, x: Ledger, calls: seq<string>, threads: map<nat, Thread>, t: Txn, k: nat,
                         i: nat, row: Row)
    requires Tied(s, x, calls, threads) && Distinct(s.rows) && Distinct(s'.rows)
    requires k in threads && threads[k].Persisting? && t.Persist? && t.id == threads[k].id
    requires t.technical == threads[k].technical
    requires i < |s.rows| && s.rows[i].settlementId == t.id && Moves(s.rows[i], row, t) && s'.rows == s.rows[i := row]
    ensures Tied(s', x, calls, threads - {k})
  {
    ThreadOf(s, x, calls, threads, k, i);
    assert Linked(s.rows[i], x, t.id in calls);
    var rest := threads - {k};
    forall l | l in rest ensures rest[l].id != t.id {
      if rest[l].id == t.id {
        ThreadOf(s, x, calls, threads, l, i);
      }
    }
    FewerThreads(s, x, calls, threads, k);
    TiedAfterUpdate(s, s', x, calls, rest, i, row);
  }

  lemma PersistKeepsSafe(w: World, k: nat, at: int)
    requires Safe(w)
    ensures Safe(WriteAnswer(w, k, at))
  {
    if k in w.threads && w.threads[k].Persisting? {
      var t := Persist(w.threads[k].id, w.threads[k].technical, at);
      var s' := DoPersist(w.store, t.id, t.technical, at).0;
      assert s' == Apply(w.store, t).0;
      var change := PersistChanges(w.store, t);
      ApplyKeepsGood(w.store, t);
      if change.Update? {
        TiedAfterPersist(w.store, s', w.ledger, w.calls, w.threads, t, k, change.i, change.row);
      } else {
        FewerThreads(w.store, w.ledger, w.calls, w.threads, k);
      }
    }
  }

  // ----- recovery

  lemma RecoverKeepsSafe(w: World, k: nat, id: string)
    requires Safe(w)
    ensures Safe(BeginRecover(w, k, id))
  {
    if BeginRecover(w, k, id) != w {
      var i := Find(w.store, id);
      assert Linked(w.store.rows[i], w.ledger, id in w.calls);
      TiedAfterThread(w.store, w.ledger, w.calls, w.threads, k, Asking(id, w.store.rows[i].request.executionRequestId));
    }
  }

  lemma DivergenceKeepsSafe(w: World, k: nat, id: string, providers: set<string>)
    requires Safe(w)
    ensures Safe(BeginDivergence(w, k, id, providers))
  {
    if BeginDivergence(w, k, id, providers) != w {
      var i := Find(w.store, id);
      assert Linked(w.store.rows[i], w.ledger, id in w.calls);
      TiedAfterThread(w.store, w.ledger, w.calls, w.threads, k, Recording(id, ProviderDivergence, None));
    }
  }

  /** The executor's answer, normalized, is true of its ledger. */
  lemma RecordingKnows(row: Row, x: Ledger, unreachable: bool) returns (th: Thread)
    requires Sound(x) && !row.state.Submitted?
    ensures th == RecordingFrom(row.settlementId, DoRecover(x, row.request.executionRequestId), unreachable)
    ensures th.Recording? && th.id == row.settlementId && ThreadOk(row, x, true, th)
  {
    var id := row.request.executionRequestId;
    th := RecordingFrom(row.settlementId, DoRecover(x, id), unreachable);
    if id in x.executions {
      assert ExecutionSound(x.effects, id, x.executions[id]);
    }
  }

  lemma AskKeepsSafe(w: World, k: nat, unreachable: bool)
    requires Safe(w)
    ensures Safe(Ask(w, k, unreachable))
  {
    if k in w.threads && w.threads[k].Asking? {
      var i := Find(w.store, w.threads[k].id);
      var row := w.store.rows[i];
      assert ThreadOk(row, w.ledger, w.threads[k].id in w.calls, w.threads[k]);
      var th := RecordingKnows(row, w.ledger, unreachable);
      TiedAfterThread(w.store, w.ledger, w.calls, w.threads, k, th);
      assert Ask(w, k, unreachable) == w.(threads := w.threads[k := th]);
    }
  }

  /** Even written late, a recovery leaves the settlement in step with the ledger. */
  lemma RecoveryMove(row: Row, next: Row, t: Txn, x: Ledger, called: bool, th: Thread)
    requires t.RecordRecovery? && Moves(row, next, t) && Linked(row, x, called)
    requires th.Recording? && th.outcome == t.outcome && th.signature == t.signature && ThreadOk(row, x, called, th)
    ensures Linked(next, x, called)
    ensures forall other :: ThreadOk(row, x, called, other) ==> ThreadOk(next, x, called, other)
  {
  }

  lemma TiedAfterRecovery(s: Store, s': Store, x: Ledger, calls: seq<string>, threads: map<nat, Thread>, t: Txn,
                          k: nat, i: nat, row: Row)
    requires Tied(s, x, calls, threads) && Distinct(s.rows) && Distinct(s'.rows)
    requires k in threads && threads[k].Recording? && t.RecordRecovery?
    requires t.id == threads[k].id && t.outcome == threads[k].outcome && t.signature == threads[k].signature
    requires i < |s.rows| && s.rows[i].settlementId == t.id && Moves(s.rows[i], row, t) && s'.rows == s.rows[i := row]
    ensures Tied(s', x, calls, threads - {k})
  {
    ThreadOf(s, x, calls, threads, k, i);
    assert Linked(s.rows[i], x, t.id in calls);
    RecoveryMove(s.rows[i], row, t, x, t.id in calls, threads[k]);
    var rest := threads - {k};
    forall l | l in rest && rest[l].id == t.id ensures ThreadOk(row, x, t.id in calls, rest[l]) {
      ThreadOf(s, x, calls, threads, l, i);
    }
    FewerThreads(s, x, calls, threads, k);
    TiedAfterUpdate(s, s', x, calls, rest, i, row);
  }

  lemma RecordKeepsSafe(w: World, k: nat, at: int)
    requires Safe(w)
    ensures Safe(WriteRecord(w, k, at))
  {
    if k in w.threads && w.threads[k].Recording? {
      var th := w.threads[k];
      var t := RecordRecovery(th.id, th.outcome, th.signature, at);
      var s', i := DoRecordRecovery(w.store, t.id, t.outcome, t.signature, at).0, Find(w.store, th.id);
      assert s' == Apply(w.store, t).0;
      ThreadOf(w.store, w.ledger, w.calls, w.threads, k, i);
      assert Linked(w.store.rows[i], w.ledger, th.id in w.calls);
      assert RowSound(w.store.rows[i], th.id in w.store.intents);
      var change := RecoveryChanges(w.store, t);
      ApplyKeepsGood(w.store, t);
      TiedAfterRecovery(w.store, s', w.ledger, w.calls, w.threads, t, k, change.i, change.row);
    }
  }

  // ----- preparation by anyone

  lemma TiedLater(s: Store, x: Ledger, x': Ledger, calls: seq<string>, threads: map<nat, Thread>)
    requires Tied(s, x, calls, threads) && Later(x, x', None)
    ensures Tied(s, x', calls, threads)
  {
    forall i | 0 <= i < |s.rows| ensures Linked(s.rows[i], x', s.rows[i].settlementId in calls) {
      LinkedLater(s.rows[i], x, x', None, s.rows[i].settlementId in calls);
    }
    forall k | k in threads ensures ThreadOk(s.rows[Find(s, threads[k].id)], x', threads[k].id in calls, threads[k]) {
      ThreadLater(s.rows[Find(s, threads[k].id)], x, x', None, threads[k].id in calls, threads[k]);
    }
  }

  lemma PrepareIsLater(x: Ledger, input: PrepareInput, now: int, x': Ledger)
    requires Sound(x) && x' == DoPrepare(x, input, now).0
    ensures Sound(x') && Later(x, x', None)
  {
    PrepareKeepsSound(x, input, now, x');
    forall id | Executed(x, id) ensures Executed(x', id) && x'.executions[id] == x.executions[id] {
      if id == input.request.executionRequestId {
        assert x' == x;
      }
    }
  }

  lemma PrepareKeepsSafe(w: World, input: PrepareInput, at: int)
    requires Safe(w)
    ensures Safe(w.(ledger := DoPrepare(w.ledger, input, at).0))
  {
    var x' := DoPrepare(w.ledger, input, at).0;
    PrepareIsLater(w.ledger, input, at, x');
    TiedLater(w.store, w.ledger, x', w.calls, w.threads);
  }

  // ----- every run

  lemma NextKeepsSafe(w: World, step: Step)
    requires Safe(w)
    ensures Safe(Next(w, step))
  {
    match step
    case Table(t) =>
      if SingleTransaction(t) {
        TableKeepsSafe(w, t);
      }
    case Submit(k, id, at) => SubmitKeepsSafe(w, k, id, at);
    case CallExecutor(k, at, responseLost) => CallKeepsSafe(w, k, at, responseLost);
    case PersistAnswer(k, at) => PersistKeepsSafe(w, k, at);
    case StartRecover(k, id) => RecoverKeepsSafe(w, k, id);
    case AskExecutor(k, unreachable) => AskKeepsSafe(w, k, unreachable);
    case StartDivergence(k, id, providers) => DivergenceKeepsSafe(w, k, id, providers);
    case WriteRecovery(k, at) => RecordKeepsSafe(w, k, at);
    case PrepareExecution(input, at) => PrepareKeepsSafe(w, input, at);
    case Die(k) => FewerThreads(w.store, w.ledger, w.calls, w.threads, k);
  }

  lemma {:induction false} RunKeepsSafe(w: World, steps: seq<Step>)
    requires Safe(w)
    ensures Safe(Interleave(w, steps))
    decreases |steps|
  {
    if |steps| > 0 {
      NextKeepsSafe(w, steps[0]);
      RunKeepsSafe(Next(w, steps[0]), steps[1..]);
    }
  }
}
