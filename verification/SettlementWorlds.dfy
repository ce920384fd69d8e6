/** Late recoveries in the interleaved world: how far they reach, and a run in which one reopens a settlement. */
module SettlementWorlds {
  import opened Tables
  import opened Channels
  import opened SettlementStore
  import opened SettlementTheorems
  import opened SettlementReservations
  import opened SettlementExactness
  import opened SettlementOvertaking
  import opened Executor
  import opened SettlementExecution
  import opened SettlementGuarantees

  // ----- what the threads of a world can do to a completed settlement

  /** The step is the write of a recovery that was decided for this settlement. */
  predicate WritesRecoveryOf(w: World, step: Step, id: string)
  {
    step.WriteRecovery? && step.k in w.threads && w.threads[step.k].Recording? && w.threads[step.k].id == id
  }

  /** The one transaction a step makes on the tables, if it makes one. */
  function TransactionOf(w: World, step: Step): Option<Txn>
  {
    match step
    case Table(t) => if SingleTransaction(t) then Some(t) else None
    case Submit(k, id, at) =>
      if BeginSubmit(w, k, id, at) == w then None else Some(SubmitIntent(id, w.ledger.executorId, at))
    case PersistAnswer(k, at) =>
      if k in w.threads && w.threads[k].Persisting? then Some(Persist(w.threads[k].id, w.threads[k].technical, at))
      else None
    case WriteRecovery(k, at) =>
      if k in w.threads && w.threads[k].Recording? then
        Some(RecordRecovery(w.threads[k].id, w.threads[k].outcome, w.threads[k].signature, at))
      else None
    case _ => None
  }

  lemma StepIsATransaction(w: World, step: Step)
    ensures Next(w, step).store == match TransactionOf(w, step)
                                   case None => w.store
                                   case Some(t) => Apply(w.store, t).0
  {
  }

  lemma OnlyWritesRecover(w: World, step: Step, id: string)
    ensures WritesRecoveryOf(w, step, id) <==>
              var t := TransactionOf(w, step); t.Some? && t.value.RecordRecovery? && t.value.id == id
  {
  }

  lemma LeftByTransaction(s: Store, t: Option<Txn>, s': Store, i: nat)
    requires Good(s) && i < |s.rows| && s.rows[i].state.Completed?
    requires s' == if t.None? then s else Apply(s, t.value).0
    ensures i < |s'.rows|
    ensures !s'.rows[i].state.Completed? <==> t.Some? && t.value.RecordRecovery? && t.value.id == s.rows[i].settlementId
  {
    if t.Some? {
      CompletedLeftExactlyByStaleRecovery(s, t.value, i);
    }
  }

  /** A completed settlement is left exactly when a recovery thread of its own writes. */
  lemma CompletedLeftExactlyByWrite(w: World, step: Step, w': World, i: nat)
    requires Safe(w) && w' == Next(w, step) && i < |w.store.rows| && w.store.rows[i].state.Completed?
    ensures i < |w'.store.rows|
    ensures !w'.store.rows[i].state.Completed? <==> WritesRecoveryOf(w, step, w.store.rows[i].settlementId)
  {
    StepIsATransaction(w, step);
    OnlyWritesRecover(w, step, w.store.rows[i].settlementId);
    LeftByTransaction(w.store, TransactionOf(w, step), w'.store, i);
  }

  // ----- every world is within the possible runs

  lemma RecordingIsPossible(w: World, k: nat, at: int)
    requires Safe(w) && k in w.threads && w.threads[k].Recording?
    ensures Possible(w.store, RecordRecovery(w.threads[k].id, w.threads[k].outcome, w.threads[k].signature, at))
  {
    var i := Find(w.store, w.threads[k].id);
    var row := w.store.rows[i];
    assert ThreadOk(row, w.ledger, w.threads[k].id in w.calls, w.threads[k]);
    assert Linked(row, w.ledger, row.settlementId in w.calls);
    assert RowSound(row, row.settlementId in w.store.intents);
  }

  lemma StepIsPossible(w: World, step: Step)
    requires Safe(w) && TransactionOf(w, step).Some?
    ensures Possible(w.store, TransactionOf(w, step).value)
  {
    if step.WriteRecovery? {
      RecordingIsPossible(w, step.k, step.at);
    }
  }

  /**
   * Whatever the interleaving, the tables go through a possible run: a late recovery never finds a rejected
   * settlement.
   */
  lemma {:induction false} InterleavingsArePossible(w: World, steps: seq<Step>)
    requires Safe(w)
    ensures PossiblyReaches(w.store, Interleave(w, steps).store)
    decreases |steps|
  {
    if |steps| == 0 {
      PossiblySelf(w.store);
    } else {
      var w' := Next(w, steps[0]);
      NextKeepsSafe(w, steps[0]);
      InterleavingsArePossible(w', steps[1..]);
      StepIsATransaction(w, steps[0]);
      if TransactionOf(w, steps[0]).Some? {
        StepIsPossible(w, steps[0]);
        PossiblyNext(w.store, TransactionOf(w, steps[0]).value, w'.store, Interleave(w', steps[1..]).store);
      }
    }
  }

  /** So the bound holds in every world whose claims are contained, as long as nothing more is registered. */
  lemma ContainedWorldsKeepTheBound(w: World, steps: seq<Step>, scope: Scope, cap: nat)
    requires Safe(w) && Contained(w.store, scope, cap) && |Interleave(w, steps).store.rows| == |w.store.rows|
    ensures HighWater(Interleave(w, steps).store, scope) + Reserved(Interleave(w, steps).store, scope) <= cap
  {
    InterleavingsArePossible(w, steps);
    ContainedExactly(w.store, scope, cap);
  }
}
