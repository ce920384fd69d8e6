/** Exactly when an execution without an effect can still be confirmed. */
module FailureLabExactness {
  import opened Tables
  import opened HashChain
  import opened FailureLab
  import opened FailureLabTheorems

  /** Nothing registered, nothing signed. */
  predicate Quiet(step: Step) { !step.Register? && !step.PersistSignature? }

  predicate AllQuiet(steps: seq<Step>) { forall i :: 0 <= i < |steps| ==> Quiet(steps[i]) }

  ghost predicate QuietlyReaches(hash: Body<LabEvent> -> string, w: Lab, w': Lab)
  {
    exists steps :: AllQuiet(steps) && w' == Run(hash, w, steps)
  }

  // ----- the condition

  /** A thread that can still bring the row from in flight to needing recovery. */
  predicate Unresolved(th: Thread, id: string)
  {
    th.id == id && (th.Broadcasting? || (th.Concluding? && th.to.NeedsRecovery?))
  }

  ghost predicate HasUnresolved(w: Lab, id: string) { exists k :: k in w.threads && Unresolved(w.threads[k], id) }

  /** The execution's own row is confirmed or can still reach an observation. */
  ghost predicate CanObserve(w: Lab, id: string)
    requires id in w.rows
  {
    var state := w.rows[id].state;
    state.Confirmed? || state.NeedsRecovery? || state.Signed? || (state.BroadcastInFlight? && HasUnresolved(w, id))
  }

  ghost predicate HasBroadcast(w: Lab, id: string)
  {
    exists k :: k in w.threads && w.threads[k].Broadcasting? && w.threads[k].id == id
  }

  /** The execution's effect is on the chain or can still be broadcast. */
  ghost predicate CanShow(w: Lab, id: string)
    requires id in w.rows
  {
    Applied(w, w.rows[id]) || w.rows[id].state.Signed? || HasBroadcast(w, id)
  }

  /** Another execution signed alike can show the signature. */
  ghost predicate ShownByOther(w: Lab, id: string)
    requires id in w.rows
  {
    exists other :: other in w.rows && other != id && w.rows[other].signature == w.rows[id].signature
      && CanShow(w, other)
  }

  // ----- what a quiet step changes

  predicate StateMoves(w: Lab, id: string, from: LabState, to: LabState)
  {
    || to == from
    || (from.Signed? && (to.BroadcastInFlight? || to.ExpiredRequiresNewPrepare?))
    || (from.NeedsRecovery? && to.Confirmed?)
    || (from.BroadcastInFlight? && exists k :: k in w.threads && w.threads[k] == Concluding(id, to))
  }

  predicate ThreadMoves(w: Lab, k: nat, th: Thread)
  {
    || th.Observing? || th.Reporting?
    || (k in w.threads && w.threads[k] == th)
    || (th.Broadcasting? && th.id in w.rows && w.rows[th.id].state.Signed?)
    || (th.Concluding? && k in w.threads && w.threads[k].Broadcasting? && w.threads[k].id == th.id)
  }

  predicate Broadcasts(w: Lab, o: string)
  {
    exists k :: k in w.threads && w.threads[k].Broadcasting? && w.threads[k].obligationId == o
  }

  ghost predicate RowsMove(w: Lab, rows: map<string, LabRow>)
  {
    && rows.Keys == w.rows.Keys
    && forall id :: id in rows ==>
         && rows[id].signature == w.rows[id].signature && rows[id].obligationId == w.rows[id].obligationId
         && StateMoves(w, id, w.rows[id].state, rows[id].state)
  }

  ghost predicate QuietChange(w: Lab, w': Lab)
  {
    && RowsMove(w, w'.rows)
    && (forall k :: k in w'.threads ==> ThreadMoves(w, k, w'.threads[k]))
    && (forall o :: o in w.effects ==> o in w'.effects)
    && (forall o :: o in w'.effects && o !in w.effects ==> Broadcasts(w, o))
  }

  /** One row changes state and at most one thread changes with it. */
  lemma OneRowIsQuiet(w: Lab, w': Lab, id: string, row: LabRow)
    requires id in w.rows && w'.rows == w.rows[id := row] && w'.effects == w.effects
    requires row.signature == w.rows[id].signature && row.obligationId == w.rows[id].obligationId
    requires StateMoves(w, id, w.rows[id].state, row.state)
    requires forall k :: k in w'.threads ==> ThreadMoves(w, k, w'.threads[k])
    ensures QuietChange(w, w')
  {
  }

  lemma ExecuteIsQuiet(hash: Body<LabEvent> -> string, w: Lab, k: nat, id: string, at: int, w': Lab)
    requires w' == DoBeginExecute(hash, w, k, id, at)
    ensures QuietChange(w, w')
  {
    if k in w.threads || id !in w.rows || !w.rows[id].state.Signed? || w.rows[id].signature.None? {
      NothingIsQuiet(w, w');
    } else {
      OneRowIsQuiet(w, w', id, w'.rows[id]);
    }
  }

  lemma CrashIsQuiet(w: Lab, k: nat, w': Lab)
    requires k in w.threads && w.threads[k].Broadcasting?
    requires w' == w.(threads := w.threads[k := Concluding(w.threads[k].id, NeedsRecovery)])
    ensures QuietChange(w, w')
  {
  }

  lemma BroadcastIsQuiet(w: Lab, k: nat, mode: BroadcastMode, w': Lab)
    requires w' == DoBroadcast(w, k, mode)
    ensures QuietChange(w, w')
  {
  }

  lemma ConcludeIsQuiet(hash: Body<LabEvent> -> string, w: Lab, k: nat, at: int, w': Lab)
    requires w' == DoConclude(hash, w, k, at)
    ensures QuietChange(w, w')
  {
  }

  lemma RecoverIsQuiet(w: Lab, k: nat, id: string, w': Lab)
    requires w' == DoBeginRecover(w, k, id)
    ensures QuietChange(w, w')
  {
  }

  lemma ObserveIsQuiet(w: Lab, k: nat, view: ObservationMode, w': Lab)
    requires w' == DoObserve(w, k, view)
    ensures QuietChange(w, w')
  {
  }

  lemma ReportIsQuiet(hash: Body<LabEvent> -> string, w: Lab, k: nat, at: int, w': Lab)
    requires w' == DoReport(hash, w, k, at)
    ensures QuietChange(w, w')
  {
    if k in w.threads && w.threads[k].Reporting? && w.threads[k].id in w.rows {
      var id := w.threads[k].id;
      var confirmed := w.threads[k].seen.SeenConfirmed? && w.rows[id].state.NeedsRecovery?;
      var row := if confirmed then w.rows[id].(state := Confirmed) else w.rows[id];
      assert w.rows[id := w.rows[id]] == w.rows;
      OneRowIsQuiet(w, w', id, row);
    } else {
      NothingIsQuiet(w, w');
    }
  }

  lemma NothingIsQuiet(w: Lab, w': Lab)
    requires w'.rows == w.rows && w'.effects == w.effects
    requires forall k :: k in w'.threads ==> k in w.threads && w'.threads[k] == w.threads[k]
    ensures QuietChange(w, w')
  {
  }

  lemma QuietStep(hash: Body<LabEvent> -> string, w: Lab, step: Step, w': Lab)
    requires Quiet(step) && w' == Next(hash, w, step)
    ensures QuietChange(w, w')
  {
    match step
    case BeginExecute(k, id, at) => ExecuteIsQuiet(hash, w, k, id, at, w');
    case CrashBeforeCall(k) =>
      if k in w.threads && w.threads[k].Broadcasting? {
        CrashIsQuiet(w, k, w');
      } else {
        NothingIsQuiet(w, w');
      }
    case Broadcast(k, mode) => BroadcastIsQuiet(w, k, mode, w');
    case Conclude(k, at) => ConcludeIsQuiet(hash, w, k, at, w');
    case BeginRecover(k, id, at) => RecoverIsQuiet(w, k, id, w');
    case Observe(k, mode) => ObserveIsQuiet(w, k, mode, w');
    case Report(k, at) => ReportIsQuiet(hash, w, k, at, w');
    case Die(k) => NothingIsQuiet(w, w');
  }

  // ----- what cannot happen stays impossible

  lemma StaysUnobservable(w: Lab, w': Lab, id: string)
    requires Safe(w) && QuietChange(w, w') && id in w.rows && !CanObserve(w, id)
    requires w.rows[id].obligationId !in w.effects
    ensures !CanObserve(w', id)
  {
    forall k | k in w.threads && w.threads[k].id == id
      ensures !Unresolved(w.threads[k], id) || !w.rows[id].state.BroadcastInFlight?
      ensures w.threads[k].Concluding? ==> !w.threads[k].to.Confirmed?
    {
      assert ThreadSafe(w.threads[k], w.rows, w.effects);
    }
    assert forall k :: k in w'.threads ==> ThreadMoves(w, k, w'.threads[k]);
  }

  lemma StaysUnshown(w: Lab, w': Lab, id: string, other: string)
    requires Safe(w) && QuietChange(w, w') && other in w.rows && !CanShow(w, other)
    ensures !CanShow(w', other)
  {
    assert forall k :: k in w'.threads ==> ThreadMoves(w, k, w'.threads[k]);
  }

  /** Nothing can show the signature unless another execution does. */
  lemma StaysHidden(w: Lab, w': Lab, id: string)
    requires Safe(w) && QuietChange(w, w') && id in w.rows && !ShownByOther(w, id)
    ensures id in w'.rows && !ShownByOther(w', id)
  {
    forall other | other in w'.rows && other != id && w'.rows[other].signature == w'.rows[id].signature
      ensures !CanShow(w', other)
    {
      StaysUnshown(w, w', id, other);
    }
  }

  /** A confirmed execution without an effect owes it to another one. */
  lemma ConfirmedIsShown(w: Lab, id: string)
    requires Safe(w) && id in w.rows && w.rows[id].state.Confirmed? && w.rows[id].obligationId !in w.effects
    ensures ShownByOther(w, id)
  {
    assert RowSafe(w.rows[id], w.effects);
    var o :| o in w.effects && w.effects[o] == w.rows[id].signature.value;
    var owner :| owner in w.rows && w.rows[owner].obligationId == o && w.rows[owner].signature == Some(w.effects[o]);
    assert CanShow(w, owner);
  }

  /** The execution has no effect, but can still be confirmed. */
  ghost predicate Misleadable(w: Lab, id: string)
    requires id in w.rows
  {
    CanObserve(w, id) && ShownByOther(w, id)
  }

  lemma {:induction false} EffectsStay(hash: Body<LabEvent> -> string, w: Lab, steps: seq<Step>, o: string)
    requires AllQuiet(steps) && o in w.effects
    ensures o in Run(hash, w, steps).effects
    decreases |steps|
  {
    if |steps| > 0 {
      var w' := Next(hash, w, steps[0]);
      QuietStep(hash, w, steps[0], w');
      EffectsStay(hash, w', steps[1..], o);
    }
  }

  /** What is not misleadable never becomes confirmed without its effect. */
  lemma {:induction false} NeverMisled(hash: Body<LabEvent> -> string, w: Lab, steps: seq<Step>, id: string)
    requires Safe(w) && AllQuiet(steps) && id in w.rows && !Misleadable(w, id)
    requires w.rows[id].obligationId !in Run(hash, w, steps).effects
    ensures var w' := Run(hash, w, steps); id in w'.rows && !w'.rows[id].state.Confirmed?
    decreases |steps|
  {
    if w.rows[id].obligationId in w.effects {
      EffectsStay(hash, w, steps, w.rows[id].obligationId);
    }
    if |steps| == 0 {
      if w.rows[id].state.Confirmed? {
        ConfirmedIsShown(w, id);
      }
    } else {
      var w' := Next(hash, w, steps[0]);
      QuietStep(hash, w, steps[0], w');
      NextKeepsSafe(hash, w, steps[0]);
      StaysUnmisleadable(w, w', id);
      NeverMisled(hash, w', steps[1..], id);
    }
  }

  lemma StaysUnmisleadable(w: Lab, w': Lab, id: string)
    requires Safe(w) && QuietChange(w, w') && id in w.rows && !Misleadable(w, id)
    requires w.rows[id].obligationId !in w.effects
    ensures id in w'.rows && !Misleadable(w', id)
  {
    if CanObserve(w, id) {
      StaysHidden(w, w', id);
    } else {
      StaysUnobservable(w, w', id);
    }
  }

  // ----- what is misleadable can be confirmed

  lemma QuietlySelf(hash: Body<LabEvent> -> string, w: Lab)
    ensures QuietlyReaches(hash, w, w)
  {
    assert AllQuiet([]) && w == Run(hash, w, []);
  }

  lemma QuietlyNext(hash: Body<LabEvent> -> string, w: Lab, step: Step, middle: Lab, w': Lab)
    requires Quiet(step) && middle == Next(hash, w, step) && QuietlyReaches(hash, middle, w')
    ensures QuietlyReaches(hash, w, w')
  {
    var rest :| AllQuiet(rest) && w' == Run(hash, middle, rest);
    var steps := [step] + rest;
    assert steps[1..] == rest && AllQuiet(steps);
    assert w' == Run(hash, w, steps);
  }

  lemma ByExecute(hash: Body<LabEvent> -> string, w: Lab, k: nat, id: string, at: int, middle: Lab, w': Lab)
    requires middle == DoBeginExecute(hash, w, k, id, at) && QuietlyReaches(hash, middle, w')
    ensures QuietlyReaches(hash, w, w')
  {
    QuietlyNext(hash, w, BeginExecute(k, id, at), middle, w');
  }

  lemma ByBroadcast(hash: Body<LabEvent> -> string, w: Lab, k: nat, mode: BroadcastMode, middle: Lab, w': Lab)
    requires middle == DoBroadcast(w, k, mode) && QuietlyReaches(hash, middle, w')
    ensures QuietlyReaches(hash, w, w')
  {
    QuietlyNext(hash, w, Broadcast(k, mode), middle, w');
  }

  lemma ByConclude(hash: Body<LabEvent> -> string, w: Lab, k: nat, at: int, middle: Lab, w': Lab)
    requires middle == DoConclude(hash, w, k, at) && QuietlyReaches(hash, middle, w')
    ensures QuietlyReaches(hash, w, w')
  {
    QuietlyNext(hash, w, Conclude(k, at), middle, w');
  }

  lemma ByRecover(hash: Body<LabEvent> -> string, w: Lab, k: nat, id: string, middle: Lab, w': Lab)
    requires middle == DoBeginRecover(w, k, id) && QuietlyReaches(hash, middle, w')
    ensures QuietlyReaches(hash, w, w')
  {
    QuietlyNext(hash, w, BeginRecover(k, id, 0), middle, w');
  }

  lemma ByObserve(hash: Body<LabEvent> -> string, w: Lab, k: nat, view: ObservationMode, middle: Lab, w': Lab)
    requires middle == DoObserve(w, k, view) && QuietlyReaches(hash, middle, w')
    ensures QuietlyReaches(hash, w, w')
  {
    QuietlyNext(hash, w, Observe(k, view), middle, w');
  }

  lemma ByReport(hash: Body<LabEvent> -> string, w: Lab, k: nat, at: int, middle: Lab, w': Lab)
    requires middle == DoReport(hash, w, k, at) && QuietlyReaches(hash, middle, w')
    ensures QuietlyReaches(hash, w, w')
  {
    QuietlyNext(hash, w, Report(k, at), middle, w');
  }

  /** Some thread number is free. */
  lemma {:induction false} FreeThread(taken: set<nat>) returns (k: nat)
    ensures forall n :: n in taken ==> n < k
    decreases |taken|
  {
    if taken == {} {
      k := 0;
    } else {
      var n :| n in taken;
      k := FreeThread(taken - {n});
      assert forall m :: m in taken ==> m == n || m in taken - {n};
      if k <= n {
        k := n + 1;
      }
    }
  }

  /** Seen, unresolved, without an effect of its own: one step of the way to a false confirmation. */
  ghost predicate Pending(w: Lab, id: string, o: string, signature: string)
  {
    && Safe(w) && id in w.rows && w.rows[id].obligationId == o && w.rows[id].signature == Some(signature)
    && o !in w.effects && signature in w.effects.Values
  }

  /** Confirmed, and the obligation has no effect. */
  predicate Misled(w: Lab, id: string, o: string)
  {
    id in w.rows && w.rows[id].state.Confirmed? && w.rows[id].obligationId == o && o !in w.effects
  }

  lemma Reports(hash: Body<LabEvent> -> string, w: Lab, k: nat, id: string, o: string) returns (w': Lab)
    requires k in w.threads && w.threads[k] == Reporting(id, SeenConfirmed)
    requires id in w.rows && w.rows[id].state.NeedsRecovery? && w.rows[id].obligationId == o && o !in w.effects
    ensures QuietlyReaches(hash, w, w') && Misled(w', id, o)
  {
    w' := DoReport(hash, w, k, 0);
    QuietlySelf(hash, w');
    ByReport(hash, w, k, 0, w', w');
  }

  lemma Recovers(hash: Body<LabEvent> -> string, w: Lab, id: string, o: string, signature: string) returns (w': Lab)
    requires Pending(w, id, o, signature) && w.rows[id].state.NeedsRecovery?
    ensures QuietlyReaches(hash, w, w') && Misled(w', id, o)
  {
    var k := FreeThread(w.threads.Keys);
    var w1 := DoBeginRecover(w, k, id);
    var w2 := DoObserve(w1, k, Available);
    w' := Reports(hash, w2, k, id, o);
    ByObserve(hash, w1, k, Available, w2, w');
    ByRecover(hash, w, k, id, w1, w');
  }

  lemma Concludes(hash: Body<LabEvent> -> string, w: Lab, k: nat, id: string, o: string, signature: string)
    returns (w': Lab)
    requires Pending(w, id, o, signature) && k in w.threads && w.threads[k] == Concluding(id, NeedsRecovery)
    ensures QuietlyReaches(hash, w, w') && Misled(w', id, o)
  {
    assert ThreadSafe(w.threads[k], w.rows, w.effects);
    var w1 := DoConclude(hash, w, k, 0);
    ConcludeKeepsSafe(hash, w, k, 0);
    w' := Recovers(hash, w1, id, o, signature);
    ByConclude(hash, w, k, 0, w1, w');
  }

  lemma Loses(hash: Body<LabEvent> -> string, w: Lab, k: nat, id: string, o: string, signature: string)
    returns (w': Lab)
    requires Pending(w, id, o, signature) && k in w.threads && w.threads[k].Broadcasting? && w.threads[k].id == id
    ensures QuietlyReaches(hash, w, w') && Misled(w', id, o)
  {
    var w1 := DoBroadcast(w, k, UnknownWithoutEffect);
    BroadcastKeepsSafe(w, k, UnknownWithoutEffect);
    w' := Concludes(hash, w1, k, id, o, signature);
    ByBroadcast(hash, w, k, UnknownWithoutEffect, w1, w');
  }

  lemma Launches(hash: Body<LabEvent> -> string, w: Lab, id: string, k: nat) returns (w': Lab)
    requires Safe(w) && k !in w.threads && id in w.rows && w.rows[id].state.Signed? && w.rows[id].signature.Some?
    ensures w' == DoBeginExecute(hash, w, k, id, w.rows[id].validUntil - 1) && Safe(w') && w'.effects == w.effects
    ensures w'.threads == w.threads[k := Broadcasting(id, w.rows[id].signature.value, w.rows[id].obligationId)]
    ensures w'.rows == w.rows[id := w'.rows[id]] && w'.rows[id].signature == w.rows[id].signature
    ensures w'.rows[id].obligationId == w.rows[id].obligationId
  {
    w' := DoBeginExecute(hash, w, k, id, w.rows[id].validUntil - 1);
    ExecuteKeepsSafe(hash, w, k, id, w.rows[id].validUntil - 1);
  }

  lemma LaunchesAndLoses(hash: Body<LabEvent> -> string, w: Lab, id: string, o: string, signature: string)
    returns (w': Lab)
    requires Pending(w, id, o, signature) && w.rows[id].state.Signed?
    ensures QuietlyReaches(hash, w, w') && Misled(w', id, o)
  {
    var k := FreeThread(w.threads.Keys);
    var w1 := Launches(hash, w, id, k);
    w' := Loses(hash, w1, k, id, o, signature);
    ByExecute(hash, w, k, id, w.rows[id].validUntil - 1, w1, w');
  }

  /** With the signature on the chain, an observable execution can be confirmed. */
  lemma Observes(hash: Body<LabEvent> -> string, w: Lab, id: string, o: string, signature: string) returns (w': Lab)
    requires Pending(w, id, o, signature) && CanObserve(w, id)
    ensures QuietlyReaches(hash, w, w') && Misled(w', id, o)
  {
    if w.rows[id].state.Confirmed? {
      w' := w;
      QuietlySelf(hash, w);
    } else if w.rows[id].state.NeedsRecovery? {
      w' := Recovers(hash, w, id, o, signature);
    } else if w.rows[id].state.Signed? {
      w' := LaunchesAndLoses(hash, w, id, o, signature);
    } else {
      var k :| k in w.threads && Unresolved(w.threads[k], id);
      if w.threads[k].Broadcasting? {
        w' := Loses(hash, w, k, id, o, signature);
      } else {
        w' := Concludes(hash, w, k, id, o, signature);
      }
    }
  }

  // ----- putting the signature on the chain first

  lemma Lands(hash: Body<LabEvent> -> string, w: Lab, k: nat, other: string, id: string, o: string, signature: string)
    returns (w': Lab)
    requires Safe(w) && k in w.threads && w.threads[k].Broadcasting? && w.threads[k].id == other && other != id
    requires other in w.rows && w.rows[other].signature == Some(signature)
    requires id in w.rows && w.rows[id].obligationId == o && w.rows[id].signature == Some(signature) && o !in w.effects
    requires CanObserve(w, id)
    ensures w' == DoBroadcast(w, k, Success) && Pending(w', id, o, signature) && CanObserve(w', id)
  {
    assert ThreadSafe(w.threads[k], w.rows, w.effects);
    BroadcastNeverConflicts(w, k);
    BroadcastKeepsSafe(w, k, Success);
    w' := DoBroadcast(w, k, Success);
    assert w'.effects[w.threads[k].obligationId] == signature;
    if HasUnresolved(w, id) {
      var l :| l in w.threads && Unresolved(w.threads[l], id);
      assert l in w'.threads && Unresolved(w'.threads[l], id);
    }
  }

  lemma OtherLands(hash: Body<LabEvent> -> string, w: Lab, k: nat, other: string, id: string, o: string,
                   signature: string)
    returns (w': Lab)
    requires Safe(w) && k in w.threads && w.threads[k].Broadcasting? && w.threads[k].id == other && other != id
    requires other in w.rows && w.rows[other].signature == Some(signature)
    requires id in w.rows && w.rows[id].obligationId == o && w.rows[id].signature == Some(signature) && o !in w.effects
    requires CanObserve(w, id)
    ensures QuietlyReaches(hash, w, w') && Misled(w', id, o)
  {
    var w1 := Lands(hash, w, k, other, id, o, signature);
    w' := Observes(hash, w1, id, o, signature);
    ByBroadcast(hash, w, k, Success, w1, w');
  }

  lemma OtherLaunches(hash: Body<LabEvent> -> string, w: Lab, other: string, id: string, o: string, signature: string)
    returns (w': Lab)
    requires Safe(w) && other in w.rows && other != id && w.rows[other].state.Signed?
    requires w.rows[other].signature == Some(signature)
    requires id in w.rows && w.rows[id].obligationId == o && w.rows[id].signature == Some(signature) && o !in w.effects
    requires CanObserve(w, id)
    ensures QuietlyReaches(hash, w, w') && Misled(w', id, o)
  {
    var k := FreeThread(w.threads.Keys);
    var w1 := Launches(hash, w, other, k);
    if HasUnresolved(w, id) {
      var l :| l in w.threads && Unresolved(w.threads[l], id);
      assert l in w1.threads && Unresolved(w1.threads[l], id);
    }
    w' := OtherLands(hash, w1, k, other, id, o, signature);
    ByExecute(hash, w, k, other, w.rows[other].validUntil - 1, w1, w');
  }

  lemma Misleads(hash: Body<LabEvent> -> string, w: Lab, id: string) returns (w': Lab)
    requires Safe(w) && id in w.rows && w.rows[id].obligationId !in w.effects && Misleadable(w, id)
    ensures QuietlyReaches(hash, w, w') && Misled(w', id, w.rows[id].obligationId)
  {
    assert RowSafe(w.rows[id], w.effects);
    var o, signature := w.rows[id].obligationId, w.rows[id].signature.value;
    var other :| other in w.rows && other != id && w.rows[other].signature == w.rows[id].signature && CanShow(w, other);
    if Applied(w, w.rows[other]) {
      assert w.effects[w.rows[other].obligationId] == signature;
      w' := Observes(hash, w, id, o, signature);
    } else if w.rows[other].state.Signed? {
      w' := OtherLaunches(hash, w, other, id, o, signature);
    } else {
      var k :| k in w.threads && w.threads[k].Broadcasting? && w.threads[k].id == other;
      w' := OtherLands(hash, w, k, other, id, o, signature);
    }
  }

  /**
   * An execution without an effect can be confirmed all the same, by a continuation that registers and signs
   * nothing and applies no effect of its own, if and only if it can still reach an observation and another
   * execution that carries its signature is applied or can still be broadcast.
   */
  lemma MisledExactly(hash: Body<LabEvent> -> string, w: Lab, id: string)
    requires Safe(w) && id in w.rows && w.rows[id].obligationId !in w.effects
    ensures Misleadable(w, id) <==> exists w' :: QuietlyReaches(hash, w, w') && Misled(w', id, w.rows[id].obligationId)
  {
    var o := w.rows[id].obligationId;
    if Misleadable(w, id) {
      var w' := Misleads(hash, w, id);
    } else {
      forall w' | QuietlyReaches(hash, w, w') ensures !Misled(w', id, o) {
        var steps :| AllQuiet(steps) && w' == Run(hash, w, steps);
        if o !in w'.effects {
          NeverMisled(hash, w, steps, id);
        }
      }
    }
  }
}
