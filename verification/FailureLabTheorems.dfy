/** What every run of the lab keeps, with a crash possible between any two transactions. */
module FailureLabTheorems {
  import opened Tables
  import opened HashChain
  import opened FailureLab

  /** Rewriting one row, with threads that are at home in it, keeps the lab safe. */
  lemma RowUpdateKeepsSafe(w: Lab, w': Lab, id: string, row: LabRow)
    requires Safe(w) && id in w.rows && w'.rows == w.rows[id := row] && w'.effects == w.effects
    requires row.obligationId == w.rows[id].obligationId
    requires w.rows[id].signature.Some? ==> row.signature == w.rows[id].signature
    requires RowSafe(row, w.effects)
    requires ThreadsSafe(w'.threads, w'.rows, w'.effects)
    ensures Safe(w')
  {
    forall o | o in w'.effects
      ensures exists id ::
                id in w'.rows && w'.rows[id].obligationId == o && w'.rows[id].signature == Some(w'.effects[o])
    {
      var owner :| owner in w.rows && w.rows[owner].obligationId == o && w.rows[owner].signature == Some(w.effects[o]);
      assert w'.rows[owner].obligationId == o && w'.rows[owner].signature == Some(w'.effects[o]);
    }
  }

  lemma ThreadsAfterRow(threads: map<nat, Thread>, rows: map<string, LabRow>, effects: map<string, string>, id: string,
                        row: LabRow)
    requires ThreadsSafe(threads, rows, effects)
    requires forall k :: k in threads && threads[k].id == id ==> ThreadSafe(threads[k], rows[id := row], effects)
    ensures ThreadsSafe(threads, rows[id := row], effects)
  {
  }

  lemma RegisterKeepsSafe(hash: Body<LabEvent> -> string, w: Lab, id: string, o: string, m: string, until: int, at: int)
    requires Safe(w)
    ensures Safe(DoRegister(hash, w, id, o, m, until, at))
  {
    var w' := DoRegister(hash, w, id, o, m, until, at);
    if w' != w {
      assert o !in w.effects;
      forall p | p in w'.effects
        ensures exists id ::
                  id in w'.rows && w'.rows[id].obligationId == p && w'.rows[id].signature == Some(w'.effects[p])
      {
        var owner :| owner in w.rows && w.rows[owner].obligationId == p
          && w.rows[owner].signature == Some(w.effects[p]);
        assert w'.rows[owner] == w.rows[owner];
      }
    }
  }

  lemma SignatureKeepsSafe(hash: Body<LabEvent> -> string, w: Lab, id: string, sig: string, tx: string, at: int)
    requires Safe(w)
    ensures Safe(DoPersistSignature(hash, w, id, sig, tx, at))
  {
    var w' := DoPersistSignature(hash, w, id, sig, tx, at);
    if w' != w {
      assert RowSafe(w.rows[id], w.effects);
      forall k | k in w.threads ensures w.threads[k].id != id {
        assert ThreadSafe(w.threads[k], w.rows, w.effects);
      }
      ThreadsAfterRow(w.threads, w.rows, w.effects, id, w'.rows[id]);
      RowUpdateKeepsSafe(w, w', id, w'.rows[id]);
    }
  }

  lemma ThreadAdded(threads: map<nat, Thread>, rows: map<string, LabRow>, effects: map<string, string>, k: nat,
                    th: Thread)
    requires ThreadsSafe(threads, rows, effects) && ThreadSafe(th, rows, effects)
    requires Active(th) ==> forall l :: l in threads && l != k && Active(threads[l]) ==> threads[l].id != th.id
    ensures ThreadsSafe(threads[k := th], rows, effects)
  {
  }

  lemma ExecuteKeepsSafe(hash: Body<LabEvent> -> string, w: Lab, k: nat, id: string, at: int)
    requires Safe(w)
    ensures Safe(DoBeginExecute(hash, w, k, id, at))
  {
    var w' := DoBeginExecute(hash, w, k, id, at);
    if w' != w {
      assert RowSafe(w.rows[id], w.effects);
      forall l | l in w.threads && w.threads[l].id == id
        ensures ThreadSafe(w.threads[l], w'.rows, w.effects) && !Active(w.threads[l])
      {
        assert ThreadSafe(w.threads[l], w.rows, w.effects);
      }
      ThreadsAfterRow(w.threads, w.rows, w.effects, id, w'.rows[id]);
      if w'.threads != w.threads {
        ThreadAdded(w.threads, w'.rows, w.effects, k, w'.threads[k]);
      }
      RowUpdateKeepsSafe(w, w', id, w'.rows[id]);
    }
  }

  /** At the moment of a broadcast the obligation has no effect yet: the conflict branch cannot be taken. */
  lemma BroadcastNeverConflicts(w: Lab, k: nat)
    requires Safe(w) && k in w.threads && w.threads[k].Broadcasting?
    ensures w.threads[k].obligationId !in w.effects && !Conflicts(w, w.threads[k].obligationId, w.threads[k].signature)
  {
  }

  lemma EffectKeepsRows(w: Lab, id: string, effects: map<string, string>)
    requires Safe(w) && id in w.rows && w.rows[id].state.BroadcastInFlight? && w.rows[id].signature.Some?
    requires w.rows[id].obligationId !in w.effects
    requires effects == w.effects[w.rows[id].obligationId := w.rows[id].signature.value]
    ensures EffectsOwned(w.rows, effects)
    ensures forall other :: other in w.rows ==> RowSafe(w.rows[other], effects)
    ensures forall v :: v in w.effects.Values ==> v in effects.Values
  {
    forall v | v in w.effects.Values ensures v in effects.Values {
      var o :| o in w.effects && w.effects[o] == v;
      assert o in effects && effects[o] == v;
    }
    forall o | o in effects
      ensures exists id :: id in w.rows && w.rows[id].obligationId == o && w.rows[id].signature == Some(effects[o])
    {
      if o == w.rows[id].obligationId {
        assert w.rows[id].signature == Some(effects[o]);
      } else {
        assert o in w.effects;
      }
    }
    forall other | other in w.rows ensures RowSafe(w.rows[other], effects) {
      assert RowSafe(w.rows[other], w.effects);
    }
  }

  lemma ThreadsAfterEffect(w: Lab, k: nat, effects: map<string, string>)
    requires Safe(w) && k in w.threads && w.threads[k].Broadcasting?
    requires effects == w.effects[w.threads[k].obligationId := w.threads[k].signature]
    requires forall v :: v in w.effects.Values ==> v in effects.Values
    ensures ThreadsSafe(w.threads - {k}, w.rows, effects)
  {
    var th := w.threads[k];
    assert ThreadSafe(th, w.rows, w.effects);
    forall l | l in w.threads && l != k ensures ThreadSafe(w.threads[l], w.rows, effects) {
      assert ThreadSafe(w.threads[l], w.rows, w.effects);
      if Active(w.threads[l]) {
        assert w.rows[w.threads[l].id].obligationId != th.obligationId;
      }
    }
  }

  lemma BroadcastKeepsSafe(w: Lab, k: nat, mode: BroadcastMode)
    requires Safe(w)
    ensures Safe(DoBroadcast(w, k, mode))
  {
    if k in w.threads && w.threads[k].Broadcasting? {
      var th, w' := w.threads[k], DoBroadcast(w, k, mode);
      assert ThreadSafe(th, w.rows, w.effects);
      if mode.Success? || mode.AcceptedResponseLost? {
        EffectKeepsRows(w, th.id, w'.effects);
        ThreadsAfterEffect(w, k, w'.effects);
        ThreadAdded(w.threads - {k}, w.rows, w'.effects, k, w'.threads[k]);
        assert w'.threads == (w.threads - {k})[k := w'.threads[k]];
      } else {
        ThreadAdded(w.threads, w.rows, w.effects, k, w'.threads[k]);
      }
    }
  }

  lemma ConcludeKeepsSafe(hash: Body<LabEvent> -> string, w: Lab, k: nat, at: int)
    requires Safe(w)
    ensures Safe(DoConclude(hash, w, k, at))
  {
    if k in w.threads && w.threads[k].Concluding? {
      var th, w' := w.threads[k], DoConclude(hash, w, k, at);
      assert ThreadSafe(th, w.rows, w.effects) && RowSafe(w.rows[th.id], w.effects);
      forall l | l in w'.threads ensures ThreadSafe(w'.threads[l], w'.rows, w.effects) {
        assert ThreadSafe(w.threads[l], w.rows, w.effects);
      }
      RowUpdateKeepsSafe(w, w', th.id, w'.rows[th.id]);
    }
  }

  lemma RecoverKeepsSafe(w: Lab, k: nat, id: string)
    requires Safe(w)
    ensures Safe(DoBeginRecover(w, k, id))
  {
    var w' := DoBeginRecover(w, k, id);
    if w' != w {
      assert RowSafe(w.rows[id], w.effects);
      forall l | l in w.threads ensures ThreadSafe(w.threads[l], w'.rows, w.effects) {
        assert ThreadSafe(w.threads[l], w.rows, w.effects);
      }
      RowUpdateKeepsSafe(w, w', id, w'.rows[id]);
    }
  }

  lemma CrashKeepsSafe(w: Lab, k: nat)
    requires Safe(w) && k in w.threads && w.threads[k].Broadcasting?
    ensures Safe(w.(threads := w.threads[k := Concluding(w.threads[k].id, NeedsRecovery)]))
  {
  }

  lemma ObserveKeepsSafe(w: Lab, k: nat, view: ObservationMode)
    requires Safe(w)
    ensures Safe(DoObserve(w, k, view))
  {
  }

  /** A report only ever turns its own row to confirmed, which no other thread minds. */
  lemma ThreadsAfterReport(threads: map<nat, Thread>, rows: map<string, LabRow>, effects: map<string, string>, k: nat,
                           row: LabRow)
    requires ThreadsSafe(threads, rows, effects) && k in threads && threads[k].Reporting?
    requires var id := threads[k].id;
             row == rows[id] || (rows[id].state.NeedsRecovery? && row == rows[id].(state := Confirmed))
    ensures ThreadsSafe(threads - {k}, rows[threads[k].id := row], effects)
  {
    var rows' := rows[threads[k].id := row];
    forall l | l in threads && l != k ensures ThreadSafe(threads[l], rows', effects) {
      assert ThreadSafe(threads[l], rows, effects);
    }
  }

  lemma ConfirmingReportKeepsSafe(w: Lab, k: nat, w': Lab)
    requires Safe(w) && k in w.threads && w.threads[k] == Reporting(w.threads[k].id, SeenConfirmed)
    requires var id := w.threads[k].id;
             && id in w.rows && w.rows[id].state.NeedsRecovery?
               && w'.rows == w.rows[id := w.rows[id].(state := Confirmed)]
    requires w'.effects == w.effects && w'.threads == w.threads - {k}
    ensures Safe(w')
  {
    var id := w.threads[k].id;
    assert ThreadSafe(w.threads[k], w.rows, w.effects) && RowSafe(w.rows[id], w.effects);
    ThreadsAfterReport(w.threads, w.rows, w.effects, k, w'.rows[id]);
    RowUpdateKeepsSafe(w, w', id, w'.rows[id]);
  }

  lemma OtherReportKeepsSafe(w: Lab, k: nat, w': Lab)
    requires Safe(w) && w'.rows == w.rows && w'.effects == w.effects && w'.threads == w.threads - {k}
    ensures Safe(w')
  {
  }

  lemma ReportKeepsSafe(hash: Body<LabEvent> -> string, w: Lab, k: nat, at: int)
    requires Safe(w)
    ensures Safe(DoReport(hash, w, k, at))
  {
    if k in w.threads && w.threads[k].Reporting? {
      var th, w' := w.threads[k], DoReport(hash, w, k, at);
      if th.seen.SeenConfirmed? && th.id in w.rows && w.rows[th.id].state.NeedsRecovery? {
        ConfirmingReportKeepsSafe(w, k, w');
      } else {
        assert th.id in w.rows ==> w.rows[th.id := w.rows[th.id]] == w.rows;
        OtherReportKeepsSafe(w, k, w');
      }
    }
  }

  lemma NextKeepsSafe(hash: Body<LabEvent> -> string, w: Lab, step: Step)
    requires Safe(w)
    ensures Safe(Next(hash, w, step))
  {
    match step
    case Register(id, o, m, until, at) => RegisterKeepsSafe(hash, w, id, o, m, until, at);
    case PersistSignature(id, sig, tx, at) => SignatureKeepsSafe(hash, w, id, sig, tx, at);
    case BeginExecute(k, id, at) => ExecuteKeepsSafe(hash, w, k, id, at);
    case CrashBeforeCall(k) =>
      if k in w.threads && w.threads[k].Broadcasting? {
        CrashKeepsSafe(w, k);
      }
    case Broadcast(k, mode) => BroadcastKeepsSafe(w, k, mode);
    case Conclude(k, at) => ConcludeKeepsSafe(hash, w, k, at);
    case BeginRecover(k, id, at) => RecoverKeepsSafe(w, k, id);
    case Observe(k, view) => ObserveKeepsSafe(w, k, view);
    case Report(k, at) => ReportKeepsSafe(hash, w, k, at);
    case Die(k) =>
  }

  lemma {:induction false} RunKeepsSafe(hash: Body<LabEvent> -> string, w: Lab, steps: seq<Step>)
    requires Safe(w)
    ensures Safe(Run(hash, w, steps))
    decreases |steps|
  {
    if |steps| > 0 {
      NextKeepsSafe(hash, w, steps[0]);
      RunKeepsSafe(hash, Next(hash, w, steps[0]), steps[1..]);
    }
  }

  // ----- what a reader of the journal may conclude

  /**
   * In every run: an execution is broadcast at most once; a state that permits rematerialization means no
   * effect; and a confirmed execution has its effect unless another execution carries the same signature
   * and has its own.
   */
  lemma UncertaintyNeverPermitsRetry(hash: Body<LabEvent> -> string, steps: seq<Step>, w: Lab, id: string)
    requires w == Run(hash, EMPTY, steps) && id in w.rows
    ensures w.rows[id].broadcasts <= 1
    ensures MayRematerialize(w.rows[id].state) ==> w.rows[id].obligationId !in w.effects
    ensures w.rows[id].state.Confirmed? ==>
              Applied(w, w.rows[id]) || exists other :: other in w.rows && other != id && SharesEffect(w, id, other)
  {
    assert Safe(EMPTY);
    RunKeepsSafe(hash, EMPTY, steps);
    var row := w.rows[id];
    assert RowSafe(row, w.effects);
    if row.state.Confirmed? && !Applied(w, row) {
      var o :| o in w.effects && w.effects[o] == row.signature.value;
      var owner :| owner in w.rows && w.rows[owner].obligationId == o && w.rows[owner].signature == Some(w.effects[o]);
      assert SharesEffect(w, id, owner);
    }
  }

  /** `other` has an effect, under the signature that `id` carries too. */
  predicate SharesEffect(w: Lab, id: string, other: string)
    requires id in w.rows && other in w.rows
  {
    w.rows[other].signature == w.rows[id].signature && Applied(w, w.rows[other])
  }

  /** Distinct signatures rule the exception out: confirmed then means this obligation's own effect. */
  lemma ConfirmedMeansApplied(hash: Body<LabEvent> -> string, steps: seq<Step>, w: Lab, id: string)
    requires w == Run(hash, EMPTY, steps) && id in w.rows && w.rows[id].state.Confirmed?
    requires forall other :: other in w.rows && other != id ==> w.rows[other].signature != w.rows[id].signature
    ensures Applied(w, w.rows[id])
  {
    UncertaintyNeverPermitsRetry(hash, steps, w, id);
  }

  ghost predicate Reachable(hash: Body<LabEvent> -> string, w: Lab) { exists steps :: w == Run(hash, EMPTY, steps) }

  lemma {:induction false} RunSnoc(hash: Body<LabEvent> -> string, w: Lab, steps: seq<Step>, step: Step)
    ensures Run(hash, w, steps + [step]) == Next(hash, Run(hash, w, steps), step)
    decreases |steps|
  {
    if |steps| == 0 {
      assert steps + [step] == [step];
    } else {
      assert (steps + [step])[1..] == steps[1..] + [step];
      RunSnoc(hash, Next(hash, w, steps[0]), steps[1..], step);
    }
  }

  lemma ReachNext(hash: Body<LabEvent> -> string, w: Lab, step: Step)
    requires Reachable(hash, w)
    ensures Reachable(hash, Next(hash, w, step))
  {
    var steps :| w == Run(hash, EMPTY, steps);
    RunSnoc(hash, EMPTY, steps, step);
  }

  /** Two executions of two obligations. */
  lemma TwoRegistered(hash: Body<LabEvent> -> string) returns (w: Lab)
    ensures Reachable(hash, w) && w.threads == map[] && w.effects == map[]
    ensures w.rows == map["a" := LabRow("rent", "m", 9, Authorized, None, "", 0, 0),
                          "b" := LabRow("wage", "m", 9, Authorized, None, "", 0, 0)]
  {
    assert EMPTY == Run(hash, EMPTY, []);
    ReachNext(hash, EMPTY, Register("a", "rent", "m", 9, 0));
    var w1 := DoRegister(hash, EMPTY, "a", "rent", "m", 9, 0);
    ReachNext(hash, w1, Register("b", "wage", "m", 9, 0));
    w := DoRegister(hash, w1, "b", "wage", "m", 9, 0);
  }

  lemma ReachSigned(hash: Body<LabEvent> -> string, w: Lab, id: string, signature: string, tx: string) returns (w': Lab)
    requires Reachable(hash, w) && id in w.rows && w.rows[id].state.Authorized?
    ensures Reachable(hash, w') && w'.threads == w.threads && w'.effects == w.effects
    ensures w'.rows == w.rows[id := w.rows[id].(state := Signed, signature := Some(signature), transactionHash := tx)]
  {
    ReachNext(hash, w, PersistSignature(id, signature, tx, 0));
    w' := DoPersistSignature(hash, w, id, signature, tx, 0);
  }

  /** Two executions, signed alike. */
  lemma TwoSignedAlike(hash: Body<LabEvent> -> string) returns (w: Lab)
    ensures Reachable(hash, w) && w.threads == map[] && w.effects == map[]
    ensures w.rows == map["a" := LabRow("rent", "m", 9, Signed, Some("sig"), "t", 0, 0),
                          "b" := LabRow("wage", "m", 9, Signed, Some("sig"), "t", 0, 0)]
  {
    var w1 := TwoRegistered(hash);
    var w2 := ReachSigned(hash, w1, "a", "sig", "t");
    w := ReachSigned(hash, w2, "b", "sig", "t");
  }

  /** The first is broadcast. */
  lemma OneBroadcast(hash: Body<LabEvent> -> string) returns (w: Lab)
    ensures Reachable(hash, w) && w.effects == map["rent" := "sig"] && 1 !in w.threads
    ensures "b" in w.rows && w.rows["b"] == LabRow("wage", "m", 9, Signed, Some("sig"), "t", 0, 0)
  {
    var w0 := TwoSignedAlike(hash);
    ReachNext(hash, w0, BeginExecute(0, "a", 0));
    var w1 := DoBeginExecute(hash, w0, 0, "a", 0);
    ReachNext(hash, w1, Broadcast(0, Success));
    w := DoBroadcast(w1, 0, Success);
  }

  /** The second is lost between its intent and its call. */
  lemma IntentLost(hash: Body<LabEvent> -> string, w: Lab, k: nat, id: string) returns (w': Lab)
    requires Reachable(hash, w) && k !in w.threads && id in w.rows
    requires w.rows[id].state.Signed? && w.rows[id].signature.Some? && w.rows[id].validUntil > 0
    ensures Reachable(hash, w') && w'.effects == w.effects && k !in w'.threads
    ensures w'.rows == w.rows[id := w.rows[id].(state := NeedsRecovery, broadcasts := w.rows[id].broadcasts + 1)]
  {
    var w1 := LostSteps(hash, w, k, id);
    w' := DoConclude(hash, w1, k, 0);
    ReachNext(hash, w1, Conclude(k, 0));
  }

  lemma LostSteps(hash: Body<LabEvent> -> string, w: Lab, k: nat, id: string) returns (w': Lab)
    requires Reachable(hash, w) && k !in w.threads && id in w.rows
    requires w.rows[id].state.Signed? && w.rows[id].signature.Some? && w.rows[id].validUntil > 0
    ensures Reachable(hash, w') && w'.effects == w.effects
    ensures w'.threads == w.threads[k := Concluding(id, NeedsRecovery)]
    ensures w'.rows == w.rows[id := w.rows[id].(state := BroadcastInFlight, broadcasts := w.rows[id].broadcasts + 1)]
  {
    var w1 := DoBeginExecute(hash, w, k, id, 0);
    ReachExecute(hash, w, k, id, w1);
    w' := w1.(threads := w1.threads[k := Concluding(id, NeedsRecovery)]);
    ReachCrash(hash, w1, k, w');
  }

  lemma ReachExecute(hash: Body<LabEvent> -> string, w: Lab, k: nat, id: string, w': Lab)
    requires Reachable(hash, w) && w' == DoBeginExecute(hash, w, k, id, 0)
    ensures Reachable(hash, w')
  {
    ReachNext(hash, w, BeginExecute(k, id, 0));
  }

  lemma ReachCrash(hash: Body<LabEvent> -> string, w: Lab, k: nat, w': Lab)
    requires Reachable(hash, w) && k in w.threads && w.threads[k].Broadcasting?
    requires w' == w.(threads := w.threads[k := Concluding(w.threads[k].id, NeedsRecovery)])
    ensures Reachable(hash, w')
  {
    ReachNext(hash, w, CrashBeforeCall(k));
  }

  /** Recovery confirms whatever carries a signature that any obligation's effect carries. */
  lemma RecoveryTrustsSignature(hash: Body<LabEvent> -> string, w: Lab, k: nat, id: string) returns (w': Lab)
    requires Reachable(hash, w) && k !in w.threads && id in w.rows && w.rows[id].state.NeedsRecovery?
    requires w.rows[id].signature.Some? && w.rows[id].signature.value in w.effects.Values
    ensures Reachable(hash, w') && w'.effects == w.effects
    ensures id in w'.rows && w'.rows[id].state.Confirmed? && w'.rows[id].obligationId == w.rows[id].obligationId
  {
    ReachNext(hash, w, BeginRecover(k, id, 0));
    var w1 := DoBeginRecover(w, k, id);
    ReachNext(hash, w1, Observe(k, Available));
    var w2 := DoObserve(w1, k, Available);
    w' := ReportConfirms(hash, w2, k, id);
  }

  lemma ReportConfirms(hash: Body<LabEvent> -> string, w: Lab, k: nat, id: string) returns (w': Lab)
    requires Reachable(hash, w) && k in w.threads && w.threads[k] == Reporting(id, SeenConfirmed)
    requires id in w.rows && w.rows[id].state.NeedsRecovery?
    ensures Reachable(hash, w') && w'.effects == w.effects
    ensures id in w'.rows && w'.rows[id] == w.rows[id].(state := Confirmed)
  {
    ReachNext(hash, w, Report(k, 0));
    w' := DoReport(hash, w, k, 0);
  }

  /** The exception is real: the second is confirmed although its obligation has no effect. */
  lemma SharedSignatureMisleads(hash: Body<LabEvent> -> string) returns (w: Lab)
    ensures Reachable(hash, w) && "b" in w.rows && w.rows["b"].state.Confirmed? && !Applied(w, w.rows["b"])
  {
    var w0 := OneBroadcast(hash);
    var w1 := IntentLost(hash, w0, 1, "b");
    assert w1.effects["rent"] == "sig";
    w := RecoveryTrustsSignature(hash, w1, 1, "b");
  }

  // ----- the event log

  ghost predicate LogVerified(hash: Body<LabEvent> -> string, log: seq<Link<LabEvent>>)
  {
    forall id :: Verified(hash, Of(log, id), id)
  }

  lemma WriteKeepsLog(hash: Body<LabEvent> -> string, log: seq<Link<LabEvent>>, id: string, event: LabEvent, at: int)
    requires LogVerified(hash, log)
    ensures LogVerified(hash, log + [Seal(hash, log, id, event, at)])
  {
  }

  /** Each step leaves the log alone or seals one event onto it. */
  lemma NextSealsOne(hash: Body<LabEvent> -> string, w: Lab, step: Step)
    returns (sealed: bool, id: string, event: LabEvent, at: int)
    ensures Next(hash, w, step).log == if sealed then w.log + [Seal(hash, w.log, id, event, at)] else w.log
  {
    var log := Next(hash, w, step).log;
    sealed := log != w.log;
    id, event, at := "", BroadcastRejected, 0;
    if sealed {
      var body := log[|log| - 1].body;
      id, event, at := body.subject, body.event, body.recordedAt;
    }
  }

  /** The chain of every execution in every reachable lab passes verification. */
  lemma {:induction false} EveryLogVerifies(hash: Body<LabEvent> -> string, w: Lab, steps: seq<Step>)
    requires LogVerified(hash, w.log)
    ensures LogVerified(hash, Run(hash, w, steps).log)
    decreases |steps|
  {
    if |steps| > 0 {
      var sealed, id, event, at := NextSealsOne(hash, w, steps[0]);
      if sealed {
        WriteKeepsLog(hash, w.log, id, event, at);
      }
      EveryLogVerifies(hash, Next(hash, w, steps[0]), steps[1..]);
    }
  }
}
