/** What a whole call of the lab comes to, and that the event log alone tells what has become of an execution. */
module FailureLabAnswers {
  import opened Tables
  import opened HashChain
  import opened FailureLab
  import opened FailureLabTheorems
  import opened FailureLabRuntime

  // ----- one call, its three steps taken together

  /** The lab with one row in another state, one event richer. */
  predicate Marked(w: Lab, id: string, row: LabRow, event: LabEvent, at: int, w': Lab)
  {
    && w'.rows == w.rows[id := row] && |w'.log| == |w.log| + 1 && w'.log[..|w.log|] == w.log
    && w'.log[|w.log|].body.subject == id && w'.log[|w.log|].body.event == event
    && w'.log[|w.log|].body.recordedAt == at
  }

  /** Registration: an unused execution of an unused obligation, as given; otherwise nothing. */
  lemma RegistersExactly(hash: Body<LabEvent> -> string, w: Lab, id: string, obligationId: string,
                         messageHash: string, validUntil: int, at: int, w': Lab)
    requires w' == Next(hash, w, Register(id, obligationId, messageHash, validUntil, at))
    ensures if id !in w.rows && forall other :: other in w.rows ==> w.rows[other].obligationId != obligationId then
              && Marked(w, id, LabRow(obligationId, messageHash, validUntil, Authorized, None, "", 0, 0),
                        Registered(messageHash, obligationId), at, w')
              && (w'.effects, w'.calls, w'.threads) == (w.effects, w.calls, w.threads)
            else w' == w
  {
  }

  /** A signature is stored once, with its transaction hash, before any broadcast. */
  lemma SignsExactly(hash: Body<LabEvent> -> string, w: Lab, id: string, signature: string, transactionHash: string,
                     at: int, w': Lab)
    requires w' == Next(hash, w, PersistSignature(id, signature, transactionHash, at))
    ensures if id in w.rows && w.rows[id].state.Authorized? then
              && Marked(w, id, w.rows[id].(state := Signed, signature := Some(signature),
                                           transactionHash := transactionHash),
                        SignaturePersisted(signature, transactionHash), at, w')
              && (w'.effects, w'.calls, w'.threads) == (w.effects, w.calls, w.threads)
            else w' == w
  {
  }

  /** What the chain does with one broadcast, and the state the caller then writes; nothing if the chain objects. */
  predicate ChainDoes(w: Lab, row: LabRow, mode: BroadcastMode, effects: map<string, string>, to: Option<LabState>)
    requires row.signature.Some?
  {
    match mode
    case UnavailableBeforeAcceptance => effects == w.effects && to == Some(BroadcastFailedKnown)
    case UnknownWithoutEffect => effects == w.effects && to == Some(NeedsRecovery)
    case _ =>
      if row.obligationId in w.effects && w.effects[row.obligationId] != row.signature.value then
        effects == w.effects && to == None
      else
        && effects == w.effects[row.obligationId := row.signature.value]
        && to == Some(if mode.Success? then Confirmed else NeedsRecovery)
  }

  /** A crash before the call leaves the chain alone; otherwise there is exactly one call. */
  ghost predicate Executed(w: Lab, id: string, mode: BroadcastMode, crash: bool, w': Lab)
    requires id in w.rows && w.rows[id].signature.Some?
  {
    var row := w.rows[id];
    && w'.threads == w.threads && w'.calls == (if crash then w.calls else w.calls + 1)
    && exists to: Option<LabState> ::
         && (if crash then w'.effects == w.effects && to == Some(NeedsRecovery)
             else ChainDoes(w, row, mode, w'.effects, to))
         && w'.rows == w.rows[id := row.(state := if to.Some? then to.value else BroadcastInFlight,
                                         broadcasts := row.broadcasts + 1)]
  }

  lemma BegunIs(hash: Body<LabEvent> -> string, w: Lab, id: string, at: int, w1: Lab)
    requires w.threads == map[] && w1 == DoBeginExecute(hash, w, 0, id, at)
    ensures if Broadcastable(w, id, at) then
              var row := w.rows[id];
              && Marked(w, id, row.(state := BroadcastInFlight, broadcasts := row.broadcasts + 1),
                        IntentPersisted(row.broadcasts + 1, row.signature.value), at, w1)
              && w1.threads == map[0 := Broadcasting(id, row.signature.value, row.obligationId)]
              && w1.effects == w.effects && w1.calls == w.calls
            else if Lapsed(w, id, at) then
              && Marked(w, id, w.rows[id].(state := ExpiredRequiresNewPrepare),
                        BlockhashExpired(w.rows[id].broadcasts), at, w1)
              && (w1.effects, w1.calls, w1.threads) == (w.effects, w.calls, w.threads)
            else w1 == w
  {
  }

  lemma CalledIs(hash: Body<LabEvent> -> string, w: Lab, w1: Lab, id: string, row: LabRow, mode: BroadcastMode,
                 crash: bool, w2: Lab) returns (to: Option<LabState>)
    requires row.signature.Some? && w1.effects == w.effects && w1.calls == w.calls
    requires w1.threads == map[0 := Broadcasting(id, row.signature.value, row.obligationId)]
    requires w2 == if crash then Next(hash, w1, CrashBeforeCall(0)) else DoBroadcast(w1, 0, mode)
    ensures if crash then w2.effects == w.effects && to == Some(NeedsRecovery)
            else ChainDoes(w, row, mode, w2.effects, to)
    ensures w2.calls == (if crash then w.calls else w.calls + 1) && w2.rows == w1.rows && w2.log == w1.log
    ensures w2.threads == if to.None? then map[] else map[0 := Concluding(id, to.value)]
  {
    assert w1.threads - {0} == map[];
    to := if 0 in w2.threads then Some(w2.threads[0].to) else None;
  }

  /** A whole call of execute, crash or not, on a lab at rest. */
  lemma ExecutesExactly(hash: Body<LabEvent> -> string, w: Lab, id: string, at: int, mode: BroadcastMode, crash: bool,
                        w': Lab)
    requires w.threads == map[] && w' == Run(hash, w, ExecuteSteps(id, at, mode, crash))
    ensures if Broadcastable(w, id, at) then Executed(w, id, mode, crash, w')
            else if Lapsed(w, id, at) then
              && Marked(w, id, w.rows[id].(state := ExpiredRequiresNewPrepare),
                        BlockhashExpired(w.rows[id].broadcasts), at, w')
              && (w'.effects, w'.calls, w'.threads) == (w.effects, w.calls, w.threads)
            else w' == w
  {
    var w1 := DoBeginExecute(hash, w, 0, id, at);
    var w2 := if crash then Next(hash, w1, CrashBeforeCall(0)) else DoBroadcast(w1, 0, mode);
    var w3 := DoConclude(hash, w2, 0, at);
    ExecuteComposed(hash, w, w1, w2, w3, id, at, mode, crash);
    BegunIs(hash, w, id, at, w1);
    if Broadcastable(w, id, at) {
      BroadcastIs(hash, w, w1, w2, w3, id, at, mode, crash);
    }
  }

  lemma BroadcastIs(hash: Body<LabEvent> -> string, w: Lab, w1: Lab, w2: Lab, w3: Lab, id: string, at: int,
                    mode: BroadcastMode, crash: bool)
    requires Broadcastable(w, id, at) && w.threads == map[] && w1.effects == w.effects && w1.calls == w.calls
    requires var row := w.rows[id];
             && w1.rows == w.rows[id := row.(state := BroadcastInFlight, broadcasts := row.broadcasts + 1)]
             && w1.threads == map[0 := Broadcasting(id, row.signature.value, row.obligationId)]
    requires w2 == if crash then Next(hash, w1, CrashBeforeCall(0)) else DoBroadcast(w1, 0, mode)
    requires w3 == DoConclude(hash, w2, 0, at)
    ensures Executed(w, id, mode, crash, w3)
  {
    var to := CalledIs(hash, w, w1, id, w.rows[id], mode, crash, w2);
    ConcludedIs(hash, w2, id, to, at, w3);
  }

  lemma ConcludedIs(hash: Body<LabEvent> -> string, w: Lab, id: string, to: Option<LabState>, at: int, w': Lab)
    requires id in w.rows && w.rows[id].state.BroadcastInFlight?
    requires w.threads == (if to.None? then map[] else map[0 := Concluding(id, to.value)])
    requires w' == DoConclude(hash, w, 0, at)
    ensures w'.threads == map[] && w'.effects == w.effects && w'.calls == w.calls
    ensures w'.rows == if to.None? then w.rows else w.rows[id := w.rows[id].(state := to.value)]
  {
    assert w.threads - {0} == map[];
  }

  /** A whole call of recover on a lab at rest: it counts, looks, and confirms exactly what an available chain shows. */
  lemma RecoversExactly(hash: Body<LabEvent> -> string, w: Lab, id: string, at: int, view: ObservationMode, w': Lab)
    requires w.threads == map[] && w' == Run(hash, w, RecoverSteps(id, at, view))
    ensures (w'.effects, w'.calls, w'.threads) == (w.effects, w.calls, w.threads)
    ensures if Recoverable(w, id) then
              var row := w.rows[id];
              var shown := view.Available? && exists o :: o in w.effects && w.effects[o] == row.signature.value;
              w'.rows == w.rows[id := row.(state := if shown then Confirmed else NeedsRecovery,
                                           recoveries := row.recoveries + 1)]
            else w' == w
  {
    var w1 := DoBeginRecover(w, 0, id);
    var w2 := DoObserve(w1, 0, view);
    var w3 := DoReport(hash, w2, 0, at);
    RecoverComposed(hash, w, w1, w2, w3, id, at, view);
    if Recoverable(w, id) {
      LookedIs(hash, w, w1, w2, id, view);
      ReportedIs(hash, w2, id, w2.threads[0].seen, at, w3);
    }
  }

  /** The recovery is counted, and what the chain shows is held. */
  lemma LookedIs(hash: Body<LabEvent> -> string, w: Lab, w1: Lab, w2: Lab, id: string, view: ObservationMode)
    requires w.threads == map[] && Recoverable(w, id) && w1 == DoBeginRecover(w, 0, id) && w2 == DoObserve(w1, 0, view)
    ensures w2.rows == w.rows[id := w.rows[id].(recoveries := w.rows[id].recoveries + 1)]
    ensures w2.effects == w.effects && w2.calls == w.calls
    ensures 0 in w2.threads && w2.threads == map[0 := Reporting(id, w2.threads[0].seen)]
    ensures w2.threads[0].seen.SeenConfirmed? <==>
              view.Available? && exists o :: o in w.effects && w.effects[o] == w.rows[id].signature.value
  {
  }

  lemma ReportedIs(hash: Body<LabEvent> -> string, w: Lab, id: string, seen: Sighting, at: int, w': Lab)
    requires w.threads == map[0 := Reporting(id, seen)] && id in w.rows && w.rows[id].state.NeedsRecovery?
    requires w' == DoReport(hash, w, 0, at)
    ensures w'.threads == map[] && w'.effects == w.effects && w'.calls == w.calls
    ensures w'.rows == w.rows[id := w.rows[id].(state := if seen.SeenConfirmed? then Confirmed else NeedsRecovery)]
  {
    assert w.threads - {0} == map[];
    assert w.rows[id := w.rows[id]] == w.rows;
  }

  /** A crash between two transactions loses what the call had learned and nothing that was written. */
  lemma CrashLosesTheCall(hash: Body<LabEvent> -> string, w: Lab, k: nat)
    ensures var w' := Next(hash, w, Die(k));
            && k !in w'.threads
            && (forall l :: l in w.threads && l != k ==> l in w'.threads && w'.threads[l] == w.threads[l])
            && (w'.rows, w'.log, w'.effects, w'.calls) == (w.rows, w.log, w.effects, w.calls)
  {
  }

  // ----- the log tells the row

  /** What the events of an execution say about it. */
  datatype Story = Story(
    obligationId: string, messageHash: string, state: LabState, signature: Option<string>, transactionHash: string,
    broadcasts: nat)

  function StoryOf(row: LabRow): Story
  {
    Story(row.obligationId, row.messageHash, row.state, row.signature, row.transactionHash, row.broadcasts)
  }

  /** Each event carries what it changed. */
  function Heard(past: Option<Story>, event: LabEvent): Option<Story>
  {
    match event
    case Registered(messageHash, obligationId) => Some(Story(obligationId, messageHash, Authorized, None, "", 0))
    case _ =>
      if past.None? then None
      else
        var s := past.value;
        match event
        case SignaturePersisted(signature, transactionHash) =>
          Some(s.(state := Signed, signature := Some(signature), transactionHash := transactionHash))
        case BlockhashExpired(broadcasts) => Some(s.(state := ExpiredRequiresNewPrepare, broadcasts := broadcasts))
        case IntentPersisted(attempt, signature) =>
          Some(s.(state := BroadcastInFlight, broadcasts := attempt, signature := Some(signature)))
        case BroadcastRejected => Some(s.(state := BroadcastFailedKnown))
        case OutcomeUnknown => Some(s.(state := NeedsRecovery))
        case BroadcastConfirmed => Some(s.(state := Confirmed))
        case RecoveryConfirmed => Some(s.(state := Confirmed))
        case _ => past
  }

  function Told(history: seq<Link<LabEvent>>): Option<Story>
  {
    if |history| == 0 then None
    else Heard(Told(history[..|history| - 1]), history[|history| - 1].body.event)
  }

  /** Replaying the events of each execution gives what its row says. */
  ghost predicate LogTells(w: Lab)
  {
    && (forall id :: id in w.rows ==> Told(Of(w.log, id)) == Some(StoryOf(w.rows[id])))
    && (forall id :: id !in w.rows ==> Of(w.log, id) == [])
  }

  lemma OfExtended(log: seq<Link<LabEvent>>, link: Link<LabEvent>, id: string)
    ensures Of(log + [link], id) == if link.body.subject == id then Of(log, id) + [link] else Of(log, id)
  {
    assert (log + [link])[..|log|] == log;
  }

  /** An event tells one execution's new row when it tells how the old one became it. */
  predicate Carries(w: Lab, id: string, row: LabRow, event: LabEvent)
  {
    Heard(if id in w.rows then Some(StoryOf(w.rows[id])) else None, event) == Some(StoryOf(row))
  }

  lemma ToldExtended(history: seq<Link<LabEvent>>, link: Link<LabEvent>)
    ensures Told(history + [link]) == Heard(Told(history), link.body.event)
  {
    assert (history + [link])[..|history|] == history;
  }

  lemma WriteTells(hash: Body<LabEvent> -> string, w: Lab, id: string, row: LabRow, event: LabEvent, at: int, w': Lab)
    requires LogTells(w) && Carries(w, id, row, event)
    requires w'.rows == w.rows[id := row] && w'.log == w.log + [Seal(hash, w.log, id, event, at)]
    ensures LogTells(w')
  {
    var link := Seal(hash, w.log, id, event, at);
    ToldExtended(Of(w.log, id), link);
    forall other ensures Of(w'.log, other) == if other == id then Of(w.log, id) + [link] else Of(w.log, other) {
      OfExtended(w.log, link, other);
    }
    TellsAll(w, id, row, event, link, w');
  }

  lemma TellsAll(w: Lab, id: string, row: LabRow, event: LabEvent, link: Link<LabEvent>, w': Lab)
    requires LogTells(w) && Carries(w, id, row, event) && w'.rows == w.rows[id := row]
    requires Told(Of(w'.log, id)) == Heard(Told(Of(w.log, id)), event) && Of(w.log, id) + [link] == Of(w'.log, id)
    requires forall other :: other != id ==> Of(w'.log, other) == Of(w.log, other)
    ensures LogTells(w')
  {
  }

  /** A step that writes no event changes no row's story. */
  lemma QuietTells(w: Lab, w': Lab)
    requires LogTells(w) && Quiet(w, w')
    ensures LogTells(w')
  {
  }

  /** No row's story changes. */
  ghost predicate Quiet(w: Lab, w': Lab)
  {
    && w'.log == w.log && w'.rows.Keys == w.rows.Keys
    && forall id :: id in w.rows ==> StoryOf(w'.rows[id]) == StoryOf(w.rows[id])
  }

  /** One row's new story is told in one event. */
  ghost predicate Tells(hash: Body<LabEvent> -> string, w: Lab, id: string, event: LabEvent, at: int, w': Lab)
  {
    && id in w'.rows && w'.rows == w.rows[id := w'.rows[id]]
    && w'.log == w.log + [Seal(hash, w.log, id, event, at)] && Carries(w, id, w'.rows[id], event)
  }

  lemma ReportTells(hash: Body<LabEvent> -> string, w: Lab, k: nat, at: int, w': Lab)
    returns (id: string, event: LabEvent)
    requires w' == DoReport(hash, w, k, at)
    ensures Quiet(w, w') || Tells(hash, w, id, event, at, w')
  {
    id, event := "", BroadcastRejected;
    if k in w.threads && w.threads[k].Reporting? {
      id := w.threads[k].id;
      event := if w.threads[k].seen.SeenConfirmed? then RecoveryConfirmed else StillUnknown(w.threads[k].seen);
      if id in w.rows {
        assert w.rows[id := w.rows[id]] == w.rows;
      }
    }
  }

  lemma ConcludeTells(hash: Body<LabEvent> -> string, w: Lab, k: nat, at: int, w': Lab)
    returns (id: string, event: LabEvent)
    requires ThreadsSafe(w.threads, w.rows, w.effects) && w' == DoConclude(hash, w, k, at)
    ensures Quiet(w, w') || Tells(hash, w, id, event, at, w')
  {
    id, event := "", BroadcastRejected;
    if k in w.threads && w.threads[k].Concluding? {
      assert ThreadSafe(w.threads[k], w.rows, w.effects);
      id, event := w.threads[k].id, ConclusionEvent(w.threads[k].to);
    }
  }

  lemma BeginTells(hash: Body<LabEvent> -> string, w: Lab, k: nat, id: string, at: int, w': Lab)
    returns (event: LabEvent)
    requires w' == DoBeginExecute(hash, w, k, id, at)
    ensures Quiet(w, w') || Tells(hash, w, id, event, at, w')
  {
    event := if Lapsed(w, id, at) then BlockhashExpired(w.rows[id].broadcasts)
             else if id in w.rows && w.rows[id].signature.Some? then
               IntentPersisted(w.rows[id].broadcasts + 1, w.rows[id].signature.value)
             else OutcomeUnknown;
  }

  /** Each step keeps every row's story, or tells one row's new story in one event. */
  lemma StepTells(hash: Body<LabEvent> -> string, w: Lab, step: Step, w': Lab)
    returns (id: string, event: LabEvent, at: int)
    requires ThreadsSafe(w.threads, w.rows, w.effects) && w' == Next(hash, w, step)
    ensures Quiet(w, w') || Tells(hash, w, id, event, at, w')
  {
    id, event, at := "", BroadcastRejected, 0;
    match step
    case Register(i, obligationId, messageHash, _, t) =>
      id, event, at := i, Registered(messageHash, obligationId), t;
    case PersistSignature(i, signature, transactionHash, t) =>
      id, event, at := i, SignaturePersisted(signature, transactionHash), t;
    case BeginExecute(k, i, t) =>
      id, at := i, t;
      event := BeginTells(hash, w, k, i, t, w');
    case Conclude(k, t) =>
      at := t;
      id, event := ConcludeTells(hash, w, k, t, w');
    case Report(k, t) =>
      at := t;
      id, event := ReportTells(hash, w, k, t, w');
    case _ =>
  }

  /** In every run, with crashes anywhere, replaying an execution's events gives exactly what its row says. */
  lemma {:induction false} EveryLogTells(hash: Body<LabEvent> -> string, w: Lab, steps: seq<Step>)
    requires Safe(w) && LogTells(w)
    ensures LogTells(Run(hash, w, steps))
    decreases |steps|
  {
    if |steps| > 0 {
      var w' := Next(hash, w, steps[0]);
      var id, event, at := StepTells(hash, w, steps[0], w');
      if Quiet(w, w') {
        QuietTells(w, w');
      } else {
        WriteTells(hash, w, id, w'.rows[id], event, at, w');
      }
      NextKeepsSafe(hash, w, steps[0]);
      EveryLogTells(hash, w', steps[1..]);
    }
  }
}
