/**
 * The failure lab: a durable execution journal broadcasting to a simulated chain.
 *
 * `execute` and `recover` are several transactions with a chain call between them; a thread holds what one
 * of them has learned so far, and may die between any two transactions.
 */
module FailureLab {
  import opened Tables
  import opened HashChain

  datatype LabState =
    | Authorized | Signed | BroadcastInFlight | Confirmed | BroadcastFailedKnown | NeedsRecovery
    | ExpiredRequiresNewPrepare

  datatype LabRow = LabRow(
    obligationId: string, messageHash: string, validUntil: int, state: LabState,
    signature: Option<string>, transactionHash: string, broadcasts: nat, recoveries: nat)

  datatype LabEvent =
    | Registered(messageHash: string, obligationId: string)
    | SignaturePersisted(signature: string, transactionHash: string)
    | BlockhashExpired(broadcasts: nat)
    | IntentPersisted(attempt: nat, signature: string)
    | BroadcastRejected | OutcomeUnknown | BroadcastConfirmed | RecoveryConfirmed
    | StillUnknown(seen: Sighting)

  /** What a recovery saw. */
  datatype Sighting = SeenConfirmed | NotFound | SeenUnknown | SourceUnavailable

  datatype BroadcastMode = Success | AcceptedResponseLost | UnavailableBeforeAcceptance | UnknownWithoutEffect

  datatype ObservationMode = Available | Unavailable | Unclear

  datatype Thread =
    | Broadcasting(id: string, signature: string, obligationId: string)   // intent persisted, chain not called yet
    | Concluding(id: string, to: LabState)                                // outcome known, not written yet
    | Observing(id: string, signature: string)                            // recovery counted, chain not asked yet
    | Reporting(id: string, seen: Sighting)                               // sighting not written yet

  datatype Lab = Lab(
    rows: map<string, LabRow>, log: seq<Link<LabEvent>>, effects: map<string, string>, calls: nat,
    threads: map<nat, Thread>)

  const EMPTY := Lab(map[], [], map[], 0, map[])

  datatype Step =
    | Register(id: string, obligationId: string, messageHash: string, validUntil: int, at: int)
    | PersistSignature(id: string, signature: string, transactionHash: string, at: int)
    | BeginExecute(k: nat, id: string, at: int)
    | CrashBeforeCall(k: nat)
    | Broadcast(k: nat, mode: BroadcastMode)
    | Conclude(k: nat, at: int)
    | BeginRecover(k: nat, id: string, at: int)
    | Observe(k: nat, view: ObservationMode)
    | Report(k: nat, at: int)
    | Die(k: nat)

  function Write(hash: Body<LabEvent> -> string, w: Lab, id: string, row: LabRow, event: LabEvent, at: int): Lab
  {
    w.(rows := w.rows[id := row], log := w.log + [Seal(hash, w.log, id, event, at)])
  }

  function DoRegister(hash: Body<LabEvent> -> string, w: Lab, id: string, obligationId: string, messageHash: string,
                      validUntil: int, at: int): Lab
  {
    if (exists other :: other in w.rows && w.rows[other].obligationId == obligationId) || id in w.rows then w
    else Write(hash, w, id, LabRow(obligationId, messageHash, validUntil, Authorized, None, "", 0, 0),
               Registered(messageHash, obligationId), at)
  }

  function DoPersistSignature(hash: Body<LabEvent> -> string, w: Lab, id: string, signature: string,
                              transactionHash: string, at: int): Lab
  {
    if id !in w.rows || !w.rows[id].state.Authorized? then w
    else Write(hash, w, id,
      w.rows[id].(state := Signed, signature := Some(signature), transactionHash := transactionHash),
               SignaturePersisted(signature, transactionHash), at)
  }

  /** The first transaction of execute: expire, or persist the intent before the chain is called. */
  function DoBeginExecute(hash: Body<LabEvent> -> string, w: Lab, k: nat, id: string, at: int): Lab
  {
    if k in w.threads || id !in w.rows || !w.rows[id].state.Signed? || w.rows[id].signature.None? then w
    else
      var row := w.rows[id];
      if row.validUntil <= at then
        Write(hash, w, id, row.(state := ExpiredRequiresNewPrepare), BlockhashExpired(row.broadcasts), at)
      else
        Write(hash, w, id, row.(state := BroadcastInFlight, broadcasts := row.broadcasts + 1),
              IntentPersisted(row.broadcasts + 1, row.signature.value), at)
          .(threads := w.threads[k := Broadcasting(id, row.signature.value, row.obligationId)])
  }

  /** Would this broadcast meet an effect of the same obligation under another signature? */
  predicate Conflicts(w: Lab, obligationId: string, signature: string)
  {
    obligationId in w.effects && w.effects[obligationId] != signature
  }

  /** `SimulatedChain.broadcast`, as the calling thread learns of it. */
  function DoBroadcast(w: Lab, k: nat, mode: BroadcastMode): Lab
  {
    if k !in w.threads || !w.threads[k].Broadcasting? then w
    else
      var th := w.threads[k];
      match mode
      case UnavailableBeforeAcceptance =>
        w.(calls := w.calls + 1, threads := w.threads[k := Concluding(th.id, BroadcastFailedKnown)])
      case UnknownWithoutEffect =>
        w.(calls := w.calls + 1, threads := w.threads[k := Concluding(th.id, NeedsRecovery)])
      case _ =>
        if Conflicts(w, th.obligationId, th.signature) then w.(calls := w.calls + 1, threads := w.threads - {k})
        else w.(calls := w.calls + 1, effects := w.effects[th.obligationId := th.signature],
                threads := w.threads[k := Concluding(th.id, if mode.Success? then Confirmed else NeedsRecovery)])
  }

  function ConclusionEvent(to: LabState): LabEvent
  {
    if to.Confirmed? then BroadcastConfirmed else if to.BroadcastFailedKnown? then BroadcastRejected else OutcomeUnknown
  }

  function DoConclude(hash: Body<LabEvent> -> string, w: Lab, k: nat, at: int): Lab
  {
    if k !in w.threads || !w.threads[k].Concluding? then w
    else
      var th, rest := w.threads[k], w.threads - {k};
      if th.id !in w.rows || !w.rows[th.id].state.BroadcastInFlight? then w.(threads := rest)
      else Write(hash, w, th.id, w.rows[th.id].(state := th.to), ConclusionEvent(th.to), at).(threads := rest)
  }

  function DoBeginRecover(w: Lab, k: nat, id: string): Lab
  {
    if k in w.threads || id !in w.rows || !w.rows[id].state.NeedsRecovery? || w.rows[id].signature.None? then w
    else w.(rows := w.rows[id := w.rows[id].(recoveries := w.rows[id].recoveries + 1)],
            threads := w.threads[k := Observing(id, w.rows[id].signature.value)])
  }

  function DoObserve(w: Lab, k: nat, mode: ObservationMode): Lab
  {
    if k !in w.threads || !w.threads[k].Observing? then w
    else
      var th := w.threads[k];
      var seen :=
        if mode.Unavailable? then SourceUnavailable
        else if mode.Unclear? then SeenUnknown
        else if th.signature in w.effects.Values then SeenConfirmed else NotFound;
      w.(threads := w.threads[k := Reporting(th.id, seen)])
  }

  function DoReport(hash: Body<LabEvent> -> string, w: Lab, k: nat, at: int): Lab
  {
    if k !in w.threads || !w.threads[k].Reporting? then w
    else
      var th, rest := w.threads[k], w.threads - {k};
      if th.id !in w.rows then w.(threads := rest)
      else if th.seen.SeenConfirmed? then
        if !w.rows[th.id].state.NeedsRecovery? then w.(threads := rest)
        else Write(hash, w, th.id, w.rows[th.id].(state := Confirmed), RecoveryConfirmed, at).(threads := rest)
      else Write(hash, w, th.id, w.rows[th.id], StillUnknown(th.seen), at).(threads := rest)
  }

  function Next(hash: Body<LabEvent> -> string, w: Lab, step: Step): Lab
  {
    match step
    case Register(id, obligationId, messageHash, validUntil, at) =>
      DoRegister(hash, w, id, obligationId, messageHash, validUntil, at)
    case PersistSignature(id, signature, transactionHash, at) =>
      DoPersistSignature(hash, w, id, signature, transactionHash, at)
    case BeginExecute(k, id, at) => DoBeginExecute(hash, w, k, id, at)
    case CrashBeforeCall(k) =>
      if k in w.threads && w.threads[k].Broadcasting? then
        w.(threads := w.threads[k := Concluding(w.threads[k].id, NeedsRecovery)])
      else w
    case Broadcast(k, mode) => DoBroadcast(w, k, mode)
    case Conclude(k, at) => DoConclude(hash, w, k, at)
    case BeginRecover(k, id, at) => DoBeginRecover(w, k, id)
    case Observe(k, mode) => DoObserve(w, k, mode)
    case Report(k, at) => DoReport(hash, w, k, at)
    case Die(k) => w.(threads := w.threads - {k})
  }

  function Run(hash: Body<LabEvent> -> string, w: Lab, steps: seq<Step>): Lab
    decreases |steps|
  {
    if |steps| == 0 then w else Run(hash, Next(hash, w, steps[0]), steps[1..])
  }

  predicate MayRematerialize(state: LabState)
  {
    state.Authorized? || state.Signed? || state.BroadcastFailedKnown? || state.ExpiredRequiresNewPrepare?
  }

  // ----- what a call finds

  /** Signed and still valid: the one state an execution is broadcast from. */
  predicate Broadcastable(w: Lab, id: string, at: int)
  {
    id in w.rows && w.rows[id].state.Signed? && w.rows[id].signature.Some? && at < w.rows[id].validUntil
  }

  predicate Lapsed(w: Lab, id: string, at: int)
  {
    id in w.rows && w.rows[id].state.Signed? && w.rows[id].signature.Some? && w.rows[id].validUntil <= at
  }

  /** Recovery has something to look for. */
  predicate Recoverable(w: Lab, id: string)
  {
    id in w.rows && w.rows[id].state.NeedsRecovery? && w.rows[id].signature.Some?
  }

  // ----- the invariant

  /** The obligation has its effect, under this row's signature. */
  predicate Applied(w: Lab, row: LabRow)
  {
    row.obligationId in w.effects && row.signature == Some(w.effects[row.obligationId])
  }

  predicate RowSafe(row: LabRow, effects: map<string, string>)
  {
    && (row.signature.None? <==> row.state.Authorized?)
    && row.broadcasts == (if row.state in {Authorized, Signed, ExpiredRequiresNewPrepare} then 0 else 1)
    && (MayRematerialize(row.state) ==> row.obligationId !in effects)
    && (row.state.Confirmed? ==> row.signature.value in effects.Values)
  }

  predicate ThreadSafe(th: Thread, rows: map<string, LabRow>, effects: map<string, string>)
  {
    && th.id in rows
    && var row := rows[th.id];
       match th
       case Broadcasting(_, signature, obligationId) =>
         row.state.BroadcastInFlight? && row.signature == Some(signature) && row.obligationId == obligationId
           && obligationId !in effects
       case Concluding(_, to) =>
         && row.state.BroadcastInFlight?
         && (to.Confirmed? ==> row.obligationId in effects && row.signature == Some(effects[row.obligationId]))
         && (to.BroadcastFailedKnown? ==> row.obligationId !in effects)
         && (to.Confirmed? || to.BroadcastFailedKnown? || to.NeedsRecovery?)
       case Observing(_, signature) => row.signature == Some(signature)
       case Reporting(_, seen) => row.signature.Some? && (seen.SeenConfirmed? ==> row.signature.value in effects.Values)
  }

  predicate Active(th: Thread) { th.Broadcasting? || th.Concluding? }

  ghost predicate ObligationsDistinct(rows: map<string, LabRow>)
  {
    forall a, b :: a in rows && b in rows && a != b ==> rows[a].obligationId != rows[b].obligationId
  }

  ghost predicate EffectsOwned(rows: map<string, LabRow>, effects: map<string, string>)
  {
    forall o :: o in effects ==>
      exists id :: id in rows && rows[id].obligationId == o && rows[id].signature == Some(effects[o])
  }

  ghost predicate ThreadsSafe(threads: map<nat, Thread>, rows: map<string, LabRow>, effects: map<string, string>)
  {
    && (forall k :: k in threads ==> ThreadSafe(threads[k], rows, effects))
    && (forall k, l :: k in threads && l in threads && k != l && Active(threads[k]) && Active(threads[l]) ==>
          threads[k].id != threads[l].id)
  }

  ghost predicate Safe(w: Lab)
  {
    && ObligationsDistinct(w.rows) && EffectsOwned(w.rows, w.effects)
    && (forall id :: id in w.rows ==> RowSafe(w.rows[id], w.effects))
    && ThreadsSafe(w.threads, w.rows, w.effects)
  }
}
