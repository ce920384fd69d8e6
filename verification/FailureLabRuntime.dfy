/** The simulated chain and the execution journal as objects: a whole call is a run of the lab's steps. */
module FailureLabRuntime {
  import opened Tables
  import opened HashChain
  import opened FailureLab

  datatype ChainReply = Accepted(signature: string) | NotAccepted | Undecided | ConflictingSignature

  datatype LabReply =
    | Receipt(signature: string) | Recovered(outcome: LabState, mayRematerialize: bool) | Done
    | RaisedInvalid | RaisedUnavailable | RaisedUnknown | RaisedCrash

  /** The steps one uninterrupted call takes; a refused first step makes the others do nothing. */
  function ExecuteSteps(id: string, at: int, mode: BroadcastMode, crash: bool): seq<Step>
  {
    [BeginExecute(0, id, at), if crash then CrashBeforeCall(0) else Broadcast(0, mode), Conclude(0, at)]
  }

  function RecoverSteps(id: string, at: int, view: ObservationMode): seq<Step>
  {
    [BeginRecover(0, id, at), Observe(0, view), Report(0, at)]
  }

  lemma ExecuteComposed(hash: Body<LabEvent> -> string, w0: Lab, w1: Lab, w2: Lab, w3: Lab, id: string, at: int,
                        mode: BroadcastMode, crash: bool)
    requires w1 == DoBeginExecute(hash, w0, 0, id, at)
    requires w2 == if crash then Next(hash, w1, CrashBeforeCall(0)) else DoBroadcast(w1, 0, mode)
    requires w3 == DoConclude(hash, w2, 0, at)
    ensures Run(hash, w0, ExecuteSteps(id, at, mode, crash)) == w3
  {
    var middle := if crash then CrashBeforeCall(0) else Broadcast(0, mode);
    assert Next(hash, w0, BeginExecute(0, id, at)) == w1 && Next(hash, w1, middle) == w2;
    assert Next(hash, w2, Conclude(0, at)) == w3;
    ThreeSteps(hash, w0, w1, w2, w3, BeginExecute(0, id, at), middle, Conclude(0, at));
  }

  lemma RecoverComposed(hash: Body<LabEvent> -> string, w0: Lab, w1: Lab, w2: Lab, w3: Lab, id: string, at: int,
                        view: ObservationMode)
    requires w1 == DoBeginRecover(w0, 0, id) && w2 == DoObserve(w1, 0, view) && w3 == DoReport(hash, w2, 0, at)
    ensures Run(hash, w0, RecoverSteps(id, at, view)) == w3
  {
    ThreeSteps(hash, w0, w1, w2, w3, BeginRecover(0, id, at), Observe(0, view), Report(0, at));
  }

  lemma ThreeSteps(hash: Body<LabEvent> -> string, w: Lab, w1: Lab, w2: Lab, w3: Lab, a: Step, b: Step, c: Step)
    requires w1 == Next(hash, w, a) && w2 == Next(hash, w1, b) && w3 == Next(hash, w2, c)
    ensures Run(hash, w, [a, b, c]) == w3
  {
    assert [a, b, c][1..] == [b, c] && [b, c][1..] == [c] && [c][1..] == [];
    assert Run(hash, w, [a, b, c]) == Run(hash, w1, [b, c]);
    assert Run(hash, w1, [b, c]) == Run(hash, w2, [c]);
    assert Run(hash, w2, [c]) == Run(hash, w3, []);
  }

  class SimulatedChain {
    var effects: map<string, string>
    var calls: nat
    var observationMode: ObservationMode

    constructor ()
      ensures effects == map[] && calls == 0 && observationMode == Available
    {
      effects, calls, observationMode := map[], 0, Available;
    }

    /** One effect per obligation, whatever is broadcast and however the response fares. */
    method Broadcast(signature: string, obligationId: string, mode: BroadcastMode) returns (r: ChainReply)
      modifies this`effects, this`calls
      ensures calls == old(calls) + 1
      ensures effects ==
                if mode.UnavailableBeforeAcceptance? || mode.UnknownWithoutEffect? || obligationId in old(effects)
                         then old(effects) else old(effects)[obligationId := signature]
      ensures r.NotAccepted? <==> mode.UnavailableBeforeAcceptance?
      ensures r.ConflictingSignature? <==>
                (mode.Success? || mode.AcceptedResponseLost?) && obligationId in old(effects)
                  && old(effects)[obligationId] != signature
      ensures r.Accepted? ==> mode.Success? && r.signature == signature
      ensures r.Undecided? ==> !mode.Success?
    {
      calls := calls + 1;
      if mode.UnavailableBeforeAcceptance? {
        return NotAccepted;
      }
      if mode.UnknownWithoutEffect? {
        return Undecided;
      }
      if obligationId !in effects {
        effects := effects[obligationId := signature];
      }
      if effects[obligationId] != signature {
        return ConflictingSignature;
      }
      r := if mode.AcceptedResponseLost? then Undecided else Accepted(signature);
    }

    method Observe(signature: string) returns (seen: Sighting)
      ensures seen.SeenConfirmed? <==> observationMode.Available? && exists o :: o in effects && effects[o] == signature
      ensures seen.NotFound? ==> observationMode.Available?
      ensures seen.SourceUnavailable? <==> observationMode.Unavailable?
      ensures seen.SeenUnknown? <==> observationMode.Unclear?
    {
      if observationMode.Unavailable? {
        return SourceUnavailable;
      }
      if observationMode.Unclear? {
        return SeenUnknown;
      }
      seen := if signature in effects.Values then SeenConfirmed else NotFound;
    }
  }

  class DurableExecutionLab {
    const hash: Body<LabEvent> -> string
    var rows: map<string, LabRow>
    var log: seq<Link<LabEvent>>

    constructor (hash: Body<LabEvent> -> string)
      ensures rows == map[] && log == [] && this.hash == hash
    {
      this.hash := hash;
      rows, log := map[], [];
    }

    /** The lab and its chain between calls. */
    ghost function World(chain: SimulatedChain): Lab
      reads this, chain
    {
      Lab(rows, log, chain.effects, chain.calls, map[])
    }

    /** The one thread that is about to call the chain for this execution. */
    ghost function BroadcastThread(id: string): map<nat, Thread>
      requires id in rows && rows[id].signature.Some?
      reads this
    {
      map[0 := Broadcasting(id, rows[id].signature.value, rows[id].obligationId)]
    }

    method AppendEvent(id: string, event: LabEvent, at: int)
      modifies this`log
      ensures log == old(log) + [Seal(hash, old(log), id, event, at)]
    {
      log := log + [Seal(hash, log, id, event, at)];
    }

    method Register(ghost chain: SimulatedChain, id: string, obligationId: string, messageHash: string,
                    validUntil: int, at: int)
      returns (r: LabReply)
      modifies this
      ensures World(chain) == DoRegister(hash, old(World(chain)), id, obligationId, messageHash, validUntil, at)
      ensures r.Done? <==>
                id !in old(rows) && forall other :: other in old(rows) ==> old(rows)[other].obligationId != obligationId
      ensures !r.Done? ==> r.RaisedInvalid? && rows == old(rows) && log == old(log)
    {
      if exists other :: other in rows && rows[other].obligationId == obligationId {
        return RaisedInvalid;
      }
      if id in rows {
        return RaisedInvalid;
      }
      rows := rows[id := LabRow(obligationId, messageHash, validUntil, Authorized, None, "", 0, 0)];
      AppendEvent(id, Registered(messageHash, obligationId), at);
      r := Done;
    }

    method PersistSignature(ghost chain: SimulatedChain, id: string, signature: string, transactionHash: string,
                            at: int, crash: bool)
      returns (r: LabReply)
      modifies this
      ensures World(chain) ==
                if crash then old(World(chain))
                else DoPersistSignature(hash, old(World(chain)), id, signature, transactionHash, at)
      ensures r.Done? ==> id in rows && rows[id].state.Signed? && rows[id].signature == Some(signature)
                          && rows[id].transactionHash == transactionHash
      ensures r.Done? <==> && !crash && id in old(rows)
                           && (|| old(rows)[id].state.Authorized?
                               || (&& old(rows)[id].state.Signed? && old(rows)[id].signature == Some(signature)
                                   && old(rows)[id].transactionHash == transactionHash))
      ensures r.RaisedCrash? <==> crash
      ensures !r.Done? ==> (r.RaisedInvalid? || r.RaisedCrash?) && rows == old(rows) && log == old(log)
    {
      if crash {
        return RaisedCrash;
      }
      if id !in rows {
        return RaisedInvalid;
      }
      var row := rows[id];
      if row.state.Signed? {
        var same := row.signature == Some(signature) && row.transactionHash == transactionHash;
        return if same then Done else RaisedInvalid;
      }
      if !row.state.Authorized? {
        return RaisedInvalid;
      }
      rows := rows[id := row.(state := Signed, signature := Some(signature), transactionHash := transactionHash)];
      AppendEvent(id, SignaturePersisted(signature, transactionHash), at);
      r := Done;
    }

    /** Moves a row that is still in the expected state, and records it. */
    method Transition(id: string, from: LabState, to: LabState, event: LabEvent, at: int) returns (moved: bool)
      modifies this
      ensures moved <==> id in old(rows) && old(rows)[id].state == from
      ensures moved ==>
                rows == old(rows)[id := old(rows)[id].(state := to)]
                  && log == old(log) + [Seal(hash, old(log), id, event, at)]
      ensures !moved ==> rows == old(rows) && log == old(log)
    {
      if id !in rows || rows[id].state != from {
        return false;
      }
      rows := rows[id := rows[id].(state := to)];
      AppendEvent(id, event, at);
      moved := true;
    }

    /** The first transaction of Execute. */
    method PersistIntent(ghost chain: SimulatedChain, id: string, at: int) returns (begun: bool)
      modifies this
      ensures begun ==> id in rows && rows[id].state.BroadcastInFlight? && rows[id].signature.Some?
      ensures begun ==> DoBeginExecute(hash, old(World(chain)), 0, id, at)
                        == World(chain).(threads := BroadcastThread(id))
      ensures !begun ==> DoBeginExecute(hash, old(World(chain)), 0, id, at) == World(chain)
      ensures begun <==> Broadcastable(old(World(chain)), id, at)
      ensures begun ==> rows[id].obligationId == old(rows)[id].obligationId
                        && rows[id].signature == old(rows)[id].signature
    {
      if id !in rows || !rows[id].state.Signed? || rows[id].signature.None? {
        return false;
      }
      var row := rows[id];
      if row.validUntil <= at {
        rows := rows[id := row.(state := ExpiredRequiresNewPrepare)];
        AppendEvent(id, BlockhashExpired(row.broadcasts), at);
        return false;
      }
      rows := rows[id := row.(state := BroadcastInFlight, broadcasts := row.broadcasts + 1)];
      AppendEvent(id, IntentPersisted(row.broadcasts + 1, row.signature.value), at);
      begun := true;
    }

    /** The chain call of Execute: the state the row is to move to, or nothing when the chain objects. */
    method CallChain(chain: SimulatedChain, id: string, mode: BroadcastMode) returns (to: Option<LabState>)
      requires id in rows && rows[id].signature.Some?
      modifies chain`effects, chain`calls
      ensures DoBroadcast(old(World(chain)).(threads := BroadcastThread(id)), 0, mode)
              == World(chain).(threads := if to.None? then map[] else map[0 := Concluding(id, to.value)])
      ensures to.None? || to.value in {BroadcastFailedKnown, NeedsRecovery, Confirmed}
      ensures to.None? <==> && (mode.Success? || mode.AcceptedResponseLost?)
                            && Conflicts(old(World(chain)), rows[id].obligationId, rows[id].signature.value)
      ensures to == Some(BroadcastFailedKnown) <==> mode.UnavailableBeforeAcceptance?
      ensures to == Some(Confirmed) ==> mode.Success?
      ensures to == Some(NeedsRecovery) ==> mode.UnknownWithoutEffect? || mode.AcceptedResponseLost?
      ensures to == Some(Confirmed) ==> Applied(World(chain), rows[id])
      ensures to == Some(BroadcastFailedKnown) ==> chain.effects == old(chain.effects)
    {
      assert BroadcastThread(id) - {0} == map[];
      var answer := chain.Broadcast(rows[id].signature.value, rows[id].obligationId, mode);
      to := match answer
            case ConflictingSignature => None
            case NotAccepted => Some(BroadcastFailedKnown)
            case Undecided => Some(NeedsRecovery)
            case Accepted(_) => Some(Confirmed);
    }

    /** The last transaction of Execute. */
    method WriteOutcome(ghost chain: SimulatedChain, ghost w: Lab, id: string, to: LabState, at: int)
      requires id in rows && rows[id].state.BroadcastInFlight?
      requires w == World(chain).(threads := map[0 := Concluding(id, to)])
      modifies this
      ensures World(chain) == DoConclude(hash, w, 0, at)
      ensures rows == old(rows)[id := old(rows)[id].(state := to)]
    {
      assert w.threads - {0} == map[];
      var moved := Transition(id, BroadcastInFlight, to, ConclusionEvent(to), at);
    }

    /**
     * One broadcast attempt.  The intent is on disk before the chain is called, and what the caller is told
     * agrees with the row: an accepted broadcast is confirmed, a refused one is known to have failed, and
     * anything in between needs recovery.
     */
    method Execute(id: string, chain: SimulatedChain, at: int, mode: BroadcastMode, crash: bool) returns (r: LabReply)
      modifies this, chain`effects, chain`calls
      ensures World(chain) == Run(hash, old(World(chain)), ExecuteSteps(id, at, mode, crash))
      ensures r.Receipt? ==>
                id in rows && rows[id].state.Confirmed? && Applied(World(chain), rows[id])
                  && rows[id].signature == Some(r.signature)
      ensures r.RaisedUnavailable? ==>
                id in rows && rows[id].state.BroadcastFailedKnown? && chain.effects == old(chain.effects)
      ensures r.RaisedUnknown? || r.RaisedCrash? ==> id in rows && rows[id].state.NeedsRecovery?
      ensures !Broadcastable(old(World(chain)), id, at) ==> r.RaisedInvalid? && chain.calls == old(chain.calls)
      ensures Broadcastable(old(World(chain)), id, at) ==>
                var row := old(rows)[id];
                var heard, met := !crash && (mode.Success? || mode.AcceptedResponseLost?),
                                  Conflicts(old(World(chain)), row.obligationId, row.signature.value);
                && (r.RaisedCrash? <==> crash)
                && (r.RaisedUnavailable? <==> !crash && mode.UnavailableBeforeAcceptance?)
                && (r.RaisedInvalid? <==> heard && met)
                && (r.Receipt? <==> heard && !met && mode.Success?)
                && (r.RaisedUnknown? <==>
                      !crash && (mode.UnknownWithoutEffect? || (mode.AcceptedResponseLost? && !met)))
    {
      ghost var w0 := World(chain);
      var begun := PersistIntent(chain, id, at);
      if !begun {
        ExecuteComposed(hash, w0, World(chain), World(chain), World(chain), id, at, mode, crash);
        return RaisedInvalid;
      }
      ghost var w1 := World(chain).(threads := BroadcastThread(id));
      if crash {
        ghost var w2 := World(chain).(threads := map[0 := Concluding(id, NeedsRecovery)]);
        assert Next(hash, w1, CrashBeforeCall(0)) == w2;
        WriteOutcome(chain, w2, id, NeedsRecovery, at);
        ExecuteComposed(hash, w0, w1, w2, World(chain), id, at, mode, crash);
        return RaisedCrash;
      }
      var signature := rows[id].signature.value;
      var to := CallChain(chain, id, mode);
      if to.None? {
        ExecuteComposed(hash, w0, w1, World(chain), World(chain), id, at, mode, crash);
        return RaisedInvalid;
      }
      ghost var w2 := World(chain).(threads := map[0 := Concluding(id, to.value)]);
      WriteOutcome(chain, w2, id, to.value, at);
      ExecuteComposed(hash, w0, w1, w2, World(chain), id, at, mode, crash);
      r := match to.value
           case BroadcastFailedKnown => RaisedUnavailable
           case NeedsRecovery => RaisedUnknown
           case _ => Receipt(signature);
    }

    /** Recovery only reads the chain, never permits a retry, and confirms only what the chain shows. */
    method Recover(id: string, chain: SimulatedChain, at: int) returns (r: LabReply)
      modifies this
      ensures World(chain) == Run(hash, old(World(chain)), RecoverSteps(id, at, chain.observationMode))
      ensures r.RaisedInvalid? || (r.Recovered? && !r.mayRematerialize && id in rows && rows[id].state == r.outcome)
      ensures r.RaisedInvalid? ==> rows == old(rows) && log == old(log)
      ensures var settled := id in old(rows) && old(rows)[id].state.Confirmed?;
              && (r.Recovered? <==> settled || Recoverable(old(World(chain)), id))
              && (r.Recovered? && r.outcome.Confirmed? <==>
                    || settled
                    || (&& Recoverable(old(World(chain)), id) && chain.observationMode.Available?
                        && exists o :: o in chain.effects && chain.effects[o] == old(rows)[id].signature.value))
    {
      ghost var w0 := World(chain);
      ghost var view := chain.observationMode;
      if id !in rows || (!rows[id].state.Confirmed? && (!rows[id].state.NeedsRecovery? || rows[id].signature.None?)) {
        RecoverComposed(hash, w0, w0, w0, w0, id, at, view);
        return RaisedInvalid;
      }
      var row := rows[id];
      if row.state.Confirmed? {
        RecoverComposed(hash, w0, w0, w0, w0, id, at, view);
        return Recovered(Confirmed, false);
      }
      rows := rows[id := row.(recoveries := row.recoveries + 1)];
      ghost var w1 := World(chain).(threads := map[0 := Observing(id, row.signature.value)]);
      var seen := chain.Observe(row.signature.value);
      ghost var w2 := World(chain).(threads := map[0 := Reporting(id, seen)]);
      assert w2.threads - {0} == map[];
      if seen.SeenConfirmed? {
        var confirmed := Transition(id, NeedsRecovery, Confirmed, RecoveryConfirmed, at);
        r := Recovered(Confirmed, false);
      } else {
        AppendEvent(id, StillUnknown(seen), at);
        assert rows[id := rows[id]] == rows;
        r := Recovered(NeedsRecovery, false);
      }
      RecoverComposed(hash, w0, w1, w2, World(chain), id, at, view);
    }
  }
}
