/**
 * Durable issuance, expiry and consumption of execution authorizations.
 *
 * Issue and consume are one transaction each, undone when they raise.  Reading a state is a query followed by an
 * unguarded write, so it is two steps here.  Timestamps are seconds; comparing them as text is the same thing.
 */
module AuthorizationStore {
  import opened Tables

  datatype AuthorizationState = Issued | Consumed | Expired

  datatype Grant = Grant(authorizationId: string, requestId: string, body: string, issuedAt: int, expiresAt: int)

  datatype Row = Row(
    grant: Grant, obligationId: string, fingerprint: string, state: AuthorizationState, consumedAt: Option<int>)

  /** `due` holds the ids some reader has found expired and not written yet. */
  datatype Journal = Journal(rows: seq<Row>, due: set<string>)

  const EMPTY := Journal([], {})

  datatype Refusal = AuthorizationConflict | AuthorizationReplay | AuthorizationExpired | NotIssued | InvalidIdentifier

  datatype Reply = Granted(grant: Grant) | StateIs(state: AuthorizationState) | Refused(why: Refusal)

  function HasId(id: string): Row -> bool { (row: Row) => row.grant.authorizationId == id }

  function Find(rows: seq<Row>, id: string): (i: nat)
    ensures i <= |rows| && (i < |rows| ==> rows[i].grant.authorizationId == id)
    ensures i == |rows| ==> forall k :: 0 <= k < |rows| ==> rows[k].grant.authorizationId != id
  {
    FirstIndex(rows, HasId(id))
  }

  function Expire(row: Row, now: int): Row
  {
    if row.state.Issued? && row.grant.expiresAt <= now then row.(state := Expired) else row
  }

  /** UPDATE ... SET state = 'expired' WHERE state = 'issued' AND expires_at <= ? */
  function ExpireAll(rows: seq<Row>, now: int): (after: seq<Row>)
    ensures |after| == |rows| && forall i :: 0 <= i < |rows| ==> after[i] == Expire(rows[i], now)
  {
    seq(|rows|, i requires 0 <= i < |rows| => Expire(rows[i], now))
  }

  function ActiveFor(requestId: string, obligationId: string, now: int): Row -> bool
  {
    (row: Row) => row.state.Issued? && row.grant.expiresAt > now
      && (row.grant.requestId == requestId || row.obligationId == obligationId)
  }

  function DoIssue(s: Journal, g: Grant, obligationId: string, fingerprint: string, now: int): (Journal, Reply)
  {
    var rows := ExpireAll(s.rows, now);
    var i := Find(rows, g.authorizationId);
    if i < |rows| then
      if rows[i].fingerprint != fingerprint then (s, Refused(AuthorizationConflict))
      else if rows[i].state.Consumed? then (s, Refused(AuthorizationReplay))
      else if rows[i].state.Expired? then (s, Refused(AuthorizationExpired))
      else (s.(rows := rows), Granted(rows[i].grant))
    else if FirstIndex(rows, ActiveFor(g.requestId, obligationId, now)) < |rows| then
      (s, Refused(AuthorizationConflict))
    else (s.(rows := rows + [Row(g, obligationId, fingerprint, Issued, None)]), Granted(g))
  }

  function DoConsume(s: Journal, id: string, idOk: bool, now: int): (Journal, Reply)
  {
    var i := Find(s.rows, id);
    if !idOk then (s, Refused(InvalidIdentifier))
    else if i == |s.rows| then (s, Refused(NotIssued))
    else
      var row := s.rows[i];
      if row.state.Consumed? then (s, Refused(AuthorizationReplay))
      else if row.state.Expired? || row.grant.expiresAt <= now then (s, Refused(AuthorizationExpired))
      else (s.(rows := s.rows[i := row.(state := Consumed, consumedAt := Some(now))]), Granted(row.grant))
  }

  function DoReadState(s: Journal, id: string, idOk: bool, now: int): (Journal, Reply)
  {
    var i := Find(s.rows, id);
    if !idOk then (s, Refused(InvalidIdentifier))
    else if i == |s.rows| then (s, Refused(NotIssued))
    else if s.rows[i].state.Issued? && s.rows[i].grant.expiresAt <= now then (s.(due := s.due + {id}), StateIs(Expired))
    else (s, StateIs(s.rows[i].state))
  }

  /** UPDATE ... SET state = 'expired' WHERE authorization_id = ?, whatever the row has become since it was read. */
  function DoWriteExpired(s: Journal, id: string): Journal
  {
    var i := Find(s.rows, id);
    if id !in s.due || i == |s.rows| then s
    else Journal(s.rows[i := s.rows[i].(state := Expired)], s.due - {id})
  }

  function DoState(s: Journal, id: string, idOk: bool, now: int): (Journal, Reply)
  {
    var (read, reply) := DoReadState(s, id, idOk, now);
    (if read == s then s else DoWriteExpired(read, id), reply)
  }

  datatype Step =
    | Issue(grant: Grant, obligationId: string, fingerprint: string, now: int)
    | Consume(id: string, idOk: bool, now: int)
    | ReadState(id: string, idOk: bool, now: int)
    | WriteExpired(id: string)
    | Forget(id: string)                            // the reader died before writing

  function Next(s: Journal, step: Step): (Journal, Reply)
  {
    match step
    case Issue(g, obligationId, fingerprint, now) => DoIssue(s, g, obligationId, fingerprint, now)
    case Consume(id, idOk, now) => DoConsume(s, id, idOk, now)
    case ReadState(id, idOk, now) => DoReadState(s, id, idOk, now)
    case WriteExpired(id) => (DoWriteExpired(s, id), StateIs(Expired))
    case Forget(id) => (s.(due := s.due - {id}), StateIs(Expired))
  }

  function Run(s: Journal, steps: seq<Step>): Journal
    decreases |steps|
  {
    if |steps| == 0 then s else Run(Next(s, steps[0]).0, steps[1..])
  }

  // ----- the window an authorization is given

  function Earlier(a: int, b: int): int { if a < b then a else b }

  datatype WindowRefusal = TtlOutOfRange | InputExpired | SimulationFromFuture | PreparedOutlivesInputs | NoWindowLeft

  datatype WindowReply = Until(expiresAt: int) | NoWindow(why: WindowRefusal)

  /** min(current + ttl, plan, simulation, prepared), after the checks that precede it. */
  function Window(current: int, ttl: int, maxTtl: int, plan: int, simulatedAt: int, simulation: int,
                  prepared: int): WindowReply
  {
    if !(1 <= ttl <= maxTtl) then NoWindow(TtlOutOfRange)
    else if plan <= current then NoWindow(InputExpired)
    else if simulatedAt > current then NoWindow(SimulationFromFuture)
    else if simulation <= current then NoWindow(InputExpired)
    else if prepared <= current then NoWindow(InputExpired)
    else if prepared > plan || prepared > simulation then NoWindow(PreparedOutlivesInputs)
    else
      var expires := Earlier(Earlier(Earlier(current + ttl, plan), simulation), prepared);
      if expires <= current then NoWindow(NoWindowLeft) else Until(expires)
  }

  /** A granted window is never empty or longer than a minute, and only the ttl or the prepared execution ends it. */
  lemma WindowIsTight(current: int, ttl: int, maxTtl: int, plan: int, simulatedAt: int, simulation: int, prepared: int)
    requires 1 <= maxTtl <= 60
    ensures var r := Window(current, ttl, maxTtl, plan, simulatedAt, simulation, prepared);
            && r != NoWindow(NoWindowLeft)
            && (r.Until? ==> current < r.expiresAt <= current + 60 && r.expiresAt <= plan && r.expiresAt <= simulation
                             && r.expiresAt == Earlier(current + ttl, prepared))
  {
  }
}

/** One issued authorization per request and obligation; a spent one is never usable again. */
module AuthorizationTheorems {
  import opened Tables
  import opened AuthorizationStore

  ghost predicate Distinct(rows: seq<Row>)
  {
    forall i, j :: 0 <= i < j < |rows| ==> rows[i].grant.authorizationId != rows[j].grant.authorizationId
  }

  predicate Apart(a: Row, b: Row)
  {
    a.state.Issued? && b.state.Issued? ==> a.grant.requestId != b.grant.requestId && a.obligationId != b.obligationId
  }

  /** At most one issued row per execution request and per obligation. */
  ghost predicate OneIssued(rows: seq<Row>)
  {
    forall i, j :: 0 <= i < j < |rows| ==> Apart(rows[i], rows[j])
  }

  predicate RowSound(row: Row)
  {
    && (row.state.Consumed? ==> row.consumedAt.Some? && row.consumedAt.value < row.grant.expiresAt)
    && (row.state.Issued? ==> row.consumedAt.None?)
  }

  ghost predicate Good(s: Journal)
  {
    && Distinct(s.rows) && OneIssued(s.rows)
    && (forall i :: 0 <= i < |s.rows| ==> RowSound(s.rows[i]))
    && (forall id :: id in s.due ==> Find(s.rows, id) < |s.rows|)
  }

  /** A row only ever loses its issued state; everything else about it stands. */
  predicate Ages(a: Row, b: Row)
  {
    && b.grant == a.grant && b.obligationId == a.obligationId && b.fingerprint == a.fingerprint
    && (b.state == a.state || !b.state.Issued?) && (a.consumedAt.Some? ==> b.consumedAt == a.consumedAt)
  }

  /** Existing rows age in place; at most one issued row is added, with nothing issued beside it. */
  ghost predicate Grows(s: Journal, s': Journal)
  {
    && |s.rows| <= |s'.rows| <= |s.rows| + 1
    && (forall i :: 0 <= i < |s.rows| ==> Ages(s.rows[i], s'.rows[i]) && RowSound(s'.rows[i]))
    && (|s'.rows| > |s.rows| ==>
          var added := s'.rows[|s.rows|];
          && RowSound(added)
          && (forall i :: 0 <= i < |s.rows| ==>
                Apart(s'.rows[i], added) && s.rows[i].grant.authorizationId != added.grant.authorizationId))
  }

  /** Rewriting rows without touching their grants leaves each id where it was. */
  lemma {:induction false} FindStable(a: seq<Row>, b: seq<Row>, id: string)
    requires |a| == |b| && forall i :: 0 <= i < |a| ==> a[i].grant == b[i].grant
    ensures Find(a, id) == Find(b, id)
  {
  }

  lemma IssueGrows(s: Journal, g: Grant, obligationId: string, fingerprint: string, now: int, s': Journal)
    requires Good(s) && s' == DoIssue(s, g, obligationId, fingerprint, now).0
    ensures Grows(s, s') && s'.due == s.due
  {
    var rows := ExpireAll(s.rows, now);
    forall i | 0 <= i < |s.rows| ensures Ages(s.rows[i], rows[i]) && RowSound(rows[i]) {
      assert rows[i] == Expire(s.rows[i], now);
    }
    var active := ActiveFor(g.requestId, obligationId, now);
    if |s'.rows| > |s.rows| {
      var added := s'.rows[|s.rows|];
      forall i | 0 <= i < |s.rows|
        ensures Apart(s'.rows[i], added) && s.rows[i].grant.authorizationId != added.grant.authorizationId
      {
        assert s'.rows[i] == rows[i] == Expire(s.rows[i], now);
        assert !active(rows[i]);
      }
    }
  }

  lemma NextGrows(s: Journal, step: Step, s': Journal)
    requires Good(s) && s' == Next(s, step).0
    ensures Grows(s, s')
    ensures s'.due <= s.due || (step.ReadState? && s'.due == s.due + {step.id} && Find(s.rows, step.id) < |s.rows|)
  {
    if step.Issue? {
      IssueGrows(s, step.grant, step.obligationId, step.fingerprint, step.now, s');
    }
  }

  lemma GrowthKeepsGood(s: Journal, s': Journal)
    requires Good(s) && Grows(s, s')
    requires forall id :: id in s'.due ==> Find(s.rows, id) < |s.rows|
    ensures Good(s')
  {
    forall i, j | 0 <= i < j < |s'.rows|
      ensures Apart(s'.rows[i], s'.rows[j]) && s'.rows[i].grant.authorizationId != s'.rows[j].grant.authorizationId
    {
      assert Ages(s.rows[i], s'.rows[i]);
      if j < |s.rows| {
        assert Ages(s.rows[j], s'.rows[j]) && Apart(s.rows[i], s.rows[j]);
      }
    }
    forall id | id in s'.due ensures Find(s'.rows, id) < |s'.rows| {
      var i := Find(s.rows, id);
      assert Ages(s.rows[i], s'.rows[i]);
      assert s'.rows[i].grant.authorizationId == id;
    }
  }

  /** For any clock readings and any interleaving: at most one issued row per request and per obligation. */
  lemma {:induction false} RunKeepsGood(s: Journal, steps: seq<Step>)
    requires Good(s)
    ensures Good(Run(s, steps))
    decreases |steps|
  {
    if |steps| > 0 {
      var s' := Next(s, steps[0]).0;
      NextGrows(s, steps[0], s');
      GrowthKeepsGood(s, s');
      RunKeepsGood(s', steps[1..]);
    }
  }

  /** Once an authorization has left the issued state it can neither be consumed nor issued again, by any later step. */
  lemma {:induction false} SpentForever(s: Journal, steps: seq<Step>, i: nat)
    requires Good(s) && i < |s.rows| && !s.rows[i].state.Issued?
    ensures var x := Run(s, steps);
            && i < |x.rows| && x.rows[i].grant == s.rows[i].grant && !x.rows[i].state.Issued?
            && (s.rows[i].consumedAt.Some? ==> x.rows[i].consumedAt == s.rows[i].consumedAt)
            && forall idOk, now :: DoConsume(x, s.rows[i].grant.authorizationId, idOk, now).1.Refused?
    decreases |steps|
  {
    if |steps| == 0 {
      SpentIsRefused(s, i);
    } else {
      var s' := Next(s, steps[0]).0;
      NextGrows(s, steps[0], s');
      GrowthKeepsGood(s, s');
      assert Ages(s.rows[i], s'.rows[i]);
      SpentForever(s', steps[1..], i);
    }
  }

  lemma SpentIsRefused(s: Journal, i: nat)
    requires Distinct(s.rows) && i < |s.rows| && !s.rows[i].state.Issued?
    ensures forall idOk, now :: DoConsume(s, s.rows[i].grant.authorizationId, idOk, now).1.Refused?
  {
  }

  /** So between two successful consumptions of one id there can be no run at all. */
  lemma ConsumedAtMostOnce(s: Journal, id: string, now: int, steps: seq<Step>, later: int)
    requires Good(s) && DoConsume(s, id, true, now).1.Granted?
    ensures DoConsume(Run(DoConsume(s, id, true, now).0, steps), id, true, later).1.Refused?
  {
    var s' := DoConsume(s, id, true, now).0;
    var i := Find(s.rows, id);
    NextGrows(s, Consume(id, true, now), s');
    GrowthKeepsGood(s, s');
    assert s'.rows[i].state.Consumed?;
    SpentForever(s', steps, i);
  }

  /** A consumed row leaves that state exactly when a reader that saw it issued writes late. */
  lemma ConsumedLeftExactlyByLateExpiry(s: Journal, step: Step, s': Journal, i: nat)
    requires Good(s) && s' == Next(s, step).0 && i < |s.rows| && s.rows[i].state.Consumed?
    ensures i < |s'.rows|
    ensures s'.rows[i] != s.rows[i] <==>
              step == WriteExpired(s.rows[i].grant.authorizationId) && s.rows[i].grant.authorizationId in s.due
  {
    NextGrows(s, step, s');
    var id := s.rows[i].grant.authorizationId;
    assert Find(s.rows, id) == i;
    if step.Issue? {
      assert ExpireAll(s.rows, step.now)[i] == s.rows[i];
    }
  }

  /** The late write happens: read as overdue, consumed under an earlier clock, then overwritten. */
  lemma LateExpiryOverwritesConsumption()
    ensures var g := Grant("a", "r", "body", 0, 10);
            var s := Run(EMPTY, [Issue(g, "o", "f", 0), ReadState("a", true, 10), Consume("a", true, 9),
                                 WriteExpired("a")]);
            |s.rows| == 1 && s.rows[0].state.Expired? && s.rows[0].consumedAt == Some(9)
  {
    var g := Grant("a", "r", "body", 0, 10);
    var issued := Row(g, "o", "f", Issued, None);
    var a, b, c, d := Issue(g, "o", "f", 0), ReadState("a", true, 10), Consume("a", true, 9), WriteExpired("a");
    var s1, s2 := Journal([issued], {}), Journal([issued], {"a"});
    var s3 := Journal([issued.(state := Consumed, consumedAt := Some(9))], {"a"});
    assert ExpireAll([], 0) == [];
    assert Next(EMPTY, a).0 == s1;
    assert Find(s1.rows, "a") == 0 && Next(s1, b).0 == s2;
    assert Find(s2.rows, "a") == 0 && Next(s2, c).0 == s3;
    assert Find(s3.rows, "a") == 0;
    assert [a, b, c, d][1..] == [b, c, d] && [b, c, d][1..] == [c, d] && [c, d][1..] == [d] && [d][1..] == [];
    assert Run(EMPTY, [a, b, c, d]) == Run(s1, [b, c, d]);
    assert Run(s1, [b, c, d]) == Run(s2, [c, d]);
    assert Run(s2, [c, d]) == Run(s3, [d]);
    assert Run(s3, [d]) == Run(Next(s3, d).0, []);
  }

  // ----- calls that run to completion one at a time

  datatype Call =
    | CallIssue(grant: Grant, obligationId: string, fingerprint: string, now: int)
    | CallConsume(id: string, idOk: bool, now: int)
    | CallState(id: string, idOk: bool, now: int)

  function Apply(s: Journal, call: Call): (Journal, Reply)
  {
    match call
    case CallIssue(g, obligationId, fingerprint, now) => DoIssue(s, g, obligationId, fingerprint, now)
    case CallConsume(id, idOk, now) => DoConsume(s, id, idOk, now)
    case CallState(id, idOk, now) => DoState(s, id, idOk, now)
  }

  function Serial(s: Journal, calls: seq<Call>): Journal
    decreases |calls|
  {
    if |calls| == 0 then s else Serial(Apply(s, calls[0]).0, calls[1..])
  }

  /** What a serial call keeps: a well-formed journal and every row that has left the issued state. */
  ghost predicate Keeps(s: Journal, s': Journal)
  {
    && Good(s') && s'.due == {} && |s.rows| <= |s'.rows|
    && forall i :: 0 <= i < |s.rows| && !s.rows[i].state.Issued? ==> s'.rows[i] == s.rows[i]
  }

  lemma IssueKeeps(s: Journal, g: Grant, obligationId: string, fingerprint: string, now: int, s': Journal)
    requires Good(s) && s.due == {} && s' == DoIssue(s, g, obligationId, fingerprint, now).0
    ensures Keeps(s, s')
  {
    IssueGrows(s, g, obligationId, fingerprint, now, s');
    GrowthKeepsGood(s, s');
    forall i | 0 <= i < |s.rows| && !s.rows[i].state.Issued? ensures s'.rows[i] == s.rows[i] {
      assert ExpireAll(s.rows, now)[i] == s.rows[i];
    }
  }

  lemma ConsumeKeeps(s: Journal, id: string, idOk: bool, now: int, s': Journal)
    requires Good(s) && s.due == {} && s' == DoConsume(s, id, idOk, now).0
    ensures Keeps(s, s')
  {
    NextGrows(s, Consume(id, idOk, now), s');
    GrowthKeepsGood(s, s');
  }

  lemma StateKeeps(s: Journal, id: string, idOk: bool, now: int, s': Journal)
    requires Good(s) && s.due == {} && s' == DoState(s, id, idOk, now).0
    ensures Keeps(s, s')
  {
  }

  lemma ApplyKeeps(s: Journal, call: Call, s': Journal)
    requires Good(s) && s.due == {} && s' == Apply(s, call).0
    ensures Keeps(s, s')
  {
    match call
    case CallIssue(g, obligationId, fingerprint, now) => IssueKeeps(s, g, obligationId, fingerprint, now, s');
    case CallConsume(id, idOk, now) => ConsumeKeeps(s, id, idOk, now, s');
    case CallState(id, idOk, now) => StateKeeps(s, id, idOk, now, s');
  }

  /** With calls atomic, consumed and expired are final, whatever the clock says. */
  lemma {:induction false} FinalWhenAtomic(s: Journal, calls: seq<Call>, i: nat)
    requires Good(s) && s.due == {} && i < |s.rows| && !s.rows[i].state.Issued?
    ensures i < |Serial(s, calls).rows| && Serial(s, calls).rows[i] == s.rows[i]
    decreases |calls|
  {
    if |calls| > 0 {
      var s' := Apply(s, calls[0]).0;
      ApplyKeeps(s, calls[0], s');
      FinalWhenAtomic(s', calls[1..], i);
    }
  }
}

/** The journal as an object. */
module AuthorizationRuntime {
  import opened Tables
  import opened AuthorizationStore
  import opened AuthorizationTheorems

  class AuthorizationJournal {
    var rows: seq<Row>

    ghost function Durable(): Journal
      reads this
    {
      Journal(rows, {})
    }

    constructor ()
      ensures Durable() == EMPTY
    {
      rows := [];
    }

    method Issue(g: Grant, obligationId: string, fingerprint: string, now: int) returns (r: Reply)
      modifies this
      ensures (Durable(), r) == Apply(old(Durable()), CallIssue(g, obligationId, fingerprint, now))
      ensures r.Refused? ==> rows == old(rows)
      ensures r.Granted? ==> exists i :: 0 <= i < |rows| && rows[i].grant == r.grant && rows[i].state.Issued?
    {
      var updated := ExpireAll(rows, now);
      var i := Find(updated, g.authorizationId);
      if i < |updated| {
        // Raising rolls the expiry sweep back.
        if updated[i].fingerprint != fingerprint {
          return Refused(AuthorizationConflict);
        }
        if updated[i].state.Consumed? {
          return Refused(AuthorizationReplay);
        }
        if updated[i].state.Expired? {
          return Refused(AuthorizationExpired);
        }
        rows := updated;
        return Granted(rows[i].grant);
      }
      if FirstIndex(updated, ActiveFor(g.requestId, obligationId, now)) < |updated| {
        return Refused(AuthorizationConflict);
      }
      rows := updated + [Row(g, obligationId, fingerprint, Issued, None)];
      assert rows[|updated|].grant == g && rows[|updated|].state.Issued?;
      r := Granted(g);
    }

    method Consume(id: string, idOk: bool, now: int) returns (r: Reply)
      modifies this
      ensures (Durable(), r) == Apply(old(Durable()), CallConsume(id, idOk, now))
      ensures r.Refused? ==> rows == old(rows)
    {
      if !idOk {
        return Refused(InvalidIdentifier);
      }
      var i := Find(rows, id);
      if i == |rows| {
        return Refused(NotIssued);
      }
      var row := rows[i];
      if row.state.Consumed? {
        return Refused(AuthorizationReplay);
      }
      if row.state.Expired? || row.grant.expiresAt <= now {
        // The write to 'expired' that precedes the raise is rolled back with it.
        return Refused(AuthorizationExpired);
      }
      rows := rows[i := row.(state := Consumed, consumedAt := Some(now))];
      r := Granted(row.grant);
    }

    method State(id: string, idOk: bool, now: int) returns (r: Reply)
      modifies this
      ensures (Durable(), r) == Apply(old(Durable()), CallState(id, idOk, now))
      ensures r.StateIs? ==> Find(rows, id) < |rows| && rows[Find(rows, id)].state == r.state
    {
      if !idOk {
        return Refused(InvalidIdentifier);
      }
      var i := Find(rows, id);
      if i == |rows| {
        return Refused(NotIssued);
      }
      ghost var before := Durable();
      if rows[i].state.Issued? && rows[i].grant.expiresAt <= now {
        rows := rows[i := rows[i].(state := Expired)];
        assert ({} + {id}) - {id} == {};
        assert DoWriteExpired(before.(due := {id}), id) == Durable();
        FindStable(before.rows, rows, id);
        return StateIs(Expired);
      }
      r := StateIs(rows[i].state);
    }
  }
}
