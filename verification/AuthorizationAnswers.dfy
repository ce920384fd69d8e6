/** What each call of the authorization journal answers, exactly. */
module AuthorizationAnswers {
  import opened Tables
  import opened AuthorizationStore
  import opened AuthorizationTheorems

  /** Issued, and its deadline not reached. */
  predicate Usable(row: Row, now: int) { row.state.Issued? && now < row.grant.expiresAt }

  /** What a sweep at this time makes of a row: overdue ones expire, others stand. */
  predicate SweptTo(row: Row, next: Row, now: int)
  {
    && (row.state.Issued? && row.grant.expiresAt <= now ==> next == row.(state := Expired))
    && (!row.state.Issued? || now < row.grant.expiresAt ==> next == row)
  }

  /** The journal after a sweep, with `added` rows behind it. */
  ghost predicate Swept(s: Journal, now: int, added: seq<Row>, s': Journal)
  {
    && s'.due == s.due && |s'.rows| == |s.rows| + |added| && s'.rows[|s.rows|..] == added
    && forall i :: 0 <= i < |s.rows| ==> SweptTo(s.rows[i], s'.rows[i], now)
  }

  /** Nobody holds a usable authorization for this request or this obligation. */
  ghost predicate Free(s: Journal, requestId: string, obligationId: string, now: int)
  {
    forall i :: 0 <= i < |s.rows| && Usable(s.rows[i], now) ==>
      s.rows[i].grant.requestId != requestId && s.rows[i].obligationId != obligationId
  }

  /** A new id is granted exactly when nobody holds a usable authorization for its request or obligation. */
  lemma IssuesExactly(s: Journal, g: Grant, obligationId: string, fingerprint: string, now: int, s': Journal,
                      reply: Reply)
    requires (s', reply) == DoIssue(s, g, obligationId, fingerprint, now)
    requires forall i :: 0 <= i < |s.rows| ==> s.rows[i].grant.authorizationId != g.authorizationId
    ensures if Free(s, g.requestId, obligationId, now) then
              reply == Granted(g) && Swept(s, now, [Row(g, obligationId, fingerprint, Issued, None)], s')
            else reply == Refused(AuthorizationConflict) && s' == s
  {
    var rows := ExpireAll(s.rows, now);
    assert forall i :: 0 <= i < |rows| ==> rows[i] == Expire(s.rows[i], now);
    assert Find(rows, g.authorizationId) == |rows|;
    var active := ActiveFor(g.requestId, obligationId, now);
    if FirstIndex(rows, active) < |rows| {
      assert active(rows[FirstIndex(rows, active)]);
    } else {
      assert forall i :: 0 <= i < |rows| ==> !active(rows[i]);
    }
  }

  /** A known id is granted again exactly when it is asked for with the same content and is still usable. */
  lemma IssuesAgainExactly(s: Journal, g: Grant, obligationId: string, fingerprint: string, now: int, i: nat,
                           s': Journal, reply: Reply)
    requires (s', reply) == DoIssue(s, g, obligationId, fingerprint, now)
    requires i < |s.rows| && Find(s.rows, g.authorizationId) == i
    ensures var row := s.rows[i];
            if row.fingerprint != fingerprint then reply == Refused(AuthorizationConflict) && s' == s
            else if Usable(row, now) then reply == Granted(row.grant) && Swept(s, now, [], s')
            else
              && s' == s
              && reply == Refused(if row.state.Consumed? then AuthorizationReplay else AuthorizationExpired)
  {
    var rows := ExpireAll(s.rows, now);
    FindStable(s.rows, rows, g.authorizationId);
  }

  /** Consuming succeeds exactly once, on a usable authorization; every refusal is for a reason that is so. */
  lemma ConsumesExactly(s: Journal, id: string, idOk: bool, now: int, s': Journal, reply: Reply)
    requires (s', reply) == DoConsume(s, id, idOk, now)
    ensures var i := Find(s.rows, id);
            if idOk && i < |s.rows| && Usable(s.rows[i], now) then
              && reply == Granted(s.rows[i].grant)
              && s' == s.(rows := s.rows[i := s.rows[i].(state := Consumed, consumedAt := Some(now))])
            else
              && s' == s && reply.Refused?
              && (match reply.why
                  case InvalidIdentifier => !idOk
                  case NotIssued => i == |s.rows|
                  case AuthorizationReplay => i < |s.rows| && s.rows[i].state.Consumed?
                  case AuthorizationExpired =>
                    i < |s.rows| && (s.rows[i].state.Expired? || s.rows[i].grant.expiresAt <= now)
                  case AuthorizationConflict => false)
  {
  }

  /** Reading reports an overdue authorization as expired and notes it; anything else is reported as it stands. */
  lemma ReadsExactly(s: Journal, id: string, idOk: bool, now: int, s': Journal, reply: Reply)
    requires (s', reply) == DoReadState(s, id, idOk, now)
    ensures s'.rows == s.rows
    ensures var i := Find(s.rows, id);
            if !idOk then reply == Refused(InvalidIdentifier) && s' == s
            else if i == |s.rows| then reply == Refused(NotIssued) && s' == s
            else
              var overdue := s.rows[i].state.Issued? && s.rows[i].grant.expiresAt <= now;
              && s'.due == (if overdue then s.due + {id} else s.due)
              && reply == StateIs(if overdue then Expired else s.rows[i].state)
  {
  }

  /** As one call, reading leaves in the table exactly the state it reports. */
  lemma StatesExactly(s: Journal, id: string, now: int, i: nat, s': Journal, reply: Reply)
    requires s.due == {} && i < |s.rows| && Find(s.rows, id) == i && (s', reply) == DoState(s, id, true, now)
    ensures s'.due == {} && |s'.rows| == |s.rows| && s'.rows == s.rows[i := s'.rows[i]]
    ensures SweptTo(s.rows[i], s'.rows[i], now) && reply == StateIs(s'.rows[i].state)
  {
    var read := DoReadState(s, id, true, now).0;
    assert read.due - {id} == {};
  }

  /** A reader that dies before writing leaves the table alone. */
  lemma ForgettingWritesNothing(s: Journal, id: string)
    ensures Next(s, Forget(id)).0.rows == s.rows && Next(s, Forget(id)).0.due == s.due - {id}
  {
  }

  // ----- the window

  /** Every input is alive, the simulation is not from the future, and the prepared execution outlives none of them. */
  predicate Alive(current: int, plan: int, simulatedAt: int, simulation: int, prepared: int)
  {
    simulatedAt <= current < prepared && prepared <= plan && prepared <= simulation
  }

  /** A window is granted exactly for a ttl in range and live inputs, and a refusal names what is wrong. */
  lemma WindowExactly(current: int, ttl: int, maxTtl: int, plan: int, simulatedAt: int, simulation: int, prepared: int)
    ensures var r := Window(current, ttl, maxTtl, plan, simulatedAt, simulation, prepared);
            && (r.Until? <==> 1 <= ttl <= maxTtl && Alive(current, plan, simulatedAt, simulation, prepared))
            && (r.Until? ==> r.expiresAt == if current + ttl < prepared then current + ttl else prepared)
            && (r.NoWindow? ==>
                  match r.why
                  case TtlOutOfRange => !(1 <= ttl <= maxTtl)
                  case InputExpired => plan <= current || simulation <= current || prepared <= current
                  case SimulationFromFuture => current < simulatedAt
                  case PreparedOutlivesInputs => plan < prepared || simulation < prepared
                  case NoWindowLeft => false)
  {
  }
}
