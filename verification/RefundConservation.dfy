/**
 * Conservation over whole runs of the refund journal: what completed refunds may add up to, when the
 * reservations stay inside F - A, and exactly when they do not.
 */
module RefundConservation {
  import opened Tables
  import opened Channels
  import opened ClosePipeline
  import opened RefundStore
  import opened RefundTheorems

  // ----- completed refunds

  predicate CompletedIn(row: RefundRow, scope: Scope) { row.state.Completed? && ScopeOf(row.request) == scope }

  /** `last` ends the completed refunds of the scope: no other one reaches into or beyond its interval. */
  ghost predicate EndsScope(rows: seq<RefundRow>, last: nat, scope: Scope)
  {
    && last < |rows| && CompletedIn(rows[last], scope)
    && rows[last].projection.refundedAfter == MaxBy(rows, CompletedAfter(scope))
    && forall i :: 0 <= i < |rows| && i != last && CompletedIn(rows[i], scope)
         ==> rows[i].projection.refundedAfter <= rows[last].projection.refundedBefore
  }

  lemma LastCompleted(rows: seq<RefundRow>, scope: Scope) returns (last: nat)
    requires RowsSound(rows) && CompletedDisjoint(rows) && MaxBy(rows, CompletedAfter(scope)) > 0
    ensures EndsScope(rows, last, scope)
  {
    var after := CompletedAfter(scope);
    last :| 0 <= last < |rows| && after(rows[last]) == MaxBy(rows, after);
    assert SoundProjection(rows[last].projection) by { assert RowSound(rows[last]); }
    forall i | 0 <= i < |rows| && i != last && CompletedIn(rows[i], scope)
      ensures rows[i].projection.refundedAfter <= rows[last].projection.refundedBefore
    {
      assert after(rows[i]) <= MaxBy(rows, after);
      assert SoundProjection(rows[i].projection) by { assert RowSound(rows[i]); }
      assert if i < last then Disjoint(rows[i], rows[last]) else Disjoint(rows[last], rows[i]);
    }
  }

  /**
   * Over any run, the completed refunds of a scope occupy disjoint intervals of R, the last of them ends at
   * the high-water mark, and together they paid no more than F - A of that last refund's own snapshot.
   */
  lemma CompletedRefundsTelescope(calls: seq<Call>, s: Store, scope: Scope)
    requires s == Run(EMPTY, calls)
    ensures CompletedDisjoint(s.refunds)
    ensures CompletedTotal(s, scope) <= HighWater(s, scope)
    ensures HighWater(s, scope) > 0 ==>
              exists last: nat :: EndsScope(s.refunds, last, scope)
                && CompletedTotal(s, scope) <= s.refunds[last].projection.funded - s.refunds[last].projection.activated
  {
    RunKeepsGood(EMPTY, calls);
    if HighWater(s, scope) > 0 {
      var last := LastCompleted(s.refunds, scope);
      assert RowSound(s.refunds[last]);
    }
  }

  /** Rows are never removed, never change what they ask for, and stay completed. */
  predicate Persists(before: seq<RefundRow>, after: seq<RefundRow>)
  {
    && |before| <= |after|
    && forall i :: 0 <= i < |before| ==>
         && after[i].refundId == before[i].refundId && after[i].request == before[i].request
         && after[i].projection == before[i].projection
         && (before[i].state.Releasing() ==> after[i] == before[i])
  }

  lemma ChangePersists(s: Store, change: Change, s': Store, at: int)
    requires Applies(s, change, s', at)
    ensures Persists(s.refunds, s'.refunds)
  {
  }

  lemma StepPersists(s: Store, call: Call)
    ensures Persists(s.refunds, Step(s, call).0.refunds)
  {
    var change := StepChanges(s, call);
    ChangePersists(s, change, Step(s, call).0, call.at);
  }

  lemma {:induction false} RunPersists(s: Store, calls: seq<Call>)
    ensures Persists(s.refunds, Run(s, calls).refunds)
    decreases |calls|
  {
    if |calls| > 0 {
      StepPersists(s, calls[0]);
      RunPersists(Step(s, calls[0]).0, calls[1..]);
    }
  }

  lemma CompletionStartsAtHighWater(s: Store, change: Change, s': Store, at: int, j: nat)
    requires Applies(s, change, s', at)
    requires j < |s'.refunds| && s'.refunds[j].state.Completed?
    requires j < |s.refunds| ==> !s.refunds[j].state.Completed?
    ensures j < |s.refunds|
    ensures HighWater(s, ScopeOf(s.refunds[j].request)) <= s.refunds[j].projection.refundedBefore
  {
  }

  /** A refund that completes later starts where every refund completed earlier has ended. */
  lemma {:induction false} CompletionsAreOrdered(s: Store, calls: seq<Call>, i: nat, j: nat)
    requires i < |s.refunds| && s.refunds[i].state.Completed?
    requires j < |Run(s, calls).refunds| && Run(s, calls).refunds[j].state.Completed?
    requires j < |s.refunds| ==> !s.refunds[j].state.Completed?
    requires ScopeOf(s.refunds[i].request) == ScopeOf(Run(s, calls).refunds[j].request)
    ensures s.refunds[i].projection.refundedAfter <= Run(s, calls).refunds[j].projection.refundedBefore
    decreases |calls|
  {
    var s', rest := Step(s, calls[0]).0, calls[1..];
    StepPersists(s, calls[0]);
    if j < |s'.refunds| && s'.refunds[j].state.Completed? {
      var change := StepChanges(s, calls[0]);
      CompletionStartsAtHighWater(s, change, s', calls[0].at, j);
      RunPersists(s', rest);
      var scope := ScopeOf(s.refunds[i].request);
      assert CompletedAfter(scope)(s.refunds[i]) <= HighWater(s, scope);
    } else {
      CompletionsAreOrdered(s', rest, i, j);
    }
  }

  // ----- reservations

  /** The scope's refunds were all projected from one F and one A, with R nondecreasing as they registered. */
  ghost predicate SharedSnapshots(rows: seq<RefundRow>, scope: Scope, funded: nat, activated: nat)
  {
    && (forall i :: 0 <= i < |rows| && ScopeOf(rows[i].request) == scope ==>
          rows[i].projection.funded == funded && rows[i].projection.activated == activated)
    && (forall i, j :: 0 <= i < j < |rows| && ScopeOf(rows[i].request) == scope && ScopeOf(rows[j].request) == scope
          ==> rows[i].projection.refundedBefore <= rows[j].projection.refundedBefore)
  }

  /** Everything completed or still reserved fits in `cap`, and would still fit if any row completed now. */
  ghost predicate Covered(s: Store, scope: Scope, cap: nat)
  {
    && HighWater(s, scope) + Reserved(s, scope) <= cap
    && forall i :: 0 <= i < |s.refunds| && CanComplete(s.refunds[i], scope, HighWater(s, scope)) ==>
         s.refunds[i].projection.refundedBefore + Reserved(s, scope) <= cap
  }

  /** Not released, completed, under review or disputed, and not overtaken by a completed refund. */
  predicate CanComplete(row: RefundRow, scope: Scope, high: nat)
  {
    && ScopeOf(row.request) == scope && high <= row.projection.refundedBefore
    && row.state in {Validated, ExecutionCommitted, Submitted, InRecovery, Reconciling}
  }

  /** How the two aggregates follow a move. */
  lemma MoveAggregates(s: Store, i: nat, row: RefundRow, scope: Scope)
    requires i < |s.refunds| && Moves(s.refunds[i], row, HighWater(s, ScopeOf(row.request)))
    requires SoundProjection(row.projection)
    ensures var s' := s.(refunds := s.refunds[i := row]);
            && HighWater(s', scope) ==
               (if CompletedIn(row, scope) then row.projection.refundedAfter else HighWater(s, scope))
            && Reserved(s', scope) == Reserved(s, scope)
                 - (if row.state.Releasing() && ScopeOf(row.request) == scope then row.projection.requested else 0)
  {
    var rows, after := s.refunds[i := row], CompletedAfter(scope);
    SumAfterUpdate(s.refunds, ReservedAmount(scope), i, row);
    UpdateRaisesHighWater(s, i, row, scope);
    var top := if CompletedIn(row, scope) then row.projection.refundedAfter else HighWater(s, scope);
    forall k | 0 <= k < |rows| ensures after(rows[k]) <= top {
      if k != i {
        assert after(s.refunds[k]) <= HighWater(s, scope);
      }
    }
    MaxIsAtMost(rows, after, top);
  }

  lemma InsertAggregates(s: Store, row: RefundRow, scope: Scope)
    requires row.state.Validated?
    ensures var s' := s.(refunds := s.refunds + [row]);
            && HighWater(s', scope) == HighWater(s, scope)
            && Reserved(s', scope) == Reserved(s, scope)
                 + (if ScopeOf(row.request) == scope then row.projection.requested else 0)
  {
  }

  lemma MoveKeepsCovered(s: Store, i: nat, row: RefundRow, scope: Scope, cap: nat)
    requires Covered(s, scope, cap) && i < |s.refunds| && SoundProjection(row.projection)
    requires Moves(s.refunds[i], row, HighWater(s, ScopeOf(row.request)))
    ensures Covered(s.(refunds := s.refunds[i := row]), scope, cap)
  {
    var s' := s.(refunds := s.refunds[i := row]);
    MoveAggregates(s, i, row, scope);
    MoveOpensNothing(s, i, row, scope, s');
    if CompletedIn(row, scope) {
      assert CanComplete(s.refunds[i], scope, HighWater(s, scope));
    }
  }

  /** A move never gives a row a new chance to complete. */
  lemma MoveOpensNothing(s: Store, i: nat, row: RefundRow, scope: Scope, s': Store)
    requires i < |s.refunds| && s'.refunds == s.refunds[i := row] && HighWater(s, scope) <= HighWater(s', scope)
    requires Moves(s.refunds[i], row, HighWater(s, ScopeOf(row.request)))
    ensures forall k :: 0 <= k < |s'.refunds| && CanComplete(s'.refunds[k], scope, HighWater(s', scope)) ==>
              CanComplete(s.refunds[k], scope, HighWater(s, scope))
  {
  }

  /** Registering keeps the cover exactly when every row that can still complete leaves room for the newcomer. */
  lemma RegistrationKeepsCovered(s: Store, row: RefundRow, scope: Scope, cap: nat)
    requires Covered(s, scope, cap) && Fits(s, row) && ScopeOf(row.request) == scope
    requires cap == row.projection.funded - row.projection.activated
    ensures Covered(s.(refunds := s.refunds + [row]), scope, cap) <==>
              forall i :: 0 <= i < |s.refunds| && CanComplete(s.refunds[i], scope, HighWater(s, scope)) ==>
                s.refunds[i].projection.refundedBefore + Reserved(s, scope) + row.projection.requested <= cap
  {
    InsertAggregates(s, row, scope);
    var rows := s.refunds + [row];
    assert forall i :: 0 <= i < |s.refunds| ==> rows[i] == s.refunds[i];
  }

  lemma OtherScopeKeepsCovered(s: Store, row: RefundRow, scope: Scope, cap: nat)
    requires Covered(s, scope, cap) && row.state.Validated? && ScopeOf(row.request) != scope
    ensures Covered(s.(refunds := s.refunds + [row]), scope, cap)
  {
  }

  lemma SharedRegistrationKeepsCovered(s: Store, row: RefundRow, scope: Scope, funded: nat, activated: nat)
    requires activated <= funded && Covered(s, scope, funded - activated) && Fits(s, row)
    requires SharedSnapshots(s.refunds + [row], scope, funded, activated)
    ensures Covered(s.(refunds := s.refunds + [row]), scope, funded - activated)
  {
    var rows := s.refunds + [row];
    if ScopeOf(row.request) == scope {
      assert rows[|s.refunds|] == row;
      forall i | 0 <= i < |s.refunds| && ScopeOf(s.refunds[i].request) == scope
        ensures s.refunds[i].projection.refundedBefore <= row.projection.refundedBefore
      {
        assert rows[i] == s.refunds[i];
      }
      RegistrationKeepsCovered(s, row, scope, funded - activated);
    } else {
      OtherScopeKeepsCovered(s, row, scope, funded - activated);
    }
  }

  /** Covered reads the refund rows only. */
  lemma ChangeKeepsCovered(s: Store, change: Change, s': Store, at: int, scope: Scope, funded: nat, activated: nat)
    requires Good(s) && Applies(s, change, s', at) && activated <= funded
    requires Covered(s, scope, funded - activated)
    requires change.Insert? ==> SharedSnapshots(s'.refunds, scope, funded, activated)
    ensures Covered(s', scope, funded - activated)
  {
    match change
    case Nothing =>
    case Insert(row) => SharedRegistrationKeepsCovered(s, row, scope, funded, activated);
    case Update(i, row) =>
      assert RowSound(s.refunds[i]);
      MoveKeepsCovered(s, i, row, scope, funded - activated);
  }

  lemma SharedPrefix(before: seq<RefundRow>, after: seq<RefundRow>, scope: Scope, funded: nat, activated: nat)
    requires Persists(before, after) && SharedSnapshots(after, scope, funded, activated)
    ensures SharedSnapshots(before, scope, funded, activated)
  {
  }

  /**
   * When the registered freezes of a scope share F and A with R nondecreasing, no run ever completes or
   * reserves more than F - A: the outstanding right A - S is never drawn on.
   */
  lemma {:induction false} RefundsStayWithinUnallocated(s: Store, calls: seq<Call>, scope: Scope, funded: nat,
                                          activated: nat)
    requires Good(s) && activated <= funded && Covered(s, scope, funded - activated)
    requires SharedSnapshots(Run(s, calls).refunds, scope, funded, activated)
    ensures Covered(Run(s, calls), scope, funded - activated)
    ensures HighWater(Run(s, calls), scope) + Reserved(Run(s, calls), scope) <= funded - activated
    decreases |calls|
  {
    if |calls| > 0 {
      var s', rest := Step(s, calls[0]).0, calls[1..];
      var change := StepChanges(s, calls[0]);
      RunPersists(s', rest);
      SharedPrefix(s'.refunds, Run(s', rest).refunds, scope, funded, activated);
      ChangeKeepsCovered(s, change, s', calls[0].at, scope, funded, activated);
      StepKeepsGood(s, calls[0]);
      RefundsStayWithinUnallocated(s', rest, scope, funded, activated);
    }
  }
}
