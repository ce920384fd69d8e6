/**
 * Runs in which recoveries may be written late.
 *
 * A recovery is decided for a recoverable settlement and written unconditionally, so at the time of the write
 * the settlement may have completed, or failed before submission.  It cannot have been rejected, and it cannot
 * be waiting for its submission.
 */
module SettlementOvertaking {
  import opened Tables
  import opened Channels
  import opened SettlementStore
  import opened SettlementTheorems
  import opened SettlementReservations
  import opened SettlementExactness

  /** Where a settlement that was recoverable at some time can be now. */
  predicate WasRecoverable(state: State) { state.Recoverable() || state.Completed? || state.FailedBeforeSubmission? }

  predicate Possible(s: Store, t: Txn)
  {
    t.RecordRecovery? && Find(s, t.id) < |s.rows| ==> WasRecoverable(s.rows[Find(s, t.id)].state)
  }

  predicate PossibleRun(s: Store, txns: seq<Txn>)
    decreases |txns|
  {
    |txns| > 0 ==> Possible(s, txns[0]) && PossibleRun(Apply(s, txns[0]).0, txns[1..])
  }

  ghost predicate PossiblyReaches(s: Store, s': Store)
  {
    exists txns :: PossibleRun(s, txns) && s' == Run(s, txns)
  }

  lemma PossiblySelf(s: Store)
    ensures PossiblyReaches(s, s)
  {
    assert PossibleRun(s, []) && s == Run(s, []);
  }

  lemma PossiblyNext(s: Store, t: Txn, middle: Store, s': Store)
    requires middle == Apply(s, t).0 && Possible(s, t) && PossiblyReaches(middle, s')
    ensures PossiblyReaches(s, s')
  {
    var rest :| PossibleRun(middle, rest) && s' == Run(middle, rest);
    assert ([t] + rest)[1..] == rest;
    assert PossibleRun(s, [t] + rest) && s' == Run(s, [t] + rest);
  }

  lemma {:induction false} PossiblyAfter(s: Store, txns: seq<Txn>, middle: Store, s': Store)
    requires PossibleRun(s, txns) && middle == Run(s, txns) && PossiblyReaches(middle, s')
    ensures PossiblyReaches(s, s')
    decreases |txns|
  {
    if |txns| > 0 {
      var next := Apply(s, txns[0]).0;
      PossiblyAfter(next, txns[1..], middle, s');
      PossiblyNext(s, txns[0], next, s');
    }
  }

  lemma PossiblyOn(s: Store, middle: Store, s': Store)
    requires PossiblyReaches(s, middle) && PossiblyReaches(middle, s')
    ensures PossiblyReaches(s, s')
  {
    var txns :| PossibleRun(s, txns) && middle == Run(s, txns);
    PossiblyAfter(s, txns, middle, s');
  }

  lemma {:induction false} FreshRunIsPossible(s: Store, txns: seq<Txn>)
    requires FreshRun(s, txns)
    ensures PossibleRun(s, txns)
    decreases |txns|
  {
    if |txns| > 0 {
      FreshRunIsPossible(Apply(s, txns[0]).0, txns[1..]);
    }
  }

  lemma FreshIsPossible(s: Store, s': Store)
    requires FreshlyReaches(s, s')
    ensures PossiblyReaches(s, s')
  {
    var txns :| FreshRun(s, txns) && s' == Run(s, txns);
    FreshRunIsPossible(s, txns);
  }

  // ----- what a late recovery can bring back

  /** Everything the scope's settlements asked for, but for the rejected ones. */
  function Claim(scope: Scope): Row -> nat
  {
    (row: Row) => if ScopeOf(row.request) == scope && !row.state.Rejected? then row.request.requested else 0
  }

  function Claims(s: Store, scope: Scope): nat { SumBy(s.rows, Claim(scope)) }

  predicate ClaimsIn(row: Row, scope: Scope) { ScopeOf(row.request) == scope && !row.state.Rejected? }

  /** All claims together fit in `cap` above the starting point of any one of them. */
  ghost predicate Contained(s: Store, scope: Scope, cap: nat)
  {
    forall i :: 0 <= i < |s.rows| && ClaimsIn(s.rows[i], scope) ==>
      s.rows[i].request.settledBefore + Claims(s, scope) <= cap
  }

  lemma ContainedBounds(s: Store, scope: Scope, cap: nat)
    requires Contained(s, scope, cap)
    ensures HighWater(s, scope) + Reserved(s, scope) <= cap
  {
    if HighWater(s, scope) > 0 {
      var i :| 0 <= i < |s.rows| && CompletedAfter(scope)(s.rows[i]) == HighWater(s, scope);
      SumIsBelow(s.rows, ReservedAmount(scope), Claim(scope), i);
    } else if Reserved(s, scope) > 0 {
      var i := SumIsPositive(s.rows, ReservedAmount(scope));
      SumIsBelow(s.rows, ReservedAmount(scope), Claim(scope), i);
    }
  }

  /** What a possible transaction does when it registers nothing: a rejected settlement stays rejected. */
  ghost predicate KeepsClaims(s: Store, change: Change, s': Store)
  {
    match change
    case Nothing => s' == s
    case Insert(_) => false
    case Update(i, row) =>
      && i < |s.rows| && s'.rows == s.rows[i := row] && row.request == s.rows[i].request
      && (s.rows[i].state.Rejected? ==> row.state.Rejected?)
  }

  lemma PossibleChange(s: Store, t: Txn, change: Change, s': Store)
    requires Distinct(s.rows) && Possible(s, t) && Applies(s, t, change, s') && |s'.rows| == |s.rows|
    ensures KeepsClaims(s, change, s')
  {
    if change.Update? {
      assert Find(s, t.id) == change.i;
    }
  }

  lemma PossibleMove(s: Store, t: Txn, s': Store) returns (change: Change)
    requires Good(s) && Possible(s, t) && s' == Apply(s, t).0 && |s'.rows| == |s.rows|
    ensures Good(s') && KeepsClaims(s, change, s')
  {
    PossibleFollowsSubmission(s, t);
    change := ApplyChanges(s, t);
    PossibleChange(s, t, change, s');
    PossibleKeepsGood(s, t, change, s');
  }

  lemma PossibleFollowsSubmission(s: Store, t: Txn)
    requires RowsSound(s.rows, s.intents) && Possible(s, t)
    ensures t.RecordRecovery? && Find(s, t.id) < |s.rows| ==> t.id in s.intents
  {
    if t.RecordRecovery? && Find(s, t.id) < |s.rows| {
      assert RowSound(s.rows[Find(s, t.id)], t.id in s.intents);
    }
  }

  lemma PossibleKeepsGood(s: Store, t: Txn, change: Change, s': Store)
    requires Good(s) && Applies(s, t, change, s')
    requires t.RecordRecovery? && Find(s, t.id) < |s.rows| ==> t.id in s.intents
    ensures Good(s')
  {
    match change
    case Nothing =>
    case Insert(row) => InsertKeepsGood(s, t, row, s');
    case Update(i, row) =>
      assert Find(s, t.id) == i;
      UpdateKeepsGood(s, t, i, row, s');
  }

  lemma MoveKeepsContained(s: Store, i: nat, row: Row, s': Store, scope: Scope, cap: nat)
    requires Contained(s, scope, cap) && i < |s.rows| && s'.rows == s.rows[i := row] && row.request == s.rows[i].request
    requires s.rows[i].state.Rejected? ==> row.state.Rejected?
    ensures Contained(s', scope, cap)
  {
    SumAfterUpdate(s.rows, Claim(scope), i, row);
    forall k | 0 <= k < |s'.rows| && ClaimsIn(s'.rows[k], scope)
      ensures s'.rows[k].request.settledBefore + Claims(s', scope) <= cap
    {
      assert ClaimsIn(s.rows[k], scope);
    }
  }

  lemma {:induction false} ContainedSurvives(s: Store, txns: seq<Txn>, scope: Scope, cap: nat)
    requires Good(s) && Contained(s, scope, cap) && PossibleRun(s, txns) && |Run(s, txns).rows| == |s.rows|
    ensures Contained(Run(s, txns), scope, cap)
    decreases |txns|
  {
    if |txns| > 0 {
      var s' := Apply(s, txns[0]).0;
      ApplyExtends(s, txns[0]);
      RunExtends(s', txns[1..]);
      var change := PossibleMove(s, txns[0], s');
      if change.Update? {
        MoveKeepsContained(s, change.i, change.row, s', scope, cap);
      }
      ContainedSurvives(s', txns[1..], scope, cap);
    }
  }

  // ----- the worst a late recovery can do

  /** Same requests, same rejections. */
  predicate SameClaims(a: seq<Row>, b: seq<Row>)
  {
    && |a| == |b|
    && forall k :: 0 <= k < |a| ==>
         a[k].request == b[k].request && a[k].settlementId == b[k].settlementId
           && (a[k].state.Rejected? <==> b[k].state.Rejected?)
  }

  lemma LateRecovery(s: Store, i: nat) returns (t: Txn, row: Row)
    requires At(s, i) && WasRecoverable(s.rows[i].state)
    ensures Possible(s, t) && t.RecordRecovery? && t.id == s.rows[i].settlementId
    ensures Apply(s, t).0.rows == s.rows[i := row]
    ensures row == s.rows[i].(state := InRecovery)
  {
    var id, at := s.rows[i].settlementId, s.rows[i].updatedAt;
    t := RecordRecovery(id, RecoveryUnknown, None, at);
    row := s.rows[i].(state := InRecovery);
    assert Apply(s, t) == DoRecordRecovery(s, id, RecoveryUnknown, None, at);
  }

  /** A late recovery opens a settlement that was completed or had failed. */
  lemma Reopen(s: Store, i: nat) returns (s': Store, row: Row)
    requires Good(s) && i < |s.rows| && WasRecoverable(s.rows[i].state)
    ensures PossiblyReaches(s, s') && Good(s') && s'.rows == s.rows[i := row]
    ensures row.state.InRecovery? && row.request == s.rows[i].request && row.settlementId == s.rows[i].settlementId
  {
    assert RowSound(s.rows[i], s.rows[i].settlementId in s.intents);
    assert At(s, i);
    var t;
    t, row := LateRecovery(s, i);
    s' := Apply(s, t).0;
    ApplyKeepsGood(s, t);
    PossiblySelf(s');
    PossiblyNext(s, t, s', s');
  }

  /** Every claim before `n` but `i`'s is open. */
  predicate OpenUpTo(rows: seq<Row>, n: nat, i: nat)
    requires n <= |rows|
  {
    forall k :: 0 <= k < n && k != i ==> rows[k].state.Rejected? || !rows[k].state.Terminal()
  }

  lemma OpenNext(before: seq<Row>, rows: seq<Row>, n: nat, row: Row, i: nat)
    requires SameClaims(before, rows) && n < |rows| && n != i < |rows| && OpenUpTo(rows, n, i)
    requires row.state.InRecovery? && row.request == rows[n].request && row.settlementId == rows[n].settlementId
    requires !rows[n].state.Rejected?
    ensures SameClaims(before, rows[n := row]) && OpenUpTo(rows[n := row], n + 1, i) && rows[n := row][i] == rows[i]
  {
  }

  predicate Closed(row: Row) { row.state.Completed? || row.state.FailedBeforeSubmission? }

  lemma AlreadyOpen(rows: seq<Row>, n: nat, i: nat)
    requires n < |rows| && OpenUpTo(rows, n, i) && (n == i || !Closed(rows[n]))
    ensures OpenUpTo(rows, n + 1, i)
  {
  }

  lemma ReopenClosed(before: seq<Row>, s: Store, n: nat, i: nat) returns (s': Store)
    requires Good(s) && n < |s.rows| && n != i < |s.rows| && SameClaims(before, s.rows) && OpenUpTo(s.rows, n, i)
    requires Closed(s.rows[n])
    ensures PossiblyReaches(s, s') && Good(s') && SameClaims(before, s'.rows) && s'.rows[i] == s.rows[i]
    ensures OpenUpTo(s'.rows, n + 1, i)
  {
    var row;
    s', row := Reopen(s, n);
    OpenNext(before, s.rows, n, row, i);
  }

  /** Reopens settlement `n`, unless it is open, rejected or `i` itself. */
  lemma ReopenNext(before: seq<Row>, s: Store, n: nat, i: nat) returns (s': Store)
    requires Good(s) && n < |s.rows| && i < |s.rows| && SameClaims(before, s.rows) && OpenUpTo(s.rows, n, i)
    ensures PossiblyReaches(s, s') && Good(s') && SameClaims(before, s'.rows) && s'.rows[i] == s.rows[i]
    ensures OpenUpTo(s'.rows, n + 1, i)
  {
    if n == i || !Closed(s.rows[n]) {
      AlreadyOpen(s.rows, n, i);
      s' := s;
      PossiblySelf(s);
    } else {
      s' := ReopenClosed(before, s, n, i);
    }
  }

  /** Reopens every settlement before `n` but `i`. */
  lemma {:induction false} ReopenUpTo(s: Store, n: nat, i: nat) returns (s': Store)
    requires Good(s) && n <= |s.rows| && i < |s.rows|
    ensures PossiblyReaches(s, s') && Good(s') && SameClaims(s.rows, s'.rows) && s'.rows[i] == s.rows[i]
    ensures OpenUpTo(s'.rows, n, i)
    decreases n
  {
    if n == 0 {
      s' := s;
      PossiblySelf(s);
    } else {
      var m := ReopenUpTo(s, n - 1, i);
      s' := ReopenNext(s.rows, m, n - 1, i);
      PossiblyOn(s, m, s');
    }
  }

  /** Completes settlement `i`, reopening it first when it has failed. */
  lemma CompleteAnyway(s: Store, i: nat) returns (s': Store, done: Row)
    requires Good(s) && i < |s.rows| && !s.rows[i].state.Rejected?
    ensures PossiblyReaches(s, s') && s'.rows == s.rows[i := done]
    ensures done.state.Completed? && done.request == s.rows[i].request && done.settlementId == s.rows[i].settlementId
  {
    if s.rows[i].state.Completed? {
      s', done := s, s.rows[i];
      PossiblySelf(s);
    } else if s.rows[i].state.FailedBeforeSubmission? {
      var m, row := Reopen(s, i);
      s', done := DriveToCompletion(m, i);
      FreshIsPossible(m, s');
      PossiblyOn(s, m, s');
    } else {
      s', done := DriveToCompletion(s, i);
      FreshIsPossible(s, s');
    }
  }

  /** One settlement completed and every other claim open at once. */
  lemma WorstCase(s: Store, i: nat, scope: Scope) returns (s': Store)
    requires Good(s) && i < |s.rows| && ClaimsIn(s.rows[i], scope)
    ensures PossiblyReaches(s, s') && |s'.rows| == |s.rows|
    ensures HighWater(s', scope) + Reserved(s', scope) >= s.rows[i].request.settledBefore + Claims(s, scope)
  {
    var m := ReopenUpTo(s, |s.rows|, i);
    var done;
    s', done := CompleteAnyway(m, i);
    PossiblyOn(s, m, s');
    WorstAggregates(s.rows, m.rows, i, done, scope);
  }

  lemma WorstAggregates(before: seq<Row>, reopened: seq<Row>, i: nat, done: Row, scope: Scope)
    requires SameClaims(before, reopened) && i < |before| && ClaimsIn(before[i], scope)
    requires OpenUpTo(reopened, |reopened|, i)
    requires done.state.Completed? && done.request == before[i].request
    ensures var rows := reopened[i := done];
            MaxBy(rows, CompletedAfter(scope)) + SumBy(rows, ReservedAmount(scope))
            >= before[i].request.settledBefore + SumBy(before, Claim(scope))
  {
    var rows := reopened[i := done];
    SumsAgree(before, rows, Claim(scope));
    OpenClaimsAreReserved(rows, i, scope);
    assert CompletedAfter(scope)(rows[i]) <= MaxBy(rows, CompletedAfter(scope));
  }

  /** With every other claim open, all claims but `i`'s are reserved. */
  lemma {:induction false} OpenClaimsAreReserved(rows: seq<Row>, i: nat, scope: Scope)
    requires i < |rows| && forall k :: 0 <= k < |rows| && k != i ==>
               rows[k].state.Rejected? || !rows[k].state.Terminal()
    ensures SumBy(rows, Claim(scope)) <= SumBy(rows, ReservedAmount(scope)) + Claim(scope)(rows[i])
  {
    var last := |rows| - 1;
    if i < last {
      OpenClaimsAreReserved(rows[..last], i, scope);
    } else {
      AllOpenClaimsAreReserved(rows[..last], scope);
    }
  }

  lemma {:induction false} AllOpenClaimsAreReserved(rows: seq<Row>, scope: Scope)
    requires forall k :: 0 <= k < |rows| ==> rows[k].state.Rejected? || !rows[k].state.Terminal()
    ensures SumBy(rows, Claim(scope)) <= SumBy(rows, ReservedAmount(scope))
  {
    if |rows| > 0 {
      AllOpenClaimsAreReserved(rows[..|rows| - 1], scope);
    }
  }

  lemma UncontainedBreaks(s: Store, scope: Scope, cap: nat) returns (s': Store)
    requires Good(s) && !Contained(s, scope, cap)
    ensures PossiblyReaches(s, s') && |s'.rows| == |s.rows|
    ensures HighWater(s', scope) + Reserved(s', scope) > cap
  {
    var i :| 0 <= i < |s.rows| && ClaimsIn(s.rows[i], scope)
      && s.rows[i].request.settledBefore + Claims(s, scope) > cap;
    s' := WorstCase(s, i, scope);
  }

  /**
   * Where recoveries may be written late, "settled plus reserved <= cap" survives every continuation that
   * registers nothing if and only if all claims fit in `cap` above any one starting point.
   */
  lemma ContainedExactly(s: Store, scope: Scope, cap: nat)
    requires Good(s)
    ensures Contained(s, scope, cap) <==>
              forall s' :: PossiblyReaches(s, s') && |s'.rows| == |s.rows| ==>
                HighWater(s', scope) + Reserved(s', scope) <= cap
  {
    if Contained(s, scope, cap) {
      forall s' | PossiblyReaches(s, s') && |s'.rows| == |s.rows|
        ensures HighWater(s', scope) + Reserved(s', scope) <= cap
      {
        var txns :| PossibleRun(s, txns) && s' == Run(s, txns);
        ContainedSurvives(s, txns, scope, cap);
        ContainedBounds(s', scope, cap);
      }
    } else {
      var s' := UncontainedBreaks(s, scope, cap);
    }
  }

  /** From which stores every continuation without registrations, late recoveries included, stays within the right. */
  lemma WithinActivatedAnyway(s: Store, scope: Scope, cap: nat)
    requires Good(s) && Latest(s.rows, scope).Some? && cap == Latest(s.rows, scope).value.activatedBefore
    ensures Contained(s, scope, cap) <==>
              forall s' :: PossiblyReaches(s, s') && |s'.rows| == |s.rows| ==> WithinActivated(s', scope)
  {
    forall s' | PossiblyReaches(s, s') && |s'.rows| == |s.rows|
      ensures WithinActivated(s', scope) <==> HighWater(s', scope) + Reserved(s', scope) <= cap
    {
      var txns :| PossibleRun(s, txns) && s' == Run(s, txns);
      SameLatest(s, s', txns, scope);
    }
    ContainedExactly(s, scope, cap);
  }
}
