/** The close pipeline is self-consistent: each stage accepts what the one before it made, down to the next epoch. */
module CloseTheorems {
  import opened Tables
  import opened Channels
  import opened ClosePipeline

  // ----- request

  /** Two readings at least g seconds apart are still g seconds apart once cut to whole seconds. */
  lemma GraceSurvivesTruncation(now: int, deadline: int, grace: nat)
    requires deadline - now >= grace * MICROS
    ensures WholeSeconds(deadline) - WholeSeconds(now) >= grace
  {
  }

  /** A close is granted exactly to a valid active channel given its full grace. */
  lemma RequestCloseIff(c: Channel, closureId: string, key: string, idsOk: bool, now: int, deadline: int)
    ensures RequestClose(c, closureId, key, idsOk, now, deadline).Ok?
            <==> && ValidateChannel(c).Ok? && c.status.Active? && idsOk
                 && deadline - now >= c.policy.minimumCloseGrace * MICROS
  {
  }

  /** The channel once the close request is recorded on it. */
  function Closing(c: Channel, q: ClosureRequest, at: int): Channel
  {
    c.(status := Status.Closing, closeRequestedAt := Some(q.requestedAt), claimDeadline := Some(q.claimDeadline),
      updatedAt := at)
  }

  /** Whatever RequestClose returns passes the freeze's validator, its grace intact. */
  lemma RequestPassesNextStage(c: Channel, closureId: string, key: string, idsOk: bool, now: int, deadline: int)
    requires RequestClose(c, closureId, key, idsOk, now, deadline).Ok?
    ensures var a := RequestClose(c, closureId, key, idsOk, now, deadline).value;
            && CheckRequestSnapshot(a.request, a.snapshot).None?
            && a.request.claimDeadline - a.request.requestedAt >= c.policy.minimumCloseGrace
  {
  }

  /** An active channel stays valid when a request with enough grace is recorded on it. */
  lemma ClosingIsValid(c: Channel, q: ClosureRequest, at: int)
    requires ValidateChannel(c).Ok? && c.status.Active?
    requires c.createdAt <= q.requestedAt <= at && q.claimDeadline - q.requestedAt >= c.policy.minimumCloseGrace
    ensures ValidateChannel(Closing(c, q, at)).Ok?
    ensures ValidateChannel(Closing(c, q, at)).value == ValidateChannel(c).value
  {
    var d := Closing(c, q, at);
    assert d.closeRequestedAt == Some(q.requestedAt) && d.claimDeadline == Some(q.claimDeadline);
    assert d.status == Status.Closing;
    assert CheckAmounts(d) == CheckAmounts(c);
    assert CheckCloseWindow(d).None?;
    assert c.funded != 0 by {
      assert CheckStatus(c).None?;
    }
    assert CheckStatus(d).None?;
  }

  // ----- freeze

  /** How a channel may move between the close request and the freeze. */
  predicate ClaimWindowMove(before: RequestSnapshot, after: Channel)
  {
    && after.funded == before.accounting.funded && after.refunded == before.accounting.refunded
    && before.accounting.settled <= after.settled && before.accounting.activated <= after.activated
    && before.sequence <= after.sequence
    && (after.activated > before.accounting.activated ==> after.sequence > before.sequence)
    && (after.sequence > before.sequence <==> after.voucherHash != before.voucherHash)
  }

  /** Any move that only claims rights can be frozen once the deadline is reached, and nothing else can. */
  lemma FreezeIff(c: Channel, closureId: string, key: string, requestedAt: int, deadline: int,
                  d: Channel, now: int, states: seq<OperationState>)
    requires RequestClose(c, closureId, key, true, requestedAt, deadline).Ok?
    ensures var a := RequestClose(c, closureId, key, true, requestedAt, deadline).value;
            FreezeClosure(a.request, a.snapshot, d, now, states).Ok?
            <==> && a.request.claimDeadline <= now
                 && ValidateChannel(d).Ok? && d.status.Closing? && d.claimDeadline == Some(a.request.claimDeadline)
                 && d.domain == c.domain && d.identity == c.identity
                 && ClaimWindowMove(a.snapshot, d) && AllSupported(states)
  {
  }

  /** The freeze is well formed, and each right activated in the window came out of the unallocated capacity. */
  lemma FreezePassesNextStage(q: ClosureRequest, s: RequestSnapshot, d: Channel, now: int, states: seq<OperationState>)
    requires FreezeClosure(q, s, d, now, states).Ok?
    ensures var f := FreezeClosure(q, s, d, now, states).value;
            && WellFormedFreeze(f)
            && f.accounting.unallocated + (f.accounting.activated - s.accounting.activated) == s.accounting.unallocated
            && f.accounting.vault + (f.accounting.settled - s.accounting.settled) == s.accounting.vault
            && f.accounting.unallocated <= s.accounting.unallocated
            && ClaimWindowMove(s, d)
            && (f.unresolved == 0 <==> forall i :: 0 <= i < |states| ==> states[i].Releasing())
            && !ActivationIsEligible(f.frozenAt, q.claimDeadline)
  {
  }

  // ----- refund request

  /** Everything MakeRefundRequest accepts links up with its freeze. */
  lemma RefundRequestLinks(q: ClosureRequest, f: FreezeSnapshot, id: string, key: string, idsOk: bool,
                           reason: RefundReason, amount: int, now: int, expiresAt: int)
    requires MakeRefundRequest(q, f, id, key, idsOk, reason, amount, now, expiresAt).Ok?
    ensures CheckRefundLinks(MakeRefundRequest(q, f, id, key, idsOk, reason, amount, now, expiresAt).value, f).None?
  {
  }

  /** There is a time at which the request can be projected. */
  ghost predicate Usable(q: RefundRequest, f: FreezeSnapshot)
  {
    exists now :: CheckRefundTiming(q, f, now, []).None?
  }

  /** A made request has a usable moment exactly when its window spans a change of second after the deadline. */
  lemma UsableIff(q: ClosureRequest, f: FreezeSnapshot, id: string, key: string, idsOk: bool,
                  reason: RefundReason, amount: int, now: int, expiresAt: int)
    requires MakeRefundRequest(q, f, id, key, idsOk, reason, amount, now, expiresAt).Ok?
    ensures Usable(MakeRefundRequest(q, f, id, key, idsOk, reason, amount, now, expiresAt).value, f)
            <==> && WholeSeconds(now) < WholeSeconds(expiresAt) && f.claimDeadline < WholeSeconds(expiresAt)
                 && f.unresolved == 0
  {
    var r := MakeRefundRequest(q, f, id, key, idsOk, reason, amount, now, expiresAt).value;
    var start := if f.claimDeadline > r.createdAt then f.claimDeadline else r.createdAt;
    if start < r.expiresAt && f.unresolved == 0 {
      assert CheckRefundTiming(r, f, start, []).None?;
    }
  }

  /** A window inside one second is accepted when the request is made and can never be used. */
  lemma SubSecondWindowIsDead(q: ClosureRequest, f: FreezeSnapshot)
    requires q.wellFormed && WellFormedFreeze(f)
    requires f.closureId == q.closureId && f.domain == q.domain && f.channel == q.channel
    ensures var made := MakeRefundRequest(q, f, "refund", "key", true, FinalClose, 1, 0, MICROS - 1);
            made.Ok? && !Usable(made.value, f)
  {
  }

  // ----- projection

  /** Which amounts are refundable: up to the unallocated capacity, or all of a vault with no right left in it. */
  lemma ProjectionIff(q: RefundRequest, f: FreezeSnapshot, now: int, states: seq<OperationState>)
    requires CheckRefundLinks(q, f).None? && CheckRefundTiming(q, f, now, states).None?
    ensures ProjectRefund(q, f, now, states).Ok?
            <==> match q.reason
                 case PostClaimWindowUnallocated => 0 < q.requested <= f.accounting.unallocated
                 case FinalClose => 0 < q.requested == f.accounting.vault
                   && f.accounting.activated == f.accounting.settled
                 case OtherReason(_) => false
  {
  }

  // ----- finalization and the next epoch

  /**
   * A finalizable channel closes validly and its epoch may end; a channel with a right or a balance left never does.
   */
  lemma FinalizationOpensNextEpoch(c: Channel, f: FreezeSnapshot, now: int, states: seq<OperationState>, at: int)
    requires ValidateFinalization(c, f, now, states).None? && now <= at && c.updatedAt <= at
    ensures var closed := c.(status := Closed, updatedAt := at);
            && ValidateChannel(closed).Ok?
            && EpochTransition(closed, true, 0, at)
               == Ok(EpochEligibility(c.identity, c.identity.epoch + 1, 0, 0, 0, 0, 0, at))
  {
    assert CheckAmounts(c.(status := Closed, updatedAt := at)) == CheckAmounts(c);
  }

  /** The two accounting refusals of the epoch check cannot happen: validation has already excluded them. */
  lemma EpochTransitionIff(c: Channel, hashOk: bool, unresolved: int, now: int)
    ensures EpochTransition(c, hashOk, unresolved, now).Ok?
            <==> ValidateChannel(c).Ok? && c.status.Closed? && unresolved == 0 && hashOk
    ensures var r := EpochTransition(c, hashOk, unresolved, now);
            r.Err? ==> r.error != PreviousVaultNonzero && r.error != PreviousOutstandingNonzero
  {
  }

  /**
   * The whole pipeline: a projected final close of the frozen channel, once applied, finalizes, closes with
   * every unit funded either settled or refunded, and opens the next epoch.
   */
  lemma FinalCloseEndsTheEpoch(q: ClosureRequest, s: RequestSnapshot, d: Channel, frozenAt: int,
                               atFreeze: seq<OperationState>,
                               r: RefundRequest, now: int, states: seq<OperationState>, at: int)
    requires FreezeClosure(q, s, d, frozenAt, atFreeze).Ok? && r.reason.FinalClose?
    requires var f := FreezeClosure(q, s, d, frozenAt, atFreeze).value; ProjectRefund(r, f, now, states).Ok?
    requires now <= at && d.updatedAt <= at
    ensures var f := FreezeClosure(q, s, d, frozenAt, atFreeze).value;
            var e := d.(refunded := ProjectRefund(r, f, now, states).value.refundedAfter, updatedAt := at);
            && ValidateFinalization(e, f, now, states).None?
            && e.funded == e.settled + e.refunded && e.activated == e.settled
            && ValidateChannel(e.(status := Closed)).Ok?
            && EpochTransition(e.(status := Closed), true, 0, at).Ok?
  {
    var f := FreezeClosure(q, s, d, frozenAt, atFreeze).value;
    var p := ProjectRefund(r, f, now, states).value;
    var e := d.(refunded := p.refundedAfter, updatedAt := at);
    assert CheckRefundTiming(r, f, now, states).None?;
    assert ValidateChannel(e).Ok?;
    FinalizationOpensNextEpoch(e, f, now, states, at);
    assert e.(status := Closed) == e.(status := Closed, updatedAt := at);
  }
}
