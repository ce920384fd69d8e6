/** Runs from the empty tables in which the bound or the disjointness fails, each for want of one hypothesis. */
module SettlementWitnesses {
  import opened Tables
  import opened Channels
  import opened SettlementStore
  import opened SettlementTheorems
  import opened SettlementReservations
  import opened SettlementExactness
  import opened SettlementOvertaking

  /** An active channel with 20 funded and 10 activated. */
  predicate Payable(c: Channel)
  {
    && ValidateChannel(c).Ok? && c.status.Active? && c.recipientWallet.Some?
    && c.funded == 20 && c.activated == 10 && c.refunded == 0 && c.settled <= 5 && c.expiresAt > 1
  }

  /** Half of the activated right, asked for at time 0 from this snapshot. */
  function Half(c: Channel, id: string): SettlementRequest
    requires Payable(c)
  {
    SettlementRequest(
      true, c.domain, c.identity.channelId, c.identity.account, c.identity.epoch, c.identity.mint,
      c.recipientWallet.value, id, id, id, id, 5, 10, c.settled, 20 - c.settled, c, 0, 1)
  }

  lemma PayableIf(c: Channel)
    requires ValidTotals(c) && NoClose(c) && c.updatedAt < c.expiresAt && c.status.Active? && c.recipientWallet.Some?
    requires c.funded == 20 && c.activated == 10 && c.refunded == 0 && c.settled <= 5 && c.expiresAt > 1
    ensures Payable(c)
  {
    ValidIff(c);
  }

  /** A channel of which `settled` has been paid. */
  function Sample(settled: nat): Channel
  {
    Channel(true, Domain("", "", "", ""), ChannelRef("", "", 0, "", ""), "", Some(""), 6, "", 20, 10, settled, 0, 1, "",
            Active, 2, None, None, Policy(true, "", 100, false, 10), 0, 0)
  }

  /** Tables with nothing registered yet. */
  ghost predicate Blank(s: Store) { Good(s) && s.rows == [] }

  lemma EmptyIsBlank()
    ensures Blank(EMPTY)
  {
  }

  /** None of the rows uses this id for anything. */
  predicate Unused(rows: seq<Row>, id: string)
  {
    forall i :: 0 <= i < |rows| ==>
      && rows[i].settlementId != id && rows[i].request.idempotencyKey != id
      && rows[i].request.obligationId != id && rows[i].request.executionRequestId != id
  }

  lemma HalfIsSupported(c: Channel, id: string)
    requires Payable(c)
    ensures ValidateRequest(Half(c, id), c, 0).None?
  {
    RequestIff(Half(c, id), c, 0);
  }

  lemma Registers(s: Store, c: Channel, id: string) returns (s': Store)
    requires Good(s) && Payable(c) && Unused(s.rows, id) && HasRoom(s, Half(c, id))
    ensures Appends(s, Half(c, id), s')
  {
    var q := Half(c, id);
    var t := Register(q, c, 0);
    HalfIsSupported(c, id);
    ReservationFits(s, q);
    s' := Apply(s, t).0;
    assert s' == DoRegister(s, q, c, 0).0;
    ApplyKeepsGood(s, t);
    ReachesSelf(s');
    ReachesNext(s, t, s', s');
  }

  predicate HasRoom(s: Store, q: SettlementRequest)
  {
    HighWater(s, ScopeOf(q)) <= q.settledBefore && q.settledBefore + Reserved(s, ScopeOf(q)) <= 5
  }

  function NewRow(q: SettlementRequest): Row { Row(q.settlementId, q, Validated, None, None, None, None, 0) }

  ghost predicate Appends(s: Store, q: SettlementRequest, s': Store)
  {
    FreshlyReaches(s, s') && Good(s') && s'.rows == s.rows + [NewRow(q)]
  }

  /** Half of a right of 10, under an id of its own, that any table with room for it accepts. */
  ghost predicate AnyHalf(q: SettlementRequest, id: string, from: nat)
  {
    && q.settlementId == q.idempotencyKey == q.obligationId == q.executionRequestId == id
    && q.requested == 5 && q.activatedBefore == 10 && q.settledBefore == from
    && forall s {:trigger Unused(s.rows, id)} ::
         Good(s) && Unused(s.rows, id) && HasRoom(s, q) ==> exists s' :: Appends(s, q, s')
  }

  lemma HalvesAreAccepted(c: Channel, id: string)
    requires Payable(c)
    ensures AnyHalf(Half(c, id), id, c.settled)
  {
    forall s {:trigger Unused(s.rows, id)} | Good(s) && Unused(s.rows, id) && HasRoom(s, Half(c, id))
      ensures exists s' :: Appends(s, Half(c, id), s')
    {
      var s' := Registers(s, c, id);
    }
  }

  lemma HalfExists(id: string, from: nat) returns (q: SettlementRequest)
    requires from <= 5
    ensures AnyHalf(q, id, from) && ScopeOf(q) == Scope("", 0) && q.snapshot == Sample(from)
  {
    var c := Sample(from);
    PayableIf(c);
    HalvesAreAccepted(c, id);
    q := Half(c, id);
  }

  lemma ReservationFits(s: Store, q: SettlementRequest)
    requires Unused(s.rows, q.settlementId)
    requires q.idempotencyKey == q.settlementId && q.obligationId == q.settlementId
    requires q.executionRequestId == q.settlementId
    requires q.requested == 5 && q.activatedBefore == 10 && 15 <= q.vaultBefore <= 20
    requires HighWater(s, ScopeOf(q)) <= q.settledBefore && q.settledBefore + Reserved(s, ScopeOf(q)) <= 5
    ensures CheckReservation(s, q).None? && Find(s, q.settlementId) == |s.rows|
    ensures FirstIndex(s.rows, Collides(q)) == |s.rows|
  {
  }

  lemma NoRows(weight: Row -> nat)
    ensures SumBy([], weight) == 0 && MaxBy([], weight) == 0
  {
  }

  lemma OneRow(a: Row, weight: Row -> nat)
    ensures SumBy([a], weight) == weight(a) && MaxBy([a], weight) == weight(a)
  {
    assert [a][..0] == [];
  }

  lemma TwoRows(a: Row, b: Row, weight: Row -> nat)
    ensures SumBy([a, b], weight) == weight(a) + weight(b)
    ensures MaxBy([a, b], weight) == if weight(b) > weight(a) then weight(b) else weight(a)
  {
    assert [a, b][..1] == [a];
    OneRow(a, weight);
  }

  lemma FirstHalf(start: Store, q: SettlementRequest, id: string, from: nat) returns (s: Store)
    requires Blank(start) && AnyHalf(q, id, from) && from <= 5
    ensures FreshlyReaches(start, s) && Good(s) && s.rows == [NewRow(q)]
  {
    NoRows(ReservedAmount(ScopeOf(q)));
    NoRows(CompletedAfter(ScopeOf(q)));
    assert Unused(start.rows, id);
    s :| Appends(start, q, s);
  }

  lemma SecondHalf(start: Store, s: Store, first: Row, q: SettlementRequest, id: string, from: nat) returns (s': Store)
    requires FreshlyReaches(start, s) && Good(s) && s.rows == [first] && AnyHalf(q, id, from)
    requires Unused([first], id) && first.request.requested == 5 && ScopeOf(first.request) == ScopeOf(q)
    requires if first.state.Completed? then SettledAfter(first.request) <= from <= 5 else from == 0
    ensures FreshlyReaches(start, s') && Good(s') && s'.rows == [first, NewRow(q)]
  {
    OneRow(first, ReservedAmount(ScopeOf(q)));
    OneRow(first, CompletedAfter(ScopeOf(q)));
    assert Unused(s.rows, id);
    s' :| Appends(s, q, s');
    ReachesOn(start, s, s');
  }

  /** Completes one row of a reached store. */
  lemma CompletesNext(start: Store, s: Store, i: nat) returns (s': Store, done: Row)
    requires FreshlyReaches(start, s) && Good(s) && i < |s.rows| && !s.rows[i].state.Terminal()
    ensures FreshlyReaches(start, s') && Good(s') && s'.rows == s.rows[i := done]
    ensures done.state.Completed? && done.request == s.rows[i].request && done.settlementId == s.rows[i].settlementId
  {
    s', done := DriveToCompletion(s, i);
    ReachesOn(start, s, s');
  }

  // ----- completed intervals meet

  /** The receipt rests on observations that show S leaving `from` and arriving at `to`. */
  predicate ClaimsMove(row: Row, from: nat, to: nat)
  {
    && row.state.Completed? && row.receipt.Some? && |row.receipt.value.observations| > 0
    && forall k :: 0 <= k < |row.receipt.value.observations| ==>
         row.receipt.value.observations[k].settledBefore == from && row.receipt.value.observations[k].settledAfter == to
  }

  lemma CompletedClaims(s: Store, i: nat)
    requires Good(s) && i < |s.rows| && s.rows[i].state.Completed?
    ensures ClaimsMove(s.rows[i], s.rows[i].request.settledBefore, SettledAfter(s.rows[i].request))
  {
    var row := s.rows[i];
    assert RowSound(row, row.settlementId in s.intents);
    forall k | 0 <= k < |row.receipt.value.observations|
      ensures row.receipt.value.observations[k].settledBefore == row.request.settledBefore
      ensures row.receipt.value.observations[k].settledAfter == SettledAfter(row.request)
    {
      assert ShowsEffect(row.receipt.value.observations[k], row);
    }
  }

  /**
   * Both requests were settled, each on observations that saw S go from 0 to 5: their receipts contradict each other.
   */
  ghost predicate BothClaimTheSameMove(s: Store, a: SettlementRequest, b: SettlementRequest)
  {
    && |s.rows| == 2 && s.rows[0].request == a && s.rows[1].request == b && a != b
    && ClaimsMove(s.rows[0], 0, 5) && ClaimsMove(s.rows[1], 0, 5) && !CompletedApart(s.rows, ScopeOf(a))
  }

  lemma OverlapFrom(start: Store, a: SettlementRequest, b: SettlementRequest) returns (s: Store)
    requires Blank(start) && AnyHalf(a, "a", 0) && AnyHalf(b, "b", 0) && ScopeOf(a) == ScopeOf(b)
    ensures FreshlyReaches(start, s) && BothClaimTheSameMove(s, a, b)
  {
    var one := FirstHalf(start, a, "a", 0);
    var two := SecondHalf(start, one, NewRow(a), b, "b", 0);
    s := BothComplete(start, two, a, b);
  }

  lemma BothComplete(start: Store, s: Store, a: SettlementRequest, b: SettlementRequest) returns (s': Store)
    requires FreshlyReaches(start, s) && Good(s) && s.rows == [NewRow(a), NewRow(b)] && ScopeOf(a) == ScopeOf(b)
    requires a != b
    requires a.settledBefore == b.settledBefore == 0 && a.requested == b.requested == 5
    ensures FreshlyReaches(start, s') && BothClaimTheSameMove(s', a, b)
  {
    s' := CompleteBoth(s, 0, 1, ScopeOf(a));
    ReachesOn(start, s, s');
    CompletedClaims(s', 0);
    CompletedClaims(s', 1);
  }

  /** Two halves of one right, registered from one snapshot, both complete over the same interval. */
  lemma OverlapIsReached(start: Store) returns (s: Store, a: SettlementRequest, b: SettlementRequest)
    requires Blank(start)
    ensures FreshlyReaches(start, s) && BothClaimTheSameMove(s, a, b) && a.snapshot == b.snapshot
  {
    a := HalfExists("a", 0);
    b := HalfExists("b", 0);
    s := OverlapFrom(start, a, b);
  }

  // ----- settled plus reserved passes the activated total

  /** 15 settled or reserved of a right of 10. */
  ghost predicate Overspent(s: Store, scope: Scope)
  {
    && Latest(s.rows, scope).Some? && Latest(s.rows, scope).value.activatedBefore == 10
    && HighWater(s, scope) == 10 && Reserved(s, scope) == 5
  }

  lemma OverspentIsNotWithin(s: Store, scope: Scope)
    requires Overspent(s, scope)
    ensures !WithinActivated(s, scope)
  {
  }

  lemma OverspentRows(s: Store, low: Row, high: Row, scope: Scope)
    requires s.rows == [low, high] || s.rows == [high, low]
    requires low.request.settledBefore == 0 && low.request.requested == 5 && !low.state.Terminal()
    requires high.request.settledBefore == 5 && high.request.requested == 5 && high.state.Completed?
    requires low.request.activatedBefore == high.request.activatedBefore == 10
    requires ScopeOf(low.request) == ScopeOf(high.request) == scope
    ensures Overspent(s, scope)
  {
    TwoRows(s.rows[0], s.rows[1], ReservedAmount(scope));
    TwoRows(s.rows[0], s.rows[1], CompletedAfter(scope));
  }

  /** Registers the upper half, then the lower one, then completes the upper. */
  lemma UpperFirst(start: Store, upper: SettlementRequest, lower: SettlementRequest) returns (s: Store)
    requires Blank(start) && AnyHalf(upper, "a", 5) && AnyHalf(lower, "b", 0) && ScopeOf(upper) == ScopeOf(lower)
    ensures FreshlyReaches(start, s) && Overspent(s, ScopeOf(lower))
  {
    var one := FirstHalf(start, upper, "a", 5);
    var two := SecondHalf(start, one, NewRow(upper), lower, "b", 0);
    var done;
    s, done := CompletesNext(start, two, 0);
    assert s.rows == [done, NewRow(lower)];
    OverspentRows(s, NewRow(lower), done, ScopeOf(lower));
  }

  /**
   * Without nondecreasing S: the half from 5 is registered first, the half from 0 after it, and once the first
   * completes, 10 are settled and 5 reserved of a right of 10.  The run is fresh.
   */
  lemma DecreasingSnapshotsOverspend(start: Store) returns (s: Store, scope: Scope)
    requires Blank(start)
    ensures FreshlyReaches(start, s) && Overspent(s, scope)
  {
    var upper := HalfExists("a", 5);
    var lower := HalfExists("b", 0);
    scope := ScopeOf(lower);
    s := UpperFirst(start, upper, lower);
  }

  /** Registers and completes the lower half. */
  lemma LowerSettles(start: Store, lower: SettlementRequest) returns (s: Store, row: Row)
    requires Blank(start) && AnyHalf(lower, "a", 0)
    ensures FreshlyReaches(start, s) && Good(s) && s.rows == [row]
    ensures row.state.Completed? && row.request == lower && row.settlementId == "a"
  {
    var one := FirstHalf(start, lower, "a", 0);
    s, row := CompletesNext(start, one, 0);
    assert s.rows == [row];
  }

  /** Then the upper one, from the snapshot the lower left. */
  lemma BothSettle(start: Store, lower: SettlementRequest, upper: SettlementRequest)
    returns (s: Store, low: Row, high: Row)
    requires Blank(start) && AnyHalf(lower, "a", 0) && AnyHalf(upper, "b", 5) && ScopeOf(lower) == ScopeOf(upper)
    ensures FreshlyReaches(start, s) && Good(s) && s.rows == [low, high]
    ensures low.state.Completed? && low.request == lower && high.state.Completed? && high.request == upper
  {
    var one;
    one, low := LowerSettles(start, lower);
    var two := SecondHalf(start, one, low, upper, "b", 5);
    s, high := CompletesNext(start, two, 1);
    assert s.rows == [low, high];
  }

  lemma LowerReopens(start: Store, s: Store, low: Row, high: Row, scope: Scope) returns (s': Store)
    requires FreshlyReaches(start, s) && Good(s) && s.rows == [low, high] && low.state.Completed?
    requires high.state.Completed?
    requires low.request.settledBefore == 0 && high.request.settledBefore == 5
    requires low.request.requested == high.request.requested == 5
    requires low.request.activatedBefore == high.request.activatedBefore == 10
    requires ScopeOf(low.request) == ScopeOf(high.request) == scope
    ensures PossiblyReaches(start, s') && Overspent(s', scope) && SettledNondecreasing(s'.rows, scope)
  {
    var row;
    s', row := Reopen(s, 0);
    FreshIsPossible(start, s);
    PossiblyOn(start, s, s');
    assert s'.rows == [row, high];
    OverspentRows(s', row, high, scope);
  }

  lemma LateRecoveryFrom(start: Store, lower: SettlementRequest, upper: SettlementRequest) returns (s: Store)
    requires Blank(start) && AnyHalf(lower, "a", 0) && AnyHalf(upper, "b", 5) && ScopeOf(lower) == ScopeOf(upper)
    ensures PossiblyReaches(start, s) && Overspent(s, ScopeOf(lower)) && SettledNondecreasing(s.rows, ScopeOf(lower))
  {
    var both, low, high := BothSettle(start, lower, upper);
    s := LowerReopens(start, both, low, high, ScopeOf(lower));
  }

  /**
   * Without freshness: both halves complete one after the other, then a recovery decided for the first is
   * written late, and 5 of the 10 settled are reserved again.  S never decreased between registrations.
   */
  lemma LateRecoveryOverspends(start: Store) returns (s: Store, scope: Scope)
    requires Blank(start)
    ensures PossiblyReaches(start, s) && Overspent(s, scope) && SettledNondecreasing(s.rows, scope)
  {
    var lower := HalfExists("a", 0);
    var upper := HalfExists("b", 5);
    scope := ScopeOf(lower);
    s := LateRecoveryFrom(start, lower, upper);
  }
}
