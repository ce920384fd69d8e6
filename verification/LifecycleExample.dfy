/** One ordinary life: every kind of step of the lifecycle runs moves the channel. */
module LifecycleExample {
  import opened Tables
  import opened Channels
  import opened ClosePipeline
  import opened Vouchers
  import opened ChannelLifecycle
  import opened LifecycleTheorems
  import SettlementStore
  import CloseTheorems

  /** A channel opened at time 0 with nothing funded yet. */
  predicate Unfunded(c: Channel)
  {
    && ValidTotals(c) && c.status.Funding? && NoClose(c)
    && c.funded == c.activated == c.settled == c.refunded == c.sequence == 0
    && c.voucherHash == ZERO_HASH && c.recipientWallet.Some?
    && 10 <= c.policy.limit <= U64_MAX && c.policy.minimumCloseGrace == 10
    && c.createdAt == c.updatedAt == 0 && c.expiresAt == 1000
  }

  function Funded(c: Channel): Channel { c.(funded := 10, status := Active, updatedAt := 1) }

  function Deposit(c: Channel): FundingEvent
  {
    FundingEvent(true, c.identity.channelId, c.identity.account, c.identity.mint, 10, 10, 1)
  }

  function FirstPayload(c: Channel): Payload
  {
    Payload(Scope(c.domain, c.identity, c.recipientClaim), 1, ZERO_HASH, 5, 0, 900)
  }

  function FirstVoucher(hash: Payload -> string, c: Channel): Voucher
  {
    Voucher(true, FirstPayload(c), hash(FirstPayload(c)), "")
  }

  function Activated(hash: Payload -> string, c: Channel): Channel
  {
    Funded(c).(activated := 5, sequence := 1, voucherHash := hash(FirstPayload(c)), updatedAt := 2)
  }

  /** Registered from the snapshot the activation left, which is still the present one. */
  function Request(hash: Payload -> string, c: Channel): SettlementStore.SettlementRequest
    requires c.recipientWallet.Some?
  {
    SettlementStore.SettlementRequest(
      true, c.domain, c.identity.channelId, c.identity.account, c.identity.epoch, c.identity.mint,
      c.recipientWallet.value, "", "", "", "", 5, 5, 0, 10, Activated(hash, c), 2, 900)
  }

  function Settled(hash: Payload -> string, c: Channel): Channel { Activated(hash, c).(settled := 5, updatedAt := 3) }

  function Closing(hash: Payload -> string, c: Channel): Channel
  {
    Settled(hash, c).(status := Status.Closing, closeRequestedAt := Some(4), claimDeadline := Some(20), updatedAt := 4)
  }

  function RefundUnder(f: FreezeSnapshot): RefundRequest
  {
    RefundRequest(true, f.domain, f.channel, f.closureId, "", "", FinalClose, f.channel.sender, 5, f, 20, 30)
  }

  lemma OpeningIsValid(c: Channel)
    requires Unfunded(c)
    ensures ValidateChannel(c).Ok?
  {
    ValidIff(c);
  }

  lemma FundedIsValid(c: Channel, d: Channel)
    requires Unfunded(c) && d == Funded(c)
    ensures ValidateChannel(d).Ok?
  {
    ValidIff(d);
  }

  lemma ActivatedIsValid(hash: Payload -> string, c: Channel, d: Channel)
    requires Unfunded(c) && d == Activated(hash, c)
    ensures ValidateChannel(d).Ok?
  {
    ValidIff(d);
  }

  lemma SettledIsValid(hash: Payload -> string, c: Channel, d: Channel)
    requires Unfunded(c) && d == Settled(hash, c)
    ensures ValidateChannel(d).Ok?
  {
    ValidIff(d);
  }

  lemma ClosingIsValid(hash: Payload -> string, c: Channel, d: Channel)
    requires Unfunded(c) && d == Closing(hash, c)
    ensures ValidateChannel(d).Ok?
  {
    ValidIff(d);
  }

  // ----- each step, by what the code guarding it does

  lemma FundingMovesOnlyF(c: Channel, d: Channel)
    requires Unfunded(c) && d == Funded(c)
    ensures SameExceptFunding(c, d) && c.status.Funding? && d.status.Active?
    ensures c.funded == 0 && d.funded == 10 && c.updatedAt <= 1 <= d.updatedAt
  {
  }

  lemma DepositIsAccepted(c: Channel, d: Channel)
    requires Unfunded(c) && d == Funded(c)
    ensures ValidateFundingTransition(c, Deposit(c), d).Ok?
  {
    FundingMovesOnlyF(c, d);
    OpeningIsValid(c);
    FundedIsValid(c, d);
    FundingIff(c, Deposit(c), d);
  }

  lemma Deposits(c: Channel, d: Channel, w: Life) returns (w': Life)
    requires w.channel == c && w.vault == 0 && w.clock == 0 && w.past == [] && d.updatedAt == 1
    requires ValidateFundingTransition(c, Deposit(c), d).Ok?
    ensures w' == DoFund(w, Deposit(c), d, 1)
    ensures w' == w.(channel := d, vault := 10, clock := 1, past := [c])
  {
    w' := DoFund(w, Deposit(c), d, 1);
  }

  lemma Activates(hash: Payload -> string, c: Channel, w: Life) returns (w': Life)
    requires Unfunded(c) && w.channel == Funded(c) && w.clock == 1 && w.past == [c]
    ensures w' == DoActivate(hash, w, FirstVoucher(hash, c), Genuine, 2)
    ensures w' == w.(channel := Activated(hash, c), clock := 2, past := [c, w.channel], latest := Some(FirstPayload(c)))
  {
    AcceptedIff(hash, FirstVoucher(hash, c), ContextOf(w.channel), 2, Genuine, None);
    w' := DoActivate(hash, w, FirstVoucher(hash, c), Genuine, 2);
  }

  lemma RequestIsAccepted(hash: Payload -> string, c: Channel, d: Channel)
    requires Unfunded(c) && d == Activated(hash, c)
    ensures SettlementStore.ValidateRequest(Request(hash, c), d, 2).None?
  {
    ActivatedIsValid(hash, c, d);
    SettlementStore.RequestIff(Request(hash, c), d, 2);
  }

  lemma Settles(q: SettlementStore.SettlementRequest, w: Life) returns (w': Life)
    requires SettlementStore.ValidateRequest(q, w.channel, 2).None? && w.clock == 2
    requires q.settledBefore == w.channel.settled
    ensures w' == DoSettle(w, q, |w.past|, 2, 3)
    ensures w' == w.(channel := w.channel.(settled := w.channel.settled + q.requested, updatedAt := 3),
                     vault := w.vault - q.requested, clock := 3, past := Seen(w))
  {
    assert Seen(w)[|w.past|] == w.channel;
    w' := DoSettle(w, q, |w.past|, 2, 3);
  }

  lemma SettlesFirst(hash: Payload -> string, c: Channel, w: Life) returns (w': Life)
    requires Unfunded(c) && w.channel == Activated(hash, c) && w.vault == 10 && w.clock == 2
    ensures w' == DoSettle(w, Request(hash, c), |w.past|, 2, 3)
    ensures w'.channel == Settled(hash, c) && w'.vault == 5 && w'.clock == 3 && w'.freezes == w.freezes
  {
    RequestIsAccepted(hash, c, w.channel);
    w' := Settles(Request(hash, c), w);
  }

  lemma Closes(hash: Payload -> string, c: Channel, d: Channel, w: Life) returns (w': Life, a: ClosureArtifacts)
    requires Unfunded(c) && d == Settled(hash, c) && w.channel == d && w.clock == 3
    ensures w' == DoClose(w, "", "", true, 4_000_000, 20_000_000)
    ensures w' == w.(channel := Closing(hash, c), clock := 4, past := Seen(w), close := Some(a))
    ensures RequestClose(d, "", "", true, 4_000_000, 20_000_000) == Ok(a)
  {
    SettledIsValid(hash, c, d);
    CloseTheorems.RequestCloseIff(d, "", "", true, 4_000_000, 20_000_000);
    assert WholeSeconds(4_000_000) == 4 && WholeSeconds(20_000_000) == 20;
    a := RequestClose(d, "", "", true, 4_000_000, 20_000_000).value;
    w' := DoClose(w, "", "", true, 4_000_000, 20_000_000);
  }

  /** What a final refund needs of a freeze. */
  predicate ReadyFor5(f: FreezeSnapshot)
  {
    WellFormedFreeze(f) && f.unresolved == 0 && f.claimDeadline == 20
      && f.accounting == Accounting(10, 5, 5, 0, 5, 0, 5)
  }

  lemma FreezeIsGranted(hash: Payload -> string, c: Channel, a: ClosureArtifacts, d: Channel, e: Channel)
    requires Unfunded(c) && d == Settled(hash, c) && e == Closing(hash, c)
    requires RequestClose(d, "", "", true, 4_000_000, 20_000_000) == Ok(a)
    ensures FreezeClosure(a.request, a.snapshot, e, 20, []).Ok?
  {
    ClosingIsValid(hash, c, e);
    assert WholeSeconds(4_000_000) == 4 && WholeSeconds(20_000_000) == 20;
    CloseTheorems.FreezeIff(d, "", "", 4_000_000, 20_000_000, e, 20, []);
  }

  lemma FreezeIsReady(hash: Payload -> string, c: Channel, a: ClosureArtifacts, e: Channel)
    requires Unfunded(c) && e == Closing(hash, c) && a.request.claimDeadline == 20
    requires FreezeClosure(a.request, a.snapshot, e, 20, []).Ok?
    ensures ReadyFor5(FreezeClosure(a.request, a.snapshot, e, 20, []).value)
  {
    CloseTheorems.FreezePassesNextStage(a.request, a.snapshot, e, 20, []);
  }

  lemma Freezes(w: Life, a: ClosureArtifacts, f: FreezeSnapshot) returns (w': Life)
    requires w.close == Some(a) && w.clock == 4 && w.freezes == []
    requires FreezeClosure(a.request, a.snapshot, w.channel, 20, []) == Ok(f)
    ensures w' == DoFreeze(w, [], 20)
    ensures w' == w.(clock := 20, freezes := [f])
  {
    w' := DoFreeze(w, [], 20);
  }

  lemma FinalRefundIsProjected(f: FreezeSnapshot, q: RefundRequest, now: int) returns (p: RefundProjection)
    requires CheckRefundLinks(q, f).None? && CheckRefundTiming(q, f, now, []).None?
    requires q.reason.FinalClose? && 0 < q.requested == f.accounting.vault
    requires f.accounting.activated == f.accounting.settled
    ensures ProjectRefund(q, f, now, []) == Ok(p)
    ensures p.refundedBefore == f.accounting.refunded && p.refundedAfter == p.refundedBefore + p.requested
    ensures p.requested == q.requested
  {
    CloseTheorems.ProjectionIff(q, f, now, []);
    p := ProjectRefund(q, f, now, []).value;
  }

  lemma RefundIsDue(f: FreezeSnapshot, q: RefundRequest)
    requires ReadyFor5(f) && q == RefundUnder(f)
    ensures CheckRefundLinks(q, f).None? && CheckRefundTiming(q, f, 20, []).None?
  {
  }

  lemma Refunds(w: Life, f: FreezeSnapshot, q: RefundRequest, at: int, now: int, p: RefundProjection) returns (w': Life)
    requires w.freezes == [f] && w.clock <= at && ProjectRefund(q, f, now, []) == Ok(p)
    requires p.refundedBefore == w.channel.refunded
    ensures w' == DoRefund(w, 0, q, now, [], at)
    ensures w'.channel == w.channel.(refunded := p.refundedAfter, updatedAt := at) && w'.vault == w.vault - p.requested
  {
    w' := DoRefund(w, 0, q, now, [], at);
  }

  // ----- strung together

  /** Some run leads from one point of a life to the other. */
  ghost predicate Leads(hash: Payload -> string, w: Life, w': Life) { exists steps :: w' == Run(hash, w, steps) }

  lemma LeadsNowhere(hash: Payload -> string, w: Life)
    ensures Leads(hash, w, w)
  {
    assert w == Run(hash, w, []);
  }

  lemma LeadsOn(hash: Payload -> string, w: Life, step: Step, middle: Life, w': Life)
    requires middle == Next(hash, w, step) && Leads(hash, middle, w')
    ensures Leads(hash, w, w')
  {
    var rest :| w' == Run(hash, middle, rest);
    assert ([step] + rest)[1..] == rest;
    assert w' == Run(hash, w, [step] + rest);
  }

  lemma ByRefund(hash: Payload -> string, w: Life, k: nat, q: RefundRequest, projectedAt: int,
                 states: seq<OperationState>,
                 at: int, middle: Life, w': Life)
    requires middle == DoRefund(w, k, q, projectedAt, states, at) && Leads(hash, middle, w')
    ensures Leads(hash, w, w')
  {
    LeadsOn(hash, w, Refund(k, q, projectedAt, states, at), middle, w');
  }

  lemma ByFreeze(hash: Payload -> string, w: Life, states: seq<OperationState>, at: int, middle: Life, w': Life)
    requires middle == DoFreeze(w, states, at) && Leads(hash, middle, w')
    ensures Leads(hash, w, w')
  {
    LeadsOn(hash, w, Freeze(states, at), middle, w');
  }

  lemma ByClose(hash: Payload -> string, w: Life, id: string, key: string, ok: bool, now: int, deadline: int,
                middle: Life, w': Life)
    requires middle == DoClose(w, id, key, ok, now, deadline) && Leads(hash, middle, w')
    ensures Leads(hash, w, w')
  {
    LeadsOn(hash, w, Close(id, key, ok, now, deadline), middle, w');
  }

  lemma BySettle(hash: Payload -> string, w: Life, q: SettlementStore.SettlementRequest, from: nat, registeredAt: int,
                 at: int, middle: Life, w': Life)
    requires middle == DoSettle(w, q, from, registeredAt, at) && Leads(hash, middle, w')
    ensures Leads(hash, w, w')
  {
    LeadsOn(hash, w, Settle(q, from, registeredAt, at), middle, w');
  }

  lemma ByActivate(hash: Payload -> string, w: Life, v: Voucher, signature: SignatureAnswer, at: int, middle: Life,
                   w': Life)
    requires middle == DoActivate(hash, w, v, signature, at) && Leads(hash, middle, w')
    ensures Leads(hash, w, w')
  {
    LeadsOn(hash, w, Activate(v, signature, at), middle, w');
  }

  lemma ByFund(hash: Payload -> string, w: Life, event: FundingEvent, after: Channel, at: int, middle: Life, w': Life)
    requires middle == DoFund(w, event, after, at) && Leads(hash, middle, w')
    ensures Leads(hash, w, w')
  {
    LeadsOn(hash, w, Fund(event, after, at), middle, w');
  }

  /** Everything paid: 5 of 10 to the recipient, 5 back to the sender. */
  predicate PaidOut(w: Life)
  {
    w.channel.funded == 10 && w.channel.activated == w.channel.settled == w.channel.refunded == 5 && w.vault == 0
  }

  lemma FromFreeze(hash: Payload -> string, w: Life, f: FreezeSnapshot) returns (w': Life)
    requires w.channel.funded == 10 && w.channel.activated == w.channel.settled == 5 && w.channel.refunded == 0
    requires w.vault == 5 && w.clock == 20 && w.freezes == [f] && ReadyFor5(f)
    ensures Leads(hash, w, w') && PaidOut(w')
  {
    var q := RefundUnder(f);
    RefundIsDue(f, q);
    var p := FinalRefundIsProjected(f, q, 20);
    w' := Refunds(w, f, q, 21, 20, p);
    LeadsNowhere(hash, w');
    ByRefund(hash, w, 0, RefundUnder(f), 20, [], 21, w', w');
  }

  lemma FromClosing(hash: Payload -> string, w: Life, a: ClosureArtifacts, f: FreezeSnapshot) returns (w': Life)
    requires w.channel.funded == 10 && w.channel.activated == w.channel.settled == 5 && w.channel.refunded == 0
    requires w.vault == 5 && w.clock == 4 && w.freezes == [] && w.close == Some(a)
    requires FreezeClosure(a.request, a.snapshot, w.channel, 20, []) == Ok(f) && ReadyFor5(f)
    ensures Leads(hash, w, w') && PaidOut(w')
  {
    var w1 := Freezes(w, a, f);
    w' := FromFreeze(hash, w1, f);
    ByFreeze(hash, w, [], 20, w1, w');
  }

  /** Closing and freezing, planned from the settled channel alone. */
  lemma PlanFreeze(hash: Payload -> string, c: Channel, a: ClosureArtifacts, d: Channel, e: Channel)
    returns (f: FreezeSnapshot)
    requires Unfunded(c) && d == Settled(hash, c) && e == Closing(hash, c)
    requires RequestClose(d, "", "", true, 4_000_000, 20_000_000) == Ok(a)
    ensures FreezeClosure(a.request, a.snapshot, e, 20, []) == Ok(f) && ReadyFor5(f)
  {
    FreezeIsGranted(hash, c, a, d, e);
    assert a.request.claimDeadline == 20 by {
      assert WholeSeconds(20_000_000) == 20;
    }
    FreezeIsReady(hash, c, a, e);
    f := FreezeClosure(a.request, a.snapshot, e, 20, []).value;
  }

  lemma FromSettled(hash: Payload -> string, c: Channel, d: Channel, w: Life) returns (w': Life)
    requires Unfunded(c) && d == Settled(hash, c) && w.channel == d && w.vault == 5 && w.clock == 3 && w.freezes == []
    ensures Leads(hash, w, w') && PaidOut(w')
  {
    var w1, a := Closes(hash, c, d, w);
    var f := PlanFreeze(hash, c, a, d, w1.channel);
    w' := FromClosing(hash, w1, a, f);
    ByClose(hash, w, "", "", true, 4_000_000, 20_000_000, w1, w');
  }

  lemma FromActivated(hash: Payload -> string, c: Channel, w: Life) returns (w': Life)
    requires Unfunded(c) && w.channel == Activated(hash, c) && w.vault == 10 && w.clock == 2 && w.freezes == []
    ensures Leads(hash, w, w') && PaidOut(w')
  {
    var w1 := SettlesFirst(hash, c, w);
    w' := FromSettled(hash, c, w1.channel, w1);
    BySettle(hash, w, Request(hash, c), |w.past|, 2, 3, w1, w');
  }

  lemma FromFunded(hash: Payload -> string, c: Channel, w: Life) returns (w': Life)
    requires Unfunded(c) && w.channel == Funded(c) && w.vault == 10 && w.clock == 1 && w.past == [c] && w.freezes == []
    ensures Leads(hash, w, w') && PaidOut(w')
  {
    var w1 := Activates(hash, c, w);
    w' := FromActivated(hash, c, w1);
    ByActivate(hash, w, FirstVoucher(hash, c), Genuine, 2, w1, w');
  }

  lemma FromOpened(hash: Payload -> string, c: Channel, w: Life) returns (w': Life)
    requires Unfunded(c) && w.channel == c && w.vault == 0 && w.clock == 0 && w.past == [] && w.freezes == []
    ensures Leads(hash, w, w') && PaidOut(w')
  {
    DepositIsAccepted(c, Funded(c));
    var w1 := Deposits(c, Funded(c), w);
    w' := FromFunded(hash, c, w1);
    ByFund(hash, w, Deposit(c), Funded(c), 1, w1, w');
  }

  /**
   * Funded with 10, 5 activated and settled, closed, frozen, the other 5 refunded: the runs that conservation
   * ranges over include this one, whatever the channel's names and the hash.  S moves by a settlement
   * registered from the snapshot that is still the present one.
   */
  lemma OrdinaryLife(hash: Payload -> string, c: Channel, start: Life) returns (w: Life)
    requires Unfunded(c) && start == Opened(c, None)
    ensures Leads(hash, start, w) && PaidOut(w)
  {
    w := FromOpened(hash, c, start);
  }

  lemma UnfundedMayOpen(hash: Payload -> string, c: Channel)
    requires Unfunded(c)
    ensures MayOpen(hash, c, None)
  {
    OpeningIsValid(c);
  }

  /** And there is such a channel to begin with. */
  lemma SomeChannelIsUnfunded() returns (c: Channel)
    ensures Unfunded(c)
  {
    c := Channel(true, Domain("", "", "", ""), ChannelRef("", "", 0, "", ""), "", Some(""), 6, "", 0, 0, 0, 0, 0,
                 ZERO_HASH, Status.Funding, 1000, None, None, Policy(true, "", 100, false, 10), 0, 0);
  }
}
