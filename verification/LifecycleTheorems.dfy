/** Over every run of a channel's life: conservation, covered rights, and nothing activated after a freeze. */
module LifecycleTheorems {
  import opened Tables
  import opened Hashes
  import opened Channels
  import opened ClosePipeline
  import opened Vouchers
  import opened ChannelLifecycle
  import SettlementStore
  import CloseTheorems

  /** The same closing channel with other totals. */
  predicate OnlyTotals(c: Channel, d: Channel)
  {
    d == c.(activated := d.activated, settled := d.settled, refunded := d.refunded,
            sequence := d.sequence, voucherHash := d.voucherHash, updatedAt := d.updatedAt)
  }

  lemma ClosingStaysValid(c: Channel, d: Channel)
    requires ValidateChannel(c).Ok? && c.status.Closing? && OnlyTotals(c, d) && c.updatedAt <= d.updatedAt
    requires d.settled <= d.activated && d.activated + d.refunded <= d.funded && d.activated <= d.policy.limit
    requires d.sequence == 0 <==> d.activated == 0
    ensures ValidateChannel(d).Ok?
  {
  }

  lemma FundKeepsGood(hash: Payload -> string, w: Life, event: FundingEvent, after: Channel, at: int, w': Life)
    requires Good(hash, w) && w' == DoFund(w, event, after, at)
    ensures Good(hash, w')
  {
  }

  /** An activation leaves the channel lawful, moves sequence and hash together, and happens before any freeze. */
  lemma ActivateKeepsGood(hash: Payload -> string, w: Life, v: Voucher, signature: SignatureAnswer, at: int, w': Life)
    requires Collisionless(hash, ZERO_HASH) && Good(hash, w) && w' == DoActivate(hash, w, v, signature, at)
    ensures Good(hash, w')
    ensures w' != w ==> |w.freezes| == 0
  {
    assert |w.freezes| > 0 ==> StillTrue(w.freezes[0], w.channel, w.clock);
    if w' != w {
      var x := VerifyVoucher(hash, v, ContextOf(w.channel), at, signature, None);
      assert x.Ok?;
      if w.close.Some? {
        ClosingStaysValid(w.channel, w'.channel);
        HashMovesWithSequence(hash, w.close.value.snapshot, w'.channel, v.payload);
      }
    }
  }

  lemma HashMovesWithSequence(hash: Payload -> string, s: RequestSnapshot, c: Channel, p: Payload)
    requires Collisionless(hash, ZERO_HASH) && c.voucherHash == hash(p) && c.sequence == p.sequence > s.sequence
    requires AnchoredAt(hash, s)
    ensures c.voucherHash != s.voucherHash
  {
  }

  lemma SettleKeepsGood(hash: Payload -> string, w: Life, q: SettlementStore.SettlementRequest, from: nat,
                        registeredAt: int, at: int, w': Life)
    requires Good(hash, w) && w' == DoSettle(w, q, from, registeredAt, at)
    ensures Good(hash, w')
  {
    if w' != w {
      var snapshot := Seen(w)[from];
      assert snapshot.activated <= w.channel.activated by {
        if from < |w.past| {
          assert snapshot == w.past[from];
        }
      }
      assert w'.channel.settled <= snapshot.activated;
      if w.close.Some? {
        assert ValidateChannel(w.channel).Ok?;
        ClosingStaysValid(w.channel, w'.channel);
      }
      forall k | 0 <= k < |w'.freezes| ensures StillTrue(w'.freezes[k], w'.channel, w'.clock) {
        assert StillTrue(w.freezes[k], w.channel, w.clock);
      }
    }
  }

  lemma CloseKeepsGood(hash: Payload -> string, w: Life, id: string, key: string, idsOk: bool, now: int, deadline: int,
                       w': Life)
    requires Good(hash, w) && w' == DoClose(w, id, key, idsOk, now, deadline)
    ensures Good(hash, w')
  {
    if w' != w {
      var a := RequestClose(w.channel, id, key, idsOk, now, deadline).value;
      CloseTheorems.RequestPassesNextStage(w.channel, id, key, idsOk, now, deadline);
      assert a.request.requestedAt == WholeSeconds(now);
      CloseTheorems.ClosingIsValid(w.channel, a.request, WholeSeconds(now));
      assert w.close.None?;
      AnchorFromTracked(hash, w, a.snapshot);
    }
  }

  lemma AnchorFromTracked(hash: Payload -> string, w: Life, s: RequestSnapshot)
    requires Tracked(hash, w.channel, w.latest) && s.sequence == w.channel.sequence
    requires s.voucherHash == w.channel.voucherHash
    ensures AnchoredAt(hash, s)
  {
  }

  lemma FreezeKeepsGood(hash: Payload -> string, w: Life, states: seq<OperationState>, at: int, w': Life)
    requires Good(hash, w) && w' == DoFreeze(w, states, at)
    ensures Good(hash, w')
  {
  }

  /** A refund projected from any earlier freeze keeps every activated right covered, because A has not moved since. */
  lemma RefundKeepsGood(hash: Payload -> string, w: Life, k: nat, q: RefundRequest, projectedAt: int,
                        states: seq<OperationState>, at: int, w': Life)
    requires Good(hash, w) && w' == DoRefund(w, k, q, projectedAt, states, at)
    ensures Good(hash, w')
  {
    if w' != w {
      var f := w.freezes[k];
      var p := ProjectRefund(q, f, projectedAt, states).value;
      assert StillTrue(f, w.channel, w.clock) && ProjectionOf(p, f);
      assert Law(w'.channel, w'.vault);
      assert w.close.Some?;
      ClosingStaysValid(w.channel, w'.channel);
      forall j | 0 <= j < |w'.freezes| ensures StillTrue(w'.freezes[j], w'.channel, w'.clock) {
        assert StillTrue(w.freezes[j], w.channel, w.clock);
      }
    }
  }

  lemma NextKeepsGood(hash: Payload -> string, w: Life, step: Step, w': Life)
    requires Collisionless(hash, ZERO_HASH) && Good(hash, w) && w' == Next(hash, w, step)
    ensures Good(hash, w')
  {
    match step
    case Fund(event, after, at) => FundKeepsGood(hash, w, event, after, at, w');
    case Activate(voucher, signature, at) => ActivateKeepsGood(hash, w, voucher, signature, at, w');
    case Settle(q, from, registeredAt, at) => SettleKeepsGood(hash, w, q, from, registeredAt, at, w');
    case Close(id, key, idsOk, now, deadline) => CloseKeepsGood(hash, w, id, key, idsOk, now, deadline, w');
    case Freeze(states, at) => FreezeKeepsGood(hash, w, states, at, w');
    case Refund(k, q, projectedAt, states, at) => RefundKeepsGood(hash, w, k, q, projectedAt, states, at, w');
  }

  lemma {:induction false} RunKeepsGood(hash: Payload -> string, w: Life, steps: seq<Step>)
    requires Collisionless(hash, ZERO_HASH) && Good(hash, w)
    ensures Good(hash, Run(hash, w, steps))
    decreases |steps|
  {
    if |steps| > 0 {
      var w' := Next(hash, w, steps[0]);
      NextKeepsGood(hash, w, steps[0], w');
      RunKeepsGood(hash, w', steps[1..]);
    }
  }

  /** The clock never goes back, whichever steps are taken or refused. */
  lemma {:induction false} ClockOnlyAdvances(hash: Payload -> string, w: Life, steps: seq<Step>)
    ensures w.clock <= Run(hash, w, steps).clock
    decreases |steps|
  {
    if |steps| > 0 {
      assert w.clock <= Next(hash, w, steps[0]).clock;
      ClockOnlyAdvances(hash, Next(hash, w, steps[0]), steps[1..]);
    }
  }

  // ----- the results, from any valid channel that is not closing yet

  /** A channel at the start of its observed life. */
  function Opened(c: Channel, latest: Option<Payload>): Life
  {
    Life(c, c.funded - c.settled - c.refunded, c.updatedAt, latest, [], None, [])
  }

  predicate MayOpen(hash: Payload -> string, c: Channel, latest: Option<Payload>)
  {
    ValidateChannel(c).Ok? && c.claimDeadline.None? && Tracked(hash, c, latest)
  }

  lemma OpenedIsGood(hash: Payload -> string, c: Channel, latest: Option<Payload>)
    requires MayOpen(hash, c, latest)
    ensures Good(hash, Opened(c, latest))
  {
  }

  /**
   * Throughout every run F = V + S + R and 0 <= S <= A <= F - R, so the vault always holds enough for every
   * right not yet settled.
   */
  lemma Conservation(hash: Payload -> string, c: Channel, latest: Option<Payload>, steps: seq<Step>)
    requires Collisionless(hash, ZERO_HASH) && MayOpen(hash, c, latest)
    ensures var w := Run(hash, Opened(c, latest), steps);
            && w.channel.funded == w.vault + w.channel.settled + w.channel.refunded
            && w.channel.settled <= w.channel.activated <= w.channel.funded - w.channel.refunded
            && 0 <= w.channel.activated - w.channel.settled <= w.vault
  {
    OpenedIsGood(hash, c, latest);
    RunKeepsGood(hash, Opened(c, latest), steps);
  }

  /** Once a freeze exists, F, A, the sequence and the voucher hash never move again, however the run goes on. */
  lemma {:induction false} FreezeIsFinal(hash: Payload -> string, w: Life, steps: seq<Step>)
    requires Collisionless(hash, ZERO_HASH) && Good(hash, w) && |w.freezes| > 0
    ensures var x := Run(hash, w, steps);
            && |x.freezes| >= |w.freezes|
            && x.channel.funded == w.channel.funded && x.channel.activated == w.channel.activated
            && x.channel.sequence == w.channel.sequence && x.channel.voucherHash == w.channel.voucherHash
            && w.channel.settled <= x.channel.settled && w.channel.refunded <= x.channel.refunded
    decreases |steps|
  {
    if |steps| > 0 {
      var w' := Next(hash, w, steps[0]);
      NextKeepsGood(hash, w, steps[0], w');
      StepAfterFreeze(hash, w, steps[0], w');
      FreezeIsFinal(hash, w', steps[1..]);
    }
  }

  lemma StepAfterFreeze(hash: Payload -> string, w: Life, step: Step, w': Life)
    requires Collisionless(hash, ZERO_HASH) && Good(hash, w) && |w.freezes| > 0 && w' == Next(hash, w, step)
    ensures |w'.freezes| >= |w.freezes|
    ensures w'.channel.funded == w.channel.funded && w'.channel.activated == w.channel.activated
    ensures w'.channel.sequence == w.channel.sequence && w'.channel.voucherHash == w.channel.voucherHash
    ensures w.channel.settled <= w'.channel.settled && w.channel.refunded <= w'.channel.refunded
  {
    match step
    case Activate(voucher, signature, at) => ActivateKeepsGood(hash, w, voucher, signature, at, w');
    case Fund(event, after, at) => assert w.channel.status.Closing?;
    case Close(id, key, idsOk, now, deadline) => assert w.channel.status.Closing?;
    case _ =>
  }

  /** Everything refunded after a freeze comes out of the capacity that freeze called unallocated. */
  lemma RefundsFitTheFreeze(hash: Payload -> string, c: Channel, latest: Option<Payload>, steps: seq<Step>, k: nat)
    requires Collisionless(hash, ZERO_HASH) && MayOpen(hash, c, latest)
    requires k < |Run(hash, Opened(c, latest), steps).freezes|
    ensures var w := Run(hash, Opened(c, latest), steps);
            var f := w.freezes[k].accounting;
            && w.channel.refunded - f.refunded <= f.unallocated
            && f.activated == w.channel.activated && f.funded == w.channel.funded
  {
    OpenedIsGood(hash, c, latest);
    RunKeepsGood(hash, Opened(c, latest), steps);
    var w := Run(hash, Opened(c, latest), steps);
    assert StillTrue(w.freezes[k], w.channel, w.clock);
  }

  /**
   * In any run, a closing channel whose R has not moved since the request can be frozen as soon as its
   * deadline is reached: no order of activations and settlements in the claim window gets in the way.
   */
  lemma CloseCanAlwaysFreeze(hash: Payload -> string, c: Channel, latest: Option<Payload>, steps: seq<Step>,
                             states: seq<OperationState>, at: int)
    requires Collisionless(hash, ZERO_HASH) && MayOpen(hash, c, latest)
    requires var w := Run(hash, Opened(c, latest), steps);
             w.close.Some? && w.close.value.request.claimDeadline <= at && AllSupported(states)
    ensures var w := Run(hash, Opened(c, latest), steps);
            FreezeClosure(w.close.value.request, w.close.value.snapshot, w.channel, at, states).Ok?
            <==> w.channel.refunded == w.close.value.snapshot.accounting.refunded
  {
    OpenedIsGood(hash, c, latest);
    RunKeepsGood(hash, Opened(c, latest), steps);
    var w := Run(hash, Opened(c, latest), steps);
    assert Window(w);
  }
}
