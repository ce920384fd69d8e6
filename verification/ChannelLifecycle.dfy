/**
 * One channel from funding to its last refund, every step taken only when the code that guards it agrees.
 *
 * `vault` is the token balance, moved by the same transfers as the counters; that it equals F - S - R is a
 * theorem.  The clock never goes back.  A settlement or refund takes effect when it starts from the present
 * S or R, which is what its reconciled observation shows.
 */
module ChannelLifecycle {
  import opened Tables
  import opened Channels
  import opened ClosePipeline
  import opened Vouchers
  import SettlementStore
  import CloseTheorems

  datatype Life = Life(
    channel: Channel, vault: int, clock: int, latest: Option<Payload>, past: seq<Channel>,
    close: Option<ClosureArtifacts>, freezes: seq<FreezeSnapshot>)

  datatype Step =
    | Fund(event: FundingEvent, after: Channel, at: int)
    | Activate(voucher: Voucher, signature: SignatureAnswer, at: int)
    | Settle(settlement: SettlementStore.SettlementRequest, registeredFrom: nat, registeredAt: int, at: int)
    | Close(closureId: string, key: string, idsOk: bool, now: int, deadline: int)     // microseconds
    | Freeze(states: seq<OperationState>, at: int)
    | Refund(freeze: nat, request: RefundRequest, projectedAt: int, states: seq<OperationState>, at: int)

  /** The authoritative snapshot a voucher is verified against. */
  function ContextOf(c: Channel): Context
  {
    Context(true, Scope(c.domain, c.identity, c.recipientClaim), c.funded, c.refunded, c.policy.limit, c.expiresAt,
            c.sequence, c.activated, c.voucherHash)
  }

  function Moved(w: Life, channel: Channel, vault: int, at: int): Life
  {
    w.(channel := channel, vault := vault, clock := at, past := w.past + [w.channel])
  }

  function DoFund(w: Life, event: FundingEvent, after: Channel, at: int): Life
  {
    if at < w.clock || at < after.updatedAt || ValidateFundingTransition(w.channel, event, after).Err? then w
    else Moved(w, after, w.vault + event.amount, at)
  }

  function DoActivate(hash: Payload -> string, w: Life, v: Voucher, signature: SignatureAnswer, at: int): Life
  {
    var c := w.channel;
    if at < w.clock || (c.claimDeadline.Some? && !ActivationIsEligible(at, c.claimDeadline.value)) then w
    else match VerifyVoucher(hash, v, ContextOf(c), at, signature, None)
      case Err(_) => w
      case Ok(x) =>
        Moved(w, c.(activated := x.total, sequence := x.sequence, voucherHash := x.voucherHash, updatedAt := at),
          w.vault, at)
          .(latest := Some(v.payload))
  }

  /** Every snapshot the channel has had, the present one last: a settlement may have been registered from any. */
  function Seen(w: Life): (snapshots: seq<Channel>)
    ensures |snapshots| == |w.past| + 1
  {
    w.past + [w.channel]
  }

  function DoSettle(w: Life, q: SettlementStore.SettlementRequest, from: nat, registeredAt: int, at: int): Life
  {
    var c := w.channel;
    if at < w.clock || from > |w.past| || q.settledBefore != c.settled
       || SettlementStore.ValidateRequest(q, Seen(w)[from], registeredAt).Some? then w
    else Moved(w, c.(settled := c.settled + q.requested, updatedAt := at), w.vault - q.requested, at)
  }

  function DoClose(w: Life, closureId: string, key: string, idsOk: bool, now: int, deadline: int): Life
  {
    var r := RequestClose(w.channel, closureId, key, idsOk, now, deadline);
    if WholeSeconds(now) < w.clock || r.Err? then w
    else Moved(w, CloseTheorems.Closing(w.channel, r.value.request, WholeSeconds(now)), w.vault, WholeSeconds(now))
           .(close := Some(r.value))
  }

  function DoFreeze(w: Life, states: seq<OperationState>, at: int): Life
  {
    if at < w.clock || w.close.None? then w
    else match FreezeClosure(w.close.value.request, w.close.value.snapshot, w.channel, at, states)
      case Err(_) => w
      case Ok(f) => w.(clock := at, freezes := w.freezes + [f])
  }

  function DoRefund(w: Life, k: nat, q: RefundRequest, projectedAt: int, states: seq<OperationState>, at: int): Life
  {
    if at < w.clock || k >= |w.freezes| then w
    else match ProjectRefund(q, w.freezes[k], projectedAt, states)
      case Err(_) => w
      case Ok(p) =>
        if p.refundedBefore != w.channel.refunded then w
        else Moved(w, w.channel.(refunded := p.refundedAfter, updatedAt := at), w.vault - p.requested, at)
  }

  function Next(hash: Payload -> string, w: Life, step: Step): Life
  {
    match step
    case Fund(event, after, at) => DoFund(w, event, after, at)
    case Activate(voucher, signature, at) => DoActivate(hash, w, voucher, signature, at)
    case Settle(q, from, registeredAt, at) => DoSettle(w, q, from, registeredAt, at)
    case Close(id, key, idsOk, now, deadline) => DoClose(w, id, key, idsOk, now, deadline)
    case Freeze(states, at) => DoFreeze(w, states, at)
    case Refund(k, q, projectedAt, states, at) => DoRefund(w, k, q, projectedAt, states, at)
  }

  function Run(hash: Payload -> string, w: Life, steps: seq<Step>): Life
    decreases |steps|
  {
    if |steps| == 0 then w else Run(hash, Next(hash, w, steps[0]), steps[1..])
  }

  // ----- the invariant

  /** F = V + S + R and 0 <= S <= A <= F - R. */
  predicate Law(c: Channel, vault: int)
  {
    c.funded == vault + c.settled + c.refunded && c.settled <= c.activated && c.activated + c.refunded <= c.funded
  }

  predicate Tracked(hash: Payload -> string, c: Channel, latest: Option<Payload>)
  {
    if latest.None? then c.sequence == 0 && c.voucherHash == ZERO_HASH
    else c.sequence == latest.value.sequence > 0 && c.voucherHash == hash(latest.value)
  }

  predicate Earlier(past: seq<Channel>, c: Channel)
  {
    forall h :: 0 <= h < |past| ==> past[h].activated <= c.activated
  }

  /** Rights and settlements only grow; F stands still; sequence and hash move together. */
  predicate SinceClose(before: RequestSnapshot, c: Channel)
  {
    && c.funded == before.accounting.funded && before.accounting.refunded <= c.refunded
    && CloseTheorems.ClaimWindowMove(before, c.(refunded := before.accounting.refunded))
  }

  predicate Window(w: Life)
  {
    if w.close.None? then w.channel.claimDeadline.None? && !w.channel.status.Closing? && w.freezes == []
    else
      var a := w.close.value;
      && CheckRequestSnapshot(a.request, a.snapshot).None?
      && w.channel.status.Closing? && w.channel.claimDeadline == Some(a.request.claimDeadline)
      && w.channel.domain == a.request.domain && w.channel.identity == a.request.channel
      && ValidateChannel(w.channel).Ok?
      && SinceClose(a.snapshot, w.channel)
  }

  /** A frozen snapshot still states the present F and A. */
  predicate StillTrue(f: FreezeSnapshot, c: Channel, clock: int)
  {
    && WellFormedFreeze(f) && c.claimDeadline.Some? && c.claimDeadline.value <= clock
    && f.accounting.funded == c.funded && f.accounting.activated == c.activated
    && f.accounting.refunded <= c.refunded && f.accounting.settled <= c.settled
  }

  predicate Frozen(w: Life)
  {
    forall k :: 0 <= k < |w.freezes| ==> StillTrue(w.freezes[k], w.channel, w.clock)
  }

  /** The recorded hash is that of some voucher with the recorded sequence, or both are zero. */
  ghost predicate AnchoredAt(hash: Payload -> string, s: RequestSnapshot)
  {
    || (s.sequence == 0 && s.voucherHash == ZERO_HASH)
    || (exists p: Payload :: s.sequence == p.sequence > 0 && s.voucherHash == hash(p))
  }

  /** The voucher hash recorded at the close request belongs to the sequence recorded with it. */
  ghost predicate Anchored(hash: Payload -> string, w: Life)
  {
    w.close.Some? ==>
      var s := w.close.value.snapshot;
      AnchoredAt(hash, s)
  }

  ghost predicate Good(hash: Payload -> string, w: Life)
  {
    && Law(w.channel, w.vault) && Earlier(w.past, w.channel) && Tracked(hash, w.channel, w.latest)
    && w.channel.updatedAt <= w.clock && w.channel.createdAt <= w.channel.updatedAt
    && Window(w) && Frozen(w) && Anchored(hash, w)
  }
}
