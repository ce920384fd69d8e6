/** Cumulative vouchers: each names the activated voucher before it and the new total it authorizes. */
module Vouchers {
  import opened Tables
  import opened Channels

  const JSON_SAFE_MAX: nat := 9_007_199_254_740_991
  const ZERO_HASH: string := "sha256:0000000000000000000000000000000000000000000000000000000000000000"

  /** Everything that separates one voucher ledger from another. */
  datatype Scope = Scope(domain: Domain, channel: ChannelRef, recipientClaim: string)

  datatype Payload = Payload(scope: Scope, sequence: nat, previous: string, total: nat, issuedAt: int, expiresAt: int)

  datatype Voucher = Voucher(wellFormed: bool, payload: Payload, voucherHash: string, signature: string)

  /** What the signature verifier did. */
  datatype SignatureAnswer = Genuine | Forged | VerifierFailed

  datatype Context = Context(
    wellFormed: bool, scope: Scope, funded: nat, refunded: nat, policyLimit: nat, channelExpiresAt: int,
    sequence: nat, activated: nat, voucherHash: string)

  datatype Verified = Verified(voucherHash: string, scope: Scope, sequence: nat, total: nat, expiresAt: int)

  /** The highest voucher already accepted off-chain. */
  datatype Mark = Mark(sequence: nat, total: nat)

  datatype VoucherRefusal =
    | InvalidContext | MalformedVoucher | HashMismatch | ScopeMismatch | PreviousHashMismatch
    | SequenceNotMonotonic | TotalDecreased | ZeroAuthorization | ExceedsFunding | ExceedsPolicy
    | IssuedInFuture | VoucherExpired | ExceedsChannelExpiry | SignatureVerifierFailed | InvalidSignature
    | MalformedSubmission | SubmissionCollision | SubmissionMissing | ActivationForbidden | TimeRegressed
    | ContextChanged | PersistedMismatch

  predicate ValidContext(c: Context)
  {
    && c.wellFormed
    && c.funded <= U64_MAX && c.policyLimit <= U64_MAX && c.sequence <= JSON_SAFE_MAX
    && c.refunded <= c.funded && c.activated <= c.funded - c.refunded && c.activated <= c.policyLimit
    && (c.sequence == 0 <==> c.activated == 0)
    && (c.sequence == 0 <==> c.voucherHash == ZERO_HASH)
  }

  predicate ValidPayload(p: Payload)
  {
    1 <= p.sequence <= JSON_SAFE_MAX && p.total <= U64_MAX && p.issuedAt < p.expiresAt
  }

  function Larger(a: nat, b: nat): nat { if a < b then b else a }

  /** Offline verification of one voucher against the activated snapshot and the highest accepted one. */
  function VerifyVoucher(hash: Payload -> string, v: Voucher, c: Context, now: int, signature: SignatureAnswer,
                         latest: Option<Mark>)
    : (r: Result<Verified, VoucherRefusal>)
    ensures r.Ok? ==>
              r.value == Verified(hash(v.payload), v.payload.scope, v.payload.sequence, v.payload.total,
                v.payload.expiresAt)
    ensures r.Ok? ==> v.payload.scope == c.scope && ValidContext(c) && signature.Genuine?
    ensures r.Ok? ==> c.sequence < r.value.sequence && c.activated <= r.value.total && 0 < r.value.total
    ensures r.Ok? ==> r.value.total + c.refunded <= c.funded && r.value.total <= c.policyLimit
    ensures r.Ok? && latest.Some? ==> latest.value.sequence < r.value.sequence && latest.value.total <= r.value.total
    ensures r.Ok? ==>
              v.payload.issuedAt <= now < v.payload.expiresAt <= c.channelExpiresAt
                && v.payload.previous == c.voucherHash
    ensures r == Err(SignatureVerifierFailed) ==> signature.VerifierFailed?
    ensures r.Err? ==> r.error !in {TimeRegressed, PersistedMismatch, ContextChanged}
  {
    var p := v.payload;
    if !ValidContext(c) then Err(InvalidContext)
    else if !v.wellFormed || !ValidPayload(p) then Err(MalformedVoucher)
    else if v.voucherHash != hash(p) then Err(HashMismatch)
    else if p.scope != c.scope then Err(ScopeMismatch)
    else if p.previous != c.voucherHash then Err(PreviousHashMismatch)
    else
      var minimumSequence := if latest.Some? then Larger(c.sequence, latest.value.sequence) else c.sequence;
      var minimumTotal := if latest.Some? then Larger(c.activated, latest.value.total) else c.activated;
      if p.sequence <= minimumSequence then Err(SequenceNotMonotonic)
      else if p.total < minimumTotal then Err(TotalDecreased)
      else if p.total == 0 then Err(ZeroAuthorization)
      else if p.total > c.funded - c.refunded then Err(ExceedsFunding)
      else if p.total > c.policyLimit then Err(ExceedsPolicy)
      else if p.issuedAt > now then Err(IssuedInFuture)
      else if now >= p.expiresAt then Err(VoucherExpired)
      else if p.expiresAt > c.channelExpiresAt then Err(ExceedsChannelExpiry)
      else match signature
           case VerifierFailed => Err(SignatureVerifierFailed)
           case Forged => Err(InvalidSignature)
           case Genuine => Ok(Verified(hash(p), p.scope, p.sequence, p.total, p.expiresAt))
  }

  /** Authorizes at least `total`, under a later sequence number. */
  predicate Extends(p: Payload, sequence: nat, total: nat) { sequence < p.sequence && total <= p.total }

  /** Exactly which vouchers are accepted. */
  lemma AcceptedIff(hash: Payload -> string, v: Voucher, c: Context, now: int, signature: SignatureAnswer,
                    latest: Option<Mark>)
    ensures var p := v.payload;
            VerifyVoucher(hash, v, c, now, signature, latest).Ok?
            <==> && v.wellFormed && ValidContext(c) && ValidPayload(p) && signature.Genuine?
                 && v.voucherHash == hash(p) && p.scope == c.scope && p.previous == c.voucherHash
                 && Extends(p, c.sequence, c.activated)
                   && (latest.Some? ==> Extends(p, latest.value.sequence, latest.value.total))
                 && 0 < p.total && p.total + c.refunded <= c.funded && p.total <= c.policyLimit
                 && p.issuedAt <= now < p.expiresAt <= c.channelExpiresAt
  {
  }
}

/** The reference ledger: a durable journal of vouchers on their way to activation. */
module VoucherLedger {
  import opened Tables
  import opened Channels
  import opened Vouchers

  datatype VoucherState = Issued | VoucherVerified | ActivationRequested | Rejected

  datatype Row = Row(
    id: string, voucher: Voucher, state: VoucherState, verified: Option<Verified>, error: Option<VoucherRefusal>,
    updatedAt: int)
  {
    predicate Live() { (state.VoucherVerified? || state.ActivationRequested?) && verified.Some? }

    predicate LiveIn(scope: Scope) { Live() && verified.value.scope == scope }
  }

  datatype Event = Event(id: string, state: VoucherState, error: Option<VoucherRefusal>, at: int)

  datatype Ledger = Ledger(rows: seq<Row>, events: seq<Event>)

  const EMPTY := Ledger([], [])

  datatype Reply = Recorded(row: Row) | Refused(why: VoucherRefusal)

  function Find(rows: seq<Row>, id: string): (i: nat)
    ensures i <= |rows| && (i < |rows| ==> rows[i].id == id)
    ensures i == |rows| ==> forall k :: 0 <= k < |rows| ==> rows[k].id != id
  {
    FirstIndex(rows, (row: Row) => row.id == id)
  }

  /** The live row of the scope with the highest sequence, other than the one being verified. */
  function Top(rows: seq<Row>, scope: Scope, except: string): (top: Option<Row>)
    ensures top.Some? ==> top.value in rows && top.value.LiveIn(scope) && top.value.id != except
    ensures forall k :: 0 <= k < |rows| && rows[k].LiveIn(scope) && rows[k].id != except ==>
              top.Some? && rows[k].verified.value.sequence <= top.value.verified.value.sequence
  {
    if |rows| == 0 then None
    else
      var rest, last := Top(rows[..|rows| - 1], scope, except), rows[|rows| - 1];
      assert forall k :: 0 <= k < |rows| - 1 ==> rows[..|rows| - 1][k] == rows[k];
      if !last.LiveIn(scope) || last.id == except then rest
      else if rest.Some? && last.verified.value.sequence <= rest.value.verified.value.sequence then rest
      else Some(last)
  }

  function MarkOf(top: Option<Row>): Option<Mark>
    requires top.Some? ==> top.value.Live()
  {
    if top.None? then None else Some(Mark(top.value.verified.value.sequence, top.value.verified.value.total))
  }

  /** Writes a row's new state and the matching event. */
  function Put(s: Ledger, i: nat, row: Row): Ledger
    requires i < |s.rows|
  {
    Ledger(s.rows[i := row], s.events + [Event(row.id, row.state, row.error, row.updatedAt)])
  }

  function DoRecord(s: Ledger, id: string, voucher: Voucher, shapeOk: bool, now: int): (r: (Ledger, Reply))
  {
    if !shapeOk then (s, Refused(MalformedSubmission))
    else
      var i := Find(s.rows, id);
      if i < |s.rows| then
        if s.rows[i].voucher != voucher then (s, Refused(SubmissionCollision)) else (s, Recorded(s.rows[i]))
      else
        var row := Row(id, voucher, Issued, None, None, now);
        (Ledger(s.rows + [row], s.events + [Event(id, Issued, None, now)]), Recorded(row))
  }

  function DoVerify(hash: Payload -> string, s: Ledger, id: string, c: Context, now: int,
                    signature: SignatureAnswer): (r: (Ledger, Reply))
  {
    var i := Find(s.rows, id);
    if i == |s.rows| then (s, Refused(SubmissionMissing))
    else
      var row := s.rows[i];
      if row.state.VoucherVerified? || row.state.ActivationRequested? then (s, Recorded(row))
      else if row.state.Rejected? then (s, Refused(if row.error.Some? then row.error.value else MalformedVoucher))
      else if row.updatedAt > now then (s, Refused(TimeRegressed))
      else
        var verified := VerifyVoucher(hash, row.voucher, c, now, signature, MarkOf(Top(s.rows, c.scope, id)));
        match verified
        case Ok(v) =>
          var next := row.(state := VoucherVerified, verified := Some(v), error := None, updatedAt := now);
          (Put(s, i, next), Recorded(next))
        case Err(why) =>
          // Committed before the refusal is raised: a verifier failure leaves the submission open, anything else
          // closes it.
          var to := if why.SignatureVerifierFailed? then Issued else Rejected;
          (Put(s, i, row.(state := to, error := Some(why), updatedAt := now)), Refused(why))
  }

  /** The second verification asks for no more than the activated snapshot: other live vouchers do not count. */
  function Reverify(hash: Payload -> string, row: Row, c: Context, now: int,
                    signature: SignatureAnswer): (r: Result<Verified, VoucherRefusal>)
    requires row.verified.Some?
  {
    if !ValidContext(c) then Err(InvalidContext)
    else if c.scope != row.verified.value.scope then Err(ContextChanged)
    else
      var current := VerifyVoucher(hash, row.voucher, c, now, signature, None);
      if current.Ok?
        && current.value.voucherHash != row.verified.value.voucherHash then Err(PersistedMismatch) else current
  }

  function DoRequestActivation(hash: Payload -> string, s: Ledger, id: string, c: Context, now: int,
                               signature: SignatureAnswer): (r: (Ledger, Reply))
  {
    var i := Find(s.rows, id);
    if i == |s.rows| then (s, Refused(SubmissionMissing))
    else
      var row := s.rows[i];
      if row.state.ActivationRequested? then (s, Recorded(row))
      else if !row.state.VoucherVerified? || row.verified.None? then (s, Refused(ActivationForbidden))
      else if row.updatedAt > now then (s, Refused(TimeRegressed))
      else
        match Reverify(hash, row, c, now, signature)
        case Ok(_) =>
          var next := row.(state := ActivationRequested, error := None, updatedAt := now);
          (Put(s, i, next), Recorded(next))
        case Err(why) =>
          var to := if why.SignatureVerifierFailed? then VoucherVerified else Rejected;
          (Put(s, i, row.(state := to, error := Some(why), updatedAt := now)), Refused(why))
  }

  datatype Call =
    | Record(id: string, voucher: Voucher, shapeOk: bool, now: int)
    | Verify(id: string, context: Context, now: int, signature: SignatureAnswer)
    | Activate(id: string, context: Context, now: int, signature: SignatureAnswer)

  function Step(hash: Payload -> string, s: Ledger, call: Call): (Ledger, Reply)
  {
    match call
    case Record(id, voucher, shapeOk, now) => DoRecord(s, id, voucher, shapeOk, now)
    case Verify(id, c, now, signature) => DoVerify(hash, s, id, c, now, signature)
    case Activate(id, c, now, signature) => DoRequestActivation(hash, s, id, c, now, signature)
  }

  function Run(hash: Payload -> string, s: Ledger, calls: seq<Call>): Ledger
    decreases |calls|
  {
    if |calls| == 0 then s else Run(hash, Step(hash, s, calls[0]).0, calls[1..])
  }

  // ----- what every reachable ledger satisfies

  ghost predicate Distinct(rows: seq<Row>)
  {
    forall i, j :: 0 <= i < j < |rows| ==> rows[i].id != rows[j].id
  }

  /** A row's verified columns are those of the voucher it holds. */
  predicate RowSound(hash: Payload -> string, row: Row)
  {
    && (row.state.Issued? <==> row.verified.None? && !row.state.Rejected?)
    && (row.verified.Some? ==>
          var p := row.voucher.payload;
          row.verified.value == Verified(hash(p), p.scope, p.sequence, p.total, p.expiresAt))
  }

  predicate InOrder(a: Row, b: Row)
    requires a.Live() && b.Live()
  {
    var x, y := a.verified.value, b.verified.value;
    && x.sequence != y.sequence
    && (x.sequence < y.sequence ==> x.total <= y.total)
    && (y.sequence < x.sequence ==> y.total <= x.total)
  }

  predicate SameScope(a: Row, b: Row) { a.Live() && b.Live() && a.verified.value.scope == b.verified.value.scope }

  /** Live vouchers of one scope: distinct sequences, totals nondecreasing in sequence. */
  ghost predicate Monotone(rows: seq<Row>)
  {
    forall i, j :: 0 <= i < |rows| && 0 <= j < |rows| && i != j && SameScope(rows[i], rows[j]) ==>
      InOrder(rows[i], rows[j])
  }

  /** The last event of the submission, if it has one. */
  function LastEvent(events: seq<Event>, id: string): Option<Event>
  {
    if |events| == 0 then None
    else if events[|events| - 1].id == id then Some(events[|events| - 1])
    else LastEvent(events[..|events| - 1], id)
  }

  /** Each row's last event is its present state; a submission's events never go back in time. */
  ghost predicate Journalled(s: Ledger)
  {
    && (forall i :: 0 <= i < |s.rows| ==>
          LastEvent(s.events,
            s.rows[i].id) == Some(Event(s.rows[i].id, s.rows[i].state, s.rows[i].error, s.rows[i].updatedAt)))
    && (forall e :: 0 <= e < |s.events| ==>
          exists i :: 0 <= i < |s.rows| && s.rows[i].id == s.events[e].id && s.events[e].at <= s.rows[i].updatedAt)
    && (forall d, e :: 0 <= d < e < |s.events| && s.events[d].id == s.events[e].id ==> s.events[d].at <= s.events[e].at)
  }

  ghost predicate Good(hash: Payload -> string, s: Ledger)
  {
    && Distinct(s.rows) && Monotone(s.rows) && Journalled(s)
    && (forall i :: 0 <= i < |s.rows| ==> RowSound(hash, s.rows[i]))
  }
}
