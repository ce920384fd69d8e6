/** What each call of the voucher ledger answers, exactly: which vouchers it accepts, keeps open or rejects, and why. */
module VoucherAnswers {
  import opened Tables
  import opened Channels
  import opened Vouchers
  import opened VoucherLedger
  import opened VoucherTheorems

  /** Nothing activated yet, or something: the sequence, the total and the voucher hash say the same. */
  predicate Coherent(c: Context)
  {
    || (c.sequence == 0 && c.activated == 0 && c.voucherHash == ZERO_HASH)
    || (c.sequence > 0 && c.activated > 0 && c.voucherHash != ZERO_HASH)
  }

  /** The snapshot covers what is activated in it, within the integers its fields may hold. */
  lemma ContextIff(c: Context)
    ensures ValidContext(c) <==>
              && c.wellFormed && Coherent(c) && c.activated + c.refunded <= c.funded && c.activated <= c.policyLimit
              && c.funded < 0x1_0000_0000_0000_0000 && c.policyLimit < 0x1_0000_0000_0000_0000
              && c.sequence < 0x20_0000_0000_0000
  {
  }

  /** The voucher is intact, for this channel and recipient, and follows the voucher activated there. */
  predicate Follows(hash: Payload -> string, v: Voucher, c: Context)
  {
    && v.wellFormed && 0 < v.payload.sequence < 0x20_0000_0000_0000 && v.payload.total < 0x1_0000_0000_0000_0000
    && v.payload.issuedAt < v.payload.expiresAt && v.voucherHash == hash(v.payload)
    && v.payload.scope == c.scope && v.payload.previous == c.voucherHash
  }

  /** It authorizes something, later and no less than what is activated, out of what F - R and the policy leave. */
  predicate Affordable(p: Payload, c: Context)
  {
    && c.sequence < p.sequence && c.activated <= p.total && 0 < p.total
    && p.total + c.refunded <= c.funded && p.total <= c.policyLimit
  }

  /** It has been issued, has not expired, and does not outlive the channel. */
  predicate Timely(p: Payload, c: Context, now: int) { p.issuedAt <= now < p.expiresAt <= c.channelExpiresAt }

  /** Everything a voucher owes to the authoritative snapshot, its signature aside. */
  predicate Sustained(hash: Payload -> string, v: Voucher, c: Context, now: int)
  {
    ValidContext(c) && Follows(hash, v, c) && Affordable(v.payload, c) && Timely(v.payload, c, now)
  }

  /** It also passes every other live voucher of its scope. */
  ghost predicate Passes(rows: seq<Row>, id: string, p: Payload, scope: Scope)
  {
    forall k :: 0 <= k < |rows| && rows[k].id != id && rows[k].LiveIn(scope) ==>
      rows[k].verified.value.sequence < p.sequence && rows[k].verified.value.total <= p.total
  }

  /** The reason is so of this voucher, context, clock and signature. */
  predicate SoOfVoucher(why: VoucherRefusal, hash: Payload -> string, v: Voucher, c: Context, now: int,
                        signature: SignatureAnswer, latest: Option<Mark>)
  {
    var p := v.payload;
    match why
    case InvalidContext => !ValidContext(c)
    case MalformedVoucher => !v.wellFormed || !ValidPayload(p)
    case HashMismatch => v.voucherHash != hash(p)
    case ScopeMismatch => p.scope != c.scope
    case PreviousHashMismatch => p.previous != c.voucherHash
    case SequenceNotMonotonic => p.sequence <= c.sequence || (latest.Some? && p.sequence <= latest.value.sequence)
    case TotalDecreased => p.total < c.activated || (latest.Some? && p.total < latest.value.total)
    case ZeroAuthorization => p.total == 0
    case ExceedsFunding => c.funded < p.total + c.refunded
    case ExceedsPolicy => c.policyLimit < p.total
    case IssuedInFuture => now < p.issuedAt
    case VoucherExpired => p.expiresAt <= now
    case ExceedsChannelExpiry => c.channelExpiresAt < p.expiresAt
    case SignatureVerifierFailed => signature.VerifierFailed?
    case InvalidSignature => signature.Forged?
    case _ => false
  }

  /** Later than the mark, for no less. */
  predicate Beyond(p: Payload, latest: Option<Mark>)
  {
    latest.Some? ==> latest.value.sequence < p.sequence && latest.value.total <= p.total
  }

  /** What one verification comes to: the signature is the last thing looked at. */
  lemma VerifiesExactly(hash: Payload -> string, v: Voucher, c: Context, now: int, signature: SignatureAnswer,
                        latest: Option<Mark>)
    ensures var r, fit := VerifyVoucher(hash, v, c, now, signature, latest),
                          Sustained(hash, v, c, now) && Beyond(v.payload, latest);
            && (r.Ok? <==> fit && signature.Genuine?)
            && (r == Err(SignatureVerifierFailed) <==> fit && signature.VerifierFailed?)
            && (r.Err? ==> SoOfVoucher(r.error, hash, v, c, now, signature, latest))
  {
    AcceptedIff(hash, v, c, now, signature, latest);
  }

  /** Comparing with the one top row is comparing with every live row of the scope. */
  lemma PassesTop(rows: seq<Row>, id: string, p: Payload, scope: Scope)
    requires Monotone(rows)
    ensures Passes(rows, id, p, scope) <==> Beyond(p, MarkOf(Top(rows, scope, id)))
  {
    forall k | 0 <= k < |rows| && rows[k].id != id && rows[k].LiveIn(scope)
      ensures Beyond(p, MarkOf(Top(rows, scope, id))) ==>
                rows[k].verified.value.sequence < p.sequence && rows[k].verified.value.total <= p.total
    {
      TopCarriesTheMaximum(rows, scope, id, k);
    }
  }

  // ----- the three calls

  /** Submitting is recorded once under an id: the same voucher again is the same submission, another one collides. */
  lemma RecordsExactly(s: Ledger, id: string, voucher: Voucher, shapeOk: bool, now: int, s': Ledger, reply: Reply)
    requires (s', reply) == DoRecord(s, id, voucher, shapeOk, now)
    ensures s' != s <==> shapeOk && forall k :: 0 <= k < |s.rows| ==> s.rows[k].id != id
    ensures s' != s ==>
              var row := Row(id, voucher, Issued, None, None, now);
              s' == Ledger(s.rows + [row], s.events + [Event(id, Issued, None, now)]) && reply == Recorded(row)
    ensures s' == s && reply.Recorded? ==> reply.row in s.rows && reply.row.id == id && reply.row.voucher == voucher
    ensures reply.Refused? ==>
              || (reply.why == MalformedSubmission && !shapeOk)
              || (reply.why == SubmissionCollision
                  && exists k :: 0 <= k < |s.rows| && s.rows[k].id == id && s.rows[k].voucher != voucher)
  {
    if s' != s {
      assert |s'.rows| > |s.rows|;
    }
  }

  /** Row `i` ends in `to` for this reason, or for none, and the event says so. */
  predicate Ends(s: Ledger, i: nat, to: VoucherState, why: Option<VoucherRefusal>, verified: Option<Verified>, now: int,
                 s': Ledger)
    requires i < |s.rows|
  {
    var next := s.rows[i].(state := to, verified := verified, error := why, updatedAt := now);
    s' == Ledger(s.rows[i := next], s.events + [Event(next.id, to, why, now)])
  }

  function Columns(hash: Payload -> string, p: Payload): Verified
  {
    Verified(hash(p), p.scope, p.sequence, p.total, p.expiresAt)
  }

  /**
   * An open submission is verified exactly when its voucher is sustained by the snapshot, passes every live voucher
   * of the scope and is genuinely signed; it stays open exactly when only the verifier failed; else it is rejected.
   */
  lemma VerifiesSubmissionExactly(hash: Payload -> string, s: Ledger, i: nat, id: string, c: Context, now: int,
                                  signature: SignatureAnswer, s': Ledger, reply: Reply)
    requires Monotone(s.rows) && i < |s.rows| && Find(s.rows, id) == i
    requires s.rows[i].state.Issued? && s.rows[i].updatedAt <= now
    requires (s', reply) == DoVerify(hash, s, id, c, now, signature)
    ensures var v := s.rows[i].voucher;
            var fit := Sustained(hash, v, c, now) && Passes(s.rows, id, v.payload, c.scope);
            if fit && signature.Genuine? then
              && Ends(s, i, VoucherVerified, None, Some(Columns(hash, v.payload)), now, s')
              && reply == Recorded(s'.rows[i])
            else
              && reply.Refused?
              && SoOfVoucher(reply.why, hash, v, c, now, signature, MarkOf(Top(s.rows, c.scope, id)))
              && Ends(s, i, if fit && signature.VerifierFailed? then Issued else Rejected, Some(reply.why),
                      s.rows[i].verified, now, s')
  {
    var v, latest := s.rows[i].voucher, MarkOf(Top(s.rows, c.scope, id));
    VerifiesExactly(hash, v, c, now, signature, latest);
    PassesTop(s.rows, id, v.payload, c.scope);
  }

  /**
   * Activation verifies again: a verified submission moves to activation_requested exactly when the voucher is, now,
   * sustained by the present snapshot and genuinely signed.  It stays verified exactly when only the verifier failed;
   * every other refusal rejects it.
   */
  lemma ActivatesExactly(hash: Payload -> string, s: Ledger, i: nat, id: string, c: Context, now: int,
                         signature: SignatureAnswer, s': Ledger, reply: Reply)
    requires i < |s.rows| && Find(s.rows, id) == i && RowSound(hash, s.rows[i])
    requires s.rows[i].state.VoucherVerified? && s.rows[i].updatedAt <= now
    requires (s', reply) == DoRequestActivation(hash, s, id, c, now, signature)
    ensures var row, fit := s.rows[i], Sustained(hash, s.rows[i].voucher, c, now);
            if fit && signature.Genuine? then
              Ends(s, i, ActivationRequested, None, row.verified, now, s') && reply == Recorded(s'.rows[i])
            else
              && reply.Refused?
              && (if ValidContext(c) && c.scope != row.voucher.payload.scope then reply.why == ContextChanged
                  else SoOfVoucher(reply.why, hash, row.voucher, c, now, signature, None))
              && Ends(s, i, if fit && signature.VerifierFailed? then VoucherVerified else Rejected, Some(reply.why),
                      row.verified, now, s')
  {
    VerifiesExactly(hash, s.rows[i].voucher, c, now, signature, None);
  }

  /** A call on a submission that is not in the state for it, or under a clock that went back, writes nothing. */
  lemma OtherwiseUnchanged(hash: Payload -> string, s: Ledger, call: Call, s': Ledger, reply: Reply)
    requires (call.Verify? || call.Activate?) && (s', reply) == Step(hash, s, call)
    requires var i := Find(s.rows, call.id);
             || i == |s.rows| || call.now < s.rows[i].updatedAt
             || (if call.Verify? then !s.rows[i].state.Issued?
                 else !s.rows[i].state.VoucherVerified? || s.rows[i].verified.None?)
    ensures s' == s
    ensures var i := Find(s.rows, call.id);
            if i == |s.rows| then reply == Refused(SubmissionMissing)
            else
              match s.rows[i].state
              case ActivationRequested => reply == Recorded(s.rows[i])
              case VoucherVerified =>
                if call.Verify? then reply == Recorded(s.rows[i])
                else reply == Refused(if s.rows[i].verified.None? then ActivationForbidden else TimeRegressed)
              case Issued => reply == Refused(if call.Verify? then TimeRegressed else ActivationForbidden)
              case Rejected =>
                reply == Refused(if call.Activate? then ActivationForbidden
                                 else if s.rows[i].error.Some? then s.rows[i].error.value else MalformedVoucher)
  {
  }

  /** An expired voucher is never activated, however it was verified. */
  lemma ExpiredIsRejected(hash: Payload -> string, calls: seq<Call>, i: nat, c: Context, now: int,
                          signature: SignatureAnswer)
    requires var s := Run(hash, EMPTY, calls);
             && i < |s.rows| && s.rows[i].state.VoucherVerified? && s.rows[i].updatedAt <= now
             && s.rows[i].voucher.payload.expiresAt <= now
    ensures var s := Run(hash, EMPTY, calls);
            var (s', reply) := Step(hash, s, Activate(s.rows[i].id, c, now, signature));
            reply.Refused? && i < |s'.rows| && s'.rows[i].state.Rejected?
  {
    var s := Run(hash, EMPTY, calls);
    RunKeepsGood(hash, EMPTY, calls);
    var (s', reply) := DoRequestActivation(hash, s, s.rows[i].id, c, now, signature);
    assert Find(s.rows, s.rows[i].id) == i;
    ActivatesExactly(hash, s, i, s.rows[i].id, c, now, signature, s', reply);
  }
}
