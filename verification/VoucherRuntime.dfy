/** The reference ledger as an object: each method is one transaction. */
module VoucherRuntime {
  import opened Tables
  import opened Channels
  import opened Vouchers
  import opened VoucherLedger

  class ReferenceVoucherLedger {
    const hash: Payload -> string
    var submissions: seq<Row>
    var events: seq<Event>

    ghost function Durable(): Ledger
      reads this
    {
      Ledger(submissions, events)
    }

    constructor (hash: Payload -> string)
      ensures Durable() == EMPTY && this.hash == hash
    {
      this.hash := hash;
      submissions, events := [], [];
    }

    method Write(i: nat, row: Row)
      requires i < |submissions|
      modifies this
      ensures Durable() == Put(old(Durable()), i, row)
    {
      submissions := submissions[i := row];
      events := events + [Event(row.id, row.state, row.error, row.updatedAt)];
    }

    method RecordIssued(id: string, voucher: Voucher, shapeOk: bool, now: int) returns (r: Reply)
      modifies this
      ensures (Durable(), r) == Step(hash, old(Durable()), Record(id, voucher, shapeOk, now))
      ensures r.Recorded? ==> r.row in submissions && r.row.id == id && r.row.voucher == voucher
      ensures r.Refused? ==> Durable() == old(Durable())
    {
      if !shapeOk {
        return Refused(MalformedSubmission);
      }
      var i := Find(submissions, id);
      if i < |submissions| {
        if submissions[i].voucher != voucher {
          return Refused(SubmissionCollision);
        }
        return Recorded(submissions[i]);
      }
      var row := Row(id, voucher, Issued, None, None, now);
      submissions := submissions + [row];
      events := events + [Event(id, Issued, None, now)];
      assert submissions[|submissions| - 1] == row;
      r := Recorded(row);
    }

    method VerifyIssued(id: string, c: Context, now: int, signature: SignatureAnswer) returns (r: Reply)
      modifies this
      ensures (Durable(), r) == Step(hash, old(Durable()), Verify(id, c, now, signature))
      ensures r.Recorded? ==> r.row in submissions && r.row.id == id && !r.row.state.Issued?
      ensures r == Refused(TimeRegressed) ==> Durable() == old(Durable())
    {
      var i := Find(submissions, id);
      if i == |submissions| {
        return Refused(SubmissionMissing);
      }
      var row := submissions[i];
      if row.state.VoucherVerified? || row.state.ActivationRequested? {
        return Recorded(row);
      }
      if row.state.Rejected? {
        return Refused(if row.error.Some? then row.error.value else MalformedVoucher);
      }
      if row.updatedAt > now {
        return Refused(TimeRegressed);
      }
      var verified := VerifyVoucher(hash, row.voucher, c, now, signature, MarkOf(Top(submissions, c.scope, id)));
      if verified.Err? {
        var to := if verified.error.SignatureVerifierFailed? then Issued else Rejected;
        Write(i, row.(state := to, error := Some(verified.error), updatedAt := now));
        return Refused(verified.error);
      }
      var next := row.(state := VoucherVerified, verified := Some(verified.value), error := None, updatedAt := now);
      Write(i, next);
      assert submissions[i] == next;
      r := Recorded(next);
    }

    method RequestActivation(id: string, c: Context, now: int, signature: SignatureAnswer) returns (r: Reply)
      modifies this
      ensures (Durable(), r) == Step(hash, old(Durable()), Activate(id, c, now, signature))
      ensures r.Recorded? ==> r.row in submissions && r.row.id == id && r.row.state.ActivationRequested?
      ensures r == Refused(TimeRegressed) || r == Refused(ActivationForbidden) ==> Durable() == old(Durable())
    {
      var i := Find(submissions, id);
      if i == |submissions| {
        return Refused(SubmissionMissing);
      }
      var row := submissions[i];
      if row.state.ActivationRequested? {
        return Recorded(row);
      }
      if !row.state.VoucherVerified? || row.verified.None? {
        return Refused(ActivationForbidden);
      }
      if row.updatedAt > now {
        return Refused(TimeRegressed);
      }
      var again := Reverify(hash, row, c, now, signature);
      if again.Err? {
        var to := if again.error.SignatureVerifierFailed? then VoucherVerified else Rejected;
        Write(i, row.(state := to, error := Some(again.error), updatedAt := now));
        return Refused(again.error);
      }
      var next := row.(state := ActivationRequested, error := None, updatedAt := now);
      Write(i, next);
      assert submissions[i] == next;
      r := Recorded(next);
    }
  }
}
