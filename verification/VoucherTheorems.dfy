/** In every run of the ledger, whatever the clock and the contexts, live vouchers only ever authorize more. */
module VoucherTheorems {
  import opened Tables
  import opened Channels
  import opened Vouchers
  import opened VoucherLedger

  predicate Edge(a: VoucherState, b: VoucherState)
  {
    || (a.Issued? && !b.ActivationRequested?)
    || (a.VoucherVerified? && !b.Issued?)
  }

  /** Newer than every other live voucher of its scope, and authorizing at least as much. */
  ghost predicate Above(rows: seq<Row>, to: Row)
    requires to.Live()
  {
    forall k :: 0 <= k < |rows| && rows[k].id != to.id && SameScope(rows[k], to) ==>
      rows[k].verified.value.sequence < to.verified.value.sequence
        && rows[k].verified.value.total <= to.verified.value.total
  }

  /** How one call may rewrite a row. */
  ghost predicate Move(hash: Payload -> string, rows: seq<Row>, i: nat, to: Row)
    requires i < |rows|
  {
    var from := rows[i];
    && to.id == from.id && to.voucher == from.voucher && from.updatedAt <= to.updatedAt
    && Edge(from.state, to.state) && RowSound(hash, to)
    && (to.Live() ==> (from.Live() && from.verified == to.verified) || Above(rows, to))
  }

  ghost predicate Inserts(s: Ledger, row: Row, s': Ledger)
  {
    && row.state.Issued? && row.verified.None? && (forall k :: 0 <= k < |s.rows| ==> s.rows[k].id != row.id)
    && s' == Ledger(s.rows + [row], s.events + [Event(row.id, row.state, row.error, row.updatedAt)])
  }

  ghost predicate Puts(hash: Payload -> string, s: Ledger, i: nat, row: Row, s': Ledger)
  {
    i < |s.rows| && Move(hash, s.rows, i, row) && s' == Put(s, i, row)
  }

  /** A call does nothing, records one new submission, or moves one row. */
  ghost predicate Changes(hash: Payload -> string, s: Ledger, s': Ledger)
  {
    || s' == s
    || (exists row :: Inserts(s, row, s'))
    || (exists i, row :: Puts(hash, s, i, row, s'))
  }

  /** The single row the ledger reads carries the largest live total, so comparing with it is enough. */
  lemma TopCarriesTheMaximum(rows: seq<Row>, scope: Scope, except: string, k: nat)
    requires Monotone(rows) && k < |rows| && rows[k].LiveIn(scope) && rows[k].id != except
    ensures var top := Top(rows, scope, except);
            && top.Some? && rows[k].verified.value.total <= top.value.verified.value.total
            && (rows[k] == top.value || rows[k].verified.value.sequence < top.value.verified.value.sequence)
  {
  }

  lemma VerifyChanges(hash: Payload -> string, s: Ledger, id: string, c: Context, now: int, signature: SignatureAnswer,
                      s': Ledger)
    requires Monotone(s.rows) && (forall i :: 0 <= i < |s.rows| ==> RowSound(hash, s.rows[i]))
    requires s' == DoVerify(hash, s, id, c, now, signature).0
    ensures Changes(hash, s, s')
  {
    var i := Find(s.rows, id);
    if s' != s {
      var row, latest := s.rows[i], MarkOf(Top(s.rows, c.scope, id));
      assert row.state.Issued?;
      var verified := VerifyVoucher(hash, row.voucher, c, now, signature, latest);
      if verified.Ok? {
        var to := row.(state := VoucherVerified, verified := Some(verified.value), error := None, updatedAt := now);
        forall k | 0 <= k < |s.rows| && s.rows[k].id != to.id && SameScope(s.rows[k], to)
          ensures s.rows[k].verified.value.sequence < to.verified.value.sequence
          ensures s.rows[k].verified.value.total <= to.verified.value.total
        {
          TopCarriesTheMaximum(s.rows, c.scope, id, k);
        }
        assert Puts(hash, s, i, to, s');
      } else {
        var state := if verified.error.SignatureVerifierFailed? then Issued else Rejected;
        assert Puts(hash, s, i, row.(state := state, error := Some(verified.error), updatedAt := now), s');
      }
    }
  }

  lemma ActivateChanges(hash: Payload -> string, s: Ledger, id: string, c: Context, now: int,
                        signature: SignatureAnswer, s': Ledger)
    requires forall i :: 0 <= i < |s.rows| ==> RowSound(hash, s.rows[i])
    requires s' == DoRequestActivation(hash, s, id, c, now, signature).0
    ensures Changes(hash, s, s')
  {
    var i := Find(s.rows, id);
    if s' != s {
      var row := s.rows[i];
      assert row.Live();
      var again := Reverify(hash, row, c, now, signature);
      if again.Ok? {
        assert Puts(hash, s, i, row.(state := ActivationRequested, error := None, updatedAt := now), s');
      } else {
        var state := if again.error.SignatureVerifierFailed? then VoucherVerified else Rejected;
        assert Puts(hash, s, i, row.(state := state, error := Some(again.error), updatedAt := now), s');
      }
    }
  }

  lemma StepChanges(hash: Payload -> string, s: Ledger, call: Call, s': Ledger)
    requires Good(hash, s) && s' == Step(hash, s, call).0
    ensures Changes(hash, s, s')
  {
    match call
    case Record(id, voucher, shapeOk, now) =>
      if s' != s {
        assert Inserts(s, Row(id, voucher, Issued, None, None, now), s');
      }
    case Verify(id, c, now, signature) => VerifyChanges(hash, s, id, c, now, signature, s');
    case Activate(id, c, now, signature) => ActivateChanges(hash, s, id, c, now, signature, s');
  }

  // ----- each kind of change keeps the invariant

  lemma PutKeepsMonotone(hash: Payload -> string, rows: seq<Row>, i: nat, to: Row)
    requires Distinct(rows) && Monotone(rows) && i < |rows| && Move(hash, rows, i, to)
    ensures Monotone(rows[i := to])
  {
  }

  /** The journal grows by one event for row `i`, whose time moves forward. */
  lemma AppendKeepsJournal(s: Ledger, rows: seq<Row>, i: nat)
    requires Journalled(s) && Distinct(rows) && |s.rows| <= |rows| && i < |rows|
    requires forall k :: 0 <= k < |rows| && k != i ==> k < |s.rows| && rows[k] == s.rows[k]
    requires if i < |s.rows| then s.rows[i].id == rows[i].id && s.rows[i].updatedAt <= rows[i].updatedAt
             else forall k :: 0 <= k < |s.rows| ==> s.rows[k].id != rows[i].id
    ensures Journalled(Ledger(rows, s.events + [Event(rows[i].id, rows[i].state, rows[i].error, rows[i].updatedAt)]))
  {
  }

  lemma InsertKeepsGood(hash: Payload -> string, s: Ledger, row: Row, s': Ledger)
    requires Good(hash, s) && Inserts(s, row, s')
    ensures Good(hash, s')
  {
    AppendKeepsJournal(s, s'.rows, |s.rows|);
    forall a, b | 0 <= a < |s'.rows| && 0 <= b < |s'.rows| && a != b && SameScope(s'.rows[a], s'.rows[b])
      ensures InOrder(s'.rows[a], s'.rows[b])
    {
      assert SameScope(s.rows[a], s.rows[b]);
    }
  }

  lemma PutKeepsGood(hash: Payload -> string, s: Ledger, i: nat, row: Row, s': Ledger)
    requires Good(hash, s) && Puts(hash, s, i, row, s')
    ensures Good(hash, s')
  {
    PutKeepsMonotone(hash, s.rows, i, row);
    AppendKeepsJournal(s, s'.rows, i);
  }

  lemma ChangeKeepsGood(hash: Payload -> string, s: Ledger, s': Ledger)
    requires Good(hash, s) && Changes(hash, s, s')
    ensures Good(hash, s')
  {
    if row :| Inserts(s, row, s') {
      InsertKeepsGood(hash, s, row, s');
    } else if i, row :| Puts(hash, s, i, row, s') {
      PutKeepsGood(hash, s, i, row, s');
    }
  }

  /** Distinct sequences, nondecreasing totals and a faithful journal, in every reachable ledger. */
  lemma {:induction false} RunKeepsGood(hash: Payload -> string, s: Ledger, calls: seq<Call>)
    requires Good(hash, s)
    ensures Good(hash, Run(hash, s, calls))
    decreases |calls|
  {
    if |calls| > 0 {
      var s' := Step(hash, s, calls[0]).0;
      StepChanges(hash, s, calls[0], s');
      ChangeKeepsGood(hash, s, s');
      RunKeepsGood(hash, s', calls[1..]);
    }
  }

  // ----- consequences

  /** Rejected and activation-requested submissions never move again, and no submission changes its voucher. */
  lemma {:induction false} SettledForGood(hash: Payload -> string, s: Ledger, calls: seq<Call>, i: nat)
    requires Good(hash, s) && i < |s.rows|
    ensures i < |Run(hash, s, calls).rows|
    ensures var row := Run(hash, s, calls).rows[i];
            && row.id == s.rows[i].id && row.voucher == s.rows[i].voucher && s.rows[i].updatedAt <= row.updatedAt
            && (s.rows[i].state.Rejected? || s.rows[i].state.ActivationRequested? ==> row == s.rows[i])
    decreases |calls|
  {
    if |calls| > 0 {
      var s' := Step(hash, s, calls[0]).0;
      StepChanges(hash, s, calls[0], s');
      ChangeKeepsGood(hash, s, s');
      SettledForGood(hash, s', calls[1..], i);
    }
  }

  /** The stored hash always matches the stored voucher: that refusal is unreachable. */
  lemma StoredVoucherAlwaysMatches(hash: Payload -> string, calls: seq<Call>, i: nat, c: Context, now: int,
                                   signature: SignatureAnswer)
    requires i < |Run(hash, EMPTY, calls).rows| && Run(hash, EMPTY, calls).rows[i].Live()
    ensures Reverify(hash, Run(hash, EMPTY, calls).rows[i], c, now, signature) != Err(PersistedMismatch)
  {
    RunKeepsGood(hash, EMPTY, calls);
  }

  /**
   * In any reachable ledger the newest live voucher of a scope authorizes the most, and what is verified next
   * must pass it, whichever vouchers have been rejected in between.
   */
  lemma NextVerifiedIsAbove(hash: Payload -> string, calls: seq<Call>, id: string, c: Context, now: int,
                            signature: SignatureAnswer, k: nat)
    requires var s := Run(hash, EMPTY, calls);
             && k < |s.rows| && s.rows[k].id != id && s.rows[k].LiveIn(c.scope)
             && Find(s.rows, id) < |s.rows| && s.rows[Find(s.rows, id)].state.Issued?
             && DoVerify(hash, s, id, c, now, signature).1.Recorded?
    ensures var s := Run(hash, EMPTY, calls);
            var payload := s.rows[Find(s.rows, id)].voucher.payload;
            s.rows[k].verified.value.sequence < payload.sequence && s.rows[k].verified.value.total <= payload.total
  {
    RunKeepsGood(hash, EMPTY, calls);
    TopCarriesTheMaximum(Run(hash, EMPTY, calls).rows, c.scope, id, k);
  }
}
