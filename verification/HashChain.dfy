/** What is assumed of SHA-256 over canonical bytes. */
module Hashes {

  /** No two values share a digest, and none has the reserved one. */
  ghost predicate Collisionless<A(!new)>(hash: A -> string, reserved: string)
  {
    && (forall a, b :: hash(a) == hash(b) ==> a == b)
    && (forall a :: hash(a) != reserved)
  }
}

/** A tamper-evident log: each entry's digest covers the digest of the one before it. */
module HashChain {
  import opened Hashes

  const GENESIS: string := "genesis"

  datatype Body<E> = Body(subject: string, event: E, previous: string, recordedAt: int)

  datatype Link<E> = Link(body: Body<E>, digest: string)

  function Head<E>(history: seq<Link<E>>): string
  {
    if |history| == 0 then GENESIS else history[|history| - 1].digest
  }

  /** The entries of one subject, in order. */
  function Of<E>(log: seq<Link<E>>, subject: string): (history: seq<Link<E>>)
    ensures |history| <= |log|
    ensures Selected(history, subject)
  {
    if |log| == 0 then []
    else
      var rest, last := Of(log[..|log| - 1], subject), log[|log| - 1];
      if last.body.subject == subject then rest + [last] else rest
  }

  function Seal<E>(hash: Body<E> -> string, log: seq<Link<E>>, subject: string, event: E, at: int): Link<E>
  {
    var body := Body(subject, event, Head(Of(log, subject)), at);
    Link(body, hash(body))
  }

  /** What verification accepts: the right predecessor and the digest of the entry rebuilt for this subject. */
  predicate Verified<E>(hash: Body<E> -> string, history: seq<Link<E>>, subject: string)
  {
    forall k :: 0 <= k < |history| ==>
      history[k].body.previous == Head(history[..k]) && Digested(hash, history[k], subject)
  }

  predicate Digested<E>(hash: Body<E> -> string, link: Link<E>, subject: string)
  {
    link.digest == hash(link.body.(subject := subject))
  }

  predicate Selected<E>(history: seq<Link<E>>, subject: string)
  {
    forall k :: 0 <= k < |history| ==> history[k].body.subject == subject
  }

  /** Appending keeps every subject's chain verifiable. */
  lemma SealKeepsVerified<E>(hash: Body<E> -> string, log: seq<Link<E>>, subject: string, event: E, at: int,
                             other: string)
    requires Verified(hash, Of(log, other), other)
    ensures Verified(hash, Of(log + [Seal(hash, log, subject, event, at)], other), other)
  {
  }

  /** Two verified chains with the same head are the same history: nothing can be dropped, added or rewritten. */
  lemma {:induction false} SameHeadSameHistory<E(!new)>(hash: Body<E> -> string, a: seq<Link<E>>, b: seq<Link<E>>,
                                          subject: string)
    requires Collisionless(hash, GENESIS) && Selected(a, subject) && Selected(b, subject)
    requires Verified(hash, a, subject) && Verified(hash, b, subject) && Head(a) == Head(b)
    ensures a == b
    decreases |a|
  {
    if |a| > 0 {
      assert Digested(hash, a[|a| - 1], subject);
    }
    if |b| > 0 {
      assert Digested(hash, b[|b| - 1], subject);
    }
    if |a| > 0 && |b| > 0 {
      var m, n := |a| - 1, |b| - 1;
      assert Digested(hash, a[m], subject) && Digested(hash, b[n], subject);
      assert a[m].body.(subject := subject) == b[n].body.(subject := subject);
      ShorterVerified(hash, a, subject);
      ShorterVerified(hash, b, subject);
      SameHeadSameHistory(hash, a[..m], b[..n], subject);
      assert a == a[..m] + [a[m]] && b == b[..n] + [b[n]];
    }
  }

  lemma ShorterVerified<E>(hash: Body<E> -> string, a: seq<Link<E>>, subject: string)
    requires Verified(hash, a, subject) && |a| > 0
    ensures Verified(hash, a[..|a| - 1], subject)
  {
  }

  /** An entry sealed for one subject does not verify in the chain of another. */
  lemma TransplantIsRefused<E(!new)>(hash: Body<E> -> string, history: seq<Link<E>>, subject: string, k: nat)
    requires Collisionless(hash, GENESIS) && k < |history|
    requires history[k].digest == hash(history[k].body) && history[k].body.subject != subject
    ensures !Verified(hash, history, subject)
  {
    assert !Digested(hash, history[k], subject);
  }

  /** `_verify_event_chain` */
  method VerifyChain<E>(hash: Body<E> -> string, history: seq<Link<E>>, subject: string) returns (ok: bool)
    ensures ok <==> Verified(hash, history, subject)
  {
    var previous := GENESIS;
    for i := 0 to |history|
      invariant previous == Head(history[..i])
      invariant forall k :: 0 <= k < i ==>
                  history[k].body.previous == Head(history[..k]) && Digested(hash, history[k], subject)
    {
      if history[i].body.previous != previous || !Digested(hash, history[i], subject) {
        return false;
      }
      previous := history[i].digest;
      assert history[..i + 1][i] == history[i];
    }
    ok := true;
  }
}
