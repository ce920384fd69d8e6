/**
 * Aggregating what independent sources saw of one settlement.
 *
 * An observation's digest is represented by the observation itself (hashing is collision-free).
 */
module Reconciliation {
  import opened Tables

  datatype SourceClass = L1 | L2 | L3

  datatype Descriptor = Descriptor(
    sourceId: string, class_: SourceClass, kind: string, provider: string, trustDomain: string, endpoint: string,
    parser: string)

  datatype Confirmation = Confirmed | Finalized

  datatype Observation = Observation(
    wellFormed: bool, source: Descriptor, queriedAt: int, network: string, signature: string, slot: nat,
    confirmation: Confirmation, transactionError: Option<string>, sourceAccount: string, destinationAccount: string,
    sourceBefore: nat, sourceAfter: nat, destinationBefore: nat, destinationAfter: nat, amount: nat,
    rawResponse: string)

  datatype Expected = Expected(
    wellFormed: bool, network: string, signature: string, sourceAccount: string, destinationAccount: string,
    amount: nat)

  datatype Field = NetworkField | SignatureField | SourceField | DestinationField | AmountField | ErrorField

  datatype Rejection = InvalidExpected | MalformedObservation | InvalidDirections | DeltaMismatch | UnregisteredSource
    | MetadataMismatch | DuplicateObservation | DuplicateRegistration

  datatype Execution = ExecutionUnknown | ExecutionConfirmed | ExecutionFinalized

  datatype Standing = Pending | L1Verified | Disputed

  datatype Independence = IndependencePending | L2Verified | L3Verified | IndependenceDisputed

  datatype Consensus = ConsensusPending | Approved | ConsensusDisputed

  datatype Verdict = Verdict(execution: Execution, standing: Standing, independence: Independence, consensus: Consensus)

  datatype Evaluation = Evaluation(sourceId: string, class_: SourceClass, observation: Observation,
    disagreements: seq<Field>)

  datatype Outcome = Aggregated(evaluated: seq<Evaluation>, verdict: Verdict) | Rejected(why: Rejection)

  // ----- one observation

  function Normalize(o: Observation): (bad: Option<Rejection>)
    ensures bad.None? ==>
              o.sourceBefore == o.sourceAfter + o.amount && o.destinationAfter == o.destinationBefore + o.amount
  {
    if !o.wellFormed then Some(MalformedObservation)
    else if o.sourceBefore < o.sourceAfter || o.destinationAfter < o.destinationBefore then Some(InvalidDirections)
    else if o.sourceBefore - o.sourceAfter != o.destinationAfter - o.destinationBefore
            || o.sourceBefore - o.sourceAfter != o.amount then Some(DeltaMismatch)
    else None
  }

  type Registry = map<string, Descriptor>

  function RequireSource(registry: Registry, o: Observation): Option<Rejection>
  {
    if o.source.sourceId !in registry then Some(UnregisteredSource)
    else if registry[o.source.sourceId] != o.source then Some(MetadataMismatch)
    else None
  }

  function Differs(field: Field, different: bool): seq<Field> { if different then [field] else [] }

  function Disagreements(e: Expected, o: Observation): (fields: seq<Field>)
    ensures fields == [] <==> Matches(e, o)
  {
    Differs(NetworkField, e.network != o.network) + Differs(SignatureField, e.signature != o.signature)
    + Differs(SourceField, e.sourceAccount != o.sourceAccount)
    + Differs(DestinationField, e.destinationAccount != o.destinationAccount)
    + Differs(AmountField, e.amount != o.amount) + Differs(ErrorField, o.transactionError.Some?)
  }

  predicate Matches(e: Expected, o: Observation)
  {
    && e.network == o.network && e.signature == o.signature && e.sourceAccount == o.sourceAccount
    && e.destinationAccount == o.destinationAccount && e.amount == o.amount && o.transactionError.None?
  }

  function Evaluate(e: Expected, o: Observation): Evaluation
  {
    Evaluation(o.source.sourceId, o.source.class_, o, Disagreements(e, o))
  }

  // ----- which inputs are accepted

  predicate SeenBefore(os: seq<Observation>, o: Observation)
  {
    exists k :: 0 <= k < |os| && os[k].source.sourceId == o.source.sourceId
  }

  function ScreenOne(registry: Registry, before: seq<Observation>, o: Observation): Option<Rejection>
  {
    var bad := Normalize(o);
    if bad.Some? then bad
    else if RequireSource(registry, o).Some? then RequireSource(registry, o)
    else if SeenBefore(before, o) then Some(DuplicateObservation)
    else None
  }

  /** The first observation that is refused, in the order supplied. */
  function Screen(registry: Registry, os: seq<Observation>): Option<Rejection>
  {
    if |os| == 0 then None
    else
      var before := os[..|os| - 1];
      var bad := Screen(registry, before);
      if bad.Some? then bad else ScreenOne(registry, before, os[|os| - 1])
  }

  predicate Genuine(registry: Registry, o: Observation) { Normalize(o).None? && RequireSource(registry, o).None? }

  /** Acceptance without an order: genuine observations, none repeated, no two of one source. */
  ghost predicate Acceptable(registry: Registry, os: seq<Observation>)
  {
    && (forall o :: o in multiset(os) ==> Genuine(registry, o) && multiset(os)[o] == 1)
    && (forall o, p :: o in multiset(os) && p in multiset(os) && o != p ==> o.source.sourceId != p.source.sourceId)
  }

  /** The same by position. */
  ghost predicate Pairwise(registry: Registry, os: seq<Observation>)
  {
    && (forall k :: 0 <= k < |os| ==> Genuine(registry, os[k]))
    && (forall i, j :: 0 <= i < j < |os| ==> os[i].source.sourceId != os[j].source.sourceId)
  }

  lemma {:induction false} ScreenPairwise(registry: Registry, os: seq<Observation>)
    ensures Screen(registry, os).None? <==> Pairwise(registry, os)
  {
    if |os| > 0 {
      var before := os[..|os| - 1];
      assert forall k :: 0 <= k < |before| ==> os[k] == before[k];
      ScreenPairwise(registry, before);
    }
  }

  lemma {:induction false} CountedOnce(os: seq<Observation>, o: Observation)
    requires forall i, j :: 0 <= i < j < |os| ==> os[i] != os[j]
    ensures multiset(os)[o] <= 1
  {
    if |os| > 0 {
      var before := os[..|os| - 1];
      assert os == before + [os[|os| - 1]];
      CountedOnce(before, o);
    }
  }

  lemma CountedTwice(os: seq<Observation>, i: nat, j: nat)
    requires i < j < |os| && os[i] == os[j]
    ensures multiset(os)[os[i]] >= 2
  {
    assert os == os[..j] + os[j..];
    assert os[i] == os[..j][i] && os[j] == os[j..][0];
    assert os[i] in multiset(os[..j]) && os[i] in multiset(os[j..]);
  }

  lemma PairwiseIsAcceptable(registry: Registry, os: seq<Observation>)
    ensures Pairwise(registry, os) <==> Acceptable(registry, os)
  {
    if Pairwise(registry, os) {
      forall o | o in multiset(os) ensures Genuine(registry, o) && multiset(os)[o] == 1 {
        CountedOnce(os, o);
      }
    }
    if Acceptable(registry, os) {
      forall k | 0 <= k < |os| ensures os[k] in multiset(os) {
      }
      forall i, j | 0 <= i < j < |os| ensures os[i].source.sourceId != os[j].source.sourceId {
        if os[i] == os[j] {
          CountedTwice(os, i, j);
        }
      }
    }
  }

  lemma ScreenIff(registry: Registry, os: seq<Observation>)
    ensures Screen(registry, os).None? <==> Acceptable(registry, os)
  {
    ScreenPairwise(registry, os);
    PairwiseIsAcceptable(registry, os);
  }

  // ----- the verdict, as a statement about the set of observations

  function AllOf(os: seq<Observation>): set<Observation> { set o | o in os }

  predicate MatchedIn(e: Expected, os: set<Observation>, o: Observation) { o in os && Matches(e, o) }

  predicate Diverse(a: Descriptor, b: Descriptor)
  {
    a.provider != b.provider && a.trustDomain != b.trustDomain && a.endpoint != b.endpoint
  }

  /** A matching source of the class that shares nothing with any matching L1. */
  ghost predicate Independent(e: Expected, os: set<Observation>, o: Observation, class_: SourceClass)
  {
    && MatchedIn(e, os, o) && o.source.class_ == class_
    && forall p :: MatchedIn(e, os, p) && p.source.class_.L1? ==> Diverse(o.source, p.source)
  }

  ghost predicate AnyDisagrees(e: Expected, os: set<Observation>) { exists o :: o in os && !Matches(e, o) }

  ghost predicate AnyL1(e: Expected, os: set<Observation>) { exists o :: MatchedIn(e, os, o) && o.source.class_.L1? }

  ghost predicate AnyIndependent(e: Expected, os: set<Observation>, class_: SourceClass)
  {
    exists o :: Independent(e, os, o, class_)
  }

  ghost predicate AnyMatched(e: Expected, os: set<Observation>) { exists o :: MatchedIn(e, os, o) }

  ghost predicate AnyFinalized(e: Expected, os: set<Observation>)
  {
    exists o :: MatchedIn(e, os, o) && o.confirmation.Finalized?
  }

  ghost function VerdictOf(e: Expected, os: set<Observation>): Verdict
  {
    var execution :=
      if AnyFinalized(e, os) then ExecutionFinalized
      else if AnyMatched(e, os) then ExecutionConfirmed
      else ExecutionUnknown;
    if AnyDisagrees(e, os) then Verdict(execution, Disputed, IndependenceDisputed, ConsensusDisputed)
    else if !AnyL1(e, os) then Verdict(execution, Pending, IndependencePending, ConsensusPending)
    else Verdict(execution, L1Verified,
                 if AnyIndependent(e, os, L3) then L3Verified
                 else if AnyIndependent(e, os, L2) then L2Verified
                 else IndependencePending,
                 Approved)
  }

  // ----- the loops

  predicate Describes(e: Expected, os: seq<Observation>, evaluated: seq<Evaluation>)
  {
    |evaluated| == |os| && forall k :: 0 <= k < |os| ==> evaluated[k] == Evaluate(e, os[k])
  }

  /** Builds the registry; a repeated source id is refused. */
  method BuildRegistry(descriptors: seq<Descriptor>) returns (r: Option<Registry>)
    ensures r.None? <==> exists i, j :: 0 <= i < j < |descriptors| && descriptors[i].sourceId == descriptors[j].sourceId
    ensures r.Some? ==> forall d :: d in descriptors <==> d.sourceId in r.value && r.value[d.sourceId] == d
  {
    var sources: Registry := map[];
    for i := 0 to |descriptors|
      invariant forall x, y :: 0 <= x < y < i ==> descriptors[x].sourceId != descriptors[y].sourceId
      invariant forall id :: id in sources ==>
                  exists x :: 0 <= x < i && descriptors[x].sourceId == id && sources[id] == descriptors[x]
      invariant forall x :: 0 <= x < i ==>
                  descriptors[x].sourceId in sources && sources[descriptors[x].sourceId] == descriptors[x]
    {
      if descriptors[i].sourceId in sources {
        return None;
      }
      sources := sources[descriptors[i].sourceId := descriptors[i]];
    }
    r := Some(sources);
  }

  /** What the two sets hold after the observations `before`. */
  ghost predicate Seen(before: seq<Observation>, sources: set<string>, hashes: set<Observation>)
  {
    && (forall id :: id in sources <==> exists k :: 0 <= k < |before| && before[k].source.sourceId == id)
    && (forall o :: o in hashes <==> o in before)
  }

  /** One round of the loop: normalize, look the source up, refuse a repeat. */
  method ScreenNext(registry: Registry, o: Observation, sources: set<string>, hashes: set<Observation>,
                    ghost before: seq<Observation>)
    returns (bad: Option<Rejection>)
    requires Seen(before, sources, hashes)
    ensures bad == ScreenOne(registry, before, o)
  {
    bad := Normalize(o);
    if bad.Some? {
      return;
    }
    bad := RequireSource(registry, o);
    if bad.Some? {
      return;
    }
    if o.source.sourceId in sources || o in hashes {
      bad := Some(DuplicateObservation);
    }
  }

  lemma ScreenExtends(registry: Registry, before: seq<Observation>, o: Observation)
    requires Screen(registry, before).None?
    ensures Screen(registry, before + [o]) == ScreenOne(registry, before, o)
  {
  }

  /** Everything done so far was accepted, evaluated and remembered. */
  ghost predicate Progress(e: Expected, registry: Registry, done: seq<Observation>, evaluated: seq<Evaluation>,
                           sources: set<string>, hashes: set<Observation>)
  {
    Screen(registry, done).None? && Describes(e, done, evaluated) && Seen(done, sources, hashes)
  }

  lemma ProgressNext(e: Expected, registry: Registry, done: seq<Observation>, evaluated: seq<Evaluation>,
                     sources: set<string>, hashes: set<Observation>, o: Observation)
    requires Progress(e, registry, done, evaluated, sources, hashes) && ScreenOne(registry, done, o).None?
    ensures Progress(e, registry, done + [o], evaluated + [Evaluate(e, o)], sources + {o.source.sourceId}, hashes + {o})
  {
  }

  lemma FirstRefusalDecides(registry: Registry, os: seq<Observation>, i: nat)
    requires i < |os| && Screen(registry, os[..i]).None? && ScreenOne(registry, os[..i], os[i]).Some?
    ensures Screen(registry, os) == ScreenOne(registry, os[..i], os[i])
  {
    ScreenExtends(registry, os[..i], os[i]);
    assert os[..i + 1] == os[..i] + [os[i]];
    RefusedStaysRefused(registry, os, i + 1);
  }

  /** Screens and evaluates every observation, in order. */
  method EvaluateAll(e: Expected, os: seq<Observation>, registry: Registry)
    returns (bad: Option<Rejection>, evaluated: seq<Evaluation>)
    ensures bad == Screen(registry, os)
    ensures bad.None? ==> Describes(e, os, evaluated)
  {
    var seenSources: set<string>, seenHashes: set<Observation> := {}, {};
    ghost var done: seq<Observation> := [];
    evaluated := [];
    for i := 0 to |os|
      invariant done == os[..i] && Progress(e, registry, done, evaluated, seenSources, seenHashes)
    {
      bad := ScreenNext(registry, os[i], seenSources, seenHashes, done);
      if bad.Some? {
        FirstRefusalDecides(registry, os, i);
        return;
      }
      ProgressNext(e, registry, done, evaluated, seenSources, seenHashes, os[i]);
      seenSources := seenSources + {os[i].source.sourceId};
      seenHashes := seenHashes + {os[i]};
      evaluated := evaluated + [Evaluate(e, os[i])];
      done := done + [os[i]];
    }
    assert os[..|os|] == os;
    bad := None;
  }

  lemma {:induction false} RefusedStaysRefused(registry: Registry, os: seq<Observation>, n: nat)
    requires n <= |os| && Screen(registry, os[..n]).Some?
    ensures Screen(registry, os) == Screen(registry, os[..n])
  {
    if n == |os| {
      assert os[..n] == os;
    } else {
      var before := os[..|os| - 1];
      assert before[..n] == os[..n];
      RefusedStaysRefused(registry, before, n);
    }
  }

  /** The descriptors of the matching observations of one class. */
  method MatchedSources(evaluated: seq<Evaluation>, class_: SourceClass) returns (sources: seq<Descriptor>)
    ensures forall d :: d in sources <==>
              exists k :: 0 <= k < |evaluated| && evaluated[k].disagreements == [] && evaluated[k].class_ == class_
                          && evaluated[k].observation.source == d
  {
    sources := [];
    for i := 0 to |evaluated|
      invariant forall d :: d in sources <==>
                  exists k :: 0 <= k < i && evaluated[k].disagreements == [] && evaluated[k].class_ == class_
                              && evaluated[k].observation.source == d
    {
      if evaluated[i].disagreements == [] && evaluated[i].class_ == class_ {
        sources := sources + [evaluated[i].observation.source];
      }
    }
  }

  /** `_diverse_from_l1` */
  predicate DiverseFrom(candidate: Descriptor, baselines: seq<Descriptor>)
  {
    forall b :: b in baselines ==> Diverse(candidate, b)
  }

  /** Is some candidate diverse from every baseline? */
  method AnyDiverse(candidates: seq<Descriptor>, baselines: seq<Descriptor>) returns (found: bool)
    ensures found <==> exists c :: c in candidates && DiverseFrom(c, baselines)
  {
    found := false;
    for i := 0 to |candidates|
      invariant found <==> exists k :: 0 <= k < i && DiverseFrom(candidates[k], baselines)
    {
      if DiverseFrom(candidates[i], baselines) {
        found := true;
      }
    }
  }

  method ExecutionStatus(evaluated: seq<Evaluation>) returns (status: Execution)
    ensures status.ExecutionFinalized? <==>
              exists k :: 0 <= k < |evaluated| && evaluated[k].disagreements == []
                && evaluated[k].observation.confirmation.Finalized?
    ensures status.ExecutionUnknown? <==> forall k :: 0 <= k < |evaluated| ==> evaluated[k].disagreements != []
  {
    status := ExecutionUnknown;
    for i := 0 to |evaluated|
      invariant status.ExecutionFinalized? <==>
                  exists k :: 0 <= k < i && evaluated[k].disagreements == []
                    && evaluated[k].observation.confirmation.Finalized?
      invariant status.ExecutionUnknown? <==> forall k :: 0 <= k < i ==> evaluated[k].disagreements != []
    {
      if evaluated[i].disagreements == [] {
        if evaluated[i].observation.confirmation.Finalized? {
          status := ExecutionFinalized;
        } else if status.ExecutionUnknown? {
          status := ExecutionConfirmed;
        }
      }
    }
  }

  /** The aggregate: the first refusal in order, or the verdict of the set of observations. */
  method AggregateReconciliation(e: Expected, os: seq<Observation>, registry: Registry) returns (r: Outcome)
    ensures !e.wellFormed ==> r == Rejected(InvalidExpected)
    ensures e.wellFormed && Screen(registry, os).Some? ==> r == Rejected(Screen(registry, os).value)
    ensures e.wellFormed && Screen(registry, os).None? ==>
              && r.Aggregated? && Describes(e, os, r.evaluated)
              && r.verdict == VerdictOf(e, AllOf(os))
  {
    if !e.wellFormed {
      return Rejected(InvalidExpected);
    }
    var bad, evaluated := EvaluateAll(e, os, registry);
    if bad.Some? {
      return Rejected(bad.value);
    }
    var verdict := Judge(e, os, evaluated);
    r := Aggregated(evaluated, verdict);
  }

  method Judge(e: Expected, os: seq<Observation>, evaluated: seq<Evaluation>) returns (v: Verdict)
    requires Describes(e, os, evaluated)
    ensures v == VerdictOf(e, AllOf(os))
  {
    var execution := ExecutionStatus(evaluated);
    ExecutionAgrees(e, os, evaluated);
    var disputed := exists k :: 0 <= k < |evaluated| && evaluated[k].disagreements != [];
    DisputeAgrees(e, os, evaluated);
    if disputed {
      return Verdict(execution, Disputed, IndependenceDisputed, ConsensusDisputed);
    }
    var l1 := MatchedSources(evaluated, L1);
    SourcesAgree(e, os, evaluated, l1, L1);
    L1Agrees(e, AllOf(os), l1);
    if l1 == [] {
      return Verdict(execution, Pending, IndependencePending, ConsensusPending);
    }
    var qualifying2 := Qualifying(e, os, evaluated, l1, L2);
    var qualifying3 := Qualifying(e, os, evaluated, l1, L3);
    v := Verdict(execution, L1Verified,
      if qualifying3 then L3Verified else if qualifying2 then L2Verified else IndependencePending, Approved);
  }

  /** Exactly the sources of the matching observations of a class. */
  ghost predicate Lists(e: Expected, all: set<Observation>, sources: seq<Descriptor>, class_: SourceClass)
  {
    && (forall d :: d in sources ==> exists o :: MatchedIn(e, all, o) && o.source.class_ == class_ && o.source == d)
    && (forall o :: MatchedIn(e, all, o) && o.source.class_ == class_ ==> o.source in sources)
  }

  method Qualifying(e: Expected, os: seq<Observation>, evaluated: seq<Evaluation>, l1: seq<Descriptor>,
                    class_: SourceClass) returns (found: bool)
    requires Describes(e, os, evaluated) && Lists(e, AllOf(os), l1, L1)
    ensures found <==> AnyIndependent(e, AllOf(os), class_)
  {
    var candidates := MatchedSources(evaluated, class_);
    SourcesAgree(e, os, evaluated, candidates, class_);
    found := AnyDiverse(candidates, l1);
    DiverseAgrees(e, AllOf(os), l1, candidates, class_, found);
  }

  lemma L1Agrees(e: Expected, all: set<Observation>, l1: seq<Descriptor>)
    requires Lists(e, all, l1, L1)
    ensures AnyL1(e, all) <==> l1 != []
  {
    if l1 != [] {
      assert l1[0] in l1;
    }
  }

  lemma ExecutionAgrees(e: Expected, os: seq<Observation>, evaluated: seq<Evaluation>)
    requires Describes(e, os, evaluated)
    ensures AnyFinalized(e, AllOf(os)) <==>
              exists k :: 0 <= k < |evaluated| && evaluated[k].disagreements == []
                && evaluated[k].observation.confirmation.Finalized?
    ensures AnyMatched(e, AllOf(os)) <==> exists k :: 0 <= k < |evaluated| && evaluated[k].disagreements == []
  {
    var all := AllOf(os);
    if k :| && 0 <= k < |evaluated| && evaluated[k].disagreements == []
            && evaluated[k].observation.confirmation.Finalized? {
      assert MatchedIn(e, all, os[k]);
    }
    if k :| 0 <= k < |evaluated| && evaluated[k].disagreements == [] {
      assert MatchedIn(e, all, os[k]);
    }
    if o :| MatchedIn(e, all, o) && o.confirmation.Finalized? {
      var k :| 0 <= k < |os| && os[k] == o;
      assert evaluated[k].disagreements == [] && evaluated[k].observation.confirmation.Finalized?;
    }
    if o :| MatchedIn(e, all, o) {
      var k :| 0 <= k < |os| && os[k] == o;
      assert evaluated[k].disagreements == [];
    }
  }

  lemma DisputeAgrees(e: Expected, os: seq<Observation>, evaluated: seq<Evaluation>)
    requires Describes(e, os, evaluated)
    ensures AnyDisagrees(e, AllOf(os)) <==> exists k :: 0 <= k < |evaluated| && evaluated[k].disagreements != []
  {
  }

  /** The listed sources are exactly those of the matching observations of the class. */
  lemma SourcesAgree(e: Expected, os: seq<Observation>, evaluated: seq<Evaluation>, sources: seq<Descriptor>,
                     class_: SourceClass)
    requires Describes(e, os, evaluated)
    requires forall d :: d in sources <==>
               exists k :: 0 <= k < |evaluated| && evaluated[k].disagreements == [] && evaluated[k].class_ == class_
                           && evaluated[k].observation.source == d
    ensures Lists(e, AllOf(os), sources, class_)
  {
  }

  lemma DiverseAgrees(e: Expected, all: set<Observation>, l1: seq<Descriptor>, candidates: seq<Descriptor>,
                      class_: SourceClass, found: bool)
    requires Lists(e, all, l1, L1) && Lists(e, all, candidates, class_)
    requires found <==> exists c :: c in candidates && DiverseFrom(c, l1)
    ensures found <==> AnyIndependent(e, all, class_)
  {
    if c :| c in candidates && DiverseFrom(c, l1) {
      var o :| MatchedIn(e, all, o) && o.source.class_ == class_ && o.source == c;
      assert Independent(e, all, o, class_);
    }
    if o :| Independent(e, all, o, class_) {
      assert o.source in candidates;
      forall b | b in l1 ensures Diverse(o.source, b) {
        var p :| MatchedIn(e, all, p) && p.source.class_ == L1 && p.source == b;
      }
    }
  }

  // ----- what the verdict promises

  /** Neither acceptance nor any of the four statuses depends on the order of the observations. */
  lemma OrderDoesNotMatter(e: Expected, registry: Registry, a: seq<Observation>, b: seq<Observation>)
    requires multiset(a) == multiset(b)
    ensures Screen(registry, a).None? <==> Screen(registry, b).None?
    ensures VerdictOf(e, AllOf(a)) == VerdictOf(e, AllOf(b))
  {
    ScreenIff(registry, a);
    ScreenIff(registry, b);
    assert forall o :: o in a <==> o in multiset(a);
    assert forall o :: o in b <==> o in multiset(b);
    assert AllOf(a) == AllOf(b);
  }

  /** Finalized by any matching finalized observation, confirmed by a matching one otherwise, unknown without any. */
  lemma ExecutionIff(e: Expected, os: set<Observation>)
    ensures var x := VerdictOf(e, os).execution;
            && (x.ExecutionFinalized? <==> exists o :: o in os && Matches(e, o) && o.confirmation.Finalized?)
            && (x.ExecutionConfirmed? <==>
                  && (exists o :: o in os && Matches(e, o))
                  && forall o :: o in os && Matches(e, o) ==> o.confirmation.Confirmed?)
            && (x.ExecutionUnknown? <==> forall o :: o in os ==> !Matches(e, o))
  {
    if o :| o in os && Matches(e, o) {
      assert MatchedIn(e, os, o);
      if p :| p in os && Matches(e, p) && p.confirmation.Finalized? {
        assert MatchedIn(e, os, p);
      }
    }
  }

  /** Disputed by any disagreement, verified by an L1 among matching observations, pending without an L1. */
  lemma StandingIff(e: Expected, os: set<Observation>)
    ensures var v := VerdictOf(e, os);
            && (v.standing.Disputed? <==> exists o :: o in os && !Matches(e, o))
            && (v.standing.L1Verified? <==>
                  (forall o :: o in os ==> Matches(e, o)) && exists o :: o in os && o.source.class_.L1?)
            && (v.standing.Disputed? <==> v.independence.IndependenceDisputed?)
            && (v.standing.Disputed? <==> v.consensus.ConsensusDisputed?)
            && (v.standing.Pending? <==> v.consensus.ConsensusPending?)
  {
    if !AnyDisagrees(e, os) {
      forall o | o in os && o.source.class_.L1? ensures AnyL1(e, os) {
        assert MatchedIn(e, os, o);
      }
    }
  }

  /** What each field of the list of disagreements says. */
  predicate DiffersIn(e: Expected, o: Observation, field: Field)
  {
    match field
    case NetworkField => e.network != o.network
    case SignatureField => e.signature != o.signature
    case SourceField => e.sourceAccount != o.sourceAccount
    case DestinationField => e.destinationAccount != o.destinationAccount
    case AmountField => e.amount != o.amount
    case ErrorField => o.transactionError.Some?
  }

  /** The list of disagreements names exactly the fields that differ. */
  lemma DisagreementsExactly(e: Expected, o: Observation, field: Field)
    ensures field in Disagreements(e, o) <==> DiffersIn(e, o, field)
  {
  }

  /** The reason an observation is refused is so, given the ones before it. */
  predicate SoOf(why: Rejection, registry: Registry, before: seq<Observation>, o: Observation)
  {
    match why
    case MalformedObservation => !o.wellFormed
    case InvalidDirections => o.sourceBefore < o.sourceAfter || o.destinationAfter < o.destinationBefore
    case DeltaMismatch =>
      o.sourceBefore != o.sourceAfter + o.amount || o.destinationAfter != o.destinationBefore + o.amount
    case UnregisteredSource => o.source.sourceId !in registry
    case MetadataMismatch => o.source.sourceId in registry && registry[o.source.sourceId] != o.source
    case DuplicateObservation => exists k :: 0 <= k < |before| && before[k].source.sourceId == o.source.sourceId
    case _ => false
  }

  /** A list is refused for the first observation at fault, and for a fault that it has. */
  lemma {:induction false} RefusedForReason(registry: Registry, os: seq<Observation>) returns (k: nat)
    requires Screen(registry, os).Some?
    ensures k < |os| && Screen(registry, os[..k]).None? && SoOf(Screen(registry, os).value, registry, os[..k], os[k])
  {
    var before := os[..|os| - 1];
    if Screen(registry, before).Some? {
      k := RefusedForReason(registry, before);
      assert before[..k] == os[..k];
    } else {
      k := |os| - 1;
    }
  }

  /** A single observation is accepted exactly when it is genuine: well formed, balanced, from a registered source. */
  lemma GenuineIff(registry: Registry, o: Observation)
    ensures Genuine(registry, o) <==>
              && o.wellFormed && o.sourceBefore == o.sourceAfter + o.amount
              && o.destinationAfter == o.destinationBefore + o.amount
              && o.source.sourceId in registry && registry[o.source.sourceId] == o.source
  {
  }

  /** Approved exactly when every observation matches and one of them is L1. */
  lemma ApprovedIff(e: Expected, os: set<Observation>)
    ensures VerdictOf(e, os).consensus.Approved?
            <==> (forall o :: o in os ==> Matches(e, o)) && exists o :: o in os && o.source.class_.L1?
  {
  }

  /** One disagreement disputes everything, whatever else is added. */
  lemma DisagreementIsFinal(e: Expected, o: Observation, os: set<Observation>)
    requires o in os && !Matches(e, o)
    ensures var v := VerdictOf(e, os);
            v.standing.Disputed? && v.independence.IndependenceDisputed? && v.consensus.ConsensusDisputed?
  {
  }

  /**
   * Independent verification rests on a matching source that shares no provider, trust domain or endpoint with any
   * matched L1.
   */
  lemma IndependenceIff(e: Expected, os: set<Observation>)
    ensures var v := VerdictOf(e, os);
            && (v.independence.L3Verified? <==> v.consensus.Approved? && exists o :: Independent(e, os, o, L3))
            && (v.independence.L2Verified? <==> v.consensus.Approved? && (exists o :: Independent(e, os, o, L2))
                                                && !exists o :: Independent(e, os, o, L3))
  {
  }

  /** Sharing the provider, the trust domain or the endpoint with one matching L1 is enough to lose independence. */
  lemma IndependentIff(e: Expected, os: set<Observation>, o: Observation, class_: SourceClass)
    ensures Independent(e, os, o, class_) <==>
              && o in os && Matches(e, o) && o.source.class_ == class_
              && forall p :: p in os && Matches(e, p) && p.source.class_.L1? ==>
                   && p.source.provider != o.source.provider && p.source.trustDomain != o.source.trustDomain
                   && p.source.endpoint != o.source.endpoint
  {
    assert forall p :: MatchedIn(e, os, p) <==> p in os && Matches(e, p);
  }

  /** In an approved aggregate every source saw exactly the expected amount leave one account and reach the other. */
  lemma ApprovedMeansTransferred(e: Expected, registry: Registry, os: seq<Observation>, k: nat)
    requires Screen(registry, os).None? && VerdictOf(e, AllOf(os)).consensus.Approved? && k < |os|
    ensures os[k].sourceBefore == os[k].sourceAfter + e.amount
    ensures os[k].destinationAfter == os[k].destinationBefore + e.amount
    ensures os[k].sourceAccount == e.sourceAccount && os[k].destinationAccount == e.destinationAccount
    ensures os[k].signature == e.signature
    ensures os[k].source.sourceId in registry && registry[os[k].source.sourceId] == os[k].source
  {
    ScreenIff(registry, os);
    assert os[k] in multiset(os);
    ApprovedIff(e, AllOf(os));
    assert Matches(e, os[k]);
    assert Genuine(registry, os[k]);
  }

  /** More L1 sources can withdraw an independent verification: diversity is owed to every one of them. */
  lemma MoreSourcesCanWithdraw(e: Expected, one: Observation, three: Observation, shared: Observation)
    requires Matches(e, one) && Matches(e, three) && Matches(e, shared)
    requires one.source.class_.L1? && shared.source.class_.L1? && three.source.class_.L3?
    requires Diverse(three.source, one.source) && !Diverse(three.source, shared.source)
    ensures VerdictOf(e, {one, three}).independence.L3Verified?
    ensures VerdictOf(e, {one, three, shared}).independence.IndependencePending?
  {
    var small, large := {one, three}, {one, three, shared};
    assert MatchedIn(e, small, one) && MatchedIn(e, small, three);
    assert Independent(e, small, three, L3);
    assert MatchedIn(e, large, one) && MatchedIn(e, large, shared);
    assert forall o :: !Independent(e, large, o, L3);
    assert forall o :: !Independent(e, large, o, L2);
  }
}
