/** The record of an honest run as a whole: its counts, its invocation numbers, and the challenge
    that appears twice. */
module HonestRecord {
  import opened Symbols
  import opened Protocol
  import opened ProtocolInvariant
  import opened Worker
  import opened Wire
  import opened Images
  import opened RecordVerifier
  import opened RecordSound
  import opened Controller
  import opened Lab
  import opened HonestCase
  import opened HonestObservation
  import opened HonestFold
  import opened HonestRun
  import opened RecordExecution

  // ---- Counts and numbers ----

  function UpTo(n: int): seq<int>
    requires n >= 0
  {
    seq(n, k => k + 1)
  }

  lemma {:induction false} NumbersConcat(a: seq<Attempt>, b: seq<Attempt>)
    ensures InvocationIds(a + b) == InvocationIds(a) + InvocationIds(b)
    decreases |b|
  {
    if b == [] {
      assert a + b == a;
    } else {
      assert (a + b)[..|a + b| - 1] == a + b[..|b| - 1];
      NumbersConcat(a, b[..|b| - 1]);
    }
  }

  lemma CaseNumbers(x: Setting, v: Validated, low: int, high: int, c: CaseObservation)
    requires CaseFacts(x, v, low, high, c)
    ensures InvocationIds(c.attempts) == (if AllowVariant(v.prepared.variant) then [high] else [])
    ensures c.invocationDelta == Executed(v.prepared.variant)
    ensures c.variant == v.prepared.variant && c.caseId == v.prepared.caseId && CaseSemantics(c)
    ensures c.workerKey == x.t.expected.workerKey && c.image == x.t.expected.image && c.codeDigest == x.t.expected.codeDigest
  {
    hide AttemptFacts, InvocationIds, AllowedIds, VerdictsMatch;
  }

  /** The invocation numbers of the first k cases are 1, 2, … in the order the cases ran. */
  lemma {:induction false} NumbersInOrder(x: Setting, vs: seq<Validated>, cases: seq<CaseObservation>, k: nat)
    requires k <= |cases| == |vs|
    requires forall i :: 0 <= i < |vs| ==> CaseFacts(x, vs[i], Score(vs, i), Score(vs, i + 1), cases[i])
    ensures Score(vs, k) >= 0 && InvocationIds(Flat(cases[..k])) == UpTo(Score(vs, k)) && SumDeltas(cases[..k]) == Score(vs, k)
  {
    hide CaseFacts, InvocationIds, Flat, UpTo, CaseSemantics, AllowVariant;
    if k == 0 {
      EmptyLists();
    } else {
      NumbersInOrder(x, vs, cases, k - 1);
      var c := cases[k - 1];
      CaseNumbers(x, vs[k - 1], Score(vs, k - 1), Score(vs, k), c);
      assert cases[..k] == cases[..k - 1] + [c];
      FlatAppend(cases[..k - 1], c);
      NumbersConcat(Flat(cases[..k - 1]), c.attempts);
      assert cases[..k][..k - 1] == cases[..k - 1];
      UpToNext(vs[k - 1].prepared.variant, Score(vs, k - 1), Score(vs, k));
    }
  }

  lemma UpToNext(v: Variant, low: int, high: int)
    requires 0 <= low && high == low + Executed(v)
    ensures high >= 0 && UpTo(high) == UpTo(low) + (if AllowVariant(v) then [high] else [])
  {
  }

  lemma EmptyLists()
    ensures Flat([]) == [] && InvocationIds([]) == [] && UpTo(0) == []
  {
  }

  ghost predicate AllKnown(x: Setting, vs: seq<Validated>, cases: seq<CaseObservation>) {
    && |cases| == |vs| == 7
    && (forall i :: 0 <= i < |vs| ==> CaseFacts(x, vs[i], Score(vs, i), Score(vs, i + 1), cases[i]))
    && SumDeltas(cases) == 3 && InvocationIds(Flat(cases)) == [1, 2, 3]
  }

  lemma AllFacts(x: Setting, vs: seq<Validated>, realTpm: bool, cases: seq<CaseObservation>)
    requires Finished(x, vs, realTpm, cases)
    ensures AllKnown(x, vs, cases)
  {
    hide Finished, CaseFacts, Score, Flat, InvocationIds, Matrix, SumDeltas;
    FinishedMatrix(x, vs, realTpm, cases);
    forall i | 0 <= i < |vs|
      ensures CaseFacts(x, vs[i], Score(vs, i), Score(vs, i + 1), cases[i])
    {
      CaseAt(x, vs, realTpm, cases, i);
    }
    NumbersInOrder(x, vs, cases, |vs|);
    ScoreAt(vs, 0);
    assert cases[..|vs|] == cases;
    FirstThree();
  }

  lemma FirstThree()
    ensures UpTo(3) == [1, 2, 3]
  {
  }

  /** The record's own validator accepts. */
  lemma RecordSemanticsHold(x: Setting, vs: seq<Validated>, realTpm: bool, cases: seq<CaseObservation>, observedAt: int)
    requires Finished(x, vs, realTpm, cases)
    ensures RecordSemantics(RecordOf(x, observedAt, realTpm, cases))
  {
    hide Finished, CaseFacts, CaseSemantics, Score, Flat, InvocationIds, Unrelated, Image;
    AllFacts(x, vs, realTpm, cases);
    FinishedMatrix(x, vs, realTpm, cases);
    forall i | 0 <= i < |cases|
      ensures CaseSemantics(cases[i]) && cases[i].variant == vs[i].prepared.variant && cases[i].caseId == vs[i].prepared.caseId
      ensures cases[i].workerKey == x.t.expected.workerKey && cases[i].image == x.t.expected.image
      ensures cases[i].codeDigest == x.t.expected.codeDigest
    {
      CaseNumbers(x, vs[i], Score(vs, i), Score(vs, i + 1), cases[i]);
    }
    forall i, j | 0 <= i < j < |cases|
      ensures cases[i].caseId != cases[j].caseId
    {
      CasesApart(x, vs, realTpm, cases, i, j);
      DifferentNames(vs[i], vs[j]);
    }
    SameVariants(vs, cases);
    RecordFrom(x, observedAt, realTpm, cases);
  }

  lemma RecordFrom(x: Setting, observedAt: int, realTpm: bool, cases: seq<CaseObservation>)
    requires x.t.brokerVerifier.keyId != x.t.resourceVerifier.keyId && x.t.brokerVerifier.key != x.t.resourceVerifier.key
    requires InvocationIds(Flat(cases)) == [1, 2, 3]
    requires forall i :: 0 <= i < |cases| ==> CaseSemantics(cases[i])
    requires forall i, j :: 0 <= i < j < |cases| ==> cases[i].caseId != cases[j].caseId
    requires forall i :: 0 <= i < |cases| ==>
               cases[i].workerKey == x.t.expected.workerKey && cases[i].image == x.t.expected.image
               && cases[i].codeDigest == x.t.expected.codeDigest
    requires FullMatrix(cases)
    ensures RecordSemantics(RecordOf(x, observedAt, realTpm, cases))
  {
    hide CaseSemantics, Flat, InvocationIds, FullMatrix, Allowed, SumRedemptions, SumDeltas, Numbers;
    OneTwoThree(InvocationIds(Flat(cases)));
  }

  lemma OneTwoThree(ids: seq<int>)
    requires ids == [1, 2, 3]
    ensures Numbers(ids)
  {
    assert ids[0] == 1 && ids[1] == 2 && ids[2] == 3;
  }

  lemma DifferentNames(a: Validated, b: Validated)
    requires Unrelated(a, b)
    ensures a.prepared.caseId != b.prepared.caseId
    ensures a.prepared.grant.issuanceRequest != b.prepared.grant.issuanceRequest
    ensures forall k, l :: 0 <= k < |a.prepared.requests| && 0 <= l < |b.prepared.requests| ==>
              a.prepared.requests[k].challenge != b.prepared.requests[l].challenge
  {
  }

  lemma SameVariants(vs: seq<Validated>, cases: seq<CaseObservation>)
    requires |vs| == |cases| && forall i :: 0 <= i < |cases| ==> cases[i].variant == vs[i].prepared.variant
    ensures Image(VariantOf, cases) == Image(PlannedVariant, vs)
  {
    assert forall i :: 0 <= i < |cases| ==> VariantOf(cases[i]) == PlannedVariant(vs[i]);
    forall v ensures v in Image(VariantOf, cases) <==> v in Image(PlannedVariant, vs) {
      if v in Image(PlannedVariant, vs) {
        var i :| 0 <= i < |vs| && PlannedVariant(vs[i]) == v;
        assert VariantOf(cases[i]) == v;
      }
    }
  }

  // ---- Where an attempt of the flattened list comes from ----

  /** The case and the request behind an attempt, and what its receipt says. */
  lemma AttemptStory(x: Setting, vs: seq<Validated>, realTpm: bool, cases: seq<CaseObservation>, i: nat, j: nat)
    requires Finished(x, vs, realTpm, cases) && i < |vs| == |cases| && j < |cases[i].attempts|
    ensures Shaped(vs[i]) && |cases[i].attempts| == AttemptsOf(vs[i]) && cases[i].variant == vs[i].prepared.variant && Genuine(x, vs[i])
    ensures var a := cases[i].attempts[j];
            && ToolOf(a) == Some(ExpectedTool) && AudienceOf(a) == Some(ExpectedAudience)
            && ResourcePolicyOf(a) == Some(x.t.cfg.resource.Digest())
            && ChallengeOf(a) == (if vs[i].prepared.variant == Malformed then None else Some(TokenHash(RequestAt(vs[i], j).challenge)))
            && SnapshotOf(a) <= 3 && (a.allowed && vs[i].prepared.variant == Concurrent ==> SnapshotOf(a) == 3)
  {
    hide Finished, CaseFacts, AttemptFacts, Score, Genuine, GrantShown, Verifies, ToolOf, AudienceOf, ResourcePolicyOf, ChallengeOf,
      SnapshotOf, RecordIdOf, ArgumentsOf;
    CaseAt(x, vs, realTpm, cases, i);
    AttemptAt(x, vs[i], Score(vs, i), Score(vs, i + 1), cases[i], j);
    ReceiptFields(x, vs[i], j, cases[i].attempts[j].reason, Score(vs, i), Score(vs, i + 1), cases[i].attempts[j]);
    FinishedMatrix(x, vs, realTpm, cases);
    ScoreAt(vs, i);
    AllowedReason(x, vs[i], j, Score(vs, i), Score(vs, i + 1), cases[i].attempts[j]);
  }

  lemma AllowedReason(x: Setting, v: Validated, j: nat, low: int, high: int, a: Attempt)
    requires Shaped(v) && j < AttemptsOf(v) && AttemptFacts(x, v, j, a.reason, low, high, a)
    ensures a.allowed ==> a.reason == ALLOW
  {
    hide ReceiptBinds, RequestDigest, ResponseDigest, ProofDigest;
  }

  // ---- The challenge that appears twice ----

  /** Challenge hashes of two attempts agree only within the replayed pair. */
  lemma OnlyReplayRepeats(
    x: Setting, vs: seq<Validated>, realTpm: bool, cases: seq<CaseObservation>,
    i: nat, j: nat, k: nat, l: nat)
    requires Finished(x, vs, realTpm, cases) && |vs| == |cases|
    requires i < |cases| && j < |cases[i].attempts| && k < |cases| && l < |cases[k].attempts| && (i != k || j != l)
    requires ChallengeOf(cases[i].attempts[j]).Some? && ChallengeOf(cases[i].attempts[j]) == ChallengeOf(cases[k].attempts[l])
    ensures i == k && vs[i].prepared.variant == Replay
  {
    hide Finished, ToolOf, AudienceOf, ResourcePolicyOf, SnapshotOf, ChallengeOf, Genuine;
    AttemptStory(x, vs, realTpm, cases, i, j);
    AttemptStory(x, vs, realTpm, cases, k, l);
    if i < k {
      ChallengesApart(x, vs, realTpm, cases, i, k);
    } else if k < i {
      ChallengesApart(x, vs, realTpm, cases, k, i);
    } else if vs[i].prepared.variant != Replay {
      GenuineApart(x, vs[i], if j < l then j else l, if j < l then l else j);
    }
  }

  lemma ChallengesApart(x: Setting, vs: seq<Validated>, realTpm: bool, cases: seq<CaseObservation>, i: nat, j: nat)
    requires Finished(x, vs, realTpm, cases) && i < j < |vs|
    ensures forall k, l :: 0 <= k < |vs[i].prepared.requests| && 0 <= l < |vs[j].prepared.requests| ==>
              vs[i].prepared.requests[k].challenge != vs[j].prepared.requests[l].challenge
  {
    hide Finished;
    CasesApart(x, vs, realTpm, cases, i, j);
    DifferentNames(vs[i], vs[j]);
  }

  lemma GenuineApart(x: Setting, v: Validated, i: nat, j: nat)
    requires Genuine(x, v) && i < j < |v.prepared.requests|
    ensures v.prepared.requests[i].challenge != v.prepared.requests[j].challenge
  {
    hide GrantOk, BoundsAccepted, RequestOk;
    assert Apart(v.prepared.requests[i], v.prepared.requests[j]);
  }

  /** A challenge occurs at most as often as there are positions that may carry it. */
  lemma {:induction false} CountUpTo(all: seq<Attempt>, x: Term, marks: set<int>)
    requires forall p :: 0 <= p < |all| && ChallengeOf(all[p]) == Some(x) ==> p in marks
    ensures Occurrences(all, x) <= |marks|
  {
    hide ChallengeOf;
    if all != [] {
      var m := |all| - 1;
      if ChallengeOf(all[m]) == Some(x) {
        assert m in marks;
        CountUpTo(all[..m], x, marks - {m});
        assert |marks - {m}| == |marks| - 1;
      } else {
        CountUpTo(all[..m], x, marks);
      }
    }
  }

  lemma {:induction false} ChallengeFound(all: seq<Attempt>, x: Term) returns (p: nat)
    requires x in Challenges(all)
    ensures p < |all| && ChallengeOf(all[p]) == Some(x)
  {
    hide ChallengeOf;
    var m := |all| - 1;
    if x in Challenges(all[..m]) {
      p := ChallengeFound(all[..m], x);
    } else {
      p := m;
    }
  }

  /** Every repeated challenge sits at the positions a and a + 1. */
  ghost predicate OnePair(all: seq<Attempt>, a: nat) {
    && a + 1 < |all| && ChallengeOf(all[a]).Some? && ChallengeOf(all[a + 1]) == ChallengeOf(all[a])
    && (forall p, q :: 0 <= p < q < |all| && ChallengeOf(all[p]).Some? && ChallengeOf(all[p]) == ChallengeOf(all[q]) ==>
          p == a && q == a + 1)
  }

  lemma PairCounts(all: seq<Attempt>, a: nat, h: Term)
    requires OnePair(all, a) && ChallengeOf(all[a]) == Some(h)
    ensures multiset(Challenges(all))[h] == 2
    ensures forall y :: y in multiset(Challenges(all)) ==> multiset(Challenges(all))[y] == if y == h then 2 else 1
  {
    hide ChallengeOf, Challenges, Occurrences;
    CountTwice(all, a, a + 1, h);
    OccurrencesCount(all, h);
    CountUpTo(all, h, {a, a + 1});
    forall y | y in Challenges(all) && y != h
      ensures multiset(Challenges(all))[y] == 1
    {
      var p := ChallengeFound(all, y);
      OccurrencesCount(all, y);
      CountUpTo(all, y, {p});
    }
  }

  lemma ReplayPairOnly(x: Setting, vs: seq<Validated>, realTpm: bool, cases: seq<CaseObservation>, b: nat)
    requires Finished(x, vs, realTpm, cases) && |vs| == |cases| && b < |vs| && vs[b].prepared.variant == Replay
    requires |cases[b].attempts| == 2
    ensures OnePair(Flat(cases), Position(cases, b, 0))
    ensures ChallengeOf(cases[b].attempts[0]) == ChallengeOf(Flat(cases)[Position(cases, b, 0)])
  {
    hide Finished, Flat, ToolOf, AudienceOf, ResourcePolicyOf, SnapshotOf, ChallengeOf, Genuine;
    var all, a := Flat(cases), Position(cases, b, 0);
    AttemptStory(x, vs, realTpm, cases, b, 0);
    AttemptStory(x, vs, realTpm, cases, b, 1);
    FlatAt(cases, b, 0);
    FlatAt(cases, b, 1);
    forall p, q | 0 <= p < q < |all| && ChallengeOf(all[p]).Some? && ChallengeOf(all[p]) == ChallengeOf(all[q])
      ensures p == a && q == a + 1
    {
      var i, j := Locate(cases, p);
      var k, l := Locate(cases, q);
      OnlyReplayRepeats(x, vs, realTpm, cases, i, j, k, l);
      OneReplay(x, vs, realTpm, cases, i, b);
    }
  }

  lemma OneReplay(x: Setting, vs: seq<Validated>, realTpm: bool, cases: seq<CaseObservation>, i: nat, b: nat)
    requires Finished(x, vs, realTpm, cases)
    requires i < |vs| && b < |vs| && vs[i].prepared.variant == vs[b].prepared.variant
    ensures i == b
  {
    hide Finished, Matrix;
    FinishedMatrix(x, vs, realTpm, cases);
    if i < b { MatrixDistinct(vs, i, b); } else if b < i { MatrixDistinct(vs, b, i); }
  }

  // ---- The receipts as a whole ----

  /** What the scope, tool, audience and policy sets come to. */
  predicate SetsOk(r: Record) {
    var all := Flat(r.cases);
    && all != []
    && Image(ScopeOf, r.cases) == {Some(ExpectedScope)}
    && Image(ToolOf, all) == {Some(ExpectedTool)}
    && Image(AudienceOf, all) == {Some(ExpectedAudience)}
    && |Image(ResourcePolicyOf, all)| == 1
  }

  predicate GrantSetsOk(r: Record) {
    && |Image(ManifestOf, r.cases)| == 1
    && |Image(BrokerPolicyOf, r.cases)| == 1
    && |Image(IssuanceOf, r.cases)| == |r.cases|
    && (r.realTpm ==>
          && |Image(AkChainOf, r.cases)| == 1
          && |Image(AttestOf, r.cases)| == |r.cases|
          && |Image(QuoteSignatureOf, r.cases)| == |r.cases|)
  }

  predicate SnapshotsReach(r: Record) {
    var all := Flat(r.cases);
    && (forall k :: 0 <= k < |all| ==> SnapshotOf(all[k]) <= r.invocationCount)
    && (exists k :: 0 <= k < |all| && SnapshotOf(all[k]) == r.invocationCount)
  }

  predicate ReplayCounted(r: Record) {
    var counts := multiset(Challenges(Flat(r.cases)));
    && ReplayHash(r.cases).Some?
    && var h := ReplayHash(r.cases).value;
    && counts[h] == 2
    && (forall x :: x in counts ==> counts[x] == if x == h then 2 else 1)
  }

  lemma GlobalFrom(r: Record)
    requires SetsOk(r) && GrantSetsOk(r) && SnapshotsReach(r) && ReplayCounted(r)
    ensures GlobalOk(r)
  {
    hide Image, Flat, Challenges, ReplayHash;
  }

  lemma SetsHold(x: Setting, vs: seq<Validated>, realTpm: bool, cases: seq<CaseObservation>, observedAt: int)
    requires Finished(x, vs, realTpm, cases)
    ensures SetsOk(RecordOf(x, observedAt, realTpm, cases))
  {
    hide Finished, CaseFacts, Flat, Image, ToolOf, AudienceOf, ResourcePolicyOf, ScopeOf, Score, Genuine, InvocationIds;
    AllFacts(x, vs, realTpm, cases);
    var all := Flat(cases);
    CaseNonEmpty(x, vs[0], Score(vs, 0), Score(vs, 1), cases[0]);
    FlatAt(cases, 0, 0);
    forall p | 0 <= p < |all|
      ensures ToolOf(all[p]) == Some(ExpectedTool) && AudienceOf(all[p]) == Some(ExpectedAudience)
      ensures ResourcePolicyOf(all[p]) == Some(x.t.cfg.resource.Digest())
    {
      var i, j := Locate(cases, p);
      AttemptStory(x, vs, realTpm, cases, i, j);
    }
    ConstantImage(ToolOf, all, Some(ExpectedTool));
    ConstantImage(AudienceOf, all, Some(ExpectedAudience));
    ConstantImage(ResourcePolicyOf, all, Some(x.t.cfg.resource.Digest()));
    forall i | 0 <= i < |cases|
      ensures ScopeOf(cases[i]) == Some(ExpectedScope)
    {
      CaseAt(x, vs, realTpm, cases, i);
      GrantFields(x, vs[i], Score(vs, i), Score(vs, i + 1), cases[i]);
    }
    ConstantImage(ScopeOf, cases, Some(ExpectedScope));
  }

  lemma CaseNonEmpty(x: Setting, v: Validated, low: int, high: int, c: CaseObservation)
    requires CaseFacts(x, v, low, high, c)
    ensures c.attempts != []
  {
    hide CaseSemantics, AttemptFacts, InvocationIds, AllowedIds;
  }

  lemma GrantFact(x: Setting, vs: seq<Validated>, realTpm: bool, cases: seq<CaseObservation>, i: nat)
    requires Finished(x, vs, realTpm, cases) && i < |vs| == |cases|
    ensures var c, g := cases[i], vs[i].prepared.grant;
            && ManifestOf(c) == Some(g.manifestDigest)
            && BrokerPolicyOf(c) == Some(g.brokerPolicy) && IssuanceOf(c) == Some(g.issuanceRequest)
            && AkChainOf(c) == Some(g.akChain) && AttestOf(c) == Some(g.attest) && QuoteSignatureOf(c) == Some(g.signature)
  {
    hide Finished, CaseFacts, Score, Genuine, ManifestOf, BrokerPolicyOf, IssuanceOf, AkChainOf, AttestOf, QuoteSignatureOf;
    CaseAt(x, vs, realTpm, cases, i);
    GrantFields(x, vs[i], Score(vs, i), Score(vs, i + 1), cases[i]);
  }

  lemma GrantSetsHold(x: Setting, vs: seq<Validated>, realTpm: bool, cases: seq<CaseObservation>, observedAt: int)
    requires Finished(x, vs, realTpm, cases)
    ensures GrantSetsOk(RecordOf(x, observedAt, realTpm, cases))
  {
    hide Finished, CaseFacts, Flat, Image, ManifestOf, BrokerPolicyOf, IssuanceOf, AkChainOf, AttestOf, QuoteSignatureOf, Score, InvocationIds;
    AllFacts(x, vs, realTpm, cases);
    forall i | 0 <= i < |cases|
      ensures ManifestOf(cases[i]) == Some(vs[i].prepared.grant.manifestDigest)
              && BrokerPolicyOf(cases[i]) == Some(vs[i].prepared.grant.brokerPolicy)
              && IssuanceOf(cases[i]) == Some(vs[i].prepared.grant.issuanceRequest)
              && AkChainOf(cases[i]) == Some(vs[i].prepared.grant.akChain)
              && AttestOf(cases[i]) == Some(vs[i].prepared.grant.attest)
              && QuoteSignatureOf(cases[i]) == Some(vs[i].prepared.grant.signature)
    {
      GrantFact(x, vs, realTpm, cases, i);
    }
    forall i, j | 0 <= i < j < |cases|
      ensures SameOrigin(realTpm, vs[i].prepared.grant, vs[j].prepared.grant)
              && vs[i].prepared.grant.issuanceRequest != vs[j].prepared.grant.issuanceRequest
    {
      CasesApart(x, vs, realTpm, cases, i, j);
      DifferentNames(vs[i], vs[j]);
    }
    var g := vs[0].prepared.grant;
    assert forall i :: 0 <= i < |cases| ==> SameOrigin(realTpm, g, vs[i].prepared.grant) || i == 0;
    ConstantImage(ManifestOf, cases, Some(g.manifestDigest));
    ConstantImage(BrokerPolicyOf, cases, Some(g.brokerPolicy));
    InjectiveImage(IssuanceOf, cases);
    if realTpm {
      ConstantImage(AkChainOf, cases, Some(g.akChain));
      InjectiveImage(AttestOf, cases);
      InjectiveImage(QuoteSignatureOf, cases);
    }
  }

  lemma SnapshotsHold(x: Setting, vs: seq<Validated>, realTpm: bool, cases: seq<CaseObservation>, observedAt: int)
    requires Finished(x, vs, realTpm, cases)
    ensures SnapshotsReach(RecordOf(x, observedAt, realTpm, cases))
  {
    hide Finished, CaseFacts, Flat, SnapshotOf, Score, InvocationIds, Matrix, ToolOf, AudienceOf, ResourcePolicyOf, ChallengeOf, Genuine;
    AllFacts(x, vs, realTpm, cases);
    FinishedMatrix(x, vs, realTpm, cases);
    var c := MatrixHas(vs, Concurrent);
    var all := Flat(cases);
    forall p | 0 <= p < |all|
      ensures SnapshotOf(all[p]) <= 3
    {
      var i, j := Locate(cases, p);
      AttemptStory(x, vs, realTpm, cases, i, j);
    }
    StoryShape(x, vs[c], Score(vs, c), Score(vs, c + 1), cases[c]);
    var j := AllowedExists(cases[c].attempts);
    AttemptStory(x, vs, realTpm, cases, c, j);
    FlatAt(cases, c, j);
    assert SnapshotOf(all[Position(cases, c, j)]) == 3;
  }

  lemma ReplayHolds(x: Setting, vs: seq<Validated>, realTpm: bool, cases: seq<CaseObservation>, observedAt: int)
    requires Finished(x, vs, realTpm, cases)
    ensures ReplayCounted(RecordOf(x, observedAt, realTpm, cases))
  {
    hide Finished, CaseFacts, Flat, Score, InvocationIds, Matrix, ChallengeOf, Challenges, ReplayHash, CaseSemantics;
    AllFacts(x, vs, realTpm, cases);
    FinishedMatrix(x, vs, realTpm, cases);
    var b := MatrixHas(vs, Replay);
    CaseNumbers(x, vs[b], Score(vs, b), Score(vs, b + 1), cases[b]);
    ReplayShape(x, vs[b], Score(vs, b), Score(vs, b + 1), cases[b]);
    ReplayPairOnly(x, vs, realTpm, cases, b);
    forall i, j | 0 <= i < j < |cases|
      ensures cases[i].variant != cases[j].variant
    {
      CaseNumbers(x, vs[i], Score(vs, i), Score(vs, i + 1), cases[i]);
      CaseNumbers(x, vs[j], Score(vs, j), Score(vs, j + 1), cases[j]);
      MatrixDistinct(vs, i, j);
    }
    ReplayHashFound(cases, b);
    PairCounts(Flat(cases), Position(cases, b, 0), ChallengeOf(cases[b].attempts[0]).value);
  }

  /** One recorded case per planned case, of its variant and with its number of attempts. */
  ghost predicate Recorded(vs: seq<Validated>, cases: seq<CaseObservation>) {
    && |cases| == |vs|
    && (forall i :: 0 <= i < |vs| ==> cases[i].variant == vs[i].prepared.variant && |cases[i].attempts| == AttemptsOf(vs[i]))
  }

  lemma FinishedRecorded(x: Setting, vs: seq<Validated>, realTpm: bool, cases: seq<CaseObservation>)
    requires Finished(x, vs, realTpm, cases)
    ensures Recorded(vs, cases)
  {
    hide Finished, CaseFacts, Score, Flat, InvocationIds, AttemptsOf;
    AllFacts(x, vs, realTpm, cases);
    forall i | 0 <= i < |vs|
      ensures cases[i].variant == vs[i].prepared.variant && |cases[i].attempts| == AttemptsOf(vs[i])
    {
      CaseNumbers(x, vs[i], Score(vs, i), Score(vs, i + 1), cases[i]);
      FactsLength(x, vs[i], Score(vs, i), Score(vs, i + 1), cases[i]);
    }
  }

  /** The record's attempts are answers of the run that was recorded. */
  lemma ToldTaken(x: Setting, s0: State, vs: seq<Validated>, realTpm: bool, s: State, cases: seq<CaseObservation>, observedAt: int)
    requires Told(x, s0, vs, s, cases, |vs|)
    ensures TakenFrom(s, RecordOf(x, observedAt, realTpm, cases))
  {
    hide Inv, CaseFacts, Waiting, Score, Offset, Flat;
    forall i, j | 0 <= i < |cases| && 0 <= j < |cases[i].attempts|
      ensures AnsweredIn(s, cases[i].attempts[j])
    {
      FlatAt(cases, i, j);
      var p := Position(cases, i, j);
      assert AnswerFrom(s.redeems[|s0.redeems| + p], Flat(cases)[p]);
      assert AnswerOf(s, |s0.redeems| + p, cases[i].attempts[j]);
    }
  }

  /** Both validators accept the finished run. */
  lemma FinishedAccepted(x: Setting, vs: seq<Validated>, realTpm: bool, cases: seq<CaseObservation>, observedAt: int)
    requires Finished(x, vs, realTpm, cases) && x.w.hi <= observedAt
    ensures RecordSemantics(RecordOf(x, observedAt, realTpm, cases)) && EmbeddedOk(RecordOf(x, observedAt, realTpm, cases))
  {
    hide Finished, CaseFacts, RecordSemantics, CaseAccepted, GlobalOk, SetsOk, GrantSetsOk, SnapshotsReach, ReplayCounted, Flat, InvocationIds;
    AllFacts(x, vs, realTpm, cases);
    RecordSemanticsHold(x, vs, realTpm, cases, observedAt);
    forall i | 0 <= i < |cases|
      ensures CaseAccepted(RecordOf(x, observedAt, realTpm, cases), i)
    {
      CaseAcceptedAt(x, vs, realTpm, cases, observedAt, i);
    }
    SetsHold(x, vs, realTpm, cases, observedAt);
    GrantSetsHold(x, vs, realTpm, cases, observedAt);
    SnapshotsHold(x, vs, realTpm, cases, observedAt);
    ReplayHolds(x, vs, realTpm, cases, observedAt);
    GlobalFrom(RecordOf(x, observedAt, realTpm, cases));
  }

  /** Every case was redeemed and recorded, and both validators accept the record of the run. */
  ghost predicate RunAccepted(x: Setting, s0: State, vs: seq<Validated>, scheds: seq<Schedule>, realTpm: bool, observedAt: int)
  {
    && |vs| == |scheds| && (forall i :: 0 <= i < |vs| ==> Shaped(vs[i]))
    && var (s, cases) := Redeemed(x.t, s0, vs, scheds, |vs|);
    && cases.Some? && RecordAccepted(vs, s, cases.value, RecordOf(x, observedAt, realTpm, cases.value))
  }

  ghost predicate RecordAccepted(vs: seq<Validated>, s: State, cases: seq<CaseObservation>, r: Record) {
    RecordSemantics(r) && EmbeddedOk(r) && Recorded(vs, cases) && TakenFrom(s, r)
  }

  /** The experiment is complete: from any reachable state with a fresh counter and every case
      waiting, for every race size and every honest schedule, no check of the controller fails and
      the record it signs passes its own validator and the receipt verifier. */
  lemma HonestRecordAccepted(x: Setting, s0: State, vs: seq<Validated>, scheds: seq<Schedule>, realTpm: bool, observedAt: int)
    requires HonestStart(x, s0, vs, scheds) && Matrix(vs) && LabNames(x) && Granted(x, realTpm, vs) && x.w.hi <= observedAt
    ensures RunAccepted(x, s0, vs, scheds, realTpm, observedAt)
  {
    hide HonestStart, Matrix, LabNames, Granted, Redeemed, Told, RecordSemantics, EmbeddedOk, Shaped, Recorded, TakenFrom;
    MatrixLength(vs);
    forall i | 0 <= i < |vs|
      ensures |vs| == |scheds| && Shaped(vs[i])
    {
      StartAt(x, s0, vs, scheds, i);
    }
    assert Shaped(vs[0]);
    HonestFoldRuns(x, s0, vs, scheds, |vs|);
    var (s, cases) := Redeemed(x.t, s0, vs, scheds, |vs|);
    FinishedFrom(x, s0, vs, scheds, realTpm, s, cases.value);
    FinishedAccepted(x, vs, realTpm, cases.value, observedAt);
    FinishedRecorded(x, vs, realTpm, cases.value);
    ToldTaken(x, s0, vs, realTpm, s, cases.value, observedAt);
  }
}
