/** What an accepted record says, read off its claims: every clause of the two validators as a fact
    about receipts, attempts and cases. */
module RecordClaims {
  import opened Symbols
  import opened Receipt
  import opened Worker
  import opened Images
  import opened Wire
  import opened RecordVerifier
  import opened RecordSound

  /** The broker receipt of a case, and the receipt of an attempt. */
  function Granted(r: Record, i: nat): Payload
    requires i < |r.cases|
  {
    if r.cases[i].brokerReceipt.Compact? then r.cases[i].brokerReceipt.claims else NoClaims
  }

  function Answered(r: Record, i: nat, j: nat): Payload
    requires i < |r.cases| && j < |r.cases[i].attempts|
  {
    var jws := r.cases[i].attempts[j].receipt;
    if jws.Compact? then jws.claims else NoClaims
  }

  // ---- Each broker receipt ----

  const FiveDigests: set<string> :=
    {"broker_policy_sha256", "issuance_request_sha256", "tpm_ak_chain_sha256", "tpm_attest_sha256", "tpm_signature_sha256"}

  /** A signed grant under the record's broker key, with every field the broker fills and no other. */
  predicate GrantClaim(r: Record, i: nat)
    requires i < |r.cases|
  {
    var jws, b := r.cases[i].brokerReceipt, Granted(r, i);
    && jws.Compact? && jws.keyId == r.brokerVerifier.keyId && jws.key == r.brokerVerifier.key
    && b.service == Broker && b.decision == Allow && b.reason == ALLOW && !b.handlerInvoked && b.invocationId == None && b.snapshot == 0
    && b.credentialId.Some? && LowerHex(b.credentialId.value) && b.tokenHash.Some? && LowerHex(b.tokenHash.value)
    && b.scope == Some(Plain("mcp://inventoryd/tool/inventory.lookup"))
    && b.manifestDigest.Some? && b.manifestDigest.value.Labelled? && LowerHex(b.manifestDigest.value.digest)
    && b.tool == None && b.audience == None && b.argumentsDigest == None && b.recordId == None
    && 0 <= b.decidedAt <= r.observedAt
    && b.artifacts.Keys == FiveDigests && (forall name :: name in b.artifacts ==> LowerHex(b.artifacts[name]))
  }

  lemma AcceptedGrant(r: Record, i: nat)
    requires EmbeddedOk(r) && i < |r.cases|
    ensures GrantClaim(r, i)
  {
    hide GlobalOk, Image, LowerHex, BrokerFresh, StoryOk, AttemptAccepted;
    assert CaseAccepted(r, i);
    GrantScope(r, i);
  }

  lemma GrantScope(r: Record, i: nat)
    requires EmbeddedOk(r) && i < |r.cases|
    ensures Granted(r, i).scope == Some(Plain("mcp://inventoryd/tool/inventory.lookup"))
  {
    hide CaseAccepted, Image, Flat, Challenges, ReplayHash;
    InImage(ScopeOf, r.cases, i);
  }

  // ---- Broker receipts against each other ----

  /** Two grants of one record: different receipts, credentials, challenges and requests, from one
      manifest and one policy; on real hardware each freshly quoted under one key chain. */
  predicate GrantsApart(realTpm: bool, a: Payload, b: Payload) {
    && a.receiptId != b.receiptId && a.credentialId != b.credentialId && a.tokenHash != b.tokenHash
    && a.manifestDigest == b.manifestDigest
    && a.artifacts.Keys == b.artifacts.Keys == FiveDigests
    && a.artifacts["broker_policy_sha256"] == b.artifacts["broker_policy_sha256"]
    && a.artifacts["issuance_request_sha256"] != b.artifacts["issuance_request_sha256"]
    && (realTpm ==>
          && a.artifacts["tpm_attest_sha256"] != b.artifacts["tpm_attest_sha256"]
          && a.artifacts["tpm_signature_sha256"] != b.artifacts["tpm_signature_sha256"]
          && a.artifacts["tpm_ak_chain_sha256"] == b.artifacts["tpm_ak_chain_sha256"])
  }

  lemma AcceptedGrantsApart(r: Record, i: nat, j: nat)
    requires EmbeddedOk(r) && i < |r.cases| && j < |r.cases| && i != j
    ensures GrantsApart(r.realTpm, Granted(r, i), Granted(r, j)) && r.cases[i].brokerReceipt != r.cases[j].brokerReceipt
  {
    hide EmbeddedOk, GrantClaim;
    var a, b := if i < j then i else j, if i < j then j else i;
    AcceptedGrant(r, a);
    AcceptedGrant(r, b);
    GrantKeys(r, a);
    GrantKeys(r, b);
    FreshGrants(r, a, b);
    FreshRequests(r, a, b);
    OneOrigin(r, a, b);
    if r.realTpm {
      FreshQuotes(r, a, b);
    }
  }

  lemma GrantKeys(r: Record, i: nat)
    requires i < |r.cases| && GrantClaim(r, i)
    ensures Granted(r, i).artifacts.Keys == FiveDigests && Granted(r, i) == BrokerClaims(r.cases[i])
  {
    hide LowerHex;
  }

  lemma FreshGrants(r: Record, i: nat, j: nat)
    requires EmbeddedOk(r) && i < j < |r.cases|
    ensures var a, b := Granted(r, i), Granted(r, j);
            a.receiptId != b.receiptId && a.credentialId != b.credentialId && a.tokenHash != b.tokenHash
            && r.cases[i].brokerReceipt != r.cases[j].brokerReceipt
  {
    hide GlobalOk, StoryOk, AttemptAccepted, BrokerReceiptOk, Verifies;
    assert CaseAccepted(r, j);
    var before := r.cases[..j];
    assert before[i] == r.cases[i];
    InImage(BrokerJws, before, i);
    InImage(BrokerReceiptId, before, i);
    InImage(CredentialOf, before, i);
    InImage(BrokerToken, before, i);
    hide Image;
  }

  lemma FreshRequests(r: Record, i: nat, j: nat)
    requires EmbeddedOk(r) && i < j < |r.cases|
    ensures IssuanceOf(r.cases[i]) != IssuanceOf(r.cases[j])
  {
    hide CaseAccepted, Image, Flat, Challenges, ReplayHash;
    FullImage(IssuanceOf, r.cases, i, j);
  }

  lemma OneOrigin(r: Record, i: nat, j: nat)
    requires EmbeddedOk(r) && i < j < |r.cases|
    ensures ManifestOf(r.cases[i]) == ManifestOf(r.cases[j]) && BrokerPolicyOf(r.cases[i]) == BrokerPolicyOf(r.cases[j])
  {
    hide CaseAccepted, Image, Flat, Challenges, ReplayHash;
    SingletonImage(ManifestOf, r.cases, i, j);
    SingletonImage(BrokerPolicyOf, r.cases, i, j);
  }

  lemma FreshQuotes(r: Record, i: nat, j: nat)
    requires EmbeddedOk(r) && r.realTpm && i < j < |r.cases|
    ensures AttestOf(r.cases[i]) != AttestOf(r.cases[j]) && QuoteSignatureOf(r.cases[i]) != QuoteSignatureOf(r.cases[j])
    ensures AkChainOf(r.cases[i]) == AkChainOf(r.cases[j])
  {
    hide CaseAccepted, Image, Flat, Challenges, ReplayHash;
    FullImage(AttestOf, r.cases, i, j);
    FullImage(QuoteSignatureOf, r.cases, i, j);
    SingletonImage(AkChainOf, r.cases, i, j);
  }

  // ---- Each resource receipt ----

  /** A signed answer under the record's resource key that says what the attempt says, about the
      case's own credential and scope, between the grant and the observation. */
  predicate AnswerClaim(r: Record, i: nat, j: nat)
    requires i < |r.cases| && j < |r.cases[i].attempts|
  {
    var jws, b, p, a := r.cases[i].attempts[j].receipt, Granted(r, i), Answered(r, i, j), r.cases[i].attempts[j];
    && jws.Compact? && jws.keyId == r.resourceVerifier.keyId && jws.key == r.resourceVerifier.key
    && p.service == Inventory && p.decision == (if a.allowed then Allow else Deny) && p.reason == a.reason
    && p.handlerInvoked == a.handlerInvoked && p.businessResult == a.businessResult && p.invocationId == a.invocationId
    && p.credentialId == b.credentialId && p.scope == b.scope && p.manifestDigest == None
    && p.tool == Some(Plain("inventory.lookup")) && p.audience == Some(Plain("inventoryd"))
    && p.argumentsDigest.Some? && LowerHex(p.argumentsDigest.value) && p.recordId.Some?
    && b.decidedAt <= p.decidedAt <= r.observedAt
    && p.artifacts.Keys == {"resource_policy_sha256"} && LowerHex(p.artifacts["resource_policy_sha256"])
    && (if r.cases[i].variant == Malformed then p.tokenHash == None else p.tokenHash.Some? && LowerHex(p.tokenHash.value))
    && p.snapshot <= r.invocationCount
  }

  lemma AcceptedAnswer(r: Record, i: nat, j: nat)
    requires EmbeddedOk(r) && i < |r.cases| && j < |r.cases[i].attempts|
    ensures AnswerClaim(r, i, j)
  {
    hide GlobalOk, Image, LowerHex, BrokerAccepted, StoryOk, Before;
    assert CaseAccepted(r, i);
    assert AttemptAccepted(r, i, j);
    AnswerNames(r, i, j);
  }

  lemma AnswerNames(r: Record, i: nat, j: nat)
    requires EmbeddedOk(r) && i < |r.cases| && j < |r.cases[i].attempts|
    ensures var p := Answered(r, i, j);
            p.tool == Some(Plain("inventory.lookup")) && p.audience == Some(Plain("inventoryd")) && p.snapshot <= r.invocationCount
  {
    hide CaseAccepted, Image, Flat, Challenges, ReplayHash;
    FlatAt(r.cases, i, j);
    InImage(ToolOf, Flat(r.cases), Position(r.cases, i, j));
    InImage(AudienceOf, Flat(r.cases), Position(r.cases, i, j));
  }

  /** Two attempts of one record: different receipts under one resource policy. */
  lemma AcceptedAnswersApart(r: Record, i: nat, j: nat, k: nat, l: nat)
    requires EmbeddedOk(r) && i < |r.cases| && j < |r.cases[i].attempts| && k < |r.cases| && l < |r.cases[k].attempts|
    requires i < k || (i == k && j < l)
    ensures var p, q := Answered(r, i, j), Answered(r, k, l);
            && p.receiptId != q.receiptId && r.cases[i].attempts[j].receipt != r.cases[k].attempts[l].receipt
            && p.artifacts.Keys == q.artifacts.Keys == {"resource_policy_sha256"}
            && p.artifacts["resource_policy_sha256"] == q.artifacts["resource_policy_sha256"]
  {
    hide EmbeddedOk, AnswerClaim, Flat, Image;
    AnswerKeys(r, i, j);
    AnswerKeys(r, k, l);
    InRecordOrder(r.cases, i, j, k, l);
    FreshAnswer(r, i, j, k, l);
    OnePolicy(r, Position(r.cases, i, j), Position(r.cases, k, l));
  }

  lemma AnswerKeys(r: Record, i: nat, j: nat)
    requires EmbeddedOk(r) && i < |r.cases| && j < |r.cases[i].attempts|
    ensures Answered(r, i, j).artifacts.Keys == {"resource_policy_sha256"}
    ensures ResourcePolicyOf(r.cases[i].attempts[j]) == Some(Answered(r, i, j).artifacts["resource_policy_sha256"])
  {
    hide EmbeddedOk, LowerHex;
    AcceptedAnswer(r, i, j);
  }

  lemma FreshAnswer(r: Record, i: nat, j: nat, k: nat, l: nat)
    requires EmbeddedOk(r) && i < |r.cases| && j < |r.cases[i].attempts| && k < |r.cases| && l < |r.cases[k].attempts|
    requires i < k || (i == k && j < l)
    ensures Answered(r, i, j).receiptId != Answered(r, k, l).receiptId
    ensures r.cases[i].attempts[j].receipt != r.cases[k].attempts[l].receipt
  {
    hide GlobalOk, Image, ResourceReceiptOk, Verifies, StoryOk, BrokerAccepted, Before;
    assert CaseAccepted(r, k);
    assert AttemptAccepted(r, k, l);
    var p := InBefore(r.cases, i, j, k, l);
    InImage(ResourceJws, Before(r.cases, k, l), p);
    InImage(ResourceReceiptId, Before(r.cases, k, l), p);
  }

  /** An earlier attempt is among those before a later one. */
  lemma InBefore(cases: seq<CaseObservation>, i: nat, j: nat, k: nat, l: nat) returns (p: nat)
    requires i < |cases| && j < |cases[i].attempts| && k < |cases| && l < |cases[k].attempts| && (i < k || (i == k && j < l))
    ensures p < |Before(cases, k, l)| && Before(cases, k, l)[p] == cases[i].attempts[j]
  {
    if i < k {
      FlatAt(cases[..k], i, j);
      p := Position(cases[..k], i, j);
    } else {
      p := |Flat(cases[..k])| + j;
    }
  }

  lemma OnePolicy(r: Record, p: nat, q: nat)
    requires EmbeddedOk(r) && p < |Flat(r.cases)| && q < |Flat(r.cases)|
    ensures ResourcePolicyOf(Flat(r.cases)[p]) == ResourcePolicyOf(Flat(r.cases)[q])
  {
    hide CaseAccepted, Image, Flat, Challenges, ReplayHash;
    SingletonImage(ResourcePolicyOf, Flat(r.cases), p, q);
  }

  // ---- Each case ----

  predicate RaceVerdict(a: Attempt) {
    a.sequence == 1 && a.reason == if a.allowed then ALLOW else CREDENTIAL_SPENT
  }

  /** The verdicts, order and marks a case must show, variant by variant. */
  predicate CaseClaim(c: CaseObservation) {
    && c.invocationDelta == c.redemptionCount == (if c.variant in {Valid, Replay, Concurrent} then 1 else 0)
    && (match c.variant
        case Valid => |c.attempts| == 1 && c.attempts[0].allowed && c.attempts[0].reason == ALLOW && c.attempts[0].sequence == 1
        case Replay =>
          && |c.attempts| == 2 && c.attempts[0].sequence == 1 && c.attempts[1].sequence == 2
          && c.attempts[0].allowed && c.attempts[0].reason == ALLOW
          && !c.attempts[1].allowed && c.attempts[1].reason == CHALLENGE_CONSUMED
          && c.attempts[0].runId == c.attempts[1].runId && c.attempts[0].requestSha == c.attempts[1].requestSha
          && c.attempts[0].responseSha == c.attempts[1].responseSha && c.attempts[0].proofSha == c.attempts[1].proofSha
        case Concurrent =>
          && 2 <= |c.attempts| <= 64 && c.metadata == |c.attempts|
          && (forall j :: 0 <= j < |c.attempts| ==> RaceVerdict(c.attempts[j]))
        case _ =>
          |c.attempts| == 1 && !c.attempts[0].allowed && c.attempts[0].reason == HOLDER_PROOF_INVALID && c.attempts[0].sequence == 1)
  }

  lemma AcceptedCase(r: Record, i: nat)
    requires RecordSemantics(r) && i < |r.cases|
    ensures CaseClaim(r.cases[i])
    ensures Allowed(r.cases[i].attempts) == if r.cases[i].variant in {Valid, Replay, Concurrent} then 1 else 0
  {
    hide InvocationIds, Flat, FullMatrix, Image;
    var c := r.cases[i];
    assert CaseSemantics(c);
    CaseCounts(c);
    if c.variant == Concurrent {
      RaceVerdicts(c);
    } else {
      OrderedVerdicts(c);
    }
  }

  lemma OrderedVerdicts(c: CaseObservation)
    requires CaseSemantics(c) && c.variant != Concurrent
    ensures CaseClaim(c)
  {
    hide AttemptSemantics, DifferentCall;
    var vs := Verdicts(c.attempts);
    assert |vs| == |c.attempts| && vs[0] == (c.attempts[0].allowed, c.attempts[0].reason);
    if c.variant == Replay {
      assert vs[1] == (c.attempts[1].allowed, c.attempts[1].reason);
    }
  }

  lemma RaceVerdicts(c: CaseObservation)
    requires CaseSemantics(c) && c.variant == Concurrent
    ensures CaseClaim(c)
  {
    hide AttemptSemantics, DifferentCall, SameCall;
    var vs, ws := Verdicts(c.attempts), ExpectedVerdicts(Concurrent, |c.attempts|);
    forall j | 0 <= j < |c.attempts|
      ensures c.attempts[j].reason == if c.attempts[j].allowed then ALLOW else CREDENTIAL_SPENT
    {
      assert vs[j] == (c.attempts[j].allowed, c.attempts[j].reason);
      assert vs[j] in multiset(vs);
      assert vs[j] in multiset(ws);
      var k :| 0 <= k < |ws| && ws[k] == vs[j];
    }
  }

  /** Within a race the attempts differ in every mark; within a replay time does not run back. */
  lemma AcceptedStory(r: Record, i: nat, j: nat, l: nat)
    requires RecordSemantics(r) && EmbeddedOk(r) && i < |r.cases| && j < l < |r.cases[i].attempts|
    ensures var a, b, p, q := r.cases[i].attempts[j], r.cases[i].attempts[l], Answered(r, i, j), Answered(r, i, l);
            && p.argumentsDigest == q.argumentsDigest
            && (r.cases[i].variant == Replay ==>
                  p.tokenHash == q.tokenHash && p.recordId == q.recordId && p.decidedAt <= q.decidedAt && p.snapshot <= q.snapshot)
            && (r.cases[i].variant == Concurrent ==>
                  && p.tokenHash != q.tokenHash && p.recordId != q.recordId
                  && a.runId != b.runId && a.requestSha != b.requestSha && a.responseSha != b.responseSha && a.proofSha != b.proofSha)
  {
    hide RecordSemantics, EmbeddedOk, CaseSemantics, StoryOk;
    BothAccept(r, i);
    CaseTold(r.cases[i], j, l);
  }

  lemma BothAccept(r: Record, i: nat)
    requires RecordSemantics(r) && EmbeddedOk(r) && i < |r.cases|
    ensures CaseSemantics(r.cases[i]) && StoryOk(r.cases[i])
  {
    hide InvocationIds, Flat, FullMatrix, GlobalOk, CaseSemantics, StoryOk, BrokerAccepted, AttemptAccepted;
    assert CaseAccepted(r, i);
  }

  lemma CaseTold(c: CaseObservation, j: nat, l: nat)
    requires CaseSemantics(c) && StoryOk(c) && j < l < |c.attempts|
    ensures ArgumentsOf(c.attempts[j]) == ArgumentsOf(c.attempts[l])
    ensures c.variant == Replay ==>
              && ChallengeOf(c.attempts[j]) == ChallengeOf(c.attempts[l]) && RecordIdOf(c.attempts[j]) == RecordIdOf(c.attempts[l])
              && DecidedAtOf(c.attempts[j]) <= DecidedAtOf(c.attempts[l]) && SnapshotOf(c.attempts[j]) <= SnapshotOf(c.attempts[l])
    ensures c.variant == Concurrent ==>
              && ChallengeOf(c.attempts[j]) != ChallengeOf(c.attempts[l]) && RecordIdOf(c.attempts[j]) != RecordIdOf(c.attempts[l])
              && DifferentCall(c.attempts[j], c.attempts[l])
  {
    SeveralAttempts(c);
    hide Image, AllowedIds, CaseSemantics, DifferentCall;
    SingletonImage(ArgumentsOf, c.attempts, j, l);
    if c.variant == Replay {
      SingletonImage(ChallengeOf, c.attempts, j, l);
      SingletonImage(RecordIdOf, c.attempts, j, l);
      assert Mapped(DecidedAtOf, c.attempts)[0] <= Mapped(DecidedAtOf, c.attempts)[1];
      assert Mapped(SnapshotOf, c.attempts)[0] <= Mapped(SnapshotOf, c.attempts)[1];
    } else {
      FullImage(ChallengeOf, c.attempts, j, l);
      FullImage(RecordIdOf, c.attempts, j, l);
    }
  }

  /** Only the replay and the race have several attempts. */
  lemma SeveralAttempts(c: CaseObservation)
    requires CaseSemantics(c) && |c.attempts| >= 2
    ensures c.variant == Replay || c.variant == Concurrent
    ensures c.variant == Replay ==> |c.attempts| == 2
    ensures c.variant == Concurrent ==> forall i, j :: 0 <= i < j < |c.attempts| ==> DifferentCall(c.attempts[i], c.attempts[j])
  {
    hide AttemptSemantics, DifferentCall, SameCall;
    assert |Verdicts(c.attempts)| == |c.attempts|;
  }

  /** The record's own header. */
  lemma AcceptedHeader(r: Record)
    requires RecordSemantics(r)
    ensures r.brokerVerifier.keyId != r.resourceVerifier.keyId && r.brokerVerifier.key != r.resourceVerifier.key
    ensures r.observedImage == r.image && r.evidenceVerified == r.realTpm && r.assuranceIncluded == r.realTpm
    ensures forall i :: 0 <= i < |r.cases| ==>
              r.cases[i].workerKey == r.workerKey && r.cases[i].image == r.image && r.cases[i].codeDigest == r.codeDigest
    ensures forall i, j :: 0 <= i < j < |r.cases| ==> r.cases[i].caseId != r.cases[j].caseId && r.cases[i].variant != r.cases[j].variant
  {
    hide CaseSemantics, InvocationIds, Flat, Image;
    MatrixDifferent(r.cases);
  }

  /** Some receipt saw the counter at its final value, which the record's count is. */
  lemma FinalCountSeen(r: Record) returns (i: nat, j: nat)
    requires RecordSemantics(r) && EmbeddedOk(r)
    ensures i < |r.cases| && j < |r.cases[i].attempts| && Answered(r, i, j).snapshot == r.invocationCount
  {
    hide RecordSemantics, CaseAccepted, Image, Challenges, ReplayHash, Flat;
    var all := Flat(r.cases);
    var k :| 0 <= k < |all| && SnapshotOf(all[k]) == r.invocationCount;
    i, j := Locate(r.cases, k);
  }

  // ---- The invocation numbers ----

  lemma {:induction false} NumberListed(attempts: seq<Attempt>, p: nat)
    requires p < |attempts| && attempts[p].invocationId.Some?
    ensures attempts[p].invocationId.value in InvocationIds(attempts)
    decreases |attempts|
  {
    var m := |attempts| - 1;
    if p < m {
      NumberListed(attempts[..m], p);
    }
  }

  lemma DistinctPrefix(a: seq<int>, b: seq<int>)
    requires Distinct(a + b)
    ensures Distinct(a)
  {
    forall i, j | 0 <= i < j < |a|
      ensures a[i] != a[j]
    {
      assert (a + b)[i] == a[i] && (a + b)[j] == a[j];
    }
  }

  /** Distinct numbers are numbers of distinct attempts. */
  lemma {:induction false} NumbersDiffer(attempts: seq<Attempt>, p: nat, q: nat)
    requires Distinct(InvocationIds(attempts)) && p < q < |attempts|
    requires attempts[p].invocationId.Some? && attempts[q].invocationId.Some?
    ensures attempts[p].invocationId != attempts[q].invocationId
    decreases |attempts|
  {
    var m := |attempts| - 1;
    var before := InvocationIds(attempts[..m]);
    if q < m {
      var last := if attempts[m].invocationId.Some? then [attempts[m].invocationId.value] else [];
      DistinctPrefix(before, last);
      NumbersDiffer(attempts[..m], p, q);
    } else {
      NumberListed(attempts[..m], p);
      var k :| 0 <= k < |before| && before[k] == attempts[p].invocationId.value;
      var all := InvocationIds(attempts);
      assert all == before + [attempts[q].invocationId.value];
      assert all[k] == before[k] && all[|before|] == attempts[q].invocationId.value;
    }
  }

  lemma {:induction false} NumbersAreAllowed(attempts: seq<Attempt>)
    requires forall k :: 0 <= k < |attempts| ==> AttemptSemantics(attempts[k])
    ensures |InvocationIds(attempts)| == Allowed(attempts)
  {
    if attempts != [] {
      NumbersAreAllowed(attempts[..|attempts| - 1]);
    }
  }

  /** By its own validator alone, a record's executed attempts are numbered 1, 2 and 3, each once. */
  lemma AcceptedNumbers(r: Record, i: nat, j: nat, k: nat, l: nat)
    requires RecordSemantics(r)
    requires i < |r.cases| && j < |r.cases[i].attempts| && k < |r.cases| && l < |r.cases[k].attempts|
    requires r.cases[i].attempts[j].invocationId.Some? && r.cases[k].attempts[l].invocationId.Some? && (i < k || (i == k && j < l))
    ensures r.cases[i].attempts[j].invocationId != r.cases[k].attempts[l].invocationId
    ensures 1 <= r.cases[i].attempts[j].invocationId.value <= 3
  {
    hide RecordSemantics, InvocationIds, Flat, Distinct;
    NumbersOf(r);
    InRecordOrder(r.cases, i, j, k, l);
    NumbersDiffer(Flat(r.cases), Position(r.cases, i, j), Position(r.cases, k, l));
    NumberListed(Flat(r.cases), Position(r.cases, i, j));
  }

  lemma NumbersOf(r: Record)
    requires RecordSemantics(r)
    ensures Distinct(InvocationIds(Flat(r.cases))) && forall x :: x in InvocationIds(Flat(r.cases)) ==> 1 <= x <= 3
  {
    hide CaseSemantics, Flat, InvocationIds, FullMatrix, Allowed;
    forall p | 0 <= p < |Flat(r.cases)|
      ensures AttemptSemantics(Flat(r.cases)[p])
    {
      var i, j := Locate(r.cases, p);
      AttemptOf(r.cases[i], j);
    }
    NumbersAreAllowed(Flat(r.cases));
    var n := RaceCase(r);
    AcceptedCounts(r, n);
  }

  lemma AttemptOf(c: CaseObservation, j: nat)
    requires CaseSemantics(c) && j < |c.attempts|
    ensures AttemptSemantics(c.attempts[j])
  {
    hide AttemptSemantics, VerdictsMatch, SameCall, DifferentCall;
  }

  /** The size of the record's race. */
  lemma RaceCase(r: Record) returns (n: nat)
    requires RecordSemantics(r)
    ensures RaceSize(r.cases, n)
  {
    hide CaseSemantics, Flat, InvocationIds;
    assert Concurrent in Image(VariantOf, r.cases);
    var i :| 0 <= i < |r.cases| && VariantOf(r.cases[i]) == Concurrent;
    n := |r.cases[i].attempts|;
    MatrixDifferent(r.cases);
  }
}
