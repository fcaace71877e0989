/** Every record of an honest run is accepted, whatever the race schedule. */
module HonestRun {
  import opened Symbols
  import opened Receipt
  import opened Protocol
  import opened ProtocolInvariant
  import opened Worker
  import opened Wire
  import opened Images
  import opened RecordVerifier
  import opened RecordSound
  import opened Controller
  import opened Lab
  import opened HonestCase
  import opened HonestObservation
  import opened HonestFold

  /** The lab's fixed names and its two verifiers. */
  predicate LabNames(x: Setting) {
    && x.t.cfg.resource.scope == ExpectedScope && x.t.cfg.resource.tool == ExpectedTool
    && x.t.cfg.resource.audience == ExpectedAudience
    && x.t.brokerVerifier.keyId != x.t.resourceVerifier.keyId && x.t.brokerVerifier.key != x.t.resourceVerifier.key
  }

  /** A broker receipt's remaining fields, as the broker writes them. */
  predicate GrantShown(x: Setting, v: Validated) {
    var b, g := GrantClaims(v), v.prepared.grant;
    && b.decidedAt <= x.w.lo
    && LowerHex(g.challengeHash) && LowerHex(g.brokerPolicy) && LowerHex(g.attest) && LowerHex(g.signature)
    && LowerHex(g.akChain) && LowerHex(g.issuanceRequest) && LabelledHex(g.manifestDigest)
    && b.tool.None? && b.audience.None? && b.argumentsDigest.None? && b.recordId.None?
  }

  /** Two grants from one broker policy, one manifest and, on real hardware, one key chain. */
  predicate SameOrigin(realTpm: bool, a: Grant, b: Grant) {
    && a.manifestDigest == b.manifestDigest && a.brokerPolicy == b.brokerPolicy
    && (realTpm ==> a.akChain == b.akChain && a.attest != b.attest && a.signature != b.signature)
  }

  ghost predicate Granted(x: Setting, realTpm: bool, vs: seq<Validated>) {
    && (forall i :: 0 <= i < |vs| ==> GrantShown(x, vs[i]))
    && (forall i, j :: 0 <= i < j < |vs| ==> SameOrigin(realTpm, vs[i].prepared.grant, vs[j].prepared.grant))
  }

  /** What is known of one case of the finished run. */
  ghost predicate CaseKnown(x: Setting, vs: seq<Validated>, cases: seq<CaseObservation>, i: nat)
    requires i < |vs| == |cases|
  {
    Genuine(x, vs[i]) && GrantShown(x, vs[i]) && CaseFacts(x, vs[i], Score(vs, i), Score(vs, i + 1), cases[i])
  }

  ghost predicate KnownApart(realTpm: bool, a: Validated, b: Validated) {
    Unrelated(a, b) && SameOrigin(realTpm, a.prepared.grant, b.prepared.grant)
  }

  /** No two recorded attempts carry one receipt. */
  ghost predicate ReceiptsApart(attempts: seq<Attempt>) {
    forall p, q :: 0 <= p < q < |attempts| ==> ResourceReceiptId(attempts[p]) != ResourceReceiptId(attempts[q])
  }

  /** The finished run as recorded: everything the acceptance proof relies on. */
  ghost predicate Finished(x: Setting, vs: seq<Validated>, realTpm: bool, cases: seq<CaseObservation>) {
    && x.Ok() && LabNames(x) && Matrix(vs) && |cases| == |vs|
    && (forall i :: 0 <= i < |vs| ==> CaseKnown(x, vs, cases, i))
    && (forall i, j :: 0 <= i < j < |vs| ==> KnownApart(realTpm, vs[i], vs[j]))
    && ReceiptsApart(Flat(cases))
  }

  /** The honest run gives all of it. */
  lemma FinishedFrom(x: Setting, s0: State, vs: seq<Validated>, scheds: seq<Schedule>, realTpm: bool, s: State, cases: seq<CaseObservation>)
    requires Told(x, s0, vs, s, cases, |vs|)
    requires HonestStart(x, s0, vs, scheds) && Matrix(vs) && LabNames(x) && Granted(x, realTpm, vs)
    ensures Finished(x, vs, realTpm, cases)
  {
    hide HonestStart, Told, Genuine, GrantShown, Matrix, LabNames, SameOrigin, Unrelated, CaseFacts, ReceiptsApart, Flat, Score;
    ToldCases(x, s0, vs, s, cases);
    forall i | 0 <= i < |vs|
      ensures CaseKnown(x, vs, cases, i)
    {
      StartAt(x, s0, vs, scheds, i);
    }
    forall i, j | 0 <= i < j < |vs|
      ensures KnownApart(realTpm, vs[i], vs[j])
    {
      StartAt(x, s0, vs, scheds, j);
    }
    if vs != [] { StartAt(x, s0, vs, scheds, 0); }
    assert vs != [] by { MatrixLength(vs); }
    ToldReceipts(x, s0, vs, s, cases);
  }

  lemma MatrixLength(vs: seq<Validated>)
    requires Matrix(vs)
    ensures |vs| == 7
  {
  }

  lemma ToldCases(x: Setting, s0: State, vs: seq<Validated>, s: State, cases: seq<CaseObservation>)
    requires Told(x, s0, vs, s, cases, |vs|)
    ensures |cases| == |vs| && forall i :: 0 <= i < |vs| ==> CaseFacts(x, vs[i], Score(vs, i), Score(vs, i + 1), cases[i])
  {
    hide Inv, CaseFacts, Aligned, Flat, Score, Offset, Waiting;
  }

  /** Attempts are answers of different calls, and different answers carry different receipts. */
  lemma ToldReceipts(x: Setting, s0: State, vs: seq<Validated>, s: State, cases: seq<CaseObservation>)
    requires Told(x, s0, vs, s, cases, |vs|)
    ensures ReceiptsApart(Flat(cases))
  {
    hide CaseFacts, Waiting, RedeemsInv, IssuesInv, LogInv, CountInv, Flat, Offset, Score;
    var n, all := |s0.redeems|, Flat(cases);
    forall p, q | 0 <= p < q < |all|
      ensures ResourceReceiptId(all[p]) != ResourceReceiptId(all[q])
    {
      assert AnswerFrom(s.redeems[n + p], all[p]) && AnswerFrom(s.redeems[n + q], all[q]);
    }
  }

  function RecordOf(x: Setting, observedAt: int, realTpm: bool, cases: seq<CaseObservation>): Record {
    BuildRecord(x.t, observedAt, realTpm, realTpm, x.t.expected.image, cases)
  }

  // ---- What is known of each case and attempt ----

  lemma CaseAt(x: Setting, vs: seq<Validated>, realTpm: bool, cases: seq<CaseObservation>, i: nat)
    requires Finished(x, vs, realTpm, cases) && i < |vs|
    ensures |cases| == |vs| && x.Ok() && LabNames(x) && CaseKnown(x, vs, cases, i)
    ensures Genuine(x, vs[i]) && GrantShown(x, vs[i])
    ensures CaseFacts(x, vs[i], Score(vs, i), Score(vs, i + 1), cases[i])
  {
    hide Genuine, GrantShown, Matrix, CaseFacts, Flat, Score, LabNames, ReceiptsApart, KnownApart;
    assert CaseKnown(x, vs, cases, i);
  }

  lemma CasesApart(x: Setting, vs: seq<Validated>, realTpm: bool, cases: seq<CaseObservation>, i: nat, j: nat)
    requires Finished(x, vs, realTpm, cases) && i < j < |vs|
    ensures Unrelated(vs[i], vs[j]) && SameOrigin(realTpm, vs[i].prepared.grant, vs[j].prepared.grant)
  {
    hide CaseKnown, Matrix, LabNames, SameOrigin, Unrelated, ReceiptsApart, Flat;
    assert KnownApart(realTpm, vs[i], vs[j]);
  }

  /** The grant's receipt, field by field. */
  lemma GrantFields(x: Setting, v: Validated, low: int, high: int, c: CaseObservation)
    requires Genuine(x, v) && CaseFacts(x, v, low, high, c)
    ensures var g := v.prepared.grant;
            && Verifies(x.t.brokerVerifier, c.brokerReceipt) && BrokerClaims(c) == GrantClaims(v) && BrokerJws(c) == g.receipt
            && CredentialOf(c) == Some(CredOf(v).id) && BrokerToken(c) == Some(g.challengeHash)
            && ScopeOf(c) == Some(x.t.cfg.resource.scope) && ManifestOf(c) == Some(g.manifestDigest)
            && BrokerPolicyOf(c) == Some(g.brokerPolicy) && IssuanceOf(c) == Some(g.issuanceRequest)
            && AkChainOf(c) == Some(g.akChain) && AttestOf(c) == Some(g.attest) && QuoteSignatureOf(c) == Some(g.signature)
  {
    hide CaseSemantics, AttemptFacts, ValidPayload, BoundsAccepted, RequestOk, Apart, Shaped, InvocationIds, AllowedIds;
  }

  lemma BrokerReceiptHolds(x: Setting, v: Validated, r: Record)
    requires Genuine(x, v) && GrantShown(x, v) && x.w.lo <= r.observedAt
    ensures BrokerReceiptOk(r, GrantClaims(v))
  {
    hide ValidPayload, RequestOk, Apart, Shaped;
    assert LowerHex(CredOf(v).id);
    hide BoundsAccepted, LowerHex;
  }

  /** The request behind an attempt, and what its receipt therefore says. */
  lemma ReceiptFields(x: Setting, v: Validated, k: nat, reason: Reason, low: int, high: int, a: Attempt)
    requires x.Ok() && Genuine(x, v) && Shaped(v) && k < AttemptsOf(v) && AttemptFacts(x, v, k, reason, low, high, a)
    ensures var p, q := Claims(a.receipt), RequestAt(v, k);
            && Verifies(x.t.resourceVerifier, a.receipt)
            && ToolOf(a) == Some(x.t.cfg.resource.tool) && AudienceOf(a) == Some(x.t.cfg.resource.audience)
            && ResourcePolicyOf(a) == Some(x.t.cfg.resource.Digest())
            && ChallengeOf(a) == (if v.prepared.variant == Malformed then None else Some(TokenHash(q.challenge)))
            && RecordIdOf(a) == Some(Plain(q.recordId)) && ArgumentsOf(a) == Some(ArgumentsDigest(q.sku))
            && low <= SnapshotOf(a) <= high && (reason == ALLOW ==> SnapshotOf(a) == high && a.allowed)
  {
    LookupAt(x, v, k);
    hide Genuine, RequestDigest, ResponseDigest, ProofDigest, ConsistentInventory, ConsistentBroker, AllLookups;
  }

  lemma ResourceReceiptHolds(x: Setting, v: Validated, k: nat, low: int, high: int, a: Attempt, r: Record)
    requires x.Ok() && Genuine(x, v) && GrantShown(x, v) && Shaped(v) && k < AttemptsOf(v)
    requires AttemptFacts(x, v, k, a.reason, low, high, a) && x.w.hi <= r.observedAt
    ensures ResourceReceiptOk(r, v.prepared.variant, GrantClaims(v), a, Claims(a.receipt))
  {
    hide Genuine, GrantShown, RequestDigest, ResponseDigest, ProofDigest, ValidPayload, AllLookups, GrantClaims;
    LookupAt(x, v, k);
    GrantNames(x, v);
  }

  lemma GrantNames(x: Setting, v: Validated)
    requires Genuine(x, v) && GrantShown(x, v)
    ensures GrantClaims(v).credentialId == Some(CredOf(v).id) && GrantClaims(v).scope == Some(x.t.cfg.resource.scope)
    ensures GrantClaims(v).decidedAt <= x.w.lo
  {
    hide BoundsAccepted, RequestOk, Apart, ValidPayload, LowerHex, LabelledHex;
  }

  // ---- Each case is accepted ----

  lemma BrokerAcceptedAt(x: Setting, vs: seq<Validated>, realTpm: bool, cases: seq<CaseObservation>, observedAt: int, i: nat)
    requires Finished(x, vs, realTpm, cases) && i < |vs| && x.w.hi <= observedAt
    ensures |cases| == |vs| && BrokerAccepted(RecordOf(x, observedAt, realTpm, cases), i)
  {
    hide Finished, Genuine, GrantShown, CaseFacts, Verifies, BrokerReceiptOk, Flat, Score, Image, Unrelated,
      BrokerJws, BrokerReceiptId, CredentialOf, BrokerToken, BrokerClaims;
    var r := RecordOf(x, observedAt, realTpm, cases);
    CaseAt(x, vs, realTpm, cases, i);
    GrantFields(x, vs[i], Score(vs, i), Score(vs, i + 1), cases[i]);
    BrokerReceiptHolds(x, vs[i], r);
    forall k | 0 <= k < i
      ensures BrokerDiffers(cases[k], cases[i])
    {
      CaseAt(x, vs, realTpm, cases, k);
      GrantFields(x, vs[k], Score(vs, k), Score(vs, k + 1), cases[k]);
      CasesApart(x, vs, realTpm, cases, k, i);
      BrokerDiffersFrom(x, vs[k], vs[i], cases[k], cases[i]);
    }
    FreshFrom(cases, i);
  }

  predicate BrokerDiffers(a: CaseObservation, b: CaseObservation) {
    && BrokerJws(a) != BrokerJws(b) && BrokerReceiptId(a) != BrokerReceiptId(b)
    && CredentialOf(a) != CredentialOf(b) && BrokerToken(a) != BrokerToken(b)
  }

  lemma BrokerDiffersFrom(x: Setting, u: Validated, v: Validated, a: CaseObservation, b: CaseObservation)
    requires Unrelated(u, v)
    requires BrokerClaims(a) == GrantClaims(u) && BrokerJws(a) == u.prepared.grant.receipt
    requires BrokerClaims(b) == GrantClaims(v) && BrokerJws(b) == v.prepared.grant.receipt
    requires CredentialOf(a) == Some(CredOf(u).id) && BrokerToken(a) == Some(u.prepared.grant.challengeHash)
    requires CredentialOf(b) == Some(CredOf(v).id) && BrokerToken(b) == Some(v.prepared.grant.challengeHash)
    ensures BrokerDiffers(a, b)
  {
  }

  lemma FreshFrom(cases: seq<CaseObservation>, i: nat)
    requires i < |cases| && forall k :: 0 <= k < i ==> BrokerDiffers(cases[k], cases[i])
    ensures BrokerFresh(cases, i)
  {
    hide BrokerJws, BrokerReceiptId, CredentialOf, BrokerToken;
    assert forall k :: 0 <= k < i ==> cases[..i][k] == cases[k] && BrokerDiffers(cases[k], cases[i]);
  }

  lemma {:induction false} FlatPrefix(cases: seq<CaseObservation>, i: nat)
    requires i <= |cases|
    ensures Flat(cases[..i]) <= Flat(cases)
    decreases |cases| - i
  {
    if i < |cases| {
      FlatPrefix(cases, i + 1);
      assert cases[..i + 1][..i] == cases[..i];
    } else {
      assert cases[..i] == cases;
    }
  }

  /** What precedes an attempt is the flattened list up to its position. */
  lemma BeforeIsPrefix(cases: seq<CaseObservation>, i: nat, j: nat)
    requires i < |cases| && j < |cases[i].attempts|
    ensures Position(cases, i, j) < |Flat(cases)| && Before(cases, i, j) == Flat(cases)[..Position(cases, i, j)]
  {
    FlatAt(cases, i, j);
    FlatPrefix(cases, i + 1);
    assert cases[..i + 1][..i] == cases[..i];
    assert Flat(cases[..i + 1]) == Flat(cases[..i]) + cases[i].attempts;
    hide Flat;
    var all, mine := Flat(cases), Flat(cases[..i]);
    assert all[..|mine| + j] == (mine + cases[i].attempts)[..|mine| + j] == mine + cases[i].attempts[..j];
  }

  lemma AttemptFresh(cases: seq<CaseObservation>, i: nat, j: nat)
    requires ReceiptsApart(Flat(cases)) && i < |cases| && j < |cases[i].attempts|
    ensures cases[i].attempts[j].receipt !in Image(ResourceJws, Before(cases, i, j))
    ensures ResourceReceiptId(cases[i].attempts[j]) !in Image(ResourceReceiptId, Before(cases, i, j))
  {
    hide Flat;
    FlatAt(cases, i, j);
    BeforeIsPrefix(cases, i, j);
    var q, before := Position(cases, i, j), Before(cases, i, j);
    forall p | 0 <= p < |before|
      ensures ResourceReceiptId(before[p]) != ResourceReceiptId(cases[i].attempts[j])
      ensures ResourceJws(before[p]) != cases[i].attempts[j].receipt
    {
      assert before[p] == Flat(cases)[p];
    }
  }

  lemma AttemptAcceptedAt(x: Setting, vs: seq<Validated>, realTpm: bool, cases: seq<CaseObservation>, observedAt: int, i: nat, j: nat)
    requires Finished(x, vs, realTpm, cases) && i < |vs| == |cases| && j < |cases[i].attempts| && x.w.hi <= observedAt
    ensures AttemptAccepted(RecordOf(x, observedAt, realTpm, cases), i, j)
  {
    hide Genuine, GrantShown, CaseFacts, AttemptFacts, Verifies, ResourceReceiptOk, Flat, Score, Image, Matrix, KnownApart,
      CaseKnown, ReceiptsApart, LabNames, BrokerClaims, Before;
    var r := RecordOf(x, observedAt, realTpm, cases);
    CaseAt(x, vs, realTpm, cases, i);
    GrantFields(x, vs[i], Score(vs, i), Score(vs, i + 1), cases[i]);
    AttemptAt(x, vs[i], Score(vs, i), Score(vs, i + 1), cases[i], j);
    ReceiptFields(x, vs[i], j, cases[i].attempts[j].reason, Score(vs, i), Score(vs, i + 1), cases[i].attempts[j]);
    ResourceReceiptHolds(x, vs[i], j, Score(vs, i), Score(vs, i + 1), cases[i].attempts[j], r);
    AttemptFresh(cases, i, j);
  }

  lemma AttemptAt(x: Setting, v: Validated, low: int, high: int, c: CaseObservation, j: nat)
    requires CaseFacts(x, v, low, high, c) && j < |c.attempts|
    ensures Shaped(v) && |c.attempts| == AttemptsOf(v) && c.variant == v.prepared.variant
    ensures AttemptFacts(x, v, j, c.attempts[j].reason, low, high, c.attempts[j])
  {
    hide CaseSemantics, AttemptFacts, InvocationIds, AllowedIds;
  }

  /** The receipts of one case tell its story; its execution number is the counter it reached. */
  lemma StoryHolds(x: Setting, v: Validated, low: int, high: int, c: CaseObservation)
    requires x.Ok() && Genuine(x, v) && CaseFacts(x, v, low, high, c)
    requires v.prepared.variant == Valid ==> high == 1
    requires v.prepared.variant == Replay ==> high == 2
    requires v.prepared.variant == Concurrent ==> high == 3
    ensures StoryOk(c)
  {
    StoryShape(x, v, low, high, c);
    hide Genuine, AttemptFacts, Image, CaseSemantics;
    if v.prepared.variant == Concurrent {
      RaceStory(x, v, low, high, c);
    } else if v.prepared.variant == Replay {
      ReplayStory(x, v, low, high, c);
    }
  }

  lemma StoryShape(x: Setting, v: Validated, low: int, high: int, c: CaseObservation)
    requires CaseFacts(x, v, low, high, c)
    ensures c.attempts != [] && c.variant == v.prepared.variant && |c.attempts| == AttemptsOf(v)
    ensures AllowVariant(v.prepared.variant) ==> AllowedIds(c.attempts) == [Some(high)]
  {
    hide CaseSemantics, AttemptFacts, InvocationIds, AllowedIds;
  }

  lemma RaceStory(x: Setting, v: Validated, low: int, high: int, c: CaseObservation)
    requires x.Ok() && Genuine(x, v) && CaseFacts(x, v, low, high, c) && v.prepared.variant == Concurrent && c.attempts != []
    ensures |Image(ChallengeOf, c.attempts)| == |c.attempts| && |Image(RecordIdOf, c.attempts)| == |c.attempts|
    ensures |Image(ArgumentsOf, c.attempts)| == 1
  {
    hide Genuine, CaseFacts, AttemptFacts, Image, ChallengeOf, RecordIdOf, ArgumentsOf, DifferentCall;
    forall i, j | 0 <= i < j < |c.attempts|
      ensures ChallengeOf(c.attempts[i]) != ChallengeOf(c.attempts[j]) && RecordIdOf(c.attempts[i]) != RecordIdOf(c.attempts[j])
      ensures ArgumentsOf(c.attempts[i]) == ArgumentsOf(c.attempts[j])
    {
      AttemptAt(x, v, low, high, c, i);
      AttemptAt(x, v, low, high, c, j);
      var reasons := seq(|c.attempts|, k requires 0 <= k < |c.attempts| => c.attempts[k].reason);
      DifferentMarks(x, v, reasons, low, high, c.attempts, i, j);
    }
    InjectiveImage(ChallengeOf, c.attempts);
    InjectiveImage(RecordIdOf, c.attempts);
    ConstantImage(ArgumentsOf, c.attempts, ArgumentsOf(c.attempts[0]));
  }

  lemma ReplayStory(x: Setting, v: Validated, low: int, high: int, c: CaseObservation)
    requires x.Ok() && Genuine(x, v) && CaseFacts(x, v, low, high, c) && v.prepared.variant == Replay
    ensures |Image(ChallengeOf, c.attempts)| == |Image(RecordIdOf, c.attempts)| == |Image(ArgumentsOf, c.attempts)| == 1
    ensures Sorted(Mapped(DecidedAtOf, c.attempts)) && Sorted(Mapped(SnapshotOf, c.attempts))
  {
    hide Genuine, CaseFacts, AttemptFacts, Image, ChallengeOf, RecordIdOf, ArgumentsOf, DecidedAtOf, SnapshotOf;
    ReplayShape(x, v, low, high, c);
    ReplayPair(x, v, low, high, c);
    ConstantImage(ChallengeOf, c.attempts, ChallengeOf(c.attempts[0]));
    ConstantImage(RecordIdOf, c.attempts, RecordIdOf(c.attempts[0]));
    ConstantImage(ArgumentsOf, c.attempts, ArgumentsOf(c.attempts[0]));
  }

  lemma ReplayPair(x: Setting, v: Validated, low: int, high: int, c: CaseObservation)
    requires x.Ok() && Genuine(x, v) && CaseFacts(x, v, low, high, c) && v.prepared.variant == Replay && |c.attempts| == 2
    ensures ChallengeOf(c.attempts[0]) == ChallengeOf(c.attempts[1]) && RecordIdOf(c.attempts[0]) == RecordIdOf(c.attempts[1])
    ensures ArgumentsOf(c.attempts[0]) == ArgumentsOf(c.attempts[1])
  {
    hide Genuine, CaseFacts, AttemptFacts;
    AttemptAt(x, v, low, high, c, 0);
    AttemptAt(x, v, low, high, c, 1);
    ReceiptFields(x, v, 0, c.attempts[0].reason, low, high, c.attempts[0]);
    ReceiptFields(x, v, 1, c.attempts[1].reason, low, high, c.attempts[1]);
    hide ChallengeOf, RecordIdOf, ArgumentsOf, Verifies, ToolOf, AudienceOf, ResourcePolicyOf, SnapshotOf;
  }

  lemma ReplayShape(x: Setting, v: Validated, low: int, high: int, c: CaseObservation)
    requires CaseFacts(x, v, low, high, c) && v.prepared.variant == Replay
    ensures |c.attempts| == 2 && DecidedAtOf(c.attempts[0]) <= DecidedAtOf(c.attempts[1])
    ensures SnapshotOf(c.attempts[0]) <= SnapshotOf(c.attempts[1])
  {
    hide CaseSemantics, AttemptFacts, InvocationIds, AllowedIds;
  }

  lemma CaseAcceptedAt(x: Setting, vs: seq<Validated>, realTpm: bool, cases: seq<CaseObservation>, observedAt: int, i: nat)
    requires Finished(x, vs, realTpm, cases) && i < |vs| == |cases| && x.w.hi <= observedAt
    ensures CaseAccepted(RecordOf(x, observedAt, realTpm, cases), i)
  {
    hide Finished, BrokerAccepted, AttemptAccepted, StoryOk, Flat, Score, CaseFacts, Genuine, GrantShown;
    BrokerAcceptedAt(x, vs, realTpm, cases, observedAt, i);
    forall j | 0 <= j < |cases[i].attempts|
      ensures AttemptAccepted(RecordOf(x, observedAt, realTpm, cases), i, j)
    {
      AttemptAcceptedAt(x, vs, realTpm, cases, observedAt, i, j);
    }
    CaseAt(x, vs, realTpm, cases, i);
    FinishedMatrix(x, vs, realTpm, cases);
    ScoreAt(vs, i);
    StoryHolds(x, vs[i], Score(vs, i), Score(vs, i + 1), cases[i]);
  }

  lemma ScoreAt(vs: seq<Validated>, i: nat)
    requires Matrix(vs) && i < |vs|
    ensures vs[i].prepared.variant == Valid ==> Score(vs, i + 1) == 1
    ensures vs[i].prepared.variant == Replay ==> Score(vs, i + 1) == 2
    ensures vs[i].prepared.variant == Concurrent ==> Score(vs, i + 1) == 3
    ensures 0 <= Score(vs, i) <= Score(vs, i + 1) <= 3 == Score(vs, |vs|)
  {
    hide Matrix, Score;
    var a, b, c := MatrixTurns(vs);
    ScoreTurns(vs, a, b, c, i);
    ScoreTurns(vs, a, b, c, i + 1);
    ScoreTurns(vs, a, b, c, |vs|);
  }

  lemma FinishedMatrix(x: Setting, vs: seq<Validated>, realTpm: bool, cases: seq<CaseObservation>)
    requires Finished(x, vs, realTpm, cases)
    ensures Matrix(vs) && LabNames(x) && |cases| == |vs| == 7
  {
    hide LabNames, CaseKnown, KnownApart, ReceiptsApart, Image, Flat;
  }
}
