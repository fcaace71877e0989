/** `_verify_embedded_receipts`: the nested loops over cases and attempts, proved to decide
    exactly the declarative predicate `EmbeddedOk`. */
module RecordVerifier {
  import opened Symbols
  import opened Receipt
  import opened Worker
  import opened Wire
  import opened Images

  const ExpectedScope: Term := Plain("mcp://inventoryd/tool/inventory.lookup")
  const ExpectedTool: Term := Plain("inventory.lookup")
  const ExpectedAudience: Term := Plain("inventoryd")

  const BrokerArtifactNames: set<string> :=
    {"broker_policy_sha256", "issuance_request_sha256", "tpm_ak_chain_sha256", "tpm_attest_sha256", "tpm_signature_sha256"}

  /** `ReceiptVerifier.verify` succeeds. */
  predicate Verifies(v: Verifier, j: Jws) {
    j.Compact? && j.keyId == v.keyId && j.key == v.key && ValidPayload(j.claims)
  }

  const NoClaims: Payload :=
    Payload(Plain(""), Broker, Deny, INTERNAL_ERROR, 0, None, None, None, None, None, None, None, None, None, 0, false, NotApplicable, map[])

  /** The claims of a token, with a stand-in for text that is no JWS. */
  function Claims(j: Jws): Payload {
    if j.Compact? then j.claims else NoClaims
  }

  // ---- Projections collected into sets ----

  function BrokerClaims(c: CaseObservation): Payload { Claims(c.brokerReceipt) }
  function BrokerJws(c: CaseObservation): Jws { c.brokerReceipt }
  function BrokerReceiptId(c: CaseObservation): Term { BrokerClaims(c).receiptId }
  function CredentialOf(c: CaseObservation): Option<Term> { BrokerClaims(c).credentialId }
  function BrokerToken(c: CaseObservation): Option<Term> { BrokerClaims(c).tokenHash }
  function ScopeOf(c: CaseObservation): Option<Term> { BrokerClaims(c).scope }
  function ManifestOf(c: CaseObservation): Option<Term> { BrokerClaims(c).manifestDigest }
  function Artifact(c: CaseObservation, name: string): Option<Term> {
    if name in BrokerClaims(c).artifacts then Some(BrokerClaims(c).artifacts[name]) else None
  }
  function BrokerPolicyOf(c: CaseObservation): Option<Term> { Artifact(c, "broker_policy_sha256") }
  function IssuanceOf(c: CaseObservation): Option<Term> { Artifact(c, "issuance_request_sha256") }
  function AkChainOf(c: CaseObservation): Option<Term> { Artifact(c, "tpm_ak_chain_sha256") }
  function AttestOf(c: CaseObservation): Option<Term> { Artifact(c, "tpm_attest_sha256") }
  function QuoteSignatureOf(c: CaseObservation): Option<Term> { Artifact(c, "tpm_signature_sha256") }

  function ResourceJws(a: Attempt): Jws { a.receipt }
  function ResourceReceiptId(a: Attempt): Term { Claims(a.receipt).receiptId }
  function ToolOf(a: Attempt): Option<Term> { Claims(a.receipt).tool }
  function AudienceOf(a: Attempt): Option<Term> { Claims(a.receipt).audience }
  function ResourcePolicyOf(a: Attempt): Option<Term> {
    var p := Claims(a.receipt);
    if "resource_policy_sha256" in p.artifacts then Some(p.artifacts["resource_policy_sha256"]) else None
  }
  function ChallengeOf(a: Attempt): Option<Term> { Claims(a.receipt).tokenHash }
  function RecordIdOf(a: Attempt): Option<Term> { Claims(a.receipt).recordId }
  function ArgumentsOf(a: Attempt): Option<Term> { Claims(a.receipt).argumentsDigest }
  function SnapshotOf(a: Attempt): int { Claims(a.receipt).snapshot }
  function DecidedAtOf(a: Attempt): int { Claims(a.receipt).decidedAt }

  /** The challenge hashes of the attempts that carry one, in order. */
  function Challenges(attempts: seq<Attempt>): seq<Term> {
    if attempts == [] then []
    else
      var last := ChallengeOf(attempts[|attempts| - 1]);
      Challenges(attempts[..|attempts| - 1]) + (if last.Some? then [last.value] else [])
  }

  // ---- What is required of each receipt ----

  /** A broker receipt that grants this case its credential. */
  predicate BrokerReceiptOk(r: Record, b: Payload) {
    && b.service == Broker && b.decision == Allow && b.reason == ALLOW
    && b.credentialId.Some? && b.scope.Some? && b.tokenHash.Some? && b.manifestDigest.Some?
    && b.decidedAt <= r.observedAt
    && b.artifacts.Keys == BrokerArtifactNames
    && LowerHex(b.credentialId.value) && LowerHex(b.tokenHash.value)
    && (forall name :: name in b.artifacts ==> LowerHex(b.artifacts[name]))
    && LabelledHex(b.manifestDigest.value)
    && b.tool.None? && b.audience.None? && b.argumentsDigest.None? && b.recordId.None?
  }

  /** A resource receipt that says what the attempt says, about the case's own credential. */
  predicate ResourceReceiptOk(r: Record, v: Variant, b: Payload, a: Attempt, p: Payload) {
    && p.service == Inventory
    && p.decision == (if a.allowed then Allow else Deny)
    && p.reason == a.reason
    && p.credentialId == b.credentialId && p.scope == b.scope
    && p.tool.Some? && p.audience.Some? && p.argumentsDigest.Some? && p.recordId.Some?
    && p.manifestDigest.None?
    && b.decidedAt <= p.decidedAt <= r.observedAt
    && p.handlerInvoked == a.handlerInvoked && p.businessResult == a.businessResult && p.invocationId == a.invocationId
    && p.artifacts.Keys == {"resource_policy_sha256"} && LowerHex(p.artifacts["resource_policy_sha256"])
    && LowerHex(p.argumentsDigest.value)
    && if v == Malformed then p.tokenHash.None? else p.tokenHash.Some? && LowerHex(p.tokenHash.value)
  }

  predicate BrokerFresh(cases: seq<CaseObservation>, i: nat)
    requires i < |cases|
  {
    var before, c := cases[..i], cases[i];
    && BrokerJws(c) !in Image(BrokerJws, before)
    && BrokerReceiptId(c) !in Image(BrokerReceiptId, before)
    && CredentialOf(c) !in Image(CredentialOf, before)
    && BrokerToken(c) !in Image(BrokerToken, before)
  }

  predicate BrokerAccepted(r: Record, i: nat)
    requires i < |r.cases|
  {
    && Verifies(r.brokerVerifier, r.cases[i].brokerReceipt)
    && BrokerReceiptOk(r, BrokerClaims(r.cases[i]))
    && BrokerFresh(r.cases, i)
  }

  function Before(cases: seq<CaseObservation>, i: nat, j: nat): seq<Attempt>
    requires i < |cases| && j <= |cases[i].attempts|
  {
    Flat(cases[..i]) + cases[i].attempts[..j]
  }

  predicate AttemptAccepted(r: Record, i: nat, j: nat)
    requires i < |r.cases| && j < |r.cases[i].attempts|
  {
    var a := r.cases[i].attempts[j];
    && a.receipt !in Image(ResourceJws, Before(r.cases, i, j))
    && Verifies(r.resourceVerifier, a.receipt)
    && ResourceReceiptId(a) !in Image(ResourceReceiptId, Before(r.cases, i, j))
    && ResourceReceiptOk(r, r.cases[i].variant, BrokerClaims(r.cases[i]), a, Claims(a.receipt))
  }

  predicate Sorted(xs: seq<int>) {
    forall i :: 0 < i < |xs| ==> xs[i - 1] <= xs[i]
  }

  function Mapped<T>(f: Attempt -> T, attempts: seq<Attempt>): seq<T> {
    seq(|attempts|, k requires 0 <= k < |attempts| => f(attempts[k]))
  }

  function AllowedIds(attempts: seq<Attempt>): seq<Option<int>> {
    if attempts == [] then []
    else
      var last := attempts[|attempts| - 1];
      AllowedIds(attempts[..|attempts| - 1]) + (if last.allowed then [last.invocationId] else [])
  }

  /** The case's receipts, taken together, tell the story of its variant. */
  predicate StoryOk(c: CaseObservation) {
    && (c.variant == Replay ==>
          && |Image(ChallengeOf, c.attempts)| == 1
          && |Image(RecordIdOf, c.attempts)| == 1
          && |Image(ArgumentsOf, c.attempts)| == 1
          && Sorted(Mapped(DecidedAtOf, c.attempts)) && Sorted(Mapped(SnapshotOf, c.attempts)))
    && (c.variant == Concurrent ==>
          && |Image(ChallengeOf, c.attempts)| == |c.attempts|
          && |Image(RecordIdOf, c.attempts)| == |c.attempts|
          && |Image(ArgumentsOf, c.attempts)| == 1)
    && (c.variant == Valid ==> AllowedIds(c.attempts) == [Some(1)])
    && (c.variant == Replay ==> AllowedIds(c.attempts) == [Some(2)])
    && (c.variant == Concurrent ==> AllowedIds(c.attempts) == [Some(3)])
  }

  predicate CaseAccepted(r: Record, i: nat)
    requires i < |r.cases|
  {
    && BrokerAccepted(r, i)
    && (forall j :: 0 <= j < |r.cases[i].attempts| ==> AttemptAccepted(r, i, j))
    && StoryOk(r.cases[i])
  }

  /** The replayed challenge, as the loop last recorded it. */
  function ReplayHash(cases: seq<CaseObservation>): Option<Term> {
    if cases == [] then None
    else
      var last := cases[|cases| - 1];
      if last.variant == Replay && last.attempts != [] then ChallengeOf(last.attempts[0]) else ReplayHash(cases[..|cases| - 1])
  }

  /** The receipts as a whole agree with each other and with the record. */
  predicate GlobalOk(r: Record) {
    var all := Flat(r.cases);
    && Image(ScopeOf, r.cases) == {Some(ExpectedScope)}
    && Image(ToolOf, all) == {Some(ExpectedTool)}
    && Image(AudienceOf, all) == {Some(ExpectedAudience)}
    && |Image(ManifestOf, r.cases)| == 1
    && |Image(BrokerPolicyOf, r.cases)| == 1
    && |Image(ResourcePolicyOf, all)| == 1
    && |Image(IssuanceOf, r.cases)| == |r.cases|
    && (r.realTpm ==>
          && |Image(AkChainOf, r.cases)| == 1
          && |Image(AttestOf, r.cases)| == |r.cases|
          && |Image(QuoteSignatureOf, r.cases)| == |r.cases|)
    && all != []
    && (forall k :: 0 <= k < |all| ==> SnapshotOf(all[k]) <= r.invocationCount)
    && (exists k :: 0 <= k < |all| && SnapshotOf(all[k]) == r.invocationCount)
    && var counts := multiset(Challenges(all));
    && ReplayHash(r.cases).Some?
    && var h := ReplayHash(r.cases).value;
    && counts[h] == 2
    && (forall x :: x in counts ==> counts[x] == if x == h then 2 else 1)
  }

  ghost predicate EmbeddedOk(r: Record) {
    && (forall i :: 0 <= i < |r.cases| ==> CaseAccepted(r, i))
    && GlobalOk(r)
  }

  // ---- The loops ----

  /** The sets the verifier fills from broker receipts. */
  datatype BrokerLedger = BrokerLedger(
    jws: set<Jws>, receiptIds: set<Term>, credentials: set<Option<Term>>, tokens: set<Option<Term>>,
    scopes: set<Option<Term>>, manifests: set<Option<Term>>, policies: set<Option<Term>>,
    issuances: set<Option<Term>>, attests: set<Option<Term>>, signatures: set<Option<Term>>, chains: set<Option<Term>>)
  {
    function Add(c: CaseObservation): BrokerLedger {
      BrokerLedger(
        jws + {BrokerJws(c)}, receiptIds + {BrokerReceiptId(c)}, credentials + {CredentialOf(c)}, tokens + {BrokerToken(c)},
        scopes + {ScopeOf(c)}, manifests + {ManifestOf(c)}, policies + {BrokerPolicyOf(c)},
        issuances + {IssuanceOf(c)}, attests + {AttestOf(c)}, signatures + {QuoteSignatureOf(c)}, chains + {AkChainOf(c)})
    }
  }

  /** The sets and lists it fills from resource receipts. */
  datatype ResourceLedger = ResourceLedger(
    jws: set<Jws>, receiptIds: set<Term>, tools: set<Option<Term>>, audiences: set<Option<Term>>,
    policies: set<Option<Term>>, snapshots: seq<int>, challenges: seq<Term>)
  {
    function Add(a: Attempt): ResourceLedger {
      ResourceLedger(
        jws + {ResourceJws(a)}, receiptIds + {ResourceReceiptId(a)}, tools + {ToolOf(a)}, audiences + {AudienceOf(a)},
        policies + {ResourcePolicyOf(a)}, snapshots + [SnapshotOf(a)],
        challenges + (if ChallengeOf(a).Some? then [ChallengeOf(a).value] else []))
    }
  }

  function BrokerLedgerOf(cases: seq<CaseObservation>): BrokerLedger {
    BrokerLedger(
      Image(BrokerJws, cases), Image(BrokerReceiptId, cases), Image(CredentialOf, cases), Image(BrokerToken, cases),
      Image(ScopeOf, cases), Image(ManifestOf, cases), Image(BrokerPolicyOf, cases),
      Image(IssuanceOf, cases), Image(AttestOf, cases), Image(QuoteSignatureOf, cases), Image(AkChainOf, cases))
  }

  function ResourceLedgerOf(attempts: seq<Attempt>): ResourceLedger {
    ResourceLedger(
      Image(ResourceJws, attempts), Image(ResourceReceiptId, attempts), Image(ToolOf, attempts), Image(AudienceOf, attempts),
      Image(ResourcePolicyOf, attempts), Mapped(SnapshotOf, attempts), Challenges(attempts))
  }

  lemma BrokerLedgerAppend(cases: seq<CaseObservation>, c: CaseObservation)
    ensures BrokerLedgerOf(cases + [c]) == BrokerLedgerOf(cases).Add(c)
  {
    ImageAppend(BrokerJws, cases, c);
    ImageAppend(BrokerReceiptId, cases, c);
    ImageAppend(CredentialOf, cases, c);
    ImageAppend(BrokerToken, cases, c);
    ImageAppend(ScopeOf, cases, c);
    ImageAppend(ManifestOf, cases, c);
    ImageAppend(BrokerPolicyOf, cases, c);
    ImageAppend(IssuanceOf, cases, c);
    ImageAppend(AttestOf, cases, c);
    ImageAppend(QuoteSignatureOf, cases, c);
    ImageAppend(AkChainOf, cases, c);
    hide Image;
  }

  lemma ResourceLedgerAppend(attempts: seq<Attempt>, a: Attempt)
    ensures ResourceLedgerOf(attempts + [a]) == ResourceLedgerOf(attempts).Add(a)
  {
    ImageAppend(ResourceJws, attempts, a);
    ImageAppend(ResourceReceiptId, attempts, a);
    ImageAppend(ToolOf, attempts, a);
    ImageAppend(AudienceOf, attempts, a);
    ImageAppend(ResourcePolicyOf, attempts, a);
    assert (attempts + [a])[..|attempts|] == attempts;
    assert Mapped(SnapshotOf, attempts + [a]) == Mapped(SnapshotOf, attempts) + [SnapshotOf(a)];
    hide Image;
  }

  /** The inner loop: every attempt of one case. */
  method ScanAttempts(r: Record, i: nat, ledger: ResourceLedger) returns (ok: bool, out: ResourceLedger)
    requires i < |r.cases| && ledger == ResourceLedgerOf(Flat(r.cases[..i]))
    ensures ok <==> forall j :: 0 <= j < |r.cases[i].attempts| ==> AttemptAccepted(r, i, j)
    ensures ok ==> out == ResourceLedgerOf(Flat(r.cases[..i + 1]))
  {
    hide Image, Challenges, ResourceReceiptOk, Verifies, ResourceLedgerOf;
    out := ledger;
    var c := r.cases[i];
    assert Flat(r.cases[..i]) + c.attempts[..0] == Flat(r.cases[..i]);
    for j := 0 to |c.attempts|
      invariant forall k :: 0 <= k < j ==> AttemptAccepted(r, i, k)
      invariant out == ResourceLedgerOf(Before(r.cases, i, j))
    {
      var a := c.attempts[j];
      LedgerSets(Before(r.cases, i, j));
      if a.receipt in out.jws
         || !Verifies(r.resourceVerifier, a.receipt)
         || ResourceReceiptId(a) in out.receiptIds
         || !ResourceReceiptOk(r, c.variant, BrokerClaims(c), a, Claims(a.receipt)) {
        assert !AttemptAccepted(r, i, j);
        return false, out;
      }
      out := out.Add(a);
      assert Before(r.cases, i, j) + [a] == Before(r.cases, i, j + 1);
      ResourceLedgerAppend(Before(r.cases, i, j), a);
    }
    assert r.cases[..i + 1][..i] == r.cases[..i];
    assert c.attempts[..|c.attempts|] == c.attempts;
    ok := true;
  }

  lemma LedgerSets(attempts: seq<Attempt>)
    ensures ResourceLedgerOf(attempts).jws == Image(ResourceJws, attempts)
    ensures ResourceLedgerOf(attempts).receiptIds == Image(ResourceReceiptId, attempts)
  {
  }

  lemma BrokerLedgerSets(cases: seq<CaseObservation>)
    ensures BrokerLedgerOf(cases).jws == Image(BrokerJws, cases)
    ensures BrokerLedgerOf(cases).receiptIds == Image(BrokerReceiptId, cases)
    ensures BrokerLedgerOf(cases).credentials == Image(CredentialOf, cases)
    ensures BrokerLedgerOf(cases).tokens == Image(BrokerToken, cases)
  {
  }

  /** The final comparisons over the filled ledgers. */
  predicate LedgersOk(r: Record, b: BrokerLedger, v: ResourceLedger, replay: Option<Term>) {
    && b.scopes == {Some(ExpectedScope)}
    && v.tools == {Some(ExpectedTool)}
    && v.audiences == {Some(ExpectedAudience)}
    && |b.manifests| == 1 && |b.policies| == 1 && |v.policies| == 1
    && |b.issuances| == |r.cases|
    && (r.realTpm ==> |b.chains| == 1 && |b.attests| == |r.cases| && |b.signatures| == |r.cases|)
    && v.snapshots != []
    && (forall k :: 0 <= k < |v.snapshots| ==> v.snapshots[k] <= r.invocationCount)
    && (exists k :: 0 <= k < |v.snapshots| && v.snapshots[k] == r.invocationCount)
    && replay.Some?
    && var counts := multiset(v.challenges);
    && counts[replay.value] == 2
    && (forall x :: x in counts ==> counts[x] == if x == replay.value then 2 else 1)
  }

  lemma LedgersDecide(r: Record)
    ensures LedgersOk(r, BrokerLedgerOf(r.cases), ResourceLedgerOf(Flat(r.cases)), ReplayHash(r.cases)) <==> GlobalOk(r)
  {
    hide Image, Challenges, Flat, ReplayHash;
    var all := Flat(r.cases);
    var snaps := Mapped(SnapshotOf, all);
    assert |snaps| == |all| && forall k :: 0 <= k < |all| ==> snaps[k] == SnapshotOf(all[k]);
    if exists k :: 0 <= k < |all| && SnapshotOf(all[k]) == r.invocationCount {
      var k :| 0 <= k < |all| && SnapshotOf(all[k]) == r.invocationCount;
      assert snaps[k] == r.invocationCount;
    }
  }

  /** Re-verify every embedded receipt and the semantics observable from them. */
  method VerifyEmbeddedReceipts(r: Record) returns (ok: bool)
    ensures ok <==> EmbeddedOk(r)
  {
    hide Image, Challenges, BrokerReceiptOk, Verifies, ResourceLedgerOf, BrokerLedgerOf, GlobalOk, AttemptAccepted, StoryOk,
      LedgersOk, Flat, ReplayHash;
    var brokers := BrokerLedger({}, {}, {}, {}, {}, {}, {}, {}, {}, {}, {});
    var resources := ResourceLedger({}, {}, {}, {}, {}, [], []);
    var replay: Option<Term> := None;
    EmptyLedgers(r);
    for i := 0 to |r.cases|
      invariant brokers == BrokerLedgerOf(r.cases[..i])
      invariant resources == ResourceLedgerOf(Flat(r.cases[..i]))
      invariant replay == ReplayHash(r.cases[..i])
      invariant forall k :: 0 <= k < i ==> CaseAccepted(r, k)
    {
      var c := r.cases[i];
      BrokerLedgerSets(r.cases[..i]);
      if !(BrokerJws(c) !in brokers.jws
           && Verifies(r.brokerVerifier, c.brokerReceipt)
           && BrokerReceiptOk(r, BrokerClaims(c))
           && BrokerReceiptId(c) !in brokers.receiptIds
           && CredentialOf(c) !in brokers.credentials
           && BrokerToken(c) !in brokers.tokens) {
        assert !BrokerAccepted(r, i);
        assert !CaseAccepted(r, i);
        return false;
      }
      brokers := brokers.Add(c);
      assert r.cases[..i] + [c] == r.cases[..i + 1];
      BrokerLedgerAppend(r.cases[..i], c);
      var attemptsOk;
      attemptsOk, resources := ScanAttempts(r, i, resources);
      if !attemptsOk || !StoryOk(c) {
        assert !CaseAccepted(r, i);
        return false;
      }
      ReplayAppend(r.cases[..i], c);
      if c.variant == Replay && c.attempts != [] {
        replay := ChallengeOf(c.attempts[0]);
      }
    }
    assert r.cases[..|r.cases|] == r.cases;
    LedgersDecide(r);
    ok := LedgersOk(r, brokers, resources, replay);
  }

  /** `ExperimentRecordVerifier.verify`: the signature under the pinned key, then the payload's own
      validator, then every embedded receipt. */
  method VerifyRecord(v: Verifier, signed: SignedRecord) returns (payload: Option<Record>)
    ensures payload.Some? <==>
      signed.RecordJws? && signed.keyId == v.keyId && signed.key == v.key && RecordSemantics(signed.payload) && EmbeddedOk(signed.payload)
    ensures payload.Some? ==> payload.value == signed.payload
  {
    hide RecordSemantics, EmbeddedOk;
    if signed.NotARecord? || signed.keyId != v.keyId || signed.key != v.key || !RecordSemantics(signed.payload) { return None; }
    var ok := VerifyEmbeddedReceipts(signed.payload);
    payload := if ok then Some(signed.payload) else None;
  }

  lemma ReplayAppend(cases: seq<CaseObservation>, c: CaseObservation)
    ensures ReplayHash(cases + [c]) ==
            if c.variant == Replay && c.attempts != [] then ChallengeOf(c.attempts[0]) else ReplayHash(cases)
  {
    assert (cases + [c])[..|cases|] == cases;
  }

  lemma EmptyLedgers(r: Record)
    ensures ReplayHash(r.cases[..0]) == None
    ensures BrokerLedgerOf(r.cases[..0]) == BrokerLedger({}, {}, {}, {}, {}, {}, {}, {}, {}, {}, {})
    ensures ResourceLedgerOf(Flat(r.cases[..0])) == ResourceLedger({}, {}, {}, {}, {}, [], [])
  {
  }
}
