/** The experiment record: attempts, cases, the signed payload, and its validators. */
module Wire {
  import opened Symbols
  import opened Receipt
  import opened Worker
  import opened Images

  /** A compact JWS: the signing key and the claims, or text that is no JWS at all. */
  datatype Jws = Compact(keyId: string, key: Term, claims: Payload) | NotAJws(text: string)

  datatype Attempt = Attempt(
    runId: string, sequence: int, requestSha: Term, responseSha: Term, proofSha: Term,
    allowed: bool, reason: Reason, receipt: Jws, handlerInvoked: bool,
    businessResult: BusinessResult, invocationId: Option<int>)

  datatype CaseObservation = CaseObservation(
    caseId: string, variant: Variant, brokerReceipt: Jws, workerKey: Term, image: Term, codeDigest: Term,
    metadata: nat, attempts: seq<Attempt>, invocationDelta: int, redemptionCount: int)

  datatype Verifier = Verifier(keyId: string, key: Term)

  datatype Record = Record(
    observedAt: int, realTpm: bool, evidenceVerified: bool, assuranceIncluded: bool,
    workerKey: Term, image: Term, codeDigest: Term, observedImage: Term,
    brokerVerifier: Verifier, resourceVerifier: Verifier,
    brokerCount: int, resourceCount: int, allowedCount: int, deniedCount: int,
    invocationCount: int, redemptionCount: int,
    cases: seq<CaseObservation>)

  /** A record under the controller's signature, or text that is no such thing. */
  datatype SignedRecord = RecordJws(keyId: string, key: Term, payload: Record) | NotARecord(text: string)

  const AllVariants: set<Variant> :=
    {Valid, Replay, ArgumentSubstitution, RecordSubstitution, WrongHolder, Malformed, Concurrent}

  /** One attempt's fields agree with each other. */
  predicate AttemptSemantics(a: Attempt) {
    && 1 <= a.sequence <= 2
    && a.businessResult != NotApplicable
    && (a.invocationId.Some? ==> a.invocationId.value >= 1)
    && if a.allowed
       then a.reason == ALLOW && a.handlerInvoked && a.businessResult == Completed && a.invocationId.Some?
       else a.reason != ALLOW && !a.handlerInvoked && a.businessResult == NotInvoked && a.invocationId.None?
  }

  function Verdicts(attempts: seq<Attempt>): seq<(bool, Reason)> {
    seq(|attempts|, k requires 0 <= k < |attempts| => (attempts[k].allowed, attempts[k].reason))
  }

  /** The verdicts a variant must show. */
  function ExpectedVerdicts(v: Variant, n: nat): seq<(bool, Reason)>
    requires v == Concurrent ==> n >= 1
  {
    match v
    case Valid => [(true, ALLOW)]
    case Replay => [(true, ALLOW), (false, CHALLENGE_CONSUMED)]
    case Concurrent => [(true, ALLOW)] + seq(n - 1, _ => (false, CREDENTIAL_SPENT))
    case _ => [(false, HOLDER_PROOF_INVALID)]
  }

  /** Verdicts compared in order, except in the race, where they are sorted first. */
  predicate VerdictsMatch(v: Variant, n: nat, observed: seq<(bool, Reason)>)
    requires v == Concurrent ==> n >= 1
  {
    if v == Concurrent then multiset(observed) == multiset(ExpectedVerdicts(v, n))
    else observed == ExpectedVerdicts(v, n)
  }

  predicate SameCall(a: Attempt, b: Attempt) {
    a.runId == b.runId && a.requestSha == b.requestSha && a.responseSha == b.responseSha && a.proofSha == b.proofSha
  }

  predicate DifferentCall(a: Attempt, b: Attempt) {
    a.runId != b.runId && a.requestSha != b.requestSha && a.responseSha != b.responseSha && a.proofSha != b.proofSha
  }

  /** A case observation has the shape and the outcome of its variant. */
  predicate CaseSemantics(c: CaseObservation) {
    && 1 <= |c.attempts| <= 65 && 1 <= c.metadata <= 64
    && (forall k :: 0 <= k < |c.attempts| ==> AttemptSemantics(c.attempts[k]))
    && (match c.variant
        case Replay =>
          && |c.attempts| == 2 && c.attempts[0].sequence == 1 && c.attempts[1].sequence == 2
          && SameCall(c.attempts[0], c.attempts[1])
        case Concurrent =>
          && |c.attempts| >= 2
          && (forall k :: 0 <= k < |c.attempts| ==> c.attempts[k].sequence == 1)
          && (forall i, j :: 0 <= i < j < |c.attempts| ==> DifferentCall(c.attempts[i], c.attempts[j]))
        case _ => c.attempts[0].sequence == 1)
    && c.metadata == (if c.variant == Concurrent then |c.attempts| else 1)
    && VerdictsMatch(c.variant, |c.attempts|, Verdicts(c.attempts))
    && c.invocationDelta == (if AllowVariant(c.variant) then 1 else 0)
    && c.redemptionCount == (if AllowVariant(c.variant) then 1 else 0)
  }

  /** All attempts of all cases, in order. */
  function Flat(cases: seq<CaseObservation>): seq<Attempt> {
    if cases == [] then [] else Flat(cases[..|cases| - 1]) + cases[|cases| - 1].attempts
  }

  function Allowed(attempts: seq<Attempt>): nat {
    if attempts == [] then 0
    else Allowed(attempts[..|attempts| - 1]) + (if attempts[|attempts| - 1].allowed then 1 else 0)
  }

  function InvocationIds(attempts: seq<Attempt>): seq<int> {
    if attempts == [] then []
    else
      var last := attempts[|attempts| - 1];
      InvocationIds(attempts[..|attempts| - 1]) + (if last.invocationId.Some? then [last.invocationId.value] else [])
  }

  function SumDeltas(cases: seq<CaseObservation>): int {
    if cases == [] then 0 else SumDeltas(cases[..|cases| - 1]) + cases[|cases| - 1].invocationDelta
  }

  function SumRedemptions(cases: seq<CaseObservation>): int {
    if cases == [] then 0 else SumRedemptions(cases[..|cases| - 1]) + cases[|cases| - 1].redemptionCount
  }

  function VariantOf(c: CaseObservation): Variant {
    c.variant
  }

  /** The case matrix is exactly the seven variants, each once. */
  predicate FullMatrix(cases: seq<CaseObservation>) {
    |cases| == 7 && Image(VariantOf, cases) == AllVariants
  }

  /** The numbers from 1 on, each once, in any order. */
  predicate Numbers(ids: seq<int>) {
    && Distinct(ids)
    && (forall k :: 0 <= k < |ids| ==> 1 <= ids[k] <= |ids|)
    && (forall x :: 1 <= x <= |ids| ==> x in ids)
  }

  /** The record's own validator. */
  predicate RecordSemantics(r: Record) {
    && (forall k :: 0 <= k < |r.cases| ==> CaseSemantics(r.cases[k]))
    && r.brokerVerifier.keyId != r.resourceVerifier.keyId && r.brokerVerifier.key != r.resourceVerifier.key
    && r.observedImage == r.image
    && r.evidenceVerified == r.realTpm
    && r.assuranceIncluded == (r.realTpm && r.evidenceVerified)
    && (forall i, j :: 0 <= i < j < |r.cases| ==> r.cases[i].caseId != r.cases[j].caseId)
    && FullMatrix(r.cases)
    && (forall k :: 0 <= k < |r.cases| ==>
          && r.cases[k].workerKey == r.workerKey && r.cases[k].image == r.image
          && r.cases[k].codeDigest == r.codeDigest)
    && Numbers(InvocationIds(Flat(r.cases)))
    && r.brokerCount == |r.cases|
    && r.resourceCount == |Flat(r.cases)|
    && r.allowedCount == Allowed(Flat(r.cases))
    && r.deniedCount == |Flat(r.cases)| - Allowed(Flat(r.cases))
    && r.invocationCount == SumDeltas(r.cases)
    && r.redemptionCount == SumRedemptions(r.cases)
  }
}
