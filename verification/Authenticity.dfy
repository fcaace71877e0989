/** What an accepted grant and an accepted worker response are: who signed them, over what, and that
    nothing in them can be changed. */
module Authenticity {
  import opened Symbols
  import opened Receipt
  import opened Worker
  import opened Controller

  // ---- The grant ----

  /** A broker receipt under the pinned key that grants this credential to the expected worker. */
  predicate GrantSigned(t: Trust, g: Grant) {
    && g.receipt.Compact? && g.receipt.keyId == t.brokerVerifier.keyId && g.receipt.key == t.brokerVerifier.key
    && ValidPayload(g.receipt.claims)
    && var p := g.receipt.claims;
    && p.service == Broker && p.decision == Allow && p.reason == ALLOW
    && p.credentialId == Some(g.credential.id) && p.scope == Some(t.cfg.resource.scope)
    && p.manifestDigest == Some(g.manifestDigest) && p.tokenHash == Some(g.challengeHash)
    && p.artifacts.Keys == {"broker_policy_sha256", "tpm_attest_sha256", "tpm_signature_sha256", "tpm_ak_chain_sha256", "issuance_request_sha256"}
    && p.artifacts["broker_policy_sha256"] == g.brokerPolicy && p.artifacts["tpm_attest_sha256"] == g.attest
    && p.artifacts["tpm_signature_sha256"] == g.signature && p.artifacts["tpm_ak_chain_sha256"] == g.akChain
    && p.artifacts["issuance_request_sha256"] == g.issuanceRequest
    && g.credential.subject == t.expected.workerKey && g.credential.issuer == t.cfg.resource.trustedBroker
    && g.credential.scope == {t.cfg.resource.scope}
  }

  lemma AcceptedGrantIsSigned(t: Trust, g: Grant)
    ensures GrantOk(t, g) <==> GrantSigned(t, g)
  {
    hide ValidPayload;
    if GrantSigned(t, g) {
      assert g.receipt.claims.artifacts ==
             map["broker_policy_sha256" := g.brokerPolicy, "tpm_attest_sha256" := g.attest,
                 "tpm_signature_sha256" := g.signature, "tpm_ak_chain_sha256" := g.akChain,
                 "issuance_request_sha256" := g.issuanceRequest];
    }
  }

  // ---- The response ----

  /** The worker's signature over exactly this body, which names the request and the pinned build. */
  predicate SignedAnswer(x: Expected, q: WorkerRequest, p: WorkerResponse) {
    && p.signature == BodySigned(x.workerKey, p.body)
    && p.body.workerKey == x.workerKey && p.body.image == x.image && p.body.codeDigest == x.codeDigest
    && p.body.caseId == q.caseId && p.body.runId == q.runId
    && p.body.requestSha ==
       Sha256("worker-request",
              [Plain(q.caseId), Plain(q.runId), Plain(VariantName(q.variant)), q.credential.id, q.credential.subject, q.challenge,
               q.audience, q.scope, Plain(q.recordId), Plain(q.sku), q.image, q.codeDigest])
  }

  lemma BoundIsSigned(x: Expected, q: WorkerRequest, p: WorkerResponse)
    ensures ResponseBound(x, q, p) <==> SignedAnswer(x, q, p)
  {
  }

  /** Two requests agree in every field their digest covers. */
  predicate SameRequest(a: WorkerRequest, b: WorkerRequest) {
    && a.caseId == b.caseId && a.runId == b.runId && a.variant == b.variant
    && a.credential.id == b.credential.id && a.credential.subject == b.credential.subject && a.challenge == b.challenge
    && a.audience == b.audience && a.scope == b.scope && a.recordId == b.recordId && a.sku == b.sku
    && a.image == b.image && a.codeDigest == b.codeDigest
  }

  lemma VariantNames(a: Variant, b: Variant)
    ensures VariantName(a) == VariantName(b) <==> a == b
  {
    assert |VariantName(Valid)| == 5 && |VariantName(Replay)| == 6 && |VariantName(ArgumentSubstitution)| == 21;
    assert |VariantName(RecordSubstitution)| == 19 && |VariantName(WrongHolder)| == 12;
    assert |VariantName(Malformed)| == 9 && |VariantName(Concurrent)| == 10;
  }

  /** The digest determines every field it covers. */
  lemma DigestDetermines(a: WorkerRequest, b: WorkerRequest)
    ensures RequestDigest(a) == RequestDigest(b) <==> SameRequest(a, b)
  {
    VariantNames(a.variant, b.variant);
    hide VariantName;
    var x, y := RequestDigest(a).parts, RequestDigest(b).parts;
    if x == y {
      assert x[0] == y[0] && x[1] == y[1] && x[2] == y[2] && x[3] == y[3] && x[4] == y[4] && x[5] == y[5];
      assert x[6] == y[6] && x[7] == y[7] && x[8] == y[8] && x[9] == y[9] && x[10] == y[10] && x[11] == y[11];
    }
  }

  /** A response accepted for one request is accepted for no request that differs from it. */
  lemma OneRequestOnly(t: Trust, mac: MacChecks, a: WorkerRequest, b: WorkerRequest, p: WorkerResponse)
    requires ResponseOk(t, mac, a, p) && ResponseOk(t, mac, b, p)
    ensures SameRequest(a, b)
  {
    hide Preappraised, VariantName;
    DigestDetermines(a, b);
  }

  /** Accepted responses with one signature are one response. */
  lemma OneSignature(t: Trust, mac: MacChecks, a: WorkerRequest, p: WorkerResponse, b: WorkerRequest, q: WorkerResponse)
    requires ResponseOk(t, mac, a, p) && ResponseOk(t, mac, b, q) && p.signature == q.signature
    ensures p == q
  {
    hide Preappraised, RequestDigest;
  }

  /** Every response of an accepted case was signed by the worker, for its own request. */
  lemma AcceptedCaseIsSigned(t: Trust, mac: MacChecks, c: PreparedCase, rs: seq<WorkerResponse>, l: nat) returns (k: nat)
    requires CaseInputsOk(t, mac, c, rs) && l < |rs|
    ensures k < |c.requests| && SignedAnswer(t.expected, c.requests[k], rs[l])
    ensures ResponseOk(t, mac, c.requests[k], rs[l]) && c.requests[k].runId == rs[l].body.runId
  {
    hide GrantOk, Preappraised, DistinctRuns;
    assert Requested(c.requests, rs[l].body.runId);
    var m :| 0 <= m < |c.requests| && c.requests[m].runId == rs[l].body.runId;
    k := m;
    BoundIsSigned(t.expected, c.requests[k], rs[l]);
  }

  /** Change any field of an accepted response while keeping its signature, and the case fails. */
  lemma TamperedCaseFails(t: Trust, mac: MacChecks, c: PreparedCase, rs: seq<WorkerResponse>, l: nat, other: WorkerResponse)
    requires CaseInputsOk(t, mac, c, rs) && l < |rs| && other.signature == rs[l].signature && other != rs[l]
    ensures !CaseInputsOk(t, mac, c, rs[l := other])
  {
    hide CaseInputsOk, ResponseOk, SignedAnswer;
    var k := AcceptedCaseIsSigned(t, mac, c, rs, l);
    if CaseInputsOk(t, mac, c, rs[l := other]) {
      var m := AcceptedCaseIsSigned(t, mac, c, rs[l := other], l);
      assert rs[l := other][l] == other;
      OneSignature(t, mac, c.requests[k], rs[l], c.requests[m], other);
    }
  }

  /** A response nobody signed, or somebody else did, fails its case. */
  lemma UnsignedCaseFails(t: Trust, mac: MacChecks, c: PreparedCase, rs: seq<WorkerResponse>, l: nat)
    requires l < |rs| && rs[l].signature != BodySigned(t.expected.workerKey, rs[l].body)
    ensures !CaseInputsOk(t, mac, c, rs)
  {
    hide CaseInputsOk, ResponseOk;
    if CaseInputsOk(t, mac, c, rs) {
      var k := AcceptedCaseIsSigned(t, mac, c, rs, l);
    }
  }

  // ---- The proof inside the response ----

  /** The proof a variant prescribes, field by field. */
  predicate PrescribedProof(q: WorkerRequest, p: WorkerResponse) {
    var id, me := q.credential.id, q.credential.subject;
    && p.body.proof.challenge == q.challenge
    && (q.variant != WrongHolder ==> p.body.proofSubject == me)
    && match q.variant
       case ArgumentSubstitution =>
         p.body.proof.signature ==
         Signed(me, Statement(q.challenge, id, me, q.audience, q.scope, Plain(q.recordId), q.sku + "-substituted"))
       case RecordSubstitution =>
         p.body.proof.signature ==
         Signed(me, Statement(q.challenge, id, me, q.audience, q.scope, Plain(q.recordId + "-substituted"), q.sku))
       case WrongHolder =>
         var other := p.body.proofSubject;
         && other != me
         && p.body.proof.signature == Signed(other, Statement(q.challenge, id, other, q.audience, q.scope, Plain(q.recordId), q.sku))
       case Malformed => p.body.proof.signature == NotASignature
       case _ =>
         p.body.proof.signature == Signed(me, Statement(q.challenge, id, me, q.audience, q.scope, Plain(q.recordId), q.sku))
  }

  /** While the keyed check of the challenge holds, the appraisal accepts exactly the prescribed proof. */
  lemma AppraisedIsPrescribed(q: WorkerRequest, p: WorkerResponse)
    ensures Preappraised(q, p, true, true) <==> PrescribedProof(q, p)
  {
    assert |q.sku + "-substituted"| != |q.sku|;
    assert |q.recordId + "-substituted"| != |q.recordId|;
  }
}
