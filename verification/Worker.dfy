/** The lab's worker and the controller's appraisal of what it returns. */
module Worker {
  import opened Symbols
  import Receipt
  import ProtocolSafety
  import opened Protocol
  import opened ProtocolInvariant
  import opened ProtocolTheorems

  datatype Variant =
    | Valid | Replay | ArgumentSubstitution | RecordSubstitution | WrongHolder | Malformed | Concurrent

  predicate AllowVariant(v: Variant) {
    v == Valid || v == Replay || v == Concurrent
  }

  datatype WorkerRequest = WorkerRequest(
    caseId: string, runId: string, variant: Variant, credential: Credential, challenge: Term,
    audience: Term, scope: Term, recordId: string, sku: string, image: Term, codeDigest: Term)

  function VariantName(v: Variant): string {
    match v
    case Valid => "valid"
    case Replay => "replay"
    case ArgumentSubstitution => "argument-substitution"
    case RecordSubstitution => "record-substitution"
    case WrongHolder => "wrong-holder"
    case Malformed => "malformed"
    case Concurrent => "concurrent"
  }

  function RequestDigest(q: WorkerRequest): Term {
    Sha256("worker-request",
           [Plain(q.caseId), Plain(q.runId), Plain(VariantName(q.variant)), q.credential.id, q.credential.subject, q.challenge,
            q.audience, q.scope, Plain(q.recordId), Plain(q.sku), q.image, q.codeDigest])
  }

  /** The holder-signed part of a response. */
  datatype ResponseBody = ResponseBody(
    caseId: string, runId: string, requestSha: Term, workerKey: Term, proofSubject: Term,
    image: Term, codeDigest: Term, proof: HolderProof)

  datatype BodySignature = BodySigned(key: Term, body: ResponseBody) | BadBodySignature

  datatype WorkerResponse = WorkerResponse(body: ResponseBody, signature: BodySignature)

  /** The worker's configuration; `stranger` is the key pair drawn for a wrong-holder proof. */
  datatype Holder = Holder(key: Term, image: Term, codeDigest: Term, stranger: Term)

  function BuildProof(key: Term, cred: Credential, q: WorkerRequest, recordId: string, sku: string): HolderProof {
    HolderProof(q.challenge,
                Signed(key, Statement(q.challenge, cred.id, cred.subject, q.audience, q.scope, Plain(recordId), sku)))
  }

  const Suffix: string := "-substituted"

  /** `generate`: the prescribed proof for each variant, inside a holder-signed response. */
  function Generate(h: Holder, q: WorkerRequest): WorkerResponse {
    var key := if q.variant == WrongHolder then h.stranger else h.key;
    var cred := if q.variant == WrongHolder then q.credential.(subject := h.stranger) else q.credential;
    var recordId := if q.variant == RecordSubstitution then q.recordId + Suffix else q.recordId;
    var sku := if q.variant == ArgumentSubstitution then q.sku + Suffix else q.sku;
    var proof := BuildProof(key, cred, q, recordId, sku);
    var shown := if q.variant == Malformed then HolderProof(proof.challenge, NotASignature) else proof;
    var body := ResponseBody(q.caseId, q.runId, RequestDigest(q), h.key, cred.subject, h.image, h.codeDigest, shown);
    WorkerResponse(body, BodySigned(h.key, body))
  }

  /** What the controller expects of every worker. */
  datatype Expected = Expected(workerKey: Term, image: Term, codeDigest: Term)

  /** `_verify_worker_response`. */
  predicate ResponseBound(x: Expected, q: WorkerRequest, p: WorkerResponse) {
    && p.body.caseId == q.caseId && p.body.runId == q.runId
    && p.body.requestSha == RequestDigest(q)
    && p.body.workerKey == x.workerKey
    && p.body.image == x.image
    && p.body.codeDigest == x.codeDigest
    && p.signature == BodySigned(x.workerKey, p.body)
  }

  /** `_proof_verifies`: `mac` is the keyed check of the challenge at that moment. */
  predicate ProofVerifies(q: WorkerRequest, p: WorkerResponse, cred: Credential, recordId: string, sku: string, mac: bool) {
    mac && ProofCovers(p.body.proof, cred, q.audience, q.scope, Plain(recordId), sku)
  }

  /** `_preappraise_prescribed_proof`, with the keyed check at its two moments. */
  predicate Preappraised(q: WorkerRequest, p: WorkerResponse, mac: bool, macLater: bool) {
    && p.body.proof.challenge == q.challenge
    && (q.variant == WrongHolder <==> p.body.proofSubject != q.credential.subject)
    && var original := ProofVerifies(q, p, q.credential, q.recordId, q.sku, mac);
    if AllowVariant(q.variant) then original
    else
      && !original
      && match q.variant
         case ArgumentSubstitution => ProofVerifies(q, p, q.credential, q.recordId, q.sku + Suffix, macLater)
         case RecordSubstitution => ProofVerifies(q, p, q.credential, q.recordId + Suffix, q.sku, macLater)
         case WrongHolder => ProofVerifies(q, p, q.credential.(subject := p.body.proofSubject), q.recordId, q.sku, macLater)
         case _ => p.body.proof.signature == NotASignature
  }

  /** The lookup the controller submits for a response. */
  function Lookup(q: WorkerRequest, p: WorkerResponse): LookupRequest {
    LookupRequest(q.sku, ParsedCredential(q.credential), p.body.proof, Plain(q.recordId))
  }

  /** A request the controller prepared names the resource's own audience and scope. */
  predicate PreparedFor(cfg: Config, q: WorkerRequest) {
    q.audience == cfg.resource.audience && q.scope == cfg.resource.scope
  }

  /** An honest worker's response passes both appraisals for every variant and every request whose
      credential is bound to the worker's key. */
  lemma GeneratePasses(h: Holder, q: WorkerRequest)
    requires q.credential.subject == h.key && h.stranger != h.key
    ensures ResponseBound(Expected(h.key, h.image, h.codeDigest), q, Generate(h, q))
    ensures Preappraised(q, Generate(h, q), true, true)
  {
    assert |q.sku + Suffix| != |q.sku|;
    assert |q.recordId + Suffix| != |q.recordId|;
  }

  /** Whatever the worker did, a pre-appraised response carries a proof that covers the controller's
      lookup exactly when the variant is one of the three that are meant to be allowed. */
  lemma PreappraisalDecides(cfg: Config, q: WorkerRequest, p: WorkerResponse, mac: bool, macLater: bool)
    requires PreparedFor(cfg, q) && Preappraised(q, p, mac, macLater)
    ensures Covered(cfg, Lookup(q, p)) <==> AllowVariant(q.variant)
  {
    assert |q.sku + Suffix| != |q.sku|;
    assert |q.recordId + Suffix| != |q.recordId|;
  }

  /** So in every run of the system, no redemption of a pre-appraised denial case writes anything
      or reaches the handler, however the worker built its response. */
  lemma DenialCaseNeverSpends(
    cfg: Config, labels: seq<Label>, i: nat, q: WorkerRequest, p: WorkerResponse, mac: bool, macLater: bool)
    requires PreparedFor(cfg, q) && Preappraised(q, p, mac, macLater) && !AllowVariant(q.variant)
    requires i < |Exec(cfg, Init, labels).redeems| && Exec(cfg, Init, labels).redeems[i].request == Lookup(q, p)
    ensures
      var c := Exec(cfg, Init, labels).redeems[i];
      c.cells == {} && c.spend.None? && c.invocation.None? && (c.pc.Answered? ==> c.pc.receipt.decision == Receipt.Deny)
  {
    PreappraisalDecides(cfg, q, p, mac, macLater);
    ProofBeforeEffect(cfg, labels);
    var s := Exec(cfg, Init, labels);
    ProtocolSafety.RunInv(cfg, labels);
    hide Exec, Preappraised;
    if s.redeems[i].pc.Answered? {
      AnsweredAsInvoked(cfg, s.shared, s.boot, s.redeems[i]);
    }
  }
}
