/** The broker and resource protocol as a state machine over any number of simultaneous calls.

    A call moves by atomic steps; a step is one access to shared state together with the local
    computation around it. A whole write transaction is one step. A label fixes everything the
    environment chooses (clock reading, failures, scheduling), so a run is a sequence of labels
    and a property over all runs quantifies over all label sequences. */
module Protocol {
  import opened Symbols
  import opened Receipt
  import opened Storage

  datatype Config = Config(resource: ResourcePolicy, broker: BrokerPolicy) {
    predicate NonEmptyStrings() {
      resource.NonEmptyStrings() && broker.NonEmptyStrings()
    }
  }

  /** An unexpected exception inside a step: before its effect on shared state, or after it. */
  datatype Fault = NoFault | FaultBefore | FaultAfter

  /** The environment's choices for one step. `expired` picks which of two errors a failed chain
      verification raises; `macValid` is the keyed check of the challenge inside the proof;
      `gathered` is how far an issuance had come with its receipt's fields when it failed. */
  datatype Env = Env(
    now: int, fault: Fault, expired: bool, macValid: bool, handlerOk: bool, signerOk: bool, gathered: Gathered)

  /** What an issuance has put together for its receipt, in the order it does. */
  datatype Gathered = NoFields | PolicyDigest | ManifestDigest | ChallengeHash | EvidenceDigests | AllFields

  function Extent(g: Gathered): nat {
    match g
    case NoFields => 0
    case PolicyDigest => 1
    case ManifestDigest => 2
    case ChallengeHash => 3
    case EvidenceDigests => 4
    case AllFields => 5
  }

  /** The earlier of two points. */
  function Earlier(g: Gathered, h: Gathered): Gathered {
    if Extent(g) <= Extent(h) then g else h
  }

  // ---- Redemption calls ----

  datatype CredentialInput = MalformedCredential | ParsedCredential(credential: Credential)

  datatype LookupRequest = LookupRequest(
    sku: string, credential: CredentialInput, proof: HolderProof, recordId: Term)

  predicate WellFormedRequest(r: LookupRequest) {
    r.sku != "" && NonEmpty(r.recordId)
  }

  datatype RedeemPc =
    | Received
    | CredentialVerified
    | ChallengeRead
    | ProofChecked
    | Committed
    | Cleared
    | Invoked
    | Handled(completed: bool)
    | Denying(reason: Reason)
    | Answered(receipt: Payload)
    | PostInvocationFailed
    | Raised

  /** One `redeem` call. `spend` records a first spend only; `cells` is a history of the store
      cells this call has changed. */
  datatype RedeemCall = RedeemCall(
    request: LookupRequest,
    boot: nat,
    alive: bool,
    pc: RedeemPc,
    credentialId: Option<Term>,
    tokenHash: Option<Term>,
    row: Option<ResourceRow>,
    spend: Option<SpendResult>,
    clearedAt: Option<int>,
    invocation: Option<int>,
    cells: set<Cell>)

  // ---- Issuance calls ----

  datatype TpmEvidence = TpmEvidence(attest: Term, signature: Term, akChain: Term)

  datatype IssueRequest = IssueRequest(token: Term, holderKey: Term, manifestDigest: Term, evidence: TpmEvidence)

  /** The verdict of everything `issue` checks before its transaction: runtime types, challenge
      authenticity, manifest, identity endorsement and TPM appraisal. */
  datatype Appraisal = IllTypedRequest | IllTypedEvidence | Rejected(reason: Reason) | Accepted

  const AppraisalReasons: set<Reason> :=
    {TPM_INVALID, TPM_UNTRUSTED, PCR_POLICY, CHALLENGE_STALE, CHALLENGE_INVALID, MANIFEST_INVALID,
     MANIFEST_POLICY, IDENTITY_UNAUTHORIZED, IDENTITY_SIGNATURE, REQUEST_BINDING, SCOPE_DENIED}

  /** The identity check admits only the configured manifest digest. */
  predicate PossibleAppraisal(policy: BrokerPolicy, r: IssueRequest, a: Appraisal) {
    match a
    case IllTypedRequest => true
    case IllTypedEvidence => true
    case Rejected(reason) => reason in AppraisalReasons
    case Accepted => r.manifestDigest == policy.manifestDigest
  }

  datatype IssuePc =
    | IReceived
    | IAppraised
    | IConsumed
    | IMinted
    | IDenying(reason: Reason)
    | IAnswered(receipt: Payload)
    | IRaised

  datatype IssueCall = IssueCall(
    request: IssueRequest,
    appraisal: Appraisal,
    boot: nat,
    alive: bool,
    pc: IssuePc,
    gathered: Gathered,
    tokenHash: Option<Term>,
    consumed: bool,
    credential: Option<Credential>,
    cells: set<Cell>)

  // ---- Shared state ----

  /** A credential the broker has signed, and the `issue` call that signed it. */
  datatype Mint = Mint(credential: Credential, call: nat)

  datatype Shared = Shared(tables: Tables, count: nat, nonce: nat, minted: map<Term, Mint>)

  /** One entry into the private handler. */
  datatype HandlerCall = HandlerCall(
    call: nat, credentialId: Term, tokenHash: Term, number: int, committedAt: int, clearedAt: int)

  datatype State = State(
    shared: Shared,
    clock: int,
    boot: nat,
    redeems: seq<RedeemCall>,
    issues: seq<IssueCall>,
    log: seq<HandlerCall>,
    logAtBoot: nat,
    rowsAtBoot: nat)

  const Init: State :=
    State(Shared(Tables(map[], map[], map[]), 0, 0, map[]), 0, 0, [], [], [], 0, 0)

  // ---- One step of a redemption ----

  /** `verify_chain`: signed by the broker, by the trusted key, inside the validity window. */
  predicate ChainVerifies(cfg: Config, minted: map<Term, Mint>, cred: Credential, now: int) {
    && cred.id in minted && minted[cred.id].credential == cred
    && cred.issuer == cfg.resource.trustedBroker
    && (cred.notBefore.Some? ==> cred.notBefore.value <= now)
    && (cred.notAfter.Some? ==> now <= cred.notAfter.value)
  }

  predicate BoundsAccepted(cfg: Config, cred: Credential) {
    && LowerHex(cred.id)
    && cred.notBefore.Some? && cred.notAfter.Some?
    && cred.notAfter.value - cred.notBefore.value <= cfg.resource.maxLifetime
  }

  function Denied(c: RedeemCall, reason: Reason): RedeemCall {
    c.(pc := Denying(reason))
  }

  function VerifyCredential(cfg: Config, sh: Shared, c: RedeemCall, e: Env): RedeemCall {
    if e.fault == FaultBefore then Denied(c, INTERNAL_ERROR)
    else if c.request.credential.MalformedCredential? then Denied(c, CREDENTIAL_INVALID)
    else
      var cred := c.request.credential.credential;
      var c := c.(credentialId := Some(cred.id));
      if e.fault == FaultAfter then Denied(c, INTERNAL_ERROR)
      else if !BoundsAccepted(cfg, cred) then Denied(c, CREDENTIAL_INVALID)
      else if !ChainVerifies(cfg, sh.minted, cred, e.now) then
        Denied(c, if e.expired then CREDENTIAL_EXPIRED else CREDENTIAL_INVALID)
      else if cred.scope != {cfg.resource.scope} then Denied(c, SCOPE_DENIED)
      else c.(pc := CredentialVerified)
  }

  function Arguments(cfg: Config, r: LookupRequest, cred: Credential, tokenHash: Term): SpendArgs
    requires cred.notBefore.Some? && cred.notAfter.Some?
  {
    SpendArgs(tokenHash, cred.id, cfg.resource.tool, ArgumentsDigest(r.sku), r.recordId,
              cfg.resource.audience, cred.notBefore.value, cred.notAfter.value)
  }

  predicate RowMatches(cfg: Config, r: LookupRequest, id: Term, row: ResourceRow) {
    && row.credentialId == id && row.tool == cfg.resource.tool
    && row.argumentsDigest == ArgumentsDigest(r.sku) && row.recordId == r.recordId
    && row.audience == cfg.resource.audience
  }

  function ReadChallenge(cfg: Config, sh: Shared, c: RedeemCall, e: Env): RedeemCall
    requires c.credentialId.Some?
  {
    if e.fault == FaultBefore then Denied(c, INTERNAL_ERROR)
    else if c.request.proof.signature.NotASignature? then Denied(c, HOLDER_PROOF_INVALID)
    else
      var h := TokenHash(c.request.proof.challenge);
      var c := c.(tokenHash := Some(h));
      if e.fault == FaultAfter then Denied(c, INTERNAL_ERROR)
      else if h !in sh.tables.resource then Denied(c, CHALLENGE_INVALID)
      else
        var row := sh.tables.resource[h];
        if !RowMatches(cfg, c.request, c.credentialId.value, row) then Denied(c, HOLDER_PROOF_INVALID)
        else if row.consumedAt.Some? then Denied(c, CHALLENGE_CONSUMED)
        else c.(row := Some(row), pc := ChallengeRead)
  }

  function CheckProof(cfg: Config, c: RedeemCall, e: Env): RedeemCall
    requires c.row.Some? && c.request.credential.ParsedCredential?
  {
    if e.fault != NoFault then Denied(c, INTERNAL_ERROR)
    else if e.now >= c.row.value.expiresAt then Denied(c, CHALLENGE_STALE)
    else if !e.macValid
         || !ProofCovers(c.request.proof, c.request.credential.credential, cfg.resource.audience,
                         cfg.resource.scope, c.request.recordId, c.request.sku)
    then Denied(c, HOLDER_PROOF_INVALID)
    else c.(pc := ProofChecked)
  }

  /** The commit step's effect on the call, given what the transaction answered. */
  function CommitCall(c: RedeemCall, outcome: Result<SpendResult>, fault: Fault): RedeemCall {
    match outcome
    case Err(reason) => Denied(c, if fault == FaultAfter then INTERNAL_ERROR else reason)
    case Ok(r) =>
      if !r.firstSpend then Denied(c, if fault == FaultAfter then INTERNAL_ERROR else CREDENTIAL_SPENT)
      else if fault == FaultAfter then Denied(c.(spend := Some(r)), INTERNAL_ERROR)
      else c.(spend := Some(r), pc := Committed)
  }

  function ClearForHandler(c: RedeemCall, e: Env): RedeemCall
    requires c.spend.Some? && c.request.credential.ParsedCredential?
    requires c.request.credential.credential.notBefore.Some? && c.request.credential.credential.notAfter.Some?
  {
    var cred := c.request.credential.credential;
    if e.fault != NoFault then Denied(c, INTERNAL_ERROR)
    else if e.now >= c.spend.value.challengeExpiresAt then Denied(c, CHALLENGE_STALE)
    else if e.now < cred.notBefore.value || e.now > cred.notAfter.value then Denied(c, CREDENTIAL_EXPIRED)
    else c.(clearedAt := Some(e.now), pc := Cleared)
  }

  function DenialPayload(cfg: Config, sh: Shared, c: RedeemCall, reason: Reason, now: int): Payload {
    InventoryPayload(cfg.resource, sh.nonce, now, sh.count, Deny, reason, c.credentialId, c.tokenHash,
                     ArgumentsDigest(c.request.sku), Some(c.request.recordId), None, NotInvoked)
  }

  function AllowPayload(cfg: Config, sh: Shared, c: RedeemCall, completed: bool, now: int): Payload {
    InventoryPayload(cfg.resource, sh.nonce, now, sh.count, Allow, if completed then ALLOW else HANDLER_FAILED,
                     c.credentialId, c.tokenHash, ArgumentsDigest(c.request.sku), Some(c.request.recordId),
                     c.invocation, if completed then Completed else Failed)
  }

  /** Signing either answers with the payload or leaves the call at `otherwise`. */
  function Sign(sh: Shared, c: RedeemCall, p: Payload, e: Env, otherwise: RedeemPc): (Shared, RedeemCall) {
    if e.signerOk && ValidPayload(p) then (sh.(nonce := sh.nonce + 1), c.(pc := Answered(p)))
    else (sh, c.(pc := otherwise))
  }

  predicate CommitReady(c: RedeemCall) {
    && c.tokenHash.Some? && c.request.credential.ParsedCredential?
    && c.request.credential.credential.notBefore.Some?
    && c.request.credential.credential.notAfter.Some?
  }

  /** The local facts a program point relies on; every reachable call has them. */
  predicate Steppable(c: RedeemCall) {
    match c.pc
    case CredentialVerified => c.credentialId.Some?
    case ChallengeRead => c.row.Some? && c.request.credential.ParsedCredential?
    case ProofChecked => CommitReady(c)
    case Committed => c.spend.Some? && CommitReady(c)
    case _ => true
  }

  function RedeemStep(cfg: Config, sh: Shared, c: RedeemCall, e: Env): (Shared, RedeemCall)
    requires Steppable(c)
  {
    match c.pc
    case Received => (sh, VerifyCredential(cfg, sh, c, e))
    case CredentialVerified => (sh, ReadChallenge(cfg, sh, c, e))
    case ChallengeRead => (sh, CheckProof(cfg, c, e))
    case ProofChecked =>
      if e.fault == FaultBefore then (sh, Denied(c, INTERNAL_ERROR))
      else
        var a := Arguments(cfg, c.request, c.request.credential.credential, c.tokenHash.value);
        var t := AfterSpend(sh.tables, a, e.now);
        (sh.(tables := t),
         CommitCall(c, SpendOutcome(sh.tables, a, e.now), e.fault).(cells := c.cells + Diff(sh.tables, t)))
    case Committed => (sh, ClearForHandler(c, e))
    case Cleared => (sh.(count := sh.count + 1), c.(invocation := Some(sh.count + 1), pc := Invoked))
    case Invoked => (sh, c.(pc := Handled(e.handlerOk)))
    case Handled(completed) => Sign(sh, c, AllowPayload(cfg, sh, c, completed, e.now), e, PostInvocationFailed)
    case Denying(reason) => Sign(sh, c, DenialPayload(cfg, sh, c, reason, e.now), e, Raised)
    case Answered(_) => (sh, c)
    case PostInvocationFailed => (sh, c)
    case Raised => (sh, c)
  }

  // ---- One step of an issuance ----

  function MintedCredential(cfg: Config, nonce: nat, holderKey: Term, now: int): Credential {
    Credential(Random(nonce), cfg.broker.issuerKey, holderKey, {cfg.broker.scope},
               Some(now), Some(now + cfg.broker.credentialTtl))
  }

  function BrokerArtifacts(cfg: Config, r: IssueRequest): map<string, Term> {
    map["broker_policy_sha256" := cfg.broker.Digest(),
        "issuance_request_sha256" := Sha256("issuance-request", [r.token, r.holderKey, r.manifestDigest]),
        "tpm_ak_chain_sha256" := Sha256("tpm-ak-chain", [r.evidence.akChain]),
        "tpm_attest_sha256" := Sha256("tpm-attest", [r.evidence.attest]),
        "tpm_signature_sha256" := Sha256("tpm-signature", [r.evidence.signature])]
  }

  function IssueAllowPayload(cfg: Config, sh: Shared, c: IssueCall, id: Term, now: int): Payload {
    BrokerPayload(cfg.broker, sh.nonce, now, Allow, ALLOW, Some(id), c.tokenHash,
                  Some(c.request.manifestDigest), BrokerArtifacts(cfg, c.request))
  }

  /** The artifact digests gathered by some point. */
  function ArtifactsAt(cfg: Config, r: IssueRequest, g: Gathered): map<string, Term> {
    match g
    case NoFields => map[]
    case EvidenceDigests => BrokerArtifacts(cfg, r) - {"issuance_request_sha256"}
    case AllFields => BrokerArtifacts(cfg, r)
    case _ => map["broker_policy_sha256" := cfg.broker.Digest()]
  }

  function DenialArtifacts(cfg: Config, c: IssueCall): map<string, Term> {
    ArtifactsAt(cfg, c.request, c.gathered)
  }

  function IssueDenyPayload(cfg: Config, sh: Shared, c: IssueCall, reason: Reason, now: int): Payload {
    BrokerPayload(cfg.broker, sh.nonce, now, Deny, reason, None, c.tokenHash,
                  if Extent(c.gathered) >= 2 then Some(c.request.manifestDigest) else None, DenialArtifacts(cfg, c))
  }

  /** The call with the fields it has by some point. */
  function GatheredBy(c: IssueCall, g: Gathered): IssueCall {
    c.(gathered := g, tokenHash := if Extent(g) >= 3 then Some(TokenHash(c.request.token)) else None)
  }

  /** How far the gathering comes before an ill-typed input stops it. */
  function GatherLimit(a: Appraisal): Gathered {
    match a
    case IllTypedRequest => PolicyDigest
    case IllTypedEvidence => ChallengeHash
    case _ => AllFields
  }

  /** Gather the receipt's fields and appraise; an exception may strike anywhere on the way. */
  function Appraise(c: IssueCall, e: Env): IssueCall {
    if e.fault != NoFault then GatheredBy(c, Earlier(e.gathered, GatherLimit(c.appraisal))).(pc := IDenying(INTERNAL_ERROR))
    else
      var c := GatheredBy(c, GatherLimit(c.appraisal));
      match c.appraisal
      case IllTypedRequest => c.(pc := IDenying(REQUEST_BINDING))
      case IllTypedEvidence => c.(pc := IDenying(TPM_INVALID))
      case Rejected(reason) => c.(pc := IDenying(reason))
      case Accepted => c.(pc := IAppraised)
  }

  predicate IssueSteppable(c: IssueCall) {
    match c.pc
    case IAppraised => c.tokenHash.Some?
    case IMinted => c.credential.Some?
    case _ => true
  }

  /** `index` is the call's own position, recorded with a credential it signs. */
  function IssueStep(cfg: Config, sh: Shared, c: IssueCall, index: nat, e: Env): (Shared, IssueCall)
    requires IssueSteppable(c)
  {
    match c.pc
    case IReceived => (sh, Appraise(c, e))
    case IAppraised =>
      if e.fault == FaultBefore then (sh, c.(pc := IDenying(INTERNAL_ERROR)))
      else
        var h := c.tokenHash.value;
        var t := AfterConsume(sh.tables, h, e.now);
        var refusal := ConsumeRefusal(sh.tables, h, e.now);
        var c := c.(cells := c.cells + Diff(sh.tables, t), consumed := refusal.None?);
        (sh.(tables := t),
         if e.fault == FaultAfter then c.(pc := IDenying(INTERNAL_ERROR))
         else if refusal.Some? then c.(pc := IDenying(refusal.value))
         else c.(pc := IConsumed))
    case IConsumed =>
      if e.fault != NoFault then (sh, c.(pc := IDenying(INTERNAL_ERROR)))
      else
        var cred := MintedCredential(cfg, sh.nonce, c.request.holderKey, e.now);
        (sh.(nonce := sh.nonce + 1, minted := sh.minted[cred.id := Mint(cred, index)]),
         c.(credential := Some(cred), pc := IMinted))
    case IMinted =>
      var p := IssueAllowPayload(cfg, sh, c, c.credential.value.id, e.now);
      if e.signerOk && ValidPayload(p) then (sh.(nonce := sh.nonce + 1), c.(pc := IAnswered(p)))
      else (sh, c.(pc := IDenying(INTERNAL_ERROR)))
    case IDenying(reason) =>
      var p := IssueDenyPayload(cfg, sh, c, reason, e.now);
      if e.signerOk && ValidPayload(p) then (sh.(nonce := sh.nonce + 1), c.(pc := IAnswered(p)))
      else (sh, c.(pc := IRaised))
    case IAnswered(_) => (sh, c)
    case IRaised => (sh, c)
  }

  // ---- The whole system ----

  datatype Label =
    | NewBrokerChallenge(token: Term, now: int)
    | NewResourceChallenge(token: Term, credentialId: Term, sku: string, recordId: Term, now: int)
    | BeginRedeem(lookup: LookupRequest)
    | BeginIssue(issuance: IssueRequest, appraisal: Appraisal)
    | StepRedeem(call: nat, env: Env)
    | StepIssue(call: nat, env: Env)
    | KillRedeem(call: nat)
    | KillIssue(call: nat)
    | Restart

  function NewCall(r: LookupRequest, boot: nat): RedeemCall {
    RedeemCall(r, boot, true, Received, None, None, None, None, None, None, {})
  }

  function NewIssue(r: IssueRequest, a: Appraisal, boot: nat): IssueCall {
    IssueCall(r, a, boot, true, IReceived, NoFields, None, false, None, {})
  }

  /** The handler log grows exactly when a call draws its invocation number. */
  function Logged(log: seq<HandlerCall>, i: nat, c: RedeemCall, d: RedeemCall): seq<HandlerCall> {
    if c.invocation.None? && d.invocation.Some? && d.credentialId.Some? && d.tokenHash.Some?
       && d.spend.Some? && d.clearedAt.Some?
    then log + [HandlerCall(i, d.credentialId.value, d.tokenHash.value, d.invocation.value,
                            d.spend.value.committedAt, d.clearedAt.value)]
    else log
  }

  function StepRedeemAt(cfg: Config, s: State, i: nat, e: Env): State {
    if i < |s.redeems| && s.redeems[i].alive && Steppable(s.redeems[i]) then
      var (sh, c) := RedeemStep(cfg, s.shared, s.redeems[i], e);
      s.(shared := sh, clock := e.now, redeems := s.redeems[i := c], log := Logged(s.log, i, s.redeems[i], c))
    else s
  }

  function StepIssueAt(cfg: Config, s: State, i: nat, e: Env): State {
    if i < |s.issues| && s.issues[i].alive && IssueSteppable(s.issues[i]) then
      var (sh, c) := IssueStep(cfg, s.shared, s.issues[i], i, e);
      s.(shared := sh, clock := e.now, issues := s.issues[i := c])
    else s
  }

  function ChallengeRow(cfg: Config, credentialId: Term, sku: string, recordId: Term, now: int): ResourceRow {
    ResourceRow(credentialId, cfg.resource.tool, ArgumentsDigest(sku), recordId, cfg.resource.audience,
                now, now + cfg.resource.challengeTtl, None)
  }

  function Next(cfg: Config, s: State, l: Label): State {
    match l
    case NewBrokerChallenge(token, now) =>
      if now < 0 then s.(clock := now)
      else s.(clock := now, shared := s.shared.(tables :=
        AfterStoreBroker(s.shared.tables, TokenHash(token), now, now + cfg.broker.challengeTtl)))
    case NewResourceChallenge(token, id, sku, recordId, now) =>
      if !LowerHex(id) then s
      else if now < 0 then s.(clock := now)
      else s.(clock := now, shared := s.shared.(tables :=
        AfterStoreResource(s.shared.tables, TokenHash(token), ChallengeRow(cfg, id, sku, recordId, now))))
    case BeginRedeem(r) =>
      if WellFormedRequest(r) then s.(redeems := s.redeems + [NewCall(r, s.boot)]) else s
    case BeginIssue(r, a) =>
      if PossibleAppraisal(cfg.broker, r, a) then s.(issues := s.issues + [NewIssue(r, a, s.boot)]) else s
    case StepRedeem(i, e) => StepRedeemAt(cfg, s, i, e)
    case StepIssue(i, e) => StepIssueAt(cfg, s, i, e)
    case KillRedeem(i) =>
      if i < |s.redeems| then s.(redeems := s.redeems[i := s.redeems[i].(alive := false)]) else s
    case KillIssue(i) =>
      if i < |s.issues| then s.(issues := s.issues[i := s.issues[i].(alive := false)]) else s
    case Restart =>
      s.(shared := s.shared.(count := 0), boot := s.boot + 1,
         redeems := seq(|s.redeems|, k requires 0 <= k < |s.redeems| => s.redeems[k].(alive := false)),
         issues := seq(|s.issues|, k requires 0 <= k < |s.issues| => s.issues[k].(alive := false)),
         logAtBoot := |s.log|, rowsAtBoot := |s.shared.tables.redemptions|)
  }

  /** The state after a run. */
  function Exec(cfg: Config, s: State, labels: seq<Label>): State
    decreases |labels|
  {
    if labels == [] then s
    else Next(cfg, Exec(cfg, s, labels[..|labels| - 1]), labels[|labels| - 1])
  }
}
