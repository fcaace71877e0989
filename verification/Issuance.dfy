/** `CapabilityBroker`: challenge creation and the issuance code in source order, proved to be
    one uninterrupted passage of the protocol's issuance steps. */
module Issuance {
  import opened Symbols
  import opened Receipt
  import opened Storage
  import opened Protocol
  import opened Passage

  function TryIssue(cfg: Config, sh: Shared, c: IssueCall, index: nat, e: Env): (Shared, IssueCall) {
    if IssueSteppable(c) then IssueStep(cfg, sh, c, index, e) else (sh, c)
  }

  function Mover(cfg: Config, index: nat): (Shared, IssueCall, Env) -> (Shared, IssueCall) {
    (sh, c, e) => TryIssue(cfg, sh, c, index, e)
  }

  /** One issuance running alone through the given environments. */
  function SoloIssue(cfg: Config, sh: Shared, c: IssueCall, index: nat, envs: seq<Env>): (Shared, IssueCall) {
    Through(Mover(cfg, index), sh, c, envs)
  }

  /** How `issue` ends: a receipt, with the credential when one is returned, or an exception. */
  datatype IssueOutcome = Decided(receipt: Payload, credential: Option<Credential>) | Unreceipted

  ghost predicate Ends(c: IssueCall, o: IssueOutcome) {
    match o
    case Decided(p, cred) =>
      && c.pc == IAnswered(p)
      && (p.decision == Allow ==> cred.Some? && cred == c.credential)
      && (p.decision == Deny ==> cred.None?)
    case Unreceipted => c.pc == IRaised
  }

  /** The broker's row stands against consuming the challenge at this reading, for this reason. */
  predicate RowRefuses(broker: map<Term, BrokerRow>, h: Term, now: int, reason: Reason) {
    match reason
    case CHALLENGE_INVALID => h !in broker
    case CHALLENGE_CONSUMED => h in broker && broker[h].consumedAt.Some?
    case CHALLENGE_STALE => h in broker && broker[h].consumedAt.None? && broker[h].expiresAt <= now
    case _ => false
  }

  lemma RowTells(t: Tables, h: Term, now: int)
    ensures forall reason :: RowRefuses(t.broker, h, now, reason) <==> ConsumeRefusal(t, h, now) == Some(reason)
  {
  }

  class CapabilityBroker {
    const cfg: Config
    const store: SQLiteStore
    var nonce: nat
    var minted: map<Term, Mint>

    constructor (cfg: Config, store: SQLiteStore)
      requires cfg.broker.Valid()
      ensures this.cfg == cfg && this.store == store && minted == map[]
    {
      this.cfg, this.store := cfg, store;
      nonce, minted := 0, map[];
    }

    ghost function View(count: nat): Shared
      reads this, store
    {
      Shared(store.Contents(), count, nonce, minted)
    }

    /** Draw, sign and persist a challenge; the system label of the same name. */
    method NewChallenge(token: Term, now: int) returns (stored: bool)
      requires Accounted(store.Contents())
      modifies store
      ensures Accounted(store.Contents())
      ensures stored <==> now >= 0 && TokenHash(token) !in old(store.broker)
      ensures store.Contents() ==
                if now < 0 then old(store.Contents())
                else AfterStoreBroker(old(store.Contents()), TokenHash(token), now, now + cfg.broker.challengeTtl)
    {
      if now < 0 { return false; }
      stored := store.StoreBrokerChallenge(TokenHash(token), now, now + cfg.broker.challengeTtl);
    }

    method Refuse(r: IssueRequest, manifestDigest: Option<Term>, tokenHash: Option<Term>, artifacts: map<string, Term>,
                  reason: Reason, e: Env, ghost c: IssueCall, ghost index: nat, ghost count: nat) returns (o: IssueOutcome)
      requires c.request == r && Holds(c, manifestDigest, tokenHash, artifacts) && c.pc == IDenying(reason)
      modifies this`nonce
      ensures
        var (sk, d) := IssueStep(cfg, old(View(count)), c, index, e);
        View(count) == sk && Ends(d, o) && (d.pc.IAnswered? || d.pc.IRaised?)
      ensures o.Decided? ==>
        && o.receipt.decision == Deny && o.receipt.reason == reason && o.receipt.decidedAt == e.now && o.credential == None
        && o.receipt.tokenHash == tokenHash && o.receipt.manifestDigest == manifestDigest && o.receipt.artifacts == artifacts
    {
      hide ArtifactsAt;
      var p := BrokerPayload(cfg.broker, nonce, e.now, Deny, reason, None, tokenHash, manifestDigest, artifacts);
      if e.signerOk && ValidPayload(p) {
        nonce := nonce + 1;
        o := Decided(p, None);
      } else {
        o := Unreceipted;
      }
    }

    /** The locals of `issue` hold what the call has gathered. */
    ghost predicate Holds(c: IssueCall, manifestDigest: Option<Term>, tokenHash: Option<Term>, artifacts: map<string, Term>) {
      && tokenHash == c.tokenHash && artifacts == DenialArtifacts(cfg, c)
      && manifestDigest == if Extent(c.gathered) >= 2 then Some(c.request.manifestDigest) else None
    }

    /** Fill the receipt's fields one after the other and appraise. An exception strikes once the
        environment's number of fields is there, or in the type check that ends the gathering. */
    method Gather(r: IssueRequest, appraisal: Appraisal, e: Env)
      returns (refusal: Option<Reason>, manifestDigest: Option<Term>, tokenHash: Option<Term>, artifacts: map<string, Term>)
      ensures
        var d := Appraise(NewIssue(r, appraisal, 0), e);
        && Holds(d, manifestDigest, tokenHash, artifacts)
        && d.pc == if refusal.None? then IAppraised else IDenying(refusal.value)
      ensures e.fault != NoFault ==> refusal == Some(INTERNAL_ERROR)
      ensures e.fault == NoFault ==>
        && refusal == (match appraisal
                       case IllTypedRequest => Some(REQUEST_BINDING)
                       case IllTypedEvidence => Some(TPM_INVALID)
                       case Rejected(why) => Some(why)
                       case Accepted => None)
        && artifacts.Keys == (if appraisal.IllTypedRequest? || appraisal.IllTypedEvidence? then {"broker_policy_sha256"}
                              else {"broker_policy_sha256", "issuance_request_sha256", "tpm_ak_chain_sha256",
                                    "tpm_attest_sha256", "tpm_signature_sha256"})
    {
      var failed := e.fault != NoFault;
      var reached := if failed then Extent(e.gathered) else 6;
      refusal, manifestDigest, tokenHash, artifacts := Some(INTERNAL_ERROR), None, None, map[];
      if reached == 0 { return; }
      artifacts := artifacts["broker_policy_sha256" := cfg.broker.Digest()];
      if reached == 1 { return; }
      if appraisal.IllTypedRequest? {
        refusal := if failed then Some(INTERNAL_ERROR) else Some(REQUEST_BINDING);
        return;
      }
      manifestDigest := Some(r.manifestDigest);
      if reached == 2 { return; }
      tokenHash := Some(TokenHash(r.token));
      if reached == 3 { return; }
      if appraisal.IllTypedEvidence? {
        refusal := if failed then Some(INTERNAL_ERROR) else Some(TPM_INVALID);
        return;
      }
      artifacts := artifacts["tpm_attest_sha256" := Sha256("tpm-attest", [r.evidence.attest])];
      artifacts := artifacts["tpm_signature_sha256" := Sha256("tpm-signature", [r.evidence.signature])];
      artifacts := artifacts["tpm_ak_chain_sha256" := Sha256("tpm-ak-chain", [r.evidence.akChain])];
      EvidenceArtifacts(cfg, r, artifacts);
      if reached == 4 { return; }
      artifacts := artifacts["issuance_request_sha256" := Sha256("issuance-request", [r.token, r.holderKey, r.manifestDigest])];
      if reached == 5 { return; }
      refusal := if appraisal.Rejected? then Some(appraisal.reason) else None;
    }

    /** `issue`: appraise, consume the challenge, then mint. The verdict of the appraisal comes
        from verifiers outside this model. */
    method Issue(r: IssueRequest, appraisal: Appraisal, index: nat, e: seq<Env>, ghost count: nat) returns (o: IssueOutcome)
      requires |e| == 5 && PossibleAppraisal(cfg.broker, r, appraisal) && Accounted(store.Contents())
      modifies this`nonce, this`minted, store
      ensures Accounted(store.Contents())
      ensures
        var (sh, c) := SoloIssue(cfg, old(View(count)), NewIssue(r, appraisal, 0), index, e);
        View(count) == sh && Ends(c, o)
      ensures o.Decided? && o.receipt.decision == Deny && o.receipt.reason != INTERNAL_ERROR ==>
        o.credential == None && minted == old(minted) && store.Contents() == old(store.Contents())
        && (match appraisal
            case IllTypedRequest => o.receipt.reason == REQUEST_BINDING
            case IllTypedEvidence => o.receipt.reason == TPM_INVALID
            case Rejected(why) => o.receipt.reason == why
            case Accepted => RowRefuses(old(store.broker), TokenHash(r.token), e[1].now, o.receipt.reason))
      ensures o.Decided? && o.receipt.decision == Allow ==>
        && appraisal == Accepted && o.receipt.reason == ALLOW
        && o.credential == Some(Credential(Random(old(nonce)), cfg.broker.issuerKey, r.holderKey, {cfg.broker.scope},
                                           Some(e[2].now), Some(e[2].now + cfg.broker.credentialTtl)))
        && o.receipt.credentialId == Some(Random(old(nonce)))
        && (forall reason :: !RowRefuses(old(store.broker), TokenHash(r.token), e[1].now, reason))
    {
      hide SoloIssue, Accounted, ValidPayload, BrokerArtifacts, ArtifactsAt, GatheredBy, Appraise, RowRefuses, IssueStep;
      ghost var sh, c0 := View(count), NewIssue(r, appraisal, 0);
      Starts(cfg, sh, c0, index, e);
      var refusal, manifestDigest, tokenHash, artifacts := Gather(r, appraisal, e[0]);
      ghost var c1 := Appraise(c0, e[0]);
      AppraisedFields(cfg, c0, e[0]);
      FirstStep(cfg, sh, c0, index, e[0]);
      Took(cfg, sh, c0, index, e, 0, sh, c0);
      if refusal.Some? {
        o := Refuse(r, manifestDigest, tokenHash, artifacts, refusal.value, e[1], c1, index, count);
        Took(cfg, sh, c0, index, e, 1, sh, c1);
        Concludes(cfg, sh, c0, index, e, 2);
        return;
      }

      o := ConsumeAndMint(r, manifestDigest, tokenHash, artifacts, index, e, c1, count);
      Split(cfg, sh, c0, index, e, 1);
    }

    /** From the transaction on. The appraisal changed nothing; this comes immediately before minting. */
    method ConsumeAndMint(
      r: IssueRequest, manifestDigest: Option<Term>, tokenHash: Option<Term>, artifacts: map<string, Term>, index: nat, e: seq<Env>,
      ghost c: IssueCall, ghost count: nat) returns (o: IssueOutcome)
      requires |e| == 5 && Accounted(store.Contents()) && c.request == r && c.pc == IAppraised && c.gathered == AllFields
      requires tokenHash == Some(TokenHash(r.token)) && manifestDigest == Some(r.manifestDigest)
      requires Holds(c, manifestDigest, tokenHash, artifacts) && artifacts == BrokerArtifacts(cfg, r)
      modifies this`nonce, this`minted, store
      ensures Accounted(store.Contents())
      ensures
        var (sk, d) := SoloIssue(cfg, old(View(count)), c, index, e[1..]);
        View(count) == sk && Ends(d, o)
      ensures o.Decided? && o.receipt.decision == Deny && o.receipt.reason != INTERNAL_ERROR ==>
        && o.credential == None && minted == old(minted) && store.Contents() == old(store.Contents())
        && RowRefuses(old(store.broker), TokenHash(r.token), e[1].now, o.receipt.reason)
      ensures o.Decided? && o.receipt.decision == Allow ==>
        && IssuedAt(o, old(nonce), r, e[2].now)
        && (forall reason :: !RowRefuses(old(store.broker), TokenHash(r.token), e[1].now, reason))
    {
      hide SoloIssue, Accounted, ValidPayload, AfterConsume, ConsumeRefusal, Diff, BrokerArtifacts, ArtifactsAt, TokenHash, Appraise,
        IssueDenyPayload, IssueAllowPayload, IssuedAt, MintedCredential, RowRefuses;
      RowTells(store.Contents(), TokenHash(r.token), e[1].now);
      ghost var sh, rest := View(count), e[1..];
      Starts(cfg, sh, c, index, rest);
      var refusal: Option<Reason>;
      if e[1].fault == FaultBefore {
        refusal := Some(INTERNAL_ERROR);
      } else {
        var answer, lostRace := store.ConsumeBrokerChallenge(tokenHash.value, e[1].now);
        refusal := if e[1].fault == FaultAfter then Some(INTERNAL_ERROR) else answer;
      }
      ghost var (sh2, c2) := IssueStep(cfg, sh, c, index, e[1]);
      Took(cfg, sh, c, index, rest, 0, sh, c);
      if refusal.Some? {
        o := Refuse(r, manifestDigest, tokenHash, artifacts, refusal.value, e[2], c2, index, count);
        Took(cfg, sh, c, index, rest, 1, sh2, c2);
        Concludes(cfg, sh, c, index, rest, 2);
        return;
      }
      o := MintAndAnswer(r, tokenHash, artifacts, index, e, c2, count);
      Split(cfg, sh, c, index, rest, 1);
      assert rest[1..] == e[2..];
    }

    /** The issuance that drew this number at this reading, as it is answered. */
    predicate IssuedAt(o: IssueOutcome, drawn: nat, r: IssueRequest, now: int)
      requires o.Decided?
    {
      && o.receipt.reason == ALLOW && o.receipt.credentialId == Some(Random(drawn))
      && o.credential == Some(Credential(Random(drawn), cfg.broker.issuerKey, r.holderKey, {cfg.broker.scope},
                                         Some(now), Some(now + cfg.broker.credentialTtl)))
    }

    method MintAndAnswer(r: IssueRequest, tokenHash: Option<Term>, artifacts: map<string, Term>, index: nat, e: seq<Env>,
                         ghost c: IssueCall, ghost count: nat) returns (o: IssueOutcome)
      requires |e| == 5 && c.request == r && c.tokenHash == tokenHash && tokenHash.Some? && c.pc == IConsumed
      requires artifacts == BrokerArtifacts(cfg, r) && Holds(c, Some(r.manifestDigest), tokenHash, artifacts)
      modifies this`nonce, this`minted
      ensures
        var (sk, d) := SoloIssue(cfg, old(View(count)), c, index, e[2..]);
        View(count) == sk && Ends(d, o)
      ensures o.Decided? && o.receipt.decision == Deny ==> o.receipt.reason == INTERNAL_ERROR
      ensures o.Decided? && o.receipt.decision == Allow ==> IssuedAt(o, old(nonce), r, e[2].now)
    {
      hide SoloIssue, ValidPayload, BrokerArtifacts, ArtifactsAt, AfterConsume, ConsumeRefusal, Diff, Appraise, IssueDenyPayload;
      ghost var sh, rest := View(count), e[2..];
      Starts(cfg, sh, c, index, rest);
      Took(cfg, sh, c, index, rest, 0, sh, c);
      ghost var (sh1, c1) := IssueStep(cfg, sh, c, index, e[2]);
      if e[2].fault != NoFault {
        o := Refuse(r, Some(r.manifestDigest), tokenHash, artifacts, INTERNAL_ERROR, e[3], c1, index, count);
        Took(cfg, sh, c, index, rest, 1, sh1, c1);
        Concludes(cfg, sh, c, index, rest, 2);
        return;
      }
      var cred := MintedCredential(cfg, nonce, r.holderKey, e[2].now);
      minted := minted[cred.id := Mint(cred, index)];
      nonce := nonce + 1;
      Took(cfg, sh, c, index, rest, 1, sh1, c1);
      o := AnswerIssue(r, cred, tokenHash, artifacts, index, e, c1, count);
      Split(cfg, sh, c, index, rest, 1);
      assert rest[1..] == e[3..];
    }

    /** The receipt for a minted credential; if it cannot be signed, an internal error. */
    method AnswerIssue(
      r: IssueRequest, cred: Credential, tokenHash: Option<Term>, artifacts: map<string, Term>, index: nat, e: seq<Env>,
      ghost c: IssueCall, ghost count: nat) returns (o: IssueOutcome)
      requires |e| == 5 && c.request == r && c.tokenHash == tokenHash && c.pc == IMinted && c.credential == Some(cred)
      requires artifacts == BrokerArtifacts(cfg, r) && Holds(c, Some(r.manifestDigest), tokenHash, artifacts)
      modifies this`nonce
      ensures
        var (sk, d) := SoloIssue(cfg, old(View(count)), c, index, e[3..]);
        View(count) == sk && Ends(d, o)
      ensures o.Decided? && o.receipt.decision == Deny ==> o.receipt.reason == INTERNAL_ERROR
      ensures o.Decided? && o.receipt.decision == Allow ==>
        o.receipt.reason == ALLOW && o.receipt.credentialId == Some(cred.id) && o.credential == Some(cred)
    {
      hide SoloIssue, ValidPayload, BrokerArtifacts, ArtifactsAt, AfterConsume, ConsumeRefusal, Diff, Appraise, IssueDenyPayload;
      ghost var sh, rest := View(count), e[3..];
      Starts(cfg, sh, c, index, rest);
      var p := BrokerPayload(cfg.broker, nonce, e[3].now, Allow, ALLOW, Some(cred.id), tokenHash, Some(r.manifestDigest), artifacts);
      ghost var (sh1, c1) := IssueStep(cfg, sh, c, index, e[3]);
      Took(cfg, sh, c, index, rest, 0, sh, c);
      if e[3].signerOk && ValidPayload(p) {
        nonce := nonce + 1;
        AllowPayloadDecision(cfg, sh, c, cred.id, e[3].now);
        o := Decided(p, Some(cred));
        Concludes(cfg, sh, c, index, rest, 1);
      } else {
        o := Refuse(r, Some(r.manifestDigest), tokenHash, artifacts, INTERNAL_ERROR, e[4], c1, index, count);
        Took(cfg, sh, c, index, rest, 1, sh1, c1);
        Concludes(cfg, sh, c, index, rest, 2);
      }
    }
  }

  /** The policy and evidence digests are all but the request's own. */
  lemma EvidenceArtifacts(cfg: Config, r: IssueRequest, artifacts: map<string, Term>)
    requires artifacts ==
      map["broker_policy_sha256" := cfg.broker.Digest()]["tpm_attest_sha256" := Sha256("tpm-attest", [r.evidence.attest])]
        ["tpm_signature_sha256" := Sha256("tpm-signature", [r.evidence.signature])]
        ["tpm_ak_chain_sha256" := Sha256("tpm-ak-chain", [r.evidence.akChain])]
    ensures artifacts == ArtifactsAt(cfg, r, EvidenceDigests)
    ensures artifacts["issuance_request_sha256" := Sha256("issuance-request", [r.token, r.holderKey, r.manifestDigest])]
            == ArtifactsAt(cfg, r, AllFields)
  {
  }

  /** What the appraisal leaves of a fresh call. */
  lemma AppraisedFields(cfg: Config, c: IssueCall, e: Env)
    requires c.pc == IReceived
    ensures Appraise(c, e).request == c.request
    ensures Appraise(c, e).pc == IAppraised ==>
              Appraise(c, e).tokenHash == Some(TokenHash(c.request.token)) && Appraise(c, e).gathered == AllFields
    ensures Appraise(c, e).pc == IAppraised ==> DenialArtifacts(cfg, Appraise(c, e)) == BrokerArtifacts(cfg, c.request)
  {
    hide BrokerArtifacts;
  }

  lemma FirstStep(cfg: Config, sh: Shared, c: IssueCall, index: nat, e: Env)
    requires c.pc == IReceived
    ensures IssueStep(cfg, sh, c, index, e) == (sh, Appraise(c, e))
  {
    hide Appraise;
  }

  lemma AllowPayloadDecision(cfg: Config, sh: Shared, c: IssueCall, id: Term, now: int)
    ensures IssueAllowPayload(cfg, sh, c, id, now).decision == Allow
  {
  }

  lemma Starts(cfg: Config, sh: Shared, c: IssueCall, index: nat, envs: seq<Env>)
    ensures SoloIssue(cfg, sh, c, index, envs[..0]) == (sh, c)
  {
    ThroughNone(Mover(cfg, index), sh, c, envs);
  }

  lemma Took(cfg: Config, sh: Shared, c: IssueCall, index: nat, envs: seq<Env>, k: nat, sk: Shared, d: IssueCall)
    requires k < |envs| && SoloIssue(cfg, sh, c, index, envs[..k]) == (sk, d) && IssueSteppable(d)
    ensures SoloIssue(cfg, sh, c, index, envs[..k + 1]) == IssueStep(cfg, sk, d, index, envs[k])
  {
    hide IssueStep, Through;
    ThroughNext(Mover(cfg, index), sh, c, envs, k);
  }

  lemma Concludes(cfg: Config, sh: Shared, c: IssueCall, index: nat, envs: seq<Env>, k: nat)
    requires k <= |envs|
    requires var d := SoloIssue(cfg, sh, c, index, envs[..k]).1; d.pc.IAnswered? || d.pc.IRaised?
    ensures SoloIssue(cfg, sh, c, index, envs) == SoloIssue(cfg, sh, c, index, envs[..k])
  {
    hide Through;
    ThroughDone(Mover(cfg, index), sh, c, envs, k);
  }

  lemma Split(cfg: Config, sh: Shared, c: IssueCall, index: nat, envs: seq<Env>, k: nat)
    requires k <= |envs|
    ensures SoloIssue(cfg, sh, c, index, envs) ==
              var (sk, d) := SoloIssue(cfg, sh, c, index, envs[..k]); SoloIssue(cfg, sk, d, index, envs[k..])
  {
    hide Through;
    ThroughSplit(Mover(cfg, index), sh, c, envs, k);
  }
}
