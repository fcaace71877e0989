/** Why an issuance was denied, and what its denial receipt carries, in every run. */
module IssueCauses {
  import opened Symbols
  import opened Receipt
  import opened Storage
  import opened Protocol
  import opened ProtocolInvariant
  import opened ProtocolSafety
  import opened Origins

  /** What the broker row says against consuming this token at this reading. */
  predicate RowCause(t: Tables, token: Term, now: int, reason: Reason) {
    var h := Sha256("challenge-token", [token]);
    match reason
    case CHALLENGE_INVALID => h !in t.broker
    case CHALLENGE_CONSUMED => h in t.broker && t.broker[h].consumedAt.Some?
    case CHALLENGE_STALE => h in t.broker && t.broker[h].consumedAt.None? && t.broker[h].expiresAt <= now
    case _ => false
  }

  /** What must be the case for a step at this point to deny for this reason. */
  predicate IssueCause(cfg: Config, sh: Shared, c: IssueCall, e: Env, reason: Reason) {
    match c.pc
    case IReceived =>
      if e.fault != NoFault then reason == INTERNAL_ERROR
      else (match c.appraisal
            case IllTypedRequest => reason == REQUEST_BINDING
            case IllTypedEvidence => reason == TPM_INVALID
            case Rejected(why) => reason == why
            case Accepted => false)
    case IAppraised =>
      if e.fault != NoFault then reason == INTERNAL_ERROR else RowCause(sh.tables, c.request.token, e.now, reason)
    case IConsumed => e.fault != NoFault && reason == INTERNAL_ERROR
    case IMinted => reason == INTERNAL_ERROR && (!e.signerOk || !AllowSignable(cfg, sh, c, e.now))
    case _ => false
  }

  predicate AllowSignable(cfg: Config, sh: Shared, c: IssueCall, now: int) {
    c.credential.Some? && ValidPayload(IssueAllowPayload(cfg, sh, c, c.credential.value.id, now))
  }

  predicate IssueDeniesFor(cfg: Config, sh: Shared, c: IssueCall, i: nat, e: Env, reason: Reason)
    requires IssueSteppable(c)
  {
    IssueStep(cfg, sh, c, i, e).1.pc == IDenying(reason)
  }

  lemma AppraisalDenies(cfg: Config, sh: Shared, c: IssueCall, i: nat, e: Env, reason: Reason)
    requires c.pc.IReceived?
    ensures IssueDeniesFor(cfg, sh, c, i, e, reason) <==> IssueCause(cfg, sh, c, e, reason)
  {
  }

  lemma ConsumeDenies(cfg: Config, sh: Shared, c: IssueCall, i: nat, e: Env, reason: Reason)
    requires c.pc.IAppraised? && c.tokenHash == Some(TokenHash(c.request.token))
    ensures IssueDeniesFor(cfg, sh, c, i, e, reason) <==> IssueCause(cfg, sh, c, e, reason)
  {
    hide Diff, AfterConsume, ConsumeRefusal;
    ConsumeRefusalMeans(sh.tables, c.tokenHash.value, e.now);
  }

  lemma MintDenies(cfg: Config, sh: Shared, c: IssueCall, i: nat, e: Env, reason: Reason)
    requires IssueSteppable(c) && !c.pc.IReceived? && !c.pc.IAppraised? && !c.pc.IDenying?
    ensures IssueDeniesFor(cfg, sh, c, i, e, reason) <==> IssueCause(cfg, sh, c, e, reason)
  {
    hide ValidPayload, IssueAllowPayload;
  }

  /** In any reachable situation a step denies for a reason if and only if its cause holds. */
  lemma IssueStepDenies(cfg: Config, sh: Shared, boot: nat, c: IssueCall, i: nat, e: Env, reason: Reason)
    requires IssueInv(cfg, sh, boot, c) && !c.pc.IDenying?
    ensures IssueSteppable(c)
    ensures IssueDeniesFor(cfg, sh, c, i, e, reason) <==> IssueCause(cfg, sh, c, e, reason)
  {
    assert IssueSteppable(c) && (c.pc.IAppraised? ==> c.tokenHash == Some(TokenHash(c.request.token)));
    hide IssueInv, IssueCause, IssueDeniesFor;
    if c.pc.IReceived? {
      AppraisalDenies(cfg, sh, c, i, e, reason);
    } else if c.pc.IAppraised? {
      ConsumeDenies(cfg, sh, c, i, e, reason);
    } else {
      MintDenies(cfg, sh, c, i, e, reason);
    }
  }

  // ---- Over all runs ----

  /** The step that answers an issuance, and whose reason it gives. */
  lemma IssueAnswerSource(cfg: Config, sh: Shared, c: IssueCall, i: nat, e: Env, p: Payload)
    requires IssueSteppable(c) && IssueStep(cfg, sh, c, i, e).1.pc == IAnswered(p) && c.pc != IAnswered(p)
    ensures p.decision == Deny <==> c.pc == IDenying(p.reason)
    ensures p.decision == Allow <==> c.pc == IMinted
    ensures p.decision == Deny ==> p == IssueDenyPayload(cfg, sh, c, p.reason, e.now)
    ensures IssueStep(cfg, sh, c, i, e).1.request == c.request && IssueStep(cfg, sh, c, i, e).1.appraisal == c.appraisal
  {
    hide ValidPayload, Diff, AfterConsume, ConsumeRefusal, ArtifactsAt, BrokerArtifacts;
  }

  lemma IssueNotTwice(cfg: Config, sh: Shared, c: IssueCall, i: nat, e: Env, reason: Reason)
    requires IssueSteppable(c) && IssueStep(cfg, sh, c, i, e).1.pc == IDenying(reason)
    ensures !c.pc.IDenying? || c.pc == IDenying(reason)
    ensures IssueStep(cfg, sh, c, i, e).1.request == c.request && IssueStep(cfg, sh, c, i, e).1.appraisal == c.appraisal
  {
    hide ValidPayload, Diff, AfterConsume, ConsumeRefusal, IssueDenyPayload;
  }

  lemma IssueOf(cfg: Config, labels: seq<Label>, i: nat)
    requires i < |Exec(cfg, Init, labels).issues|
    ensures var s := Exec(cfg, Init, labels); IssueInv(cfg, s.shared, s.boot, s.issues[i])
  {
    hide Exec, IssueInv, MintInv, RedeemsInv, LogInv, CountInv, SpendsDistinct, ReceiptsDistinct;
    RunInv(cfg, labels);
  }

  /** The denied call of a run. */
  ghost predicate Denied(cfg: Config, labels: seq<Label>, i: nat) {
    var s := Exec(cfg, Init, labels);
    i < |s.issues| && s.issues[i].pc.IAnswered? && s.issues[i].pc.receipt.decision == Deny
  }

  /** Every denied issuance has its cause at some label of the run, on its own request and verdict. */
  lemma IssueDenialHasCause(cfg: Config, labels: seq<Label>, i: nat) returns (k: nat)
    requires Denied(cfg, labels, i)
    ensures k < |labels| && labels[k].StepIssue? && labels[k].call == i
    ensures var s, c := Exec(cfg, Init, labels[..k]), Exec(cfg, Init, labels).issues[i];
            && i < |s.issues| && s.issues[i].request == c.request && s.issues[i].appraisal == c.appraisal
            && IssueCause(cfg, s.shared, s.issues[i], labels[k].env, c.pc.receipt.reason)
            && IssuePcOk(s.shared, s.issues[i])
  {
    hide Exec, IssueStep, IssueInv, IssueCause;
    var p := Exec(cfg, Init, labels).issues[i].pc.receipt;
    var m := IssuePointReached(cfg, labels, i);
    var t := Exec(cfg, Init, labels[..m]);
    IssueAnswerSource(cfg, t.shared, t.issues[i], i, labels[m].env, p);
    k := IssuePointReached(cfg, labels[..m], i);
    assert labels[..m][..k] == labels[..k];
    var s := Exec(cfg, Init, labels[..k]);
    IssueOf(cfg, labels[..k], i);
    IssueNotTwice(cfg, s.shared, s.issues[i], i, labels[k].env, p.reason);
    IssueStepDenies(cfg, s.shared, s.boot, s.issues[i], i, labels[k].env, p.reason);
    IssuePoint(cfg, s.shared, s.boot, s.issues[i]);
  }

  /** In every run a denial that is not an internal error gives the reason of the appraisal that
      denied it: the verifier's own reason if it rejected, REQUEST_BINDING for an ill-typed request,
      TPM_INVALID for ill-typed evidence. An accepted appraisal is denied only by its broker row, as
      that row stood at the reading of some step of the call: missing, consumed or expired. */
  lemma DeniedAsAppraised(cfg: Config, labels: seq<Label>, i: nat) returns (k: nat)
    requires Denied(cfg, labels, i) && Exec(cfg, Init, labels).issues[i].pc.receipt.reason != INTERNAL_ERROR
    ensures k < |labels| && labels[k].StepIssue? && labels[k].call == i
    ensures var c := Exec(cfg, Init, labels).issues[i];
            match c.appraisal
            case IllTypedRequest => c.pc.receipt.reason == REQUEST_BINDING
            case IllTypedEvidence => c.pc.receipt.reason == TPM_INVALID
            case Rejected(why) => c.pc.receipt.reason == why
            case Accepted => RowCause(Exec(cfg, Init, labels[..k]).shared.tables, c.request.token, labels[k].env.now, c.pc.receipt.reason)
  {
    hide Exec, RowCause;
    k := IssueDenialHasCause(cfg, labels, i);
  }

  // ---- What the denial receipt carries ----

  /** The artifact digests a receipt may carry, each the digest of its own input. */
  predicate OwnDigests(cfg: Config, r: IssueRequest, artifacts: map<string, Term>) {
    forall name :: name in artifacts ==>
      artifacts[name] ==
        if name == "broker_policy_sha256" then Sha256("broker-policy", [cfg.broker.scope, cfg.broker.issuerKey, cfg.broker.manifestDigest])
        else if name == "issuance_request_sha256" then Sha256("issuance-request", [r.token, r.holderKey, r.manifestDigest])
        else if name == "tpm_attest_sha256" then Sha256("tpm-attest", [r.evidence.attest])
        else if name == "tpm_signature_sha256" then Sha256("tpm-signature", [r.evidence.signature])
        else Sha256("tpm-ak-chain", [r.evidence.akChain])
  }

  const AllFive: set<string> :=
    {"broker_policy_sha256", "issuance_request_sha256", "tpm_ak_chain_sha256", "tpm_attest_sha256", "tpm_signature_sha256"}

  /** A denial that is not an internal error carries exactly the fields reached: for an ill-typed
      request the policy digest alone; for ill-typed evidence also the challenge and the manifest;
      otherwise everything. */
  predicate CarriesFor(a: Appraisal, r: IssueRequest, p: Payload) {
    match a
    case IllTypedRequest => p.tokenHash == None && p.manifestDigest == None && p.artifacts.Keys == {"broker_policy_sha256"}
    case IllTypedEvidence =>
      && p.tokenHash == Some(Sha256("challenge-token", [r.token])) && p.manifestDigest == Some(r.manifestDigest)
      && p.artifacts.Keys == {"broker_policy_sha256"}
    case _ =>
      && p.tokenHash == Some(Sha256("challenge-token", [r.token])) && p.manifestDigest == Some(r.manifestDigest)
      && p.artifacts.Keys == AllFive
  }

  /** How much of its receipt a call has gathered at this point. */
  predicate GatheredWell(c: IssueCall) {
    && (c.tokenHash.Some? <==> Extent(c.gathered) >= 3)
    && (c.pc.IDenying? && c.pc.reason != INTERNAL_ERROR ==>
          c.gathered == match c.appraisal case IllTypedRequest => PolicyDigest case IllTypedEvidence => ChallengeHash case _ => AllFields)
    && (c.pc.IAppraised? ==> c.appraisal.Accepted? && c.gathered == AllFields)
    && (c.pc.IReceived? ==> c.gathered == NoFields)
  }

  lemma GatheredStep(cfg: Config, sh: Shared, boot: nat, c: IssueCall, i: nat, e: Env)
    requires IssueInv(cfg, sh, boot, c) && GatheredWell(c) && IssueSteppable(c)
    ensures GatheredWell(IssueStep(cfg, sh, c, i, e).1)
  {
    hide ValidPayload, Diff, AfterConsume, IssueDenyPayload, IssueAllowPayload, MintedCredential;
  }

  lemma {:induction false} GatheredRun(cfg: Config, labels: seq<Label>, i: nat)
    requires i < |Exec(cfg, Init, labels).issues|
    ensures GatheredWell(Exec(cfg, Init, labels).issues[i])
    decreases |labels|
  {
    hide Next, IssueStep, IssueSteppable, IssueInv;
    assert labels != [];
    var m := |labels| - 1;
    var s := Exec(cfg, Init, labels[..m]);
    OneIssueLabel(cfg, s, labels[m], i);
    if i < |s.issues| {
      GatheredRun(cfg, labels[..m], i);
      IssueOf(cfg, labels[..m], i);
      if IssueSteppable(s.issues[i]) && labels[m].StepIssue? {
        GatheredStep(cfg, s.shared, s.boot, s.issues[i], i, labels[m].env);
      }
    } else {
      NewIssueGathered(cfg, s, labels[m], i);
    }
  }

  lemma NewIssueGathered(cfg: Config, s: State, l: Label, i: nat)
    requires |s.issues| <= i < |Next(cfg, s, l).issues|
    ensures GatheredWell(Next(cfg, s, l).issues[i])
  {
    hide RedeemStep, IssueStep, Steppable, IssueSteppable;
  }

  lemma DenyPayloadCarries(cfg: Config, sh: Shared, boot: nat, c: IssueCall, reason: Reason, now: int)
    requires IssueInv(cfg, sh, boot, c) && GatheredWell(c) && c.pc == IDenying(reason)
    ensures var p := IssueDenyPayload(cfg, sh, c, reason, now);
            && OwnDigests(cfg, c.request, p.artifacts) && p.artifacts.Keys <= AllFive
            && p.credentialId == None && p.scope == Some(cfg.broker.scope) && p.decidedAt == now
            && (reason != INTERNAL_ERROR ==> CarriesFor(c.appraisal, c.request, p))
  {
    hide IssueInv, ArtifactsAt;
    DenyGathered(cfg, sh, boot, c);
    ArtifactsCarry(cfg, c.request, c.gathered);
  }

  lemma DenyGathered(cfg: Config, sh: Shared, boot: nat, c: IssueCall)
    requires IssueInv(cfg, sh, boot, c) && GatheredWell(c)
    ensures c.tokenHash == if Extent(c.gathered) >= 3 then Some(Sha256("challenge-token", [c.request.token])) else None
  {
    hide IssuePcOk, PossibleAppraisal;
  }

  lemma ArtifactsCarry(cfg: Config, r: IssueRequest, g: Gathered)
    ensures OwnDigests(cfg, r, ArtifactsAt(cfg, r, g)) && ArtifactsAt(cfg, r, g).Keys <= AllFive
    ensures g in {PolicyDigest, ManifestDigest, ChallengeHash} ==> ArtifactsAt(cfg, r, g).Keys == {"broker_policy_sha256"}
    ensures g == AllFields ==> ArtifactsAt(cfg, r, g).Keys == AllFive
  {
  }

  /** In every run a denial receipt names no credential, carries only digests of the call's own
      inputs, and unless it reports an internal error carries exactly the fields reached. */
  lemma DenialCarries(cfg: Config, labels: seq<Label>, i: nat)
    requires Denied(cfg, labels, i)
    ensures var c := Exec(cfg, Init, labels).issues[i];
            && OwnDigests(cfg, c.request, c.pc.receipt.artifacts) && c.pc.receipt.artifacts.Keys <= AllFive
            && c.pc.receipt.credentialId == None && c.pc.receipt.scope == Some(cfg.broker.scope)
            && (c.pc.receipt.reason != INTERNAL_ERROR ==> CarriesFor(c.appraisal, c.request, c.pc.receipt))
  {
    hide Exec, IssueStep, IssueInv, OwnDigests, CarriesFor, GatheredWell;
    var p := Exec(cfg, Init, labels).issues[i].pc.receipt;
    var m := IssuePointReached(cfg, labels, i);
    var t := Exec(cfg, Init, labels[..m]);
    IssueAnswerSource(cfg, t.shared, t.issues[i], i, labels[m].env, p);
    GatheredRun(cfg, labels[..m], i);
    IssueOf(cfg, labels[..m], i);
    DenyPayloadCarries(cfg, t.shared, t.boot, t.issues[i], p.reason, labels[m].env.now);
  }
}
