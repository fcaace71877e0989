/** Where an honest run's grants come from: the broker's own answers, in any run of the system. */
module HonestGrants {
  import opened Symbols
  import opened Receipt
  import opened Storage
  import opened Protocol
  import opened ProtocolInvariant
  import opened ProtocolSafety
  import opened Wire
  import opened RecordVerifier
  import opened Controller
  import opened HonestCase

  /** A credential is recorded under its signing call, and an allow receipt is exactly the
      broker's payload about that call. */
  ghost predicate AnswerOk(cfg: Config, sh: Shared, i: nat, c: IssueCall) {
    && (c.credential.Some? ==>
          && c.credential.value.id in sh.minted && sh.minted[c.credential.value.id] == Mint(c.credential.value, i)
          && c.credential.value.subject == c.request.holderKey)
    && (c.pc.IAnswered? ==> ReceiptOk(cfg, sh.nonce, c, c.pc.receipt))
  }

  predicate ReceiptOk(cfg: Config, nonce: nat, c: IssueCall, p: Payload) {
    && p.receiptId.Random? && p.receiptId.nonce < nonce
    && (p.decision == Allow ==>
          && c.credential.Some? && c.request.manifestDigest == cfg.broker.manifestDigest
          && p == BrokerPayload(cfg.broker, p.receiptId.nonce, p.decidedAt, Allow, ALLOW, Some(c.credential.value.id),
                                Some(TokenHash(c.request.token)), Some(c.request.manifestDigest), BrokerArtifacts(cfg, c.request)))
  }

  ghost predicate BrokerAnswers(cfg: Config, s: State) {
    && (forall i :: 0 <= i < |s.issues| ==> AnswerOk(cfg, s.shared, i, s.issues[i]))
    && (forall i, j :: 0 <= i < j < |s.issues| && s.issues[i].pc.IAnswered? && s.issues[j].pc.IAnswered? ==>
          s.issues[i].pc.receipt.receiptId != s.issues[j].pc.receipt.receiptId)
  }

  /** Shared state that keeps its credentials and its receipt numbers keeps every answer. */
  lemma AnswerStable(cfg: Config, sh: Shared, sk: Shared, i: nat, c: IssueCall)
    requires AnswerOk(cfg, sh, i, c) && sh.nonce <= sk.nonce
    requires forall id :: id in sh.minted ==> id in sk.minted && sk.minted[id] == sh.minted[id]
    ensures AnswerOk(cfg, sk, i, c)
  {
  }

  lemma AnswersKept(cfg: Config, s: State, t: State)
    requires BrokerAnswers(cfg, s) && t.issues == s.issues && s.shared.nonce <= t.shared.nonce
    requires t.shared.minted == s.shared.minted
    ensures BrokerAnswers(cfg, t)
  {
    hide AnswerOk;
    forall i | 0 <= i < |t.issues|
      ensures AnswerOk(cfg, t.shared, i, t.issues[i])
    {
      AnswerStable(cfg, s.shared, t.shared, i, s.issues[i]);
    }
  }

  /** What a step does to an issuance's answer and to the record of signed credentials. */
  ghost predicate AnswerStep(cfg: Config, sh: Shared, c: IssueCall, i: nat, sk: Shared, d: IssueCall) {
    && AnswerOk(cfg, sk, i, d) && sh.nonce <= sk.nonce
    && (d.pc.IAnswered? && !c.pc.IAnswered? ==> d.pc.receipt.receiptId == Random(sh.nonce))
    && (c.pc.IAnswered? ==> d == c)
    && (sk.minted == sh.minted
        || (c.credential.None? && d.credential.Some? && sk.minted == sh.minted[Random(sh.nonce) := Mint(d.credential.value, i)]))
  }

  lemma QuietStep(cfg: Config, sh: Shared, boot: nat, c: IssueCall, i: nat, e: Env)
    requires IssueInv(cfg, sh, boot, c) && AnswerOk(cfg, sh, i, c) && IssueSteppable(c)
    requires c.pc.IReceived? || c.pc.IAppraised? || c.pc.IAnswered? || c.pc.IRaised?
    ensures var (sk, d) := IssueStep(cfg, sh, c, i, e); AnswerStep(cfg, sh, c, i, sk, d)
  {
    hide ValidPayload, AfterConsume, ConsumeRefusal, Diff, ReceiptOk, PossibleAppraisal;
  }

  lemma MintingStep(cfg: Config, sh: Shared, boot: nat, c: IssueCall, i: nat, e: Env)
    requires IssueInv(cfg, sh, boot, c) && AnswerOk(cfg, sh, i, c) && IssueSteppable(c) && c.pc.IConsumed?
    ensures var (sk, d) := IssueStep(cfg, sh, c, i, e); AnswerStep(cfg, sh, c, i, sk, d)
  {
    hide ReceiptOk, PossibleAppraisal;
  }

  lemma AnsweringStep(cfg: Config, sh: Shared, boot: nat, c: IssueCall, i: nat, e: Env)
    requires IssueInv(cfg, sh, boot, c) && AnswerOk(cfg, sh, i, c) && IssueSteppable(c) && (c.pc.IMinted? || c.pc.IDenying?)
    ensures var (sk, d) := IssueStep(cfg, sh, c, i, e); AnswerStep(cfg, sh, c, i, sk, d)
  {
    hide ValidPayload, BrokerArtifacts, ArtifactsAt;
  }

  /** The moving issuance call: its new answer is the broker's payload, under a new number. */
  lemma IssueAnswers(cfg: Config, sh: Shared, boot: nat, c: IssueCall, i: nat, e: Env)
    requires IssueInv(cfg, sh, boot, c) && AnswerOk(cfg, sh, i, c)
    ensures IssueSteppable(c)
    ensures var (sk, d) := IssueStep(cfg, sh, c, i, e); AnswerStep(cfg, sh, c, i, sk, d)
  {
    assert IssueSteppable(c);
    hide IssueInv, AnswerOk, AnswerStep, IssueStep, IssueSteppable;
    if c.pc.IConsumed? {
      MintingStep(cfg, sh, boot, c, i, e);
    } else if c.pc.IMinted? || c.pc.IDenying? {
      AnsweringStep(cfg, sh, boot, c, i, e);
    } else {
      QuietStep(cfg, sh, boot, c, i, e);
    }
  }

  lemma IssueNext(cfg: Config, s: State, i: nat, e: Env)
    requires Inv(cfg, s) && BrokerAnswers(cfg, s)
    ensures BrokerAnswers(cfg, StepIssueAt(cfg, s, i, e))
  {
    hide AnswerOk, IssueInv, IssueStep, IssueSteppable, RedeemsInv, LogInv, CountInv, SpendsDistinct, ReceiptsDistinct;
    var t := StepIssueAt(cfg, s, i, e);
    if i < |s.issues| && s.issues[i].alive && IssueSteppable(s.issues[i]) {
      IssueAnswers(cfg, s.shared, s.boot, s.issues[i], i, e);
      var (sk, d) := IssueStep(cfg, s.shared, s.issues[i], i, e);
      assert forall id :: id in s.shared.minted ==> id in sk.minted && sk.minted[id] == s.shared.minted[id];
      forall j | 0 <= j < |t.issues|
        ensures AnswerOk(cfg, t.shared, j, t.issues[j])
      {
        if j != i { AnswerStable(cfg, s.shared, sk, j, s.issues[j]); }
      }
      if d.pc.IAnswered? && !s.issues[i].pc.IAnswered? {
        forall j | 0 <= j < |s.issues| && s.issues[j].pc.IAnswered?
          ensures s.issues[j].pc.receipt.receiptId != Random(s.shared.nonce)
        {
          EarlierAnswer(cfg, s.shared, j, s.issues[j]);
        }
      }
    }
  }

  lemma EarlierAnswer(cfg: Config, sh: Shared, j: nat, c: IssueCall)
    requires AnswerOk(cfg, sh, j, c) && c.pc.IAnswered?
    ensures c.pc.receipt.receiptId != Random(sh.nonce)
  {
  }

  lemma RedeemNext(cfg: Config, s: State, i: nat, e: Env)
    requires Inv(cfg, s) && BrokerAnswers(cfg, s)
    ensures BrokerAnswers(cfg, StepRedeemAt(cfg, s, i, e))
  {
    hide BrokerAnswers, CallInv, IssuesInv, LogInv, CountInv, SpendsDistinct, ReceiptsDistinct, Accounted, RedeemStep, Steppable;
    if i < |s.redeems| {
      RedeemStepKeeps(cfg, s.shared, s.boot, s.redeems[i], e);
    }
    AnswersKept(cfg, s, StepRedeemAt(cfg, s, i, e));
  }

  /** A call that dies keeps its answer. */
  lemma DeadAnswers(cfg: Config, s: State, t: State)
    requires BrokerAnswers(cfg, s) && |t.issues| == |s.issues| && t.shared.nonce == s.shared.nonce && t.shared.minted == s.shared.minted
    requires forall i :: 0 <= i < |s.issues| ==> t.issues[i] == s.issues[i].(alive := t.issues[i].alive)
    ensures BrokerAnswers(cfg, t)
  {
    hide ReceiptOk;
    forall i | 0 <= i < |t.issues|
      ensures AnswerOk(cfg, t.shared, i, t.issues[i])
    {
      assert AnswerOk(cfg, s.shared, i, s.issues[i]);
      SameReceipt(cfg, s.shared.nonce, s.issues[i], t.issues[i]);
    }
  }

  lemma SameReceipt(cfg: Config, nonce: nat, c: IssueCall, d: IssueCall)
    requires d == c.(alive := d.alive)
    ensures c.pc.IAnswered? ==> (ReceiptOk(cfg, nonce, c, c.pc.receipt) <==> ReceiptOk(cfg, nonce, d, d.pc.receipt))
  {
  }

  lemma GrantsNext(cfg: Config, s: State, l: Label)
    requires Inv(cfg, s) && BrokerAnswers(cfg, s)
    ensures BrokerAnswers(cfg, Next(cfg, s, l))
  {
    hide Inv, BrokerAnswers, StepRedeemAt, StepIssueAt;
    var t := Next(cfg, s, l);
    match l
    case StepRedeem(i, e) => RedeemNext(cfg, s, i, e);
    case StepIssue(i, e) => IssueNext(cfg, s, i, e);
    case BeginIssue(r, a) => NewIssueAnswers(cfg, s, r, a);
    case KillIssue(i) => DeadAnswers(cfg, s, t);
    case Restart => DeadAnswers(cfg, s, t);
    case _ => AnswersKept(cfg, s, t);
  }

  lemma NewIssueAnswers(cfg: Config, s: State, r: IssueRequest, a: Appraisal)
    requires BrokerAnswers(cfg, s)
    ensures BrokerAnswers(cfg, Next(cfg, s, BeginIssue(r, a)))
  {
    hide ReceiptOk;
  }

  /** In every run the broker's answers are what it signed, one per receipt number. */
  lemma {:induction false} GrantsRun(cfg: Config, labels: seq<Label>)
    ensures BrokerAnswers(cfg, Exec(cfg, Init, labels))
    decreases |labels|
  {
    hide Inv, BrokerAnswers, Next;
    if labels == [] {
      assert BrokerAnswers(cfg, Init) by { NoAnswers(cfg); }
    } else {
      var m := |labels| - 1;
      GrantsRun(cfg, labels[..m]);
      RunInv(cfg, labels[..m]);
      GrantsNext(cfg, Exec(cfg, Init, labels[..m]), labels[m]);
    }
  }

  lemma NoAnswers(cfg: Config)
    ensures BrokerAnswers(cfg, Init)
  {
  }

  // ---- Grants ----

  /** The grant a case carries is the broker's answer to one issuance for the worker's key. */
  ghost predicate GrantOf(x: Setting, s: State, g: Grant, i: nat) {
    && i < |s.issues| && s.issues[i].pc.IAnswered? && s.issues[i].credential.Some?
    && var c := s.issues[i];
    && c.pc.receipt.decision == Allow && c.request.holderKey == x.holder.key
    && g == Grant(c.credential.value, Compact(x.t.brokerVerifier.keyId, x.t.brokerVerifier.key, c.pc.receipt),
                  c.request.manifestDigest, x.t.cfg.broker.Digest(), TokenHash(c.request.token),
                  Sha256("tpm-attest", [c.request.evidence.attest]), Sha256("tpm-signature", [c.request.evidence.signature]),
                  Sha256("tpm-ak-chain", [c.request.evidence.akChain]),
                  Sha256("issuance-request", [c.request.token, c.request.holderKey, c.request.manifestDigest]))
  }

  /** The two services trust each other's policy. */
  predicate PoliciesAgree(x: Setting) {
    && x.t.cfg.resource.scope == x.t.cfg.broker.scope && x.t.cfg.resource.trustedBroker == x.t.cfg.broker.issuerKey
    && x.t.cfg.broker.credentialTtl <= x.t.cfg.resource.maxLifetime
    && LabelledHex(x.t.cfg.broker.manifestDigest)
  }

  lemma AnswerAt(cfg: Config, labels: seq<Label>, i: nat)
    requires i < |Exec(cfg, Init, labels).issues|
    ensures var s := Exec(cfg, Init, labels);
            AnswerOk(cfg, s.shared, i, s.issues[i]) && IssueInv(cfg, s.shared, s.boot, s.issues[i]) && MintInv(cfg, s.shared, s.issues)
  {
    hide Exec, AnswerOk, IssueInv, RedeemsInv, LogInv, CountInv, SpendsDistinct, ReceiptsDistinct, MintInv;
    GrantsRun(cfg, labels);
    RunInv(cfg, labels);
  }

  /** What a broker's answer proves of the grant made from it. */
  lemma GrantFromIssuance(x: Setting, labels: seq<Label>, g: Grant, i: nat)
    requires x.Ok() && PoliciesAgree(x) && GrantOf(x, Exec(x.t.cfg, Init, labels), g, i)
    ensures var s := Exec(x.t.cfg, Init, labels);
            && GrantOk(x.t, g) && BoundsAccepted(x.t.cfg, g.credential)
            && g.credential.id in s.shared.minted && s.shared.minted[g.credential.id] == Mint(g.credential, i)
    ensures ShownBy(g)
  {
    hide Exec;
    var s := Exec(x.t.cfg, Init, labels);
    AnswerAt(x.t.cfg, labels, i);
    hide IssueInv, MintInv;
    IssuedGrant(x, s, g, i);
  }

  /** The receipt's remaining fields. */
  predicate ShownBy(g: Grant) {
    && LowerHex(g.challengeHash) && LowerHex(g.brokerPolicy) && LowerHex(g.attest) && LowerHex(g.signature)
    && LowerHex(g.akChain) && LowerHex(g.issuanceRequest) && LabelledHex(g.manifestDigest)
    && var b := Claims(g.receipt);
    && b.tool.None? && b.audience.None? && b.argumentsDigest.None? && b.recordId.None?
  }

  lemma IssuedGrant(x: Setting, s: State, g: Grant, i: nat)
    requires x.Ok() && PoliciesAgree(x) && GrantOf(x, s, g, i)
    requires AnswerOk(x.t.cfg, s.shared, i, s.issues[i]) && IssueInv(x.t.cfg, s.shared, s.boot, s.issues[i])
    requires MintInv(x.t.cfg, s.shared, s.issues)
    ensures GrantOk(x.t, g) && BoundsAccepted(x.t.cfg, g.credential) && ShownBy(g)
    ensures g.credential.id in s.shared.minted && s.shared.minted[g.credential.id] == Mint(g.credential, i)
  {
    hide ValidPayload, IssueInv, BoundsAccepted, GrantOk, ShownBy, MintInv;
    AnsweredValid(x.t.cfg, s.shared, s.boot, s.issues[i]);
    MintedBounds(x, s, g, i);
    GrantAccepted(x, s, g, i);
  }

  lemma AnsweredValid(cfg: Config, sh: Shared, boot: nat, c: IssueCall)
    requires IssueInv(cfg, sh, boot, c) && c.pc.IAnswered?
    ensures ValidPayload(c.pc.receipt)
  {
    hide ValidPayload;
  }

  /** A signed credential has the broker's issuer, scope and lifetime. */
  lemma MintedBounds(x: Setting, s: State, g: Grant, i: nat)
    requires PoliciesAgree(x) && GrantOf(x, s, g, i) && AnswerOk(x.t.cfg, s.shared, i, s.issues[i])
    requires MintInv(x.t.cfg, s.shared, s.issues)
    ensures BoundsAccepted(x.t.cfg, g.credential) && g.credential.subject == x.holder.key
    ensures g.credential.issuer == x.t.cfg.broker.issuerKey && g.credential.scope == {x.t.cfg.broker.scope}
    ensures g.credential.id in s.shared.minted && s.shared.minted[g.credential.id] == Mint(g.credential, i)
  {
    hide ReceiptOk, LabelledHex;
    assert g.credential.id in s.shared.minted;
  }

  lemma GrantAccepted(x: Setting, s: State, g: Grant, i: nat)
    requires x.Ok() && PoliciesAgree(x) && GrantOf(x, s, g, i) && ValidPayload(s.issues[i].pc.receipt)
    requires ReceiptOk(x.t.cfg, s.shared.nonce, s.issues[i], s.issues[i].pc.receipt)
    requires g.credential.subject == x.holder.key
    requires g.credential.issuer == x.t.cfg.broker.issuerKey && g.credential.scope == {x.t.cfg.broker.scope}
    ensures GrantOk(x.t, g) && ShownBy(g)
  {
    hide ValidPayload;
  }

  /** Grants from two issuances share nothing but their origin. */
  lemma GrantsUnrelated(x: Setting, labels: seq<Label>, g: Grant, i: nat, h: Grant, j: nat)
    requires x.Ok() && PoliciesAgree(x) && i != j
    requires GrantOf(x, Exec(x.t.cfg, Init, labels), g, i) && GrantOf(x, Exec(x.t.cfg, Init, labels), h, j)
    ensures g.credential.id != h.credential.id && g.receipt != h.receipt
    ensures Claims(g.receipt).receiptId != Claims(h.receipt).receiptId
    ensures g.challengeHash != h.challengeHash && g.issuanceRequest != h.issuanceRequest
    ensures g.manifestDigest == h.manifestDigest && g.brokerPolicy == h.brokerPolicy
  {
    hide Exec, AnswerOk, IssueInv, MintInv, GrantOk, BoundsAccepted, ShownBy, ReceiptOk;
    var s := Exec(x.t.cfg, Init, labels);
    GrantFromIssuance(x, labels, g, i);
    GrantFromIssuance(x, labels, h, j);
    AnswersApart(x, labels, i, j);
    var a, b := s.issues[i], s.issues[j];
    assert g.issuanceRequest.parts[0] == a.request.token && h.issuanceRequest.parts[0] == b.request.token;
    assert g.challengeHash.parts[0] == a.request.token && h.challengeHash.parts[0] == b.request.token;
  }

  lemma AnswersApart(x: Setting, labels: seq<Label>, i: nat, j: nat)
    requires var s := Exec(x.t.cfg, Init, labels);
             && i < |s.issues| && j < |s.issues| && i != j
             && s.issues[i].pc.IAnswered? && s.issues[j].pc.IAnswered?
             && s.issues[i].credential.Some? && s.issues[j].credential.Some?
             && s.issues[i].pc.receipt.decision == Allow && s.issues[j].pc.receipt.decision == Allow
    ensures var s := Exec(x.t.cfg, Init, labels);
            && s.issues[i].pc.receipt.receiptId != s.issues[j].pc.receipt.receiptId
            && s.issues[i].request.token != s.issues[j].request.token
            && s.issues[i].request.manifestDigest == s.issues[j].request.manifestDigest
  {
    hide Exec, MintInv, RedeemsInv, LogInv, CountInv, SpendsDistinct, ReceiptsDistinct;
    GrantsRun(x.t.cfg, labels);
    RunInv(x.t.cfg, labels);
    var s := Exec(x.t.cfg, Init, labels);
    assert AnswerOk(x.t.cfg, s.shared, i, s.issues[i]) && AnswerOk(x.t.cfg, s.shared, j, s.issues[j]);
    assert IssueInv(x.t.cfg, s.shared, s.boot, s.issues[i]) && IssueInv(x.t.cfg, s.shared, s.boot, s.issues[j]);
  }
}
