/** An honest redemption that must be refused: a malformed or foreign proof, or a challenge that
    has already been consumed. It is answered without touching the tables or the counter. */
module Refusal {
  import opened Symbols
  import opened Receipt
  import opened Storage
  import opened Protocol
  import opened ProtocolInvariant
  import opened ProtocolSafety
  import opened Race

  /** Why this request will be refused, and the challenge hash its receipt will carry. */
  ghost predicate WillRefuse(
    cfg: Config, w: Window, sh: Shared, cred: Credential, r: LookupRequest, reason: Reason, tok: Option<Term>)
  {
    && WellFormedRequest(r)
    && r.credential == ParsedCredential(cred)
    && BoundsAccepted(cfg, cred)
    && cred.id in sh.minted && sh.minted[cred.id].credential == cred
    && cred.issuer == cfg.resource.trustedBroker
    && cred.scope == {cfg.resource.scope}
    && cred.notBefore.value <= w.lo && w.hi <= cred.notAfter.value
    && if r.proof.signature.NotASignature? then reason == HOLDER_PROOF_INVALID && tok == None
       else
         && tok == Some(Hash(r)) && Hash(r) in sh.tables.resource
         && RowMatches(cfg, r, cred.id, sh.tables.resource[Hash(r)])
         && if sh.tables.resource[Hash(r)].consumedAt.Some? then reason == CHALLENGE_CONSUMED
            else
              && reason == HOLDER_PROOF_INVALID && w.hi < sh.tables.resource[Hash(r)].expiresAt
              && !ProofCovers(r.proof, cred, cfg.resource.audience, cfg.resource.scope, r.recordId, r.sku)
  }

  ghost predicate RefusalReceipt(
    cfg: Config, w: Window, count: nat, cred: Credential, r: LookupRequest, reason: Reason, tok: Option<Term>, p: Payload)
  {
    && p.receiptId.Random? && w.lo <= p.decidedAt <= w.hi
    && p == InventoryPayload(cfg.resource, p.receiptId.nonce, p.decidedAt, count, Deny, reason, Some(cred.id), tok,
                             ArgumentsDigest(r.sku), Some(r.recordId), None, NotInvoked)
  }

  ghost predicate RefusalPoint(
    cfg: Config, w: Window, sh: Shared, cred: Credential, c: RedeemCall, reason: Reason, tok: Option<Term>)
  {
    match c.pc
    case Received => c.tokenHash.None?
    case CredentialVerified => c.credentialId == Some(cred.id) && c.tokenHash.None?
    case ChallengeRead =>
      && c.credentialId == Some(cred.id) && c.tokenHash == tok && tok.Some?
      && c.row.Some? && w.hi < c.row.value.expiresAt
      && reason == HOLDER_PROOF_INVALID
      && !ProofCovers(c.request.proof, cred, cfg.resource.audience, cfg.resource.scope, c.request.recordId, c.request.sku)
    case Denying(why) => why == reason && c.credentialId == Some(cred.id) && c.tokenHash == tok
    case Answered(p) => RefusalReceipt(cfg, w, sh.count, cred, c.request, reason, tok, p)
    case _ => false
  }

  /** One step on the way to the refusal: nothing moves but the call and the receipt number. */
  ghost predicate RefusalMove(
    cfg: Config, w: Window, cred: Credential, reason: Reason, tok: Option<Term>, sh: Shared, c: RedeemCall, sk: Shared, d: RedeemCall)
  {
    && sk == sh.(nonce := sk.nonce) && d.request == c.request && d.alive
    && RefusalPoint(cfg, w, sk, cred, d, reason, tok)
    && (Rank(d.pc) < Rank(c.pc) || Rank(c.pc) == 0 == Rank(d.pc))
  }

  lemma RefuseVerify(cfg: Config, w: Window, sh: Shared, cred: Credential, c: RedeemCall, reason: Reason, tok: Option<Term>, e: Env)
    requires WillRefuse(cfg, w, sh, cred, c.request, reason, tok) && RefusalPoint(cfg, w, sh, cred, c, reason, tok)
    requires HonestEnv(e, w) && c.alive && c.pc.Received?
    ensures RefusalMove(cfg, w, cred, reason, tok, sh, c, sh, VerifyCredential(cfg, sh, c, e))
  {
    hide LowerHex, ProofCovers, RowMatches, RefusalReceipt;
  }

  lemma RefuseRead(cfg: Config, w: Window, sh: Shared, cred: Credential, c: RedeemCall, reason: Reason, tok: Option<Term>, e: Env)
    requires WillRefuse(cfg, w, sh, cred, c.request, reason, tok) && RefusalPoint(cfg, w, sh, cred, c, reason, tok)
    requires HonestEnv(e, w) && c.alive && c.pc.CredentialVerified? && c.credentialId.Some?
    ensures RefusalMove(cfg, w, cred, reason, tok, sh, c, sh, ReadChallenge(cfg, sh, c, e))
  {
    hide LowerHex, ProofCovers, BoundsAccepted, RefusalReceipt;
  }

  lemma RefuseCheck(cfg: Config, w: Window, sh: Shared, cred: Credential, c: RedeemCall, reason: Reason, tok: Option<Term>, e: Env)
    requires WillRefuse(cfg, w, sh, cred, c.request, reason, tok) && RefusalPoint(cfg, w, sh, cred, c, reason, tok)
    requires HonestEnv(e, w) && c.alive && c.pc.ChallengeRead? && c.row.Some?
    ensures c.request.credential.ParsedCredential?
    ensures RefusalMove(cfg, w, cred, reason, tok, sh, c, sh, CheckProof(cfg, c, e))
  {
    hide LowerHex, ProofCovers, BoundsAccepted, RowMatches, RefusalReceipt;
  }

  lemma RefuseSign(cfg: Config, w: Window, sh: Shared, cred: Credential, c: RedeemCall, reason: Reason, tok: Option<Term>, e: Env)
    requires WillRefuse(cfg, w, sh, cred, c.request, reason, tok) && RefusalPoint(cfg, w, sh, cred, c, reason, tok)
    requires HonestEnv(e, w) && c.alive && c.pc.Denying? && ValidPayload(DenialPayload(cfg, sh, c, c.pc.reason, e.now))
    ensures var (sk, d) := Sign(sh, c, DenialPayload(cfg, sh, c, c.pc.reason, e.now), e, Raised);
            RefusalMove(cfg, w, cred, reason, tok, sh, c, sk, d)
  {
    hide ValidPayload, WillRefuse;
  }

  lemma RefusalStep(
    cfg: Config, w: Window, sh: Shared, boot: nat, cred: Credential, c: RedeemCall, reason: Reason, tok: Option<Term>, e: Env)
    requires WillRefuse(cfg, w, sh, cred, c.request, reason, tok) && RefusalPoint(cfg, w, sh, cred, c, reason, tok)
    requires HonestEnv(e, w) && CallInv(cfg, sh, boot, c) && c.alive && w.lo >= 0 && cfg.NonEmptyStrings()
    ensures Steppable(c)
    ensures var (sk, d) := RedeemStep(cfg, sh, c, e); RefusalMove(cfg, w, cred, reason, tok, sh, c, sk, d)
  {
    hide CallInv, ValidPayload, WillRefuse, VerifyCredential, ReadChallenge, CheckProof, DenialPayload, AfterSpend, SpendOutcome, Diff,
      RefusalReceipt, ProofCovers, Sign;
    CallSteppable(cfg, sh, boot, c);
    assert e.now >= 0;
    match c.pc
    case Received => RefuseVerify(cfg, w, sh, cred, c, reason, tok, e);
    case CredentialVerified => RefuseRead(cfg, w, sh, cred, c, reason, tok, e);
    case ChallengeRead => RefuseCheck(cfg, w, sh, cred, c, reason, tok, e);
    case Denying(_) =>
      SigningSucceeds(cfg, sh, boot, c, e.now);
      RefuseSign(cfg, w, sh, cred, c, reason, tok, e);
    case _ =>
  }

  /** The state after part of the refusal: only the call and the receipt nonce have moved. */
  ghost predicate Refusing(
    cfg: Config, w: Window, s: State, t: State, i: nat, cred: Credential, reason: Reason, tok: Option<Term>)
  {
    && Inv(cfg, t) && i < |s.redeems| == |t.redeems|
    && t.shared == s.shared.(nonce := t.shared.nonce)
    && t.redeems == s.redeems[i := t.redeems[i]]
    && t.redeems[i].request == s.redeems[i].request && t.redeems[i].alive
    && t.issues == s.issues && t.boot == s.boot && t.rowsAtBoot == s.rowsAtBoot && t.logAtBoot == s.logAtBoot
    && WillRefuse(cfg, w, t.shared, cred, t.redeems[i].request, reason, tok)
    && RefusalPoint(cfg, w, t.shared, cred, t.redeems[i], reason, tok)
  }

  lemma RefuseNext(
    cfg: Config, w: Window, s: State, t: State, i: nat, cred: Credential, reason: Reason, tok: Option<Term>, e: Env)
    requires Refusing(cfg, w, s, t, i, cred, reason, tok) && HonestEnv(e, w) && w.lo >= 0 && cfg.NonEmptyStrings()
    ensures Refusing(cfg, w, s, StepRedeemAt(cfg, t, i, e), i, cred, reason, tok)
    ensures var u := StepRedeemAt(cfg, t, i, e);
            Rank(u.redeems[i].pc) < Rank(t.redeems[i].pc) || Rank(t.redeems[i].pc) == 0 == Rank(u.redeems[i].pc)
  {
    hide CallInv, Accounted, IssuesInv, LogInv, CountInv, SpendsDistinct, ReceiptsDistinct, RedeemStep, Steppable,
      RefusalPoint, HonestEnv, RowMatches, ProofCovers, BoundsAccepted;
    RedeemStepInv(cfg, t, i, e);
    RefusalStep(cfg, w, t.shared, t.boot, cred, t.redeems[i], reason, tok, e);
  }

  /** Every honest schedule that gives the call its steps ends in the foreseen refusal, with the
      tables, the counter and every other call as they were. */
  lemma {:induction false} RefusalRun(
    cfg: Config, w: Window, s: State, i: nat, cred: Credential, reason: Reason, tok: Option<Term>, labels: seq<Label>)
    requires Inv(cfg, s) && cfg.NonEmptyStrings() && w.lo >= 0
    requires i < |s.redeems| && s.redeems[i].pc.Received? && s.redeems[i].tokenHash.None? && s.redeems[i].alive
    requires WillRefuse(cfg, w, s.shared, cred, s.redeems[i].request, reason, tok)
    requires HonestSchedule(labels, i, 1, w)
    ensures Refusing(cfg, w, s, Exec(cfg, s, labels), i, cred, reason, tok)
    ensures var pc := Exec(cfg, s, labels).redeems[i].pc; Rank(pc) == 0 || Rank(pc) + Steps(labels, i) <= 8
    decreases |labels|
  {
    hide Inv, WillRefuse, StepRedeemAt;
    if labels != [] {
      var m := |labels| - 1;
      var before, l := labels[..m], labels[m];
      RefusalRun(cfg, w, s, i, cred, reason, tok, before);
      var t := Exec(cfg, s, before);
      assert l.call == i;
      RefuseNext(cfg, w, s, t, i, cred, reason, tok, l.env);
      assert Exec(cfg, s, labels) == StepRedeemAt(cfg, t, i, l.env);
    }
  }
}
