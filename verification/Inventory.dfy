/** `InventoryApplication`: the redemption code as it is written, one statement after another,
    proved to be one uninterrupted passage of the protocol's steps. */
module Inventory {
  import opened Symbols
  import opened Receipt
  import opened Storage
  import opened Protocol
  import opened Passage

  /** A call's step, where a program point lacking its local facts stands still. */
  function TryStep(cfg: Config, sh: Shared, c: RedeemCall, e: Env): (Shared, RedeemCall) {
    if Steppable(c) then RedeemStep(cfg, sh, c, e) else (sh, c)
  }

  function Mover(cfg: Config): (Shared, RedeemCall, Env) -> (Shared, RedeemCall) {
    (sh, c, e) => TryStep(cfg, sh, c, e)
  }

  /** One call running alone through the given environments. */
  function Solo(cfg: Config, sh: Shared, c: RedeemCall, envs: seq<Env>): (Shared, RedeemCall) {
    Through(Mover(cfg), sh, c, envs)
  }

  predicate Ended(pc: RedeemPc) {
    pc.Answered? || pc.PostInvocationFailed? || pc.Raised?
  }

  /** A solo passage is a run of the whole system in which only this call moves. */
  lemma {:induction false} SoloIsRun(cfg: Config, s: State, i: nat, envs: seq<Env>)
    requires i < |s.redeems| && s.redeems[i].alive
    ensures
      var s' := Exec(cfg, s, seq(|envs|, k requires 0 <= k < |envs| => StepRedeem(i, envs[k])));
      && |s'.redeems| == |s.redeems|
      && (s'.shared, s'.redeems[i]) == Solo(cfg, s.shared, s.redeems[i], envs)
      && s'.redeems[i].alive
      && (forall j :: 0 <= j < |s.redeems| && j != i ==> s'.redeems[j] == s.redeems[j])
      && s'.issues == s.issues && s'.boot == s.boot
    decreases |envs|
  {
    hide TryStep, Next;
    if envs != [] {
      var n := |envs| - 1;
      var labels := seq(|envs|, k requires 0 <= k < |envs| => StepRedeem(i, envs[k]));
      SoloIsRun(cfg, s, i, envs[..n]);
      assert labels[..n] == seq(n, k requires 0 <= k < n => StepRedeem(i, envs[..n][k]));
      OneStep(cfg, Exec(cfg, s, labels[..n]), i, envs[n]);
    }
  }

  /** One label of a solo passage. */
  lemma OneStep(cfg: Config, s: State, i: nat, e: Env)
    requires i < |s.redeems| && s.redeems[i].alive
    ensures var t := Next(cfg, s, StepRedeem(i, e));
            && |t.redeems| == |s.redeems| && (t.shared, t.redeems[i]) == TryStep(cfg, s.shared, s.redeems[i], e)
            && t.redeems[i].alive && (forall j :: 0 <= j < |s.redeems| && j != i ==> t.redeems[j] == s.redeems[j])
            && t.issues == s.issues && t.boot == s.boot
  {
    StaysAlive(cfg, s.shared, s.redeems[i], e);
    hide RedeemStep, Steppable;
  }

  lemma StaysAlive(cfg: Config, sh: Shared, c: RedeemCall, e: Env)
    ensures TryStep(cfg, sh, c, e).1.alive == c.alive
  {
  }

  /** How `redeem` ends: a decision with its receipt, or one of two exceptions. */
  datatype Outcome =
    | Decided(receipt: Payload)
    | PostInvocationError(number: int, completed: bool)
    | Unreceipted

  ghost predicate Ends(c: RedeemCall, o: Outcome) {
    match o
    case Decided(p) => c.pc == Answered(p)
    case PostInvocationError(n, _) => c.pc == PostInvocationFailed && c.invocation == Some(n)
    case Unreceipted => c.pc == Raised
  }

  /** The outcome tells the handler's result truly, and tells of a handler only if one was called. */
  predicate TellsHandler(o: Outcome, handlerOk: bool, before: nat, after: nat) {
    match o
    case Decided(p) =>
      && (p.handlerInvoked ==>
            && p.decision == Allow && p.invocationId == Some(after) && after == before + 1
            && p.reason == (if handlerOk then ALLOW else HANDLER_FAILED)
            && p.businessResult == (if handlerOk then Completed else Failed))
      && (!p.handlerInvoked ==> p.decision == Deny && after == before && p.businessResult == NotInvoked)
    case PostInvocationError(number, completed) => number == after == before + 1 && completed == handlerOk
    case Unreceipted => after == before
  }

  class InventoryApplication {
    const cfg: Config
    const store: SQLiteStore
    var invocationCount: nat
    var nonce: nat

    constructor (cfg: Config, store: SQLiteStore)
      requires cfg.resource.Valid()
      ensures this.cfg == cfg && this.store == store && invocationCount == 0
    {
      this.cfg, this.store := cfg, store;
      invocationCount, nonce := 0, 0;
    }

    ghost function View(minted: map<Term, Mint>): Shared
      reads this, store
    {
      Shared(store.Contents(), invocationCount, nonce, minted)
    }

    /** `issue_resource_challenge`: draw a challenge for one exact call and persist it. */
    method IssueResourceChallenge(id: Term, sku: string, recordId: Term, token: Term, now: int) returns (stored: Result<int>)
      requires Accounted(store.Contents())
      modifies store
      ensures Accounted(store.Contents())
      ensures stored.Ok? <==> LowerHex(id) && now >= 0 && TokenHash(token) !in old(store.resource)
      ensures stored.Err? ==> stored.reason == (if LowerHex(id) then INTERNAL_ERROR else CREDENTIAL_INVALID)
      ensures stored.Err? ==> store.Contents() == old(store.Contents())
      ensures stored.Ok? ==>
        && store.Contents() == AfterStoreResource(old(store.Contents()), TokenHash(token), ChallengeRow(cfg, id, sku, recordId, now))
        && store.resource[TokenHash(token)].expiresAt == stored.value
    {
      if !LowerHex(id) { return Err(CREDENTIAL_INVALID); }
      if now < 0 { return Err(INTERNAL_ERROR); }
      var expiresAt := now + cfg.resource.challengeTtl;
      var inserted := store.StoreResourceChallenge(TokenHash(token), id, cfg.resource.tool, ArgumentsDigest(sku), recordId,
                                                   cfg.resource.audience, now, expiresAt);
      stored := if inserted then Ok(expiresAt) else Err(INTERNAL_ERROR);
    }

    /** Parsing, identifier, bounds, lifetime, chain and scope checks, in source order. */
    method AppraiseCredential(r: LookupRequest, e: Env, minted: map<Term, Mint>)
      returns (refusal: Option<Reason>, credentialId: Option<Term>)
      ensures
        var d := VerifyCredential(cfg, View(minted), NewCall(r, 0), e);
        d == NewCall(r, 0).(credentialId := credentialId, pc := if refusal.None? then CredentialVerified else Denying(refusal.value))
    {
      credentialId := None;
      if e.fault == FaultBefore { return Some(INTERNAL_ERROR), None; }
      if r.credential.MalformedCredential? { return Some(CREDENTIAL_INVALID), None; }
      var cred := r.credential.credential;
      credentialId := Some(cred.id);
      if e.fault == FaultAfter { return Some(INTERNAL_ERROR), credentialId; }
      if !LowerHex(cred.id) { return Some(CREDENTIAL_INVALID), credentialId; }
      if cred.notBefore.None? || cred.notAfter.None? { return Some(CREDENTIAL_INVALID), credentialId; }
      if cred.notAfter.value - cred.notBefore.value > cfg.resource.maxLifetime {
        return Some(CREDENTIAL_INVALID), credentialId;
      }
      if !ChainVerifies(cfg, minted, cred, e.now) {
        return Some(if e.expired then CREDENTIAL_EXPIRED else CREDENTIAL_INVALID), credentialId;
      }
      if cred.scope != {cfg.resource.scope} { return Some(SCOPE_DENIED), credentialId; }
      refusal := None;
    }

    /** The unlocked lookup of the stored challenge and its context and consumption checks. */
    method LookUpChallenge(r: LookupRequest, id: Term, e: Env, ghost c: RedeemCall, ghost minted: map<Term, Mint>)
      returns (refusal: Option<Reason>, tokenHash: Option<Term>, row: Option<ResourceRow>)
      requires c.request == r && c.credentialId == Some(id) && c.tokenHash.None? && c.row.None?
      ensures refusal.None? ==> row.Some? && tokenHash.Some?
      ensures
        ReadChallenge(cfg, View(minted), c, e) ==
        c.(tokenHash := tokenHash, row := row, pc := if refusal.None? then ChallengeRead else Denying(refusal.value))
    {
      tokenHash, row := None, None;
      if e.fault == FaultBefore { return Some(INTERNAL_ERROR), None, None; }
      if r.proof.signature.NotASignature? { return Some(HOLDER_PROOF_INVALID), None, None; }
      tokenHash := Some(TokenHash(r.proof.challenge));
      if e.fault == FaultAfter { return Some(INTERNAL_ERROR), tokenHash, None; }
      var stored := store.GetResourceChallenge(tokenHash.value);
      if stored.None? { return Some(CHALLENGE_INVALID), tokenHash, None; }
      if !RowMatches(cfg, r, id, stored.value) { return Some(HOLDER_PROOF_INVALID), tokenHash, None; }
      if stored.value.consumedAt.Some? { return Some(CHALLENGE_CONSUMED), tokenHash, None; }
      refusal, row := None, stored;
    }

    method VerifyProof(r: LookupRequest, cred: Credential, row: ResourceRow, e: Env) returns (refusal: Option<Reason>)
      ensures forall c: RedeemCall {:trigger CheckProof(cfg, c, e)} ::
                c.request == r && r.credential == ParsedCredential(cred) && c.row == Some(row) ==>
                CheckProof(cfg, c, e) == c.(pc := if refusal.None? then ProofChecked else Denying(refusal.value))
    {
      if e.fault != NoFault { return Some(INTERNAL_ERROR); }
      if e.now >= row.expiresAt { return Some(CHALLENGE_STALE); }
      if !e.macValid || !ProofCovers(r.proof, cred, cfg.resource.audience, cfg.resource.scope, r.recordId, r.sku) {
        return Some(HOLDER_PROOF_INVALID);
      }
      refusal := None;
    }

    /** `_receipt` for a denial, and the decision carrying it. */
    method Refuse(
      r: LookupRequest, credentialId: Option<Term>, tokenHash: Option<Term>, reason: Reason, e: Env,
      ghost c: RedeemCall, ghost minted: map<Term, Mint>) returns (o: Outcome)
      requires c.request == r && c.credentialId == credentialId && c.tokenHash == tokenHash && c.pc == Denying(reason)
      modifies this`nonce
      ensures
        var (sk, d) := RedeemStep(cfg, old(View(minted)), c, e);
        View(minted) == sk && Ends(d, o) && Ended(d.pc)
      ensures !o.PostInvocationError?
      ensures o.Decided? ==>
        && o.receipt.reason == reason && o.receipt.decidedAt == e.now
        && o.receipt.decision == Deny && !o.receipt.handlerInvoked && o.receipt.businessResult == NotInvoked
    {
      var p := InventoryPayload(cfg.resource, nonce, e.now, invocationCount, Deny, reason, credentialId, tokenHash,
                                ArgumentsDigest(r.sku), Some(r.recordId), None, NotInvoked);
      if e.signerOk && ValidPayload(p) {
        nonce := nonce + 1;
        o := Decided(p);
      } else {
        o := Unreceipted;
      }
    }

    /** The handler's answer and the receipt for it, after the invocation has been counted. */
    method Answer(
      r: LookupRequest, credentialId: Option<Term>, tokenHash: Option<Term>, number: int, handlerOk: bool, e: Env,
      ghost c: RedeemCall, ghost minted: map<Term, Mint>) returns (o: Outcome)
      requires c.request == r && c.credentialId == credentialId && c.tokenHash == tokenHash
      requires c.invocation == Some(number) && c.pc == Handled(handlerOk)
      modifies this`nonce
      ensures
        var (sk, d) := RedeemStep(cfg, old(View(minted)), c, e);
        View(minted) == sk && Ends(d, o) && Ended(d.pc)
      ensures invocationCount > 0 && number == invocationCount ==> TellsHandler(o, handlerOk, invocationCount - 1, invocationCount)
    {
      var p := InventoryPayload(cfg.resource, nonce, e.now, invocationCount, Allow,
                                if handlerOk then ALLOW else HANDLER_FAILED, credentialId, tokenHash,
                                ArgumentsDigest(r.sku), Some(r.recordId), Some(number),
                                if handlerOk then Completed else Failed);
      if e.signerOk && ValidPayload(p) {
        nonce := nonce + 1;
        o := Decided(p);
      } else {
        o := PostInvocationError(number, handlerOk);
      }
    }

    /** The transaction of a redemption whose proof has been checked. */
    method Spend(r: LookupRequest, cred: Credential, tokenHash: Term, e: Env, ghost c: RedeemCall, ghost minted: map<Term, Mint>)
      returns (refusal: Option<Reason>, spend: Option<SpendResult>)
      requires Accounted(store.Contents())
      requires cred.notBefore.Some? && cred.notAfter.Some?
      requires c.request == r && r.credential == ParsedCredential(cred) && c.tokenHash == Some(tokenHash)
      requires c.pc == ProofChecked && c.spend.None?
      modifies store
      ensures Accounted(store.Contents())
      ensures refusal.None? ==> spend.Some?
      ensures
        var (sk, d) := RedeemStep(cfg, old(View(minted)), c, e);
        && View(minted) == sk
        && d == c.(spend := spend, cells := d.cells, pc := if refusal.None? then Committed else Denying(refusal.value))
    {
      hide Accounted, Diff, AfterSpend, SpendOutcome, Live, StoredFor, ValidPayload, VerifyCredential, ReadChallenge, CheckProof,
        AllowPayload, DenialPayload;
      spend := None;
      if e.fault == FaultBefore { return Some(INTERNAL_ERROR), None; }
      var args := Arguments(cfg, r, cred, tokenHash);
      var result, lostRace := store.ConsumeChallengeAndSpendCredential(args, e.now);
      if result.Err? { return Some(if e.fault == FaultAfter then INTERNAL_ERROR else result.reason), None; }
      if !result.value.firstSpend {
        return Some(if e.fault == FaultAfter then INTERNAL_ERROR else CREDENTIAL_SPENT), None;
      }
      spend := Some(result.value);
      refusal := if e.fault == FaultAfter then Some(INTERNAL_ERROR) else None;
    }

    method ClearHandler(cred: Credential, spend: SpendResult, e: Env) returns (refusal: Option<Reason>)
      requires cred.notBefore.Some? && cred.notAfter.Some?
      ensures forall c: RedeemCall {:trigger ClearForHandler(c, e)} ::
                c.request.credential == ParsedCredential(cred) && c.spend == Some(spend) ==>
                ClearForHandler(c, e) ==
                  if refusal.None? then c.(clearedAt := Some(e.now), pc := Cleared) else c.(pc := Denying(refusal.value))
    {
      if e.fault != NoFault { return Some(INTERNAL_ERROR); }
      if e.now >= spend.challengeExpiresAt { return Some(CHALLENGE_STALE); }
      if e.now < cred.notBefore.value || e.now > cred.notAfter.value { return Some(CREDENTIAL_EXPIRED); }
      refusal := None;
    }

    /** `redeem`, in program order and with every way it can end. The environments are
        consumed in order, one per access to the clock, the store or the handler. */
    method Redeem(r: LookupRequest, e: seq<Env>, minted: map<Term, Mint>) returns (o: Outcome)
      requires |e| == 8 && WellFormedRequest(r) && Accounted(store.Contents())
      modifies this`invocationCount, this`nonce, store
      ensures Accounted(store.Contents())
      ensures
        var (sh, c) := Solo(cfg, old(View(minted)), NewCall(r, 0), e);
        View(minted) == sh && Ends(c, o)
      ensures o.Decided? && o.receipt.handlerInvoked ==>
        && (o.receipt.reason == ALLOW <==> e[6].handlerOk) && (o.receipt.reason == HANDLER_FAILED <==> !e[6].handlerOk)
        && (o.receipt.businessResult == Completed <==> e[6].handlerOk) && (o.receipt.businessResult == Failed <==> !e[6].handlerOk)
        && o.receipt.decision == Allow && o.receipt.invocationId == Some(invocationCount) && invocationCount == old(invocationCount) + 1
      ensures o.Decided? && !o.receipt.handlerInvoked ==> o.receipt.decision == Deny && invocationCount == old(invocationCount)
      ensures o.PostInvocationError? ==>
        o.completed == e[6].handlerOk && o.number == invocationCount == old(invocationCount) + 1
      ensures o.Unreceipted? ==> invocationCount == old(invocationCount)
    {
      hide Solo, Accounted, ReadChallenge, CheckProof, ClearForHandler, VerifyCredential, ValidPayload, AfterSpend, SpendOutcome, Diff,
        AllowPayload, DenialPayload;
      ghost var sh, c0 := View(minted), NewCall(r, 0);
      Starts(cfg, sh, c0, e);

      var refusal, credentialId := AppraiseCredential(r, e[0], minted);
      ghost var c1 := VerifyCredential(cfg, sh, c0, e[0]);
      Took(cfg, sh, c0, e, 0, sh, c0);
      if refusal.Some? {
        o := Refuse(r, credentialId, None, refusal.value, e[1], c1, minted);
        Took(cfg, sh, c0, e, 1, sh, c1);
        Concludes(cfg, sh, c0, e, 2);
        return;
      }

      Admitted(cfg, sh, c0, e[0]);
      var cred := r.credential.credential;
      var tokenHash, row;
      refusal, tokenHash, row := LookUpChallenge(r, credentialId.value, e[1], c1, minted);
      ghost var c2 := ReadChallenge(cfg, sh, c1, e[1]);
      Took(cfg, sh, c0, e, 1, sh, c1);
      if refusal.Some? {
        o := Refuse(r, credentialId, tokenHash, refusal.value, e[2], c2, minted);
        Took(cfg, sh, c0, e, 2, sh, c2);
        Concludes(cfg, sh, c0, e, 3);
        return;
      }

      refusal := VerifyProof(r, cred, row.value, e[2]);
      ghost var c3 := CheckProof(cfg, c2, e[2]);
      Took(cfg, sh, c0, e, 2, sh, c2);
      if refusal.Some? {
        o := Refuse(r, credentialId, tokenHash, refusal.value, e[3], c3, minted);
        Took(cfg, sh, c0, e, 3, sh, c3);
        Concludes(cfg, sh, c0, e, 4);
        return;
      }

      o := SpendAndInvoke(r, cred, credentialId, tokenHash.value, e, c3, minted);
      SoloSplit(cfg, sh, c0, e, 3);
    }

    /** The second half of `redeem`: everything from the transaction on. */
    method SpendAndInvoke(
      r: LookupRequest, cred: Credential, credentialId: Option<Term>, tokenHash: Term, e: seq<Env>,
      ghost c: RedeemCall, ghost minted: map<Term, Mint>) returns (o: Outcome)
      requires |e| == 8 && Accounted(store.Contents())
      requires cred.notBefore.Some? && cred.notAfter.Some?
      requires c.request == r && r.credential == ParsedCredential(cred) && c.credentialId == credentialId
      requires c.tokenHash == Some(tokenHash) && c.pc == ProofChecked && c.spend.None? && c.clearedAt.None?
      modifies this`invocationCount, this`nonce, store
      ensures Accounted(store.Contents())
      ensures
        var (sk, d) := Solo(cfg, old(View(minted)), c, e[3..]);
        View(minted) == sk && Ends(d, o)
      ensures TellsHandler(o, e[6].handlerOk, old(invocationCount), invocationCount)
    {
      hide Solo, Accounted, ClearForHandler, ValidPayload, AfterSpend, SpendOutcome, Diff;
      ghost var sh := View(minted);
      ghost var rest := e[3..];
      Starts(cfg, sh, c, rest);
      var refusal, spend := Spend(r, cred, tokenHash, e[3], c, minted);
      ghost var (sh1, c1) := RedeemStep(cfg, sh, c, e[3]);
      Took(cfg, sh, c, rest, 0, sh, c);
      if refusal.Some? {
        o := Refuse(r, credentialId, Some(tokenHash), refusal.value, e[4], c1, minted);
        Took(cfg, sh, c, rest, 1, sh1, c1);
        Concludes(cfg, sh, c, rest, 2);
        return;
      }

      // The at-most-once boundary: the spend above stays even if nothing below happens.
      o := Invoke(r, cred, credentialId, tokenHash, spend.value, e, c1, minted);
      SoloSplit(cfg, sh, c, rest, 1);
      assert rest[1..] == e[4..];
    }

    /** The last third of `redeem`: look at the clock once more, then count, call and answer. */
    method Invoke(
      r: LookupRequest, cred: Credential, credentialId: Option<Term>, tokenHash: Term, spend: SpendResult, e: seq<Env>,
      ghost c: RedeemCall, ghost minted: map<Term, Mint>) returns (o: Outcome)
      requires |e| == 8 && cred.notBefore.Some? && cred.notAfter.Some?
      requires c.request == r && r.credential == ParsedCredential(cred) && c.credentialId == credentialId
      requires c.tokenHash == Some(tokenHash) && c.pc == Committed && c.spend == Some(spend)
      modifies this`invocationCount, this`nonce
      ensures
        var (sk, d) := Solo(cfg, old(View(minted)), c, e[4..]);
        View(minted) == sk && Ends(d, o)
      ensures TellsHandler(o, e[6].handlerOk, old(invocationCount), invocationCount)
    {
      hide Solo, ValidPayload, VerifyCredential, ReadChallenge, CheckProof, AfterSpend, SpendOutcome, Diff, AllowPayload, DenialPayload;
      ghost var sh, rest := View(minted), e[4..];
      Starts(cfg, sh, c, rest);
      var refusal := ClearHandler(cred, spend, e[4]);
      ghost var c1 := ClearForHandler(c, e[4]);
      Took(cfg, sh, c, rest, 0, sh, c);
      if refusal.Some? {
        o := Refuse(r, credentialId, Some(tokenHash), refusal.value, e[5], c1, minted);
        Took(cfg, sh, c, rest, 1, sh, c1);
        Concludes(cfg, sh, c, rest, 2);
        return;
      }
      o := CallHandler(r, credentialId, tokenHash, e, c1, minted);
      SoloSplit(cfg, sh, c, rest, 1);
      assert rest[1..] == e[5..];
    }

    /** Count the invocation, call the handler, answer with its result. */
    method CallHandler(
      r: LookupRequest, credentialId: Option<Term>, tokenHash: Term, e: seq<Env>, ghost c: RedeemCall, ghost minted: map<Term, Mint>)
      returns (o: Outcome)
      requires |e| == 8 && c.request == r && c.credentialId == credentialId && c.tokenHash == Some(tokenHash) && c.pc == Cleared
      modifies this`invocationCount, this`nonce
      ensures
        var (sk, d) := Solo(cfg, old(View(minted)), c, e[5..]);
        View(minted) == sk && Ends(d, o)
      ensures TellsHandler(o, e[6].handlerOk, old(invocationCount), invocationCount)
      ensures invocationCount == old(invocationCount) + 1
    {
      hide Solo, ValidPayload, VerifyCredential, ReadChallenge, CheckProof, AfterSpend, SpendOutcome, Diff, AllowPayload, DenialPayload;
      ghost var sh, rest := View(minted), e[5..];
      Starts(cfg, sh, c, rest);
      invocationCount := invocationCount + 1;
      var number := invocationCount;
      ghost var (sh1, c1) := RedeemStep(cfg, sh, c, e[5]);
      Took(cfg, sh, c, rest, 0, sh, c);
      ghost var c2 := c1.(pc := Handled(e[6].handlerOk));
      Took(cfg, sh, c, rest, 1, sh1, c1);
      o := Answer(r, credentialId, Some(tokenHash), number, e[6].handlerOk, e[7], c2, minted);
      Took(cfg, sh, c, rest, 2, sh1, c2);
      Concludes(cfg, sh, c, rest, 3);
    }
  }

  lemma Starts(cfg: Config, sh: Shared, c: RedeemCall, envs: seq<Env>)
    ensures Solo(cfg, sh, c, envs[..0]) == (sh, c)
  {
    ThroughNone(Mover(cfg), sh, c, envs);
  }

  lemma Took(cfg: Config, sh: Shared, c: RedeemCall, envs: seq<Env>, k: nat, sk: Shared, d: RedeemCall)
    requires k < |envs| && Solo(cfg, sh, c, envs[..k]) == (sk, d) && Steppable(d)
    ensures Solo(cfg, sh, c, envs[..k + 1]) == RedeemStep(cfg, sk, d, envs[k])
  {
    hide RedeemStep, Through;
    ThroughNext(Mover(cfg), sh, c, envs, k);
  }

  lemma Concludes(cfg: Config, sh: Shared, c: RedeemCall, envs: seq<Env>, k: nat)
    requires k <= |envs| && Ended(Solo(cfg, sh, c, envs[..k]).1.pc)
    ensures Solo(cfg, sh, c, envs) == Solo(cfg, sh, c, envs[..k])
  {
    hide Through;
    ThroughDone(Mover(cfg), sh, c, envs, k);
  }

  lemma SoloSplit(cfg: Config, sh: Shared, c: RedeemCall, envs: seq<Env>, k: nat)
    requires k <= |envs|
    ensures Solo(cfg, sh, c, envs) == var (sk, d) := Solo(cfg, sh, c, envs[..k]); Solo(cfg, sk, d, envs[k..])
  {
    hide Through;
    ThroughSplit(Mover(cfg), sh, c, envs, k);
  }

  lemma Admitted(cfg: Config, sh: Shared, c: RedeemCall, e: Env)
    requires VerifyCredential(cfg, sh, c, e).pc.CredentialVerified?
    requires c.pc.Received?
    ensures c.request.credential.ParsedCredential?
    ensures VerifyCredential(cfg, sh, c, e).credentialId == Some(c.request.credential.credential.id)
    ensures c.request.credential.credential.notBefore.Some? && c.request.credential.credential.notAfter.Some?
  {
  }
}
