/** Why a redemption was decided as it was: each reason against the credential, the stored row, the
    proof and the clock reading that produced it, in every run. */
module Causes {
  import opened Symbols
  import opened Receipt
  import opened Storage
  import opened Protocol
  import opened ProtocolInvariant
  import opened ProtocolSafety
  import opened ProtocolTheorems
  import opened Origins

  // ---- What each reason means, in terms of the request, the tables and the reading ----

  /** A well-formed identifier and a lifetime the resource accepts. */
  predicate Admissible(cfg: Config, cred: Credential) {
    && LowerHex(cred.id) && cred.notBefore.Some? && cred.notAfter.Some?
    && cred.notAfter.value <= cred.notBefore.value + cfg.resource.maxLifetime
  }

  /** Signed by the broker under the trusted key, at a time inside its window. */
  predicate Authentic(cfg: Config, sh: Shared, cred: Credential, now: int) {
    && cred.id in sh.minted && sh.minted[cred.id].credential == cred && cred.issuer == cfg.resource.trustedBroker
    && !(cred.notBefore.Some? && now < cred.notBefore.value)
    && !(cred.notAfter.Some? && cred.notAfter.value < now)
  }

  /** The credential checks deny. */
  predicate CredentialCause(cfg: Config, sh: Shared, r: LookupRequest, e: Env, reason: Reason) {
    match r.credential
    case MalformedCredential => reason == if e.fault == FaultBefore then INTERNAL_ERROR else CREDENTIAL_INVALID
    case ParsedCredential(cred) =>
      if e.fault != NoFault then reason == INTERNAL_ERROR
      else
        match reason
        case CREDENTIAL_INVALID => !Admissible(cfg, cred) || (!Authentic(cfg, sh, cred, e.now) && !e.expired)
        case CREDENTIAL_EXPIRED => Admissible(cfg, cred) && !Authentic(cfg, sh, cred, e.now) && e.expired
        case SCOPE_DENIED => Admissible(cfg, cred) && Authentic(cfg, sh, cred, e.now) && cred.scope != {cfg.resource.scope}
        case _ => false
  }

  /** The row was stored for another credential, tool, argument, record or audience. */
  predicate OtherCall(cfg: Config, r: LookupRequest, id: Term, row: ResourceRow) {
    || row.credentialId != id || row.recordId != r.recordId || row.argumentsDigest != Sha256("arguments", [Plain(r.sku)])
    || row.tool != cfg.resource.tool || row.audience != cfg.resource.audience
  }

  function Challenge(r: LookupRequest): Term {
    Sha256("challenge-token", [r.proof.challenge])
  }

  /** The unlocked lookup denies. */
  predicate LookupCause(cfg: Config, t: Tables, r: LookupRequest, id: Term, e: Env, reason: Reason) {
    var h := Challenge(r);
    if r.proof.signature == NotASignature
    then reason == if e.fault == FaultBefore then INTERNAL_ERROR else HOLDER_PROOF_INVALID
    else if e.fault != NoFault then reason == INTERNAL_ERROR
    else
      match reason
      case CHALLENGE_INVALID => h !in t.resource
      case HOLDER_PROOF_INVALID => h in t.resource && OtherCall(cfg, r, id, t.resource[h])
      case CHALLENGE_CONSUMED => h in t.resource && !OtherCall(cfg, r, id, t.resource[h]) && t.resource[h].consumedAt.Some?
      case _ => false
  }

  /** The proof is not a signature by the credential's subject over exactly this call. */
  predicate Uncovered(cfg: Config, r: LookupRequest, cred: Credential) {
    match r.proof.signature
    case NotASignature => true
    case Signed(key, st) =>
      || key != cred.subject || st.subject != cred.subject || st.credentialId != cred.id || st.challenge != r.proof.challenge
      || st.audience != cfg.resource.audience || st.scope != cfg.resource.scope || st.recordId != r.recordId || st.sku != r.sku
  }

  /** The proof check denies, on the row as it was read. */
  predicate ProofCause(cfg: Config, r: LookupRequest, cred: Credential, expiresAt: int, e: Env, reason: Reason) {
    if e.fault != NoFault then reason == INTERNAL_ERROR
    else
      match reason
      case CHALLENGE_STALE => expiresAt <= e.now
      case HOLDER_PROOF_INVALID => e.now < expiresAt && (!e.macValid || Uncovered(cfg, r, cred))
      case _ => false
  }

  /** The transaction denies, on the row and the reading it has under the write lock. */
  predicate SpendCause(cfg: Config, t: Tables, r: LookupRequest, cred: Credential, e: Env, reason: Reason)
    requires cred.notBefore.Some? && cred.notAfter.Some?
  {
    var h := Challenge(r);
    var outside := e.now < cred.notBefore.value || cred.notAfter.value < e.now;
    if e.fault != NoFault then reason == INTERNAL_ERROR
    else if h !in t.resource then reason == CHALLENGE_INVALID
    else
      var row := t.resource[h];
      match reason
      case CHALLENGE_CONSUMED => row.consumedAt.Some?
      case CHALLENGE_STALE => row.consumedAt.None? && row.expiresAt <= e.now
      case CREDENTIAL_EXPIRED => row.consumedAt.None? && e.now < row.expiresAt && outside
      case HOLDER_PROOF_INVALID => row.consumedAt.None? && e.now < row.expiresAt && !outside && OtherCall(cfg, r, cred.id, row)
      case CREDENTIAL_SPENT =>
        row.consumedAt.None? && e.now < row.expiresAt && !outside && !OtherCall(cfg, r, cred.id, row) && cred.id in t.redemptions
      case _ => false
  }

  /** The last look at the clock denies. */
  predicate LateCause(cred: Credential, expiresAt: int, e: Env, reason: Reason)
    requires cred.notBefore.Some? && cred.notAfter.Some?
  {
    if e.fault != NoFault then reason == INTERNAL_ERROR
    else
      match reason
      case CHALLENGE_STALE => expiresAt <= e.now
      case CREDENTIAL_EXPIRED => e.now < expiresAt && (e.now < cred.notBefore.value || cred.notAfter.value < e.now)
      case _ => false
  }

  /** What must be the case for a step at this point to deny for this reason. */
  predicate Cause(cfg: Config, sh: Shared, c: RedeemCall, e: Env, reason: Reason) {
    match c.pc
    case Received => CredentialCause(cfg, sh, c.request, e, reason)
    case CredentialVerified =>
      c.credentialId.Some? && LookupCause(cfg, sh.tables, c.request, c.credentialId.value, e, reason)
    case ChallengeRead =>
      && c.row.Some? && c.request.credential.ParsedCredential?
      && ProofCause(cfg, c.request, c.request.credential.credential, c.row.value.expiresAt, e, reason)
    case ProofChecked =>
      CommitReady(c) && SpendCause(cfg, sh.tables, c.request, c.request.credential.credential, e, reason)
    case Committed =>
      c.spend.Some? && CommitReady(c) && LateCause(c.request.credential.credential, c.spend.value.challengeExpiresAt, e, reason)
    case _ => false
  }

  // ---- A step denies for a reason exactly when that is the case ----

  predicate DeniesFor(cfg: Config, sh: Shared, c: RedeemCall, e: Env, reason: Reason)
    requires Steppable(c)
  {
    RedeemStep(cfg, sh, c, e).1.pc == Denying(reason)
  }

  lemma VerifyDenies(cfg: Config, sh: Shared, c: RedeemCall, e: Env, reason: Reason)
    requires c.pc.Received?
    ensures DeniesFor(cfg, sh, c, e, reason) <==> CredentialCause(cfg, sh, c.request, e, reason)
  {
    hide LowerHex;
  }

  lemma ReadDenies(cfg: Config, sh: Shared, c: RedeemCall, e: Env, reason: Reason)
    requires c.pc.CredentialVerified? && c.credentialId.Some?
    ensures DeniesFor(cfg, sh, c, e, reason) <==> LookupCause(cfg, sh.tables, c.request, c.credentialId.value, e, reason)
  {
  }

  lemma CheckDenies(cfg: Config, sh: Shared, c: RedeemCall, e: Env, reason: Reason)
    requires c.pc.ChallengeRead? && c.row.Some? && c.request.credential.ParsedCredential?
    ensures DeniesFor(cfg, sh, c, e, reason) <==>
            ProofCause(cfg, c.request, c.request.credential.credential, c.row.value.expiresAt, e, reason)
  {
  }

  lemma SpendDenies(cfg: Config, sh: Shared, c: RedeemCall, e: Env, reason: Reason)
    requires c.pc.ProofChecked? && CommitReady(c) && c.tokenHash == Some(Challenge(c.request))
    ensures DeniesFor(cfg, sh, c, e, reason) <==>
            SpendCause(cfg, sh.tables, c.request, c.request.credential.credential, e, reason)
  {
    hide Diff, AfterSpend, SpendRefusal, SpendCause;
    var a := Arguments(cfg, c.request, c.request.credential.credential, c.tokenHash.value);
    SpendAnswers(cfg, sh.tables, c.request, c.request.credential.credential, e, reason);
  }

  /** The transaction's answer and the cause of a denial, without a failure. */
  lemma SpendAnswers(cfg: Config, t: Tables, r: LookupRequest, cred: Credential, e: Env, reason: Reason)
    requires cred.notBefore.Some? && cred.notAfter.Some?
    ensures var refusal := SpendRefusal(t, Arguments(cfg, r, cred, Challenge(r)), e.now);
            e.fault == NoFault ==>
              (SpendCause(cfg, t, r, cred, e, reason) <==>
               if refusal.Some? then reason == refusal.value else reason == CREDENTIAL_SPENT && cred.id in t.redemptions)
    ensures e.fault != NoFault ==> (SpendCause(cfg, t, r, cred, e, reason) <==> reason == INTERNAL_ERROR)
  {
    hide SpendRefusal;
    SpendRefusalMeans(t, Arguments(cfg, r, cred, Challenge(r)), e.now);
  }

  lemma ClearDenies(cfg: Config, sh: Shared, c: RedeemCall, e: Env, reason: Reason)
    requires c.pc.Committed? && c.spend.Some? && CommitReady(c)
    ensures DeniesFor(cfg, sh, c, e, reason) <==>
            LateCause(c.request.credential.credential, c.spend.value.challengeExpiresAt, e, reason)
  {
  }

  /** In any reachable situation a step denies for a reason if and only if its cause holds. */
  lemma StepDenies(cfg: Config, sh: Shared, boot: nat, c: RedeemCall, e: Env, reason: Reason)
    requires CallInv(cfg, sh, boot, c) && !c.pc.Denying?
    ensures Steppable(c)
    ensures DeniesFor(cfg, sh, c, e, reason) <==> Cause(cfg, sh, c, e, reason)
  {
    hide CallInv, CredentialCause, LookupCause, ProofCause, SpendCause, LateCause, DeniesFor;
    CallSteppable(cfg, sh, boot, c);
    CallToken(cfg, sh, boot, c);
    match c.pc
    case Received => VerifyDenies(cfg, sh, c, e, reason);
    case CredentialVerified => ReadDenies(cfg, sh, c, e, reason);
    case ChallengeRead => CheckDenies(cfg, sh, c, e, reason);
    case ProofChecked => SpendDenies(cfg, sh, c, e, reason);
    case Committed => ClearDenies(cfg, sh, c, e, reason);
    case _ => LaterNever(cfg, sh, c, e, reason);
  }

  lemma CallToken(cfg: Config, sh: Shared, boot: nat, c: RedeemCall)
    requires CallInv(cfg, sh, boot, c)
    ensures c.pc.ProofChecked? ==> c.tokenHash == Some(Challenge(c.request)) && CommitReady(c)
    ensures c.pc.Committed? ==> c.spend.Some? && CommitReady(c)
  {
  }

  lemma LaterNever(cfg: Config, sh: Shared, c: RedeemCall, e: Env, reason: Reason)
    requires c.pc.Cleared? || c.pc.Invoked? || c.pc.Handled? || c.pc.Answered? || c.pc.PostInvocationFailed? || c.pc.Raised?
    ensures !DeniesFor(cfg, sh, c, e, reason)
  {
    hide ValidPayload, AllowPayload;
  }

  // ---- Over all runs ----

  /** The receipt speaks of this call: its credential, challenge, arguments and record, under the
      resource's own names and policy. */
  predicate Carries(cfg: Config, c: RedeemCall, p: Payload) {
    && p.service == Inventory && p.credentialId == c.credentialId && p.tokenHash == c.tokenHash
    && p.invocationId == (if c.pc.Handled? then c.invocation else None)
    && p.argumentsDigest == Some(Sha256("arguments", [Plain(c.request.sku)])) && p.recordId == Some(c.request.recordId)
    && p.scope == Some(cfg.resource.scope) && p.tool == Some(cfg.resource.tool) && p.audience == Some(cfg.resource.audience)
    && p.manifestDigest == None && (p.handlerInvoked <==> p.invocationId.Some?)
    && p.artifacts == map["resource_policy_sha256" :=
         Sha256("resource-policy", [cfg.resource.audience, cfg.resource.tool, cfg.resource.scope, cfg.resource.trustedBroker])]
  }

  /** The step that answers a call copies the reason it was to be denied for, or the handler's. */
  lemma AnswerSource(cfg: Config, sh: Shared, c: RedeemCall, e: Env, p: Payload)
    requires Steppable(c) && RedeemStep(cfg, sh, c, e).1.pc == Answered(p) && c.pc != Answered(p)
    ensures p.decision == Deny <==> c.pc == Denying(p.reason)
    ensures p.decision == Allow <==> c.pc.Handled?
    ensures c.pc.Handled? ==> (if c.pc.completed then p.reason == ALLOW && p.businessResult == Completed
                               else p.reason == HANDLER_FAILED && p.businessResult == Failed)
    ensures p.decidedAt == e.now && p.snapshot == sh.count
    ensures Carries(cfg, c, p)
  {
    hide ValidPayload, Diff, AfterSpend, SpendOutcome;
  }

  /** In every run each denial has its cause: some label of the run moved the call to that denial,
      and at that label the reason's condition held of the request, the tables and the reading. */
  lemma DenialHasCause(cfg: Config, labels: seq<Label>, i: nat) returns (k: nat)
    requires i < |Exec(cfg, Init, labels).redeems| && Exec(cfg, Init, labels).redeems[i].pc.Answered?
    requires Exec(cfg, Init, labels).redeems[i].pc.receipt.decision == Deny
    ensures k < |labels| && labels[k].StepRedeem? && labels[k].call == i
    ensures var s := Exec(cfg, Init, labels[..k]);
            && i < |s.redeems|
            && Cause(cfg, s.shared, s.redeems[i], labels[k].env, Exec(cfg, Init, labels).redeems[i].pc.receipt.reason)
  {
    hide Exec, RedeemStep, CallInv, Cause;
    var p := Exec(cfg, Init, labels).redeems[i].pc.receipt;
    var m := PointReached(cfg, labels, i);
    var t := Exec(cfg, Init, labels[..m]);
    AnswerSource(cfg, t.shared, t.redeems[i], labels[m].env, p);
    var n := PointReached(cfg, labels[..m], i);
    assert labels[..m][..n] == labels[..n];
    k := n;
    var s := Exec(cfg, Init, labels[..k]);
    CallAfter(cfg, labels[..k], i);
    NotTwice(cfg, s.shared, s.redeems[i], labels[k].env, p.reason);
    StepDenies(cfg, s.shared, s.boot, s.redeems[i], labels[k].env, p.reason);
  }

  lemma CallAfter(cfg: Config, labels: seq<Label>, i: nat)
    requires i < |Exec(cfg, Init, labels).redeems|
    ensures var s := Exec(cfg, Init, labels); CallInv(cfg, s.shared, s.boot, s.redeems[i])
  {
    hide Exec, CallInv, IssuesInv, LogInv, CountInv, SpendsDistinct, ReceiptsDistinct, Accounted;
    RunInv(cfg, labels);
  }

  /** A denied call is not denied again for another reason. */
  lemma NotTwice(cfg: Config, sh: Shared, c: RedeemCall, e: Env, reason: Reason)
    requires Steppable(c) && RedeemStep(cfg, sh, c, e).1.pc == Denying(reason)
    ensures !c.pc.Denying?
  {
    hide ValidPayload, Diff, AfterSpend, SpendOutcome, DenialPayload;
  }

  /** A challenge is only called stale at a reading at or past its own expiry: in every run the row of
      a call answered CHALLENGE_STALE is stored, and some step of that call read the clock at or
      after the row's expiry. */
  lemma StaleIsExpired(cfg: Config, labels: seq<Label>, i: nat) returns (k: nat)
    requires i < |Exec(cfg, Init, labels).redeems| && Exec(cfg, Init, labels).redeems[i].pc.Answered?
    requires var p := Exec(cfg, Init, labels).redeems[i].pc.receipt; p.decision == Deny && p.reason == CHALLENGE_STALE
    ensures k < |labels| && labels[k].StepRedeem? && labels[k].call == i
    ensures var s := Exec(cfg, Init, labels[..k]);
            && i < |s.redeems| && Challenge(s.redeems[i].request) in s.shared.tables.resource
            && s.shared.tables.resource[Challenge(s.redeems[i].request)].expiresAt <= labels[k].env.now
  {
    hide Exec, CallInv;
    k := DenialHasCause(cfg, labels, i);
    var s := Exec(cfg, Init, labels[..k]);
    CallAfter(cfg, labels[..k], i);
    StaleCause(cfg, s.shared, s.boot, s.redeems[i], labels[k].env);
  }

  lemma StaleCause(cfg: Config, sh: Shared, boot: nat, c: RedeemCall, e: Env)
    requires CallInv(cfg, sh, boot, c) && Cause(cfg, sh, c, e, CHALLENGE_STALE)
    ensures Challenge(c.request) in sh.tables.resource && sh.tables.resource[Challenge(c.request)].expiresAt <= e.now
  {
    hide Admissible, Authentic, OtherCall, Uncovered, ValidPayload, Covered, BoundsAccepted;
  }

  /** In every run each answer carries its own call, at the reading and the count of its last step. */
  lemma AnswerCarries(cfg: Config, labels: seq<Label>, i: nat) returns (k: nat)
    requires i < |Exec(cfg, Init, labels).redeems| && Exec(cfg, Init, labels).redeems[i].pc.Answered?
    ensures k < |labels| && labels[k].StepRedeem? && labels[k].call == i && i < |Exec(cfg, Init, labels[..k]).redeems|
    ensures var s, p := Exec(cfg, Init, labels[..k]), Exec(cfg, Init, labels).redeems[i].pc.receipt;
            Carries(cfg, s.redeems[i], p) && p.decidedAt == labels[k].env.now && p.snapshot == s.shared.count
  {
    hide Exec, RedeemStep, Carries;
    k := PointReached(cfg, labels, i);
    var s := Exec(cfg, Init, labels[..k]);
    AnswerSource(cfg, s.shared, s.redeems[i], labels[k].env, Exec(cfg, Init, labels).redeems[i].pc.receipt);
  }

  // ---- The handler's result ----

  /** In every run an invoked call that was answered reports the handler's own result: the label that
      took it past its invocation had a failing handler exactly when the receipt says so. */
  lemma HandlerReported(cfg: Config, labels: seq<Label>, i: nat) returns (k: nat)
    requires i < |Exec(cfg, Init, labels).redeems| && Exec(cfg, Init, labels).redeems[i].pc.Answered?
    requires Exec(cfg, Init, labels).redeems[i].invocation.Some?
    ensures k < |labels| && labels[k].StepRedeem? && labels[k].call == i
    ensures i < |Exec(cfg, Init, labels[..k]).redeems| && Exec(cfg, Init, labels[..k]).redeems[i].pc == Invoked
    ensures var p := Exec(cfg, Init, labels).redeems[i].pc.receipt;
            && p.decision == Allow
            && (p.reason == HANDLER_FAILED <==> !labels[k].env.handlerOk) && (p.reason == ALLOW <==> labels[k].env.handlerOk)
            && (p.businessResult == Failed <==> !labels[k].env.handlerOk) && (p.businessResult == Completed <==> labels[k].env.handlerOk)
  {
    hide Exec, RedeemStep, CallInv;
    var p := Exec(cfg, Init, labels).redeems[i].pc.receipt;
    CallAfter(cfg, labels, i);
    AnsweredAsInvoked(cfg, Exec(cfg, Init, labels).shared, Exec(cfg, Init, labels).boot, Exec(cfg, Init, labels).redeems[i]);
    var m := PointReached(cfg, labels, i);
    var t := Exec(cfg, Init, labels[..m]);
    AnswerSource(cfg, t.shared, t.redeems[i], labels[m].env, p);
    k := PointReached(cfg, labels[..m], i);
    assert labels[..m][..k] == labels[..k];
    var s := Exec(cfg, Init, labels[..k]);
    HandledSource(cfg, s.shared, s.redeems[i], labels[k].env, t.redeems[i].pc.completed);
  }

  lemma HandledSource(cfg: Config, sh: Shared, c: RedeemCall, e: Env, completed: bool)
    requires Steppable(c) && RedeemStep(cfg, sh, c, e).1.pc == Handled(completed) && c.pc != Handled(completed)
    ensures c.pc == Invoked && completed == e.handlerOk
  {
    hide ValidPayload, Diff, AfterSpend, SpendOutcome, DenialPayload, AllowPayload;
  }

  /** What has become of a call whose handler ended so. */
  predicate Reports(c: RedeemCall, handlerOk: bool) {
    match c.pc
    case Handled(completed) => completed == handlerOk
    case Answered(p) =>
      p.decision == Allow && p.reason == (if handlerOk then ALLOW else HANDLER_FAILED)
      && p.businessResult == (if handlerOk then Completed else Failed)
    case PostInvocationFailed => true
    case _ => false
  }

  lemma ReportsStep(cfg: Config, s: State, l: Label, i: nat, handlerOk: bool)
    requires i < |s.redeems| && Reports(s.redeems[i], handlerOk)
    ensures i < |Next(cfg, s, l).redeems| && Reports(Next(cfg, s, l).redeems[i], handlerOk)
  {
    if l.StepRedeem? && l.call == i && Steppable(s.redeems[i]) {
      ReportsMove(cfg, s.shared, s.redeems[i], l.env, handlerOk);
    }
    hide RedeemStep, IssueStep, Steppable, IssueSteppable, Reports;
    MoreCalls(cfg, s, l);
    OneLabel(cfg, s, l, i);
    if i < |s.redeems| {
      SameReports(s.redeems[i], Next(cfg, s, l).redeems[i], handlerOk);
    }
  }

  lemma SameReports(c: RedeemCall, d: RedeemCall, handlerOk: bool)
    ensures c.pc == d.pc ==> (Reports(c, handlerOk) <==> Reports(d, handlerOk))
  {
  }

  lemma MoreCalls(cfg: Config, s: State, l: Label)
    ensures |s.redeems| <= |Next(cfg, s, l).redeems|
  {
    hide RedeemStep, IssueStep, Steppable, IssueSteppable;
  }

  lemma ReportsMove(cfg: Config, sh: Shared, c: RedeemCall, e: Env, handlerOk: bool)
    requires Steppable(c) && Reports(c, handlerOk)
    ensures Reports(RedeemStep(cfg, sh, c, e).1, handlerOk)
  {
    hide ValidPayload;
  }

  /** And conversely: whenever a label runs a call's handler, everything that call reports from then
      on, over any continuation of the run, is that handler's result. */
  lemma {:induction false} HandlerResultStays(cfg: Config, labels: seq<Label>, i: nat, e: Env, more: seq<Label>)
    requires i < |Exec(cfg, Init, labels).redeems| && Exec(cfg, Init, labels).redeems[i].pc == Invoked
    requires Exec(cfg, Init, labels).redeems[i].alive
    ensures var t := Exec(cfg, Init, labels + [StepRedeem(i, e)] + more);
            i < |t.redeems| && Reports(t.redeems[i], e.handlerOk)
    decreases |more|
  {
    hide Next, Reports;
    var all := labels + [StepRedeem(i, e)] + more;
    if more == [] {
      assert all[..|all| - 1] == labels;
      RunsHandler(cfg, Exec(cfg, Init, labels), i, e);
    } else {
      var n := |more| - 1;
      HandlerResultStays(cfg, labels, i, e, more[..n]);
      assert all[..|all| - 1] == labels + [StepRedeem(i, e)] + more[..n];
      ReportsStep(cfg, Exec(cfg, Init, labels + [StepRedeem(i, e)] + more[..n]), more[n], i, e.handlerOk);
    }
  }

  lemma RunsHandler(cfg: Config, s: State, i: nat, e: Env)
    requires i < |s.redeems| && s.redeems[i].pc == Invoked && s.redeems[i].alive
    ensures var t := Next(cfg, s, StepRedeem(i, e)); i < |t.redeems| && Reports(t.redeems[i], e.handlerOk)
  {
  }
}
