/** The inductive invariant of the protocol: what every call, the handler log, the minted
    credentials and the counters satisfy in every reachable state. */
module ProtocolInvariant {
  import opened Symbols
  import opened Receipt
  import opened Storage
  import opened Protocol

  predicate InWindow(cred: Credential, t: int) {
    && cred.notBefore.Some? && cred.notAfter.Some?
    && cred.notBefore.value <= t <= cred.notAfter.value
  }

  /** Denial reasons that are only ever produced before anything is written. */
  const CleanReasons: set<Reason> :=
    {CREDENTIAL_INVALID, SCOPE_DENIED, HOLDER_PROOF_INVALID, CHALLENGE_INVALID, CHALLENGE_CONSUMED}

  /** Denial reasons produced both before the transaction and, once it has spent the credential, by
      the last look at the clock before the handler. */
  predicate ClockReason(reason: Reason) {
    reason == CHALLENGE_STALE || reason == CREDENTIAL_EXPIRED
  }

  // ---- One redemption call ----

  /** The call presented a credential the broker minted, and the resource accepted it. */
  ghost predicate Verified(cfg: Config, sh: Shared, c: RedeemCall) {
    && c.request.credential.ParsedCredential?
    && var cred := c.request.credential.credential;
    && c.credentialId == Some(cred.id)
    && BoundsAccepted(cfg, cred)
    && cred.scope == {cfg.resource.scope}
    && cred.id in sh.minted && sh.minted[cred.id].credential == cred
  }

  /** The call made the first spend of its credential: the redemption row is its own. */
  ghost predicate Owner(cfg: Config, sh: Shared, c: RedeemCall)
    requires c.spend.Some?
  {
    && Verified(cfg, sh, c)
    && var cred := c.request.credential.credential;
    && var h := TokenHash(c.request.proof.challenge);
    && var t := sh.tables;
    && c.tokenHash == Some(h)
    && c.cells == {ResourceCell(h), RedemptionCell(cred.id)}
    && cred.id in t.redemptions
    && t.redemptions[cred.id] == Redemption(h, c.request.recordId, c.spend.value.committedAt)
    && h in t.resource
    && t.resource[h].expiresAt == c.spend.value.challengeExpiresAt
    && c.spend.value.committedAt < c.spend.value.challengeExpiresAt
    && InWindow(cred, c.spend.value.committedAt)
  }

  /** The call has changed its own challenge row and nothing else. */
  predicate OwnChallenge(c: RedeemCall) {
    c.tokenHash.Some? && c.cells == {ResourceCell(c.tokenHash.value)}
  }

  ghost predicate DenialOk(c: RedeemCall, reason: Reason) {
    && c.invocation.None?
    && (reason in CleanReasons || ClockReason(reason) || reason == CREDENTIAL_SPENT || reason == INTERNAL_ERROR)
    && (reason in CleanReasons ==> c.cells == {})
    && (reason == CREDENTIAL_SPENT ==> c.spend.None? && OwnChallenge(c))
    && (ClockReason(reason) && c.spend.None? ==> c.cells == {})
    && (reason == INTERNAL_ERROR && c.spend.None? ==> c.cells == {} || OwnChallenge(c))
  }

  ghost predicate Fresh(c: RedeemCall) {
    c.spend.None? && c.clearedAt.None? && c.invocation.None? && c.cells == {}
  }

  ghost predicate HasToken(c: RedeemCall) {
    c.tokenHash == Some(TokenHash(c.request.proof.challenge))
  }

  ghost predicate PcOk(cfg: Config, sh: Shared, c: RedeemCall) {
    match c.pc
    case Received => Fresh(c)
    case CredentialVerified => Fresh(c) && Verified(cfg, sh, c)
    case ChallengeRead => Fresh(c) && Verified(cfg, sh, c) && HasToken(c) && c.row.Some?
    case ProofChecked => Fresh(c) && Verified(cfg, sh, c) && HasToken(c)
    case Committed => c.spend.Some? && c.clearedAt.None? && c.invocation.None?
    case Cleared => c.spend.Some? && c.clearedAt.Some? && c.invocation.None?
    case Invoked => c.invocation.Some?
    case Handled(_) => c.invocation.Some?
    case Denying(reason) => DenialOk(c, reason)
    case Answered(p) =>
      && ValidPayload(p) && p.service == Inventory
      && p.receiptId.Random? && p.receiptId.nonce < sh.nonce
      && p.credentialId == c.credentialId && p.tokenHash == c.tokenHash
      && (c.invocation.Some? ==> p.decision == Allow && p.invocationId == c.invocation)
      && (c.invocation.None? ==> p.decision == Deny && DenialOk(c, p.reason))
    case PostInvocationFailed => c.invocation.Some?
    case Raised => c.invocation.None?
  }

  /** The holder's signature covers exactly this credential and call. */
  predicate Covered(cfg: Config, r: LookupRequest) {
    && r.credential.ParsedCredential?
    && ProofCovers(r.proof, r.credential.credential, cfg.resource.audience, cfg.resource.scope, r.recordId, r.sku)
  }

  /** The row the call read is the stored one, up to its consumption. */
  predicate ReadRow(t: Tables, c: RedeemCall)
    requires c.row.Some?
  {
    var h := TokenHash(c.request.proof.challenge);
    h in t.resource && t.resource[h].expiresAt == c.row.value.expiresAt
  }

  ghost predicate CallInv(cfg: Config, sh: Shared, boot: nat, c: RedeemCall) {
    && WellFormedRequest(c.request)
    && c.boot <= boot
    && (c.alive ==> c.boot == boot)
    && PcOk(cfg, sh, c)
    && (c.pc.ProofChecked? || c.spend.Some? || c.cells != {} ==> Covered(cfg, c.request))
    && (c.row.Some? ==> ReadRow(sh.tables, c))
    && (c.spend.Some? ==> Owner(cfg, sh, c))
    && (c.clearedAt.Some? ==>
          && c.spend.Some?
          && c.clearedAt.value < c.spend.value.challengeExpiresAt
          && InWindow(c.request.credential.credential, c.clearedAt.value))
    && (c.invocation.Some? ==>
          && c.clearedAt.Some? && c.invocation.value >= 1
          && (c.boot == boot ==> c.invocation.value <= sh.count))
  }

  /** Shared state only grows: rows advance, signed credentials stay signed. */
  ghost predicate Grows(sh: Shared, sk: Shared) {
    && Advances(sh.tables, sk.tables)
    && (forall id :: id in sh.minted ==> id in sk.minted && sk.minted[id] == sh.minted[id])
    && sh.nonce <= sk.nonce
  }

  lemma CallStable(cfg: Config, sh: Shared, sk: Shared, boot: nat, c: RedeemCall)
    requires CallInv(cfg, sh, boot, c) && Grows(sh, sk) && sh.count <= sk.count
    ensures CallInv(cfg, sk, boot, c)
  {
  }

  lemma CallSurvivesRestart(cfg: Config, sh: Shared, boot: nat, c: RedeemCall)
    requires CallInv(cfg, sh, boot, c)
    ensures CallInv(cfg, sh.(count := 0), boot + 1, c.(alive := false)) && c.boot < boot + 1
  {
  }

  // ---- Each program point keeps the call's invariant ----

  lemma VerifyKeeps(cfg: Config, sh: Shared, boot: nat, c: RedeemCall, e: Env)
    requires CallInv(cfg, sh, boot, c) && c.pc == Received
    ensures CallInv(cfg, sh, boot, VerifyCredential(cfg, sh, c, e))
  {
    hide CallInv, LowerHex, BoundsAccepted, ChainVerifies;
    var d := VerifyCredential(cfg, sh, c, e);
    ReceivedFacts(cfg, sh, boot, c);
    if d.pc.Denying? {
      DeniedFirst(cfg, sh, boot, c, d);
    } else {
      VerifiedFirst(cfg, sh, boot, c, e);
    }
  }

  lemma ReceivedFacts(cfg: Config, sh: Shared, boot: nat, c: RedeemCall)
    requires CallInv(cfg, sh, boot, c) && c.pc == Received
    ensures Fresh(c)
  {
  }

  /** A call denied by the credential checks has done nothing but name its credential. */
  lemma DeniedFirst(cfg: Config, sh: Shared, boot: nat, c: RedeemCall, d: RedeemCall)
    requires CallInv(cfg, sh, boot, c) && c.pc == Received && d == c.(credentialId := d.credentialId, pc := d.pc)
    requires d.pc.Denying? && d.pc.reason in {CREDENTIAL_INVALID, SCOPE_DENIED, CREDENTIAL_EXPIRED, INTERNAL_ERROR}
    ensures CallInv(cfg, sh, boot, d)
  {
    hide ProofCovers, Owner, InWindow, ValidPayload;
  }

  lemma VerifiedFirst(cfg: Config, sh: Shared, boot: nat, c: RedeemCall, e: Env)
    requires CallInv(cfg, sh, boot, c) && c.pc == Received && VerifyCredential(cfg, sh, c, e).pc == CredentialVerified
    ensures CallInv(cfg, sh, boot, VerifyCredential(cfg, sh, c, e))
  {
    hide LowerHex, ProofCovers, Owner, InWindow, ValidPayload, DenialOk;
  }

  lemma ReadKeeps(cfg: Config, sh: Shared, boot: nat, c: RedeemCall, e: Env)
    requires CallInv(cfg, sh, boot, c) && c.pc == CredentialVerified
    ensures CallInv(cfg, sh, boot, ReadChallenge(cfg, sh, c, e))
  {
    hide LowerHex, ProofCovers, Owner, InWindow, ValidPayload, BoundsAccepted, RowMatches;
  }

  lemma CheckKeeps(cfg: Config, sh: Shared, boot: nat, c: RedeemCall, e: Env)
    requires CallInv(cfg, sh, boot, c) && c.pc == ChallengeRead
    ensures CallInv(cfg, sh, boot, CheckProof(cfg, c, e))
  {
    hide LowerHex, ProofCovers, Owner, InWindow, ValidPayload, BoundsAccepted;
  }

  lemma ClearKeeps(cfg: Config, sh: Shared, boot: nat, c: RedeemCall, e: Env)
    requires CallInv(cfg, sh, boot, c) && c.pc == Committed
    ensures CallInv(cfg, sh, boot, ClearForHandler(c, e))
  {
    var d := ClearForHandler(c, e);
    if d.pc.Denying? {
      Repointed(cfg, sh, boot, c, d.pc);
    } else {
      ClearedKeeps(cfg, sh, boot, c, e.now);
    }
    hide CallInv;
  }

  lemma ClearedKeeps(cfg: Config, sh: Shared, boot: nat, c: RedeemCall, now: int)
    requires CallInv(cfg, sh, boot, c) && c.pc == Committed && now < c.spend.value.challengeExpiresAt
    requires c.request.credential.ParsedCredential? && InWindow(c.request.credential.credential, now)
    ensures CallInv(cfg, sh, boot, c.(clearedAt := Some(now), pc := Cleared))
  {
    hide BoundsAccepted, ProofCovers;
  }

  lemma InvokeKeeps(cfg: Config, sh: Shared, boot: nat, c: RedeemCall)
    requires CallInv(cfg, sh, boot, c) && c.pc == Cleared
    ensures CallInv(cfg, sh.(count := sh.count + 1), boot, c.(invocation := Some(sh.count + 1), pc := Invoked))
  {
  }

  lemma HandleKeeps(cfg: Config, sh: Shared, boot: nat, c: RedeemCall, completed: bool)
    requires CallInv(cfg, sh, boot, c) && c.pc == Invoked
    ensures CallInv(cfg, sh, boot, c.(pc := Handled(completed)))
  {
  }

  /** Moving the program counter keeps the invariant when the new point's own facts hold. */
  lemma Repointed(cfg: Config, sh: Shared, boot: nat, c: RedeemCall, pc: RedeemPc)
    requires CallInv(cfg, sh, boot, c) && PcOk(cfg, sh, c.(pc := pc)) && !pc.ProofChecked?
    ensures CallInv(cfg, sh, boot, c.(pc := pc))
  {
  }

  lemma SignKeeps(cfg: Config, sh: Shared, boot: nat, c: RedeemCall, p: Payload, e: Env, otherwise: RedeemPc)
    requires CallInv(cfg, sh, boot, c)
    requires p.service == Inventory && p.receiptId == Random(sh.nonce)
    requires p.invocationId == c.invocation && p.credentialId == c.credentialId && p.tokenHash == c.tokenHash
    requires if c.invocation.Some? then p.decision == Allow && otherwise == PostInvocationFailed
             else p.decision == Deny && otherwise == Raised && DenialOk(c, p.reason)
    ensures
      var (sk, d) := Sign(sh, c, p, e, otherwise);
      CallInv(cfg, sk, boot, d)
  {
    hide ValidPayload, Owner, InWindow, CallInv;
    var (sk, d) := Sign(sh, c, p, e, otherwise);
    CallStable(cfg, sh, sk, boot, c);
    Repointed(cfg, sk, boot, c, d.pc);
  }

  lemma AnswerKeeps(cfg: Config, sh: Shared, boot: nat, c: RedeemCall, completed: bool, e: Env)
    requires CallInv(cfg, sh, boot, c) && c.pc == Handled(completed)
    ensures
      var (sk, d) := Sign(sh, c, AllowPayload(cfg, sh, c, completed, e.now), e, PostInvocationFailed);
      CallInv(cfg, sk, boot, d)
  {
    SignKeeps(cfg, sh, boot, c, AllowPayload(cfg, sh, c, completed, e.now), e, PostInvocationFailed);
  }

  lemma RefuseKeeps(cfg: Config, sh: Shared, boot: nat, c: RedeemCall, reason: Reason, e: Env)
    requires CallInv(cfg, sh, boot, c) && c.pc == Denying(reason)
    ensures
      var (sk, d) := Sign(sh, c, DenialPayload(cfg, sh, c, reason, e.now), e, Raised);
      CallInv(cfg, sk, boot, d)
  {
    SignKeeps(cfg, sh, boot, c, DenialPayload(cfg, sh, c, reason, e.now), e, Raised);
  }

  /** A refused or second spend leaves the call denied, owning nothing. */
  lemma DenyAtCommit(cfg: Config, sh: Shared, boot: nat, c: RedeemCall, reason: Reason, cells: set<Cell>)
    requires CallInv(cfg, sh, boot, c) && c.pc == ProofChecked
    requires DenialOk(c.(cells := cells), reason)
    ensures CallInv(cfg, sh, boot, c.(pc := Denying(reason), cells := cells))
  {
  }

  /** A first spend makes the call the owner of the new redemption row. */
  lemma OwnAtCommit(cfg: Config, sh: Shared, boot: nat, c: RedeemCall, a: SpendArgs, now: int, failed: bool)
    requires CallInv(cfg, sh, boot, c) && c.pc == ProofChecked && CommitReady(c)
    requires a == Arguments(cfg, c.request, c.request.credential.credential, c.tokenHash.value)
    requires SpendRefusal(sh.tables, a, now).None? && a.credentialId !in sh.tables.redemptions
    ensures
      var r := SpendResult(true, now, sh.tables.resource[a.tokenHash].expiresAt);
      CallInv(cfg, sh.(tables := Spent(sh.tables, a, now)), boot,
        c.(spend := Some(r), pc := if failed then Denying(INTERNAL_ERROR) else Committed,
           cells := {ResourceCell(a.tokenHash), RedemptionCell(a.credentialId)}))
  {
  }

  /** What the commit step does to the tables and to the call. */
  lemma CommitKeeps(cfg: Config, sh: Shared, boot: nat, c: RedeemCall, e: Env)
    requires Accounted(sh.tables) && CallInv(cfg, sh, boot, c) && c.pc == ProofChecked
    ensures Steppable(c)
    ensures
      var (sk, d) := RedeemStep(cfg, sh, c, e);
      && Accounted(sk.tables) && Advances(sh.tables, sk.tables)
      && CallInv(cfg, sk, boot, d)
      && sk == sh.(tables := sk.tables)
  {
    CommitFacts(cfg, sh, boot, c);
    hide CallInv, Accounted, Advances, Diff, AfterSpend, SpendCells, CommitCall, Verified;
    if e.fault == FaultBefore {
      assert c.(cells := {}) == c;
      DenyAtCommit(cfg, sh, boot, c, INTERNAL_ERROR, {});
    } else {
      var a := Arguments(cfg, c.request, c.request.credential.credential, c.tokenHash.value);
      SpendKeeps(sh.tables, a, e.now);
      SpendWrites(sh.tables, a, e.now);
      assert c.cells + Diff(sh.tables, AfterSpend(sh.tables, a, e.now)) == SpendCells(sh.tables, a, e.now);
      match SpendOutcome(sh.tables, a, e.now) {
        case Err(reason) => RefusedCommit(cfg, sh, boot, c, e, a);
        case Ok(r) => if r.firstSpend { FirstCommit(cfg, sh, boot, c, e, a); } else { LaterCommit(cfg, sh, boot, c, e, a); }
      }
    }
  }

  lemma CommitFacts(cfg: Config, sh: Shared, boot: nat, c: RedeemCall)
    requires CallInv(cfg, sh, boot, c) && c.pc == ProofChecked
    ensures Steppable(c) && Fresh(c) && CommitReady(c) && Advances(sh.tables, sh.tables)
  {
  }

  /** The call after its commit step, with the cells that step wrote. */
  function AfterCommit(sh: Shared, c: RedeemCall, e: Env, a: SpendArgs): RedeemCall {
    CommitCall(c, SpendOutcome(sh.tables, a, e.now), e.fault).(cells := SpendCells(sh.tables, a, e.now))
  }

  lemma RefusedCommit(cfg: Config, sh: Shared, boot: nat, c: RedeemCall, e: Env, a: SpendArgs)
    requires CallInv(cfg, sh, boot, c) && c.pc == ProofChecked && CommitReady(c)
    requires SpendOutcome(sh.tables, a, e.now).Err?
    ensures CallInv(cfg, sh.(tables := AfterSpend(sh.tables, a, e.now)), boot, AfterCommit(sh, c, e, a))
  {
    var reason := SpendOutcome(sh.tables, a, e.now).reason;
    assert sh.(tables := AfterSpend(sh.tables, a, e.now)) == sh;
    DenyAtCommit(cfg, sh, boot, c, if e.fault == FaultAfter then INTERNAL_ERROR else reason, {});
  }

  lemma LaterCommit(cfg: Config, sh: Shared, boot: nat, c: RedeemCall, e: Env, a: SpendArgs)
    requires CallInv(cfg, sh, boot, c) && c.pc == ProofChecked && CommitReady(c)
    requires a == Arguments(cfg, c.request, c.request.credential.credential, c.tokenHash.value)
    requires SpendOutcome(sh.tables, a, e.now).Ok? && !SpendOutcome(sh.tables, a, e.now).value.firstSpend
    requires Advances(sh.tables, AfterSpend(sh.tables, a, e.now))
    ensures CallInv(cfg, sh.(tables := AfterSpend(sh.tables, a, e.now)), boot, AfterCommit(sh, c, e, a))
  {
    var sk := sh.(tables := AfterSpend(sh.tables, a, e.now));
    CallStable(cfg, sh, sk, boot, c);
    DenyAtCommit(cfg, sk, boot, c, if e.fault == FaultAfter then INTERNAL_ERROR else CREDENTIAL_SPENT, {ResourceCell(a.tokenHash)});
  }

  lemma FirstCommit(cfg: Config, sh: Shared, boot: nat, c: RedeemCall, e: Env, a: SpendArgs)
    requires CallInv(cfg, sh, boot, c) && c.pc == ProofChecked && CommitReady(c)
    requires a == Arguments(cfg, c.request, c.request.credential.credential, c.tokenHash.value)
    requires SpendOutcome(sh.tables, a, e.now).Ok? && SpendOutcome(sh.tables, a, e.now).value.firstSpend
    ensures CallInv(cfg, sh.(tables := AfterSpend(sh.tables, a, e.now)), boot, AfterCommit(sh, c, e, a))
  {
    OwnAtCommit(cfg, sh, boot, c, a, e.now, e.fault == FaultAfter);
  }

  lemma CallSteppable(cfg: Config, sh: Shared, boot: nat, c: RedeemCall)
    requires CallInv(cfg, sh, boot, c)
    ensures Steppable(c) && Advances(sh.tables, sh.tables)
  {
  }

  /** The step of one call keeps its own invariant and only grows shared state. */
  lemma RedeemStepKeeps(cfg: Config, sh: Shared, boot: nat, c: RedeemCall, e: Env)
    requires Accounted(sh.tables) && CallInv(cfg, sh, boot, c)
    ensures Steppable(c)
    ensures
      var (sk, d) := RedeemStep(cfg, sh, c, e);
      && Accounted(sk.tables) && Advances(sh.tables, sk.tables)
      && sk.minted == sh.minted && sh.nonce <= sk.nonce && sh.count <= sk.count
      && CallInv(cfg, sk, boot, d)
  {
    hide CallInv, Steppable, Accounted, Advances, VerifyCredential, ReadChallenge, CheckProof, ClearForHandler, AllowPayload,
      DenialPayload, AfterSpend, SpendOutcome, CommitCall, Diff, Arguments, ValidPayload;
    CallSteppable(cfg, sh, boot, c);
    match c.pc
    case Received => VerifyKeeps(cfg, sh, boot, c, e);
    case CredentialVerified => ReadKeeps(cfg, sh, boot, c, e);
    case ChallengeRead => CheckKeeps(cfg, sh, boot, c, e);
    case ProofChecked => CommitKeeps(cfg, sh, boot, c, e);
    case Committed => ClearKeeps(cfg, sh, boot, c, e);
    case Cleared => InvokeKeeps(cfg, sh, boot, c);
    case Invoked => HandleKeeps(cfg, sh, boot, c, e.handlerOk);
    case Handled(completed) => AnswerKeeps(cfg, sh, boot, c, completed, e);
    case Denying(reason) => RefuseKeeps(cfg, sh, boot, c, reason, e);
    case _ =>
  }

  // ---- One issuance call ----

  ghost predicate IssuePcOk(sh: Shared, c: IssueCall) {
    match c.pc
    case IReceived => !c.consumed && c.credential.None? && c.tokenHash.None?
    case IAppraised => !c.consumed && c.credential.None? && c.tokenHash.Some? && c.appraisal.Accepted?
    case IConsumed => c.consumed && c.credential.None? && c.appraisal.Accepted?
    case IMinted => c.consumed && c.credential.Some? && c.appraisal.Accepted?
    case IDenying(reason) => reason != ALLOW && reason != HANDLER_FAILED && (c.consumed ==> reason == INTERNAL_ERROR)
    case IAnswered(p) =>
      && ValidPayload(p) && p.service == Broker
      && (p.decision == Allow ==> c.credential.Some? && p.credentialId == Some(c.credential.value.id))
      && (p.decision == Deny && c.consumed ==> p.reason == INTERNAL_ERROR)
    case IRaised => true
  }

  ghost predicate IssueInv(cfg: Config, sh: Shared, boot: nat, c: IssueCall) {
    && PossibleAppraisal(cfg.broker, c.request, c.appraisal)
    && c.boot <= boot && (c.alive ==> c.boot == boot)
    && (c.tokenHash.Some? ==> c.tokenHash.value == TokenHash(c.request.token))
    && (c.consumed ==>
          && c.tokenHash.Some? && c.tokenHash.value in sh.tables.broker
          && sh.tables.broker[c.tokenHash.value].consumedAt.Some?)
    && c.cells == (if c.consumed then {BrokerCell(TokenHash(c.request.token))} else {})
    && (c.credential.Some? ==> c.consumed)
    && IssuePcOk(sh, c)
  }

  lemma IssueStable(cfg: Config, sh: Shared, sk: Shared, boot: nat, c: IssueCall)
    requires IssueInv(cfg, sh, boot, c) && Advances(sh.tables, sk.tables)
    ensures IssueInv(cfg, sk, boot, c)
  {
  }

  /** Every signed credential was signed by exactly one call, which had consumed a challenge. */
  ghost predicate MintInv(cfg: Config, sh: Shared, issues: seq<IssueCall>) {
    forall id :: id in sh.minted ==>
      var m := sh.minted[id];
      && id.Random? && id.nonce < sh.nonce
      && m.credential.id == id
      && m.credential.issuer == cfg.broker.issuerKey
      && m.credential.scope == {cfg.broker.scope}
      && m.credential.notBefore.Some?
      && m.credential.notAfter == Some(m.credential.notBefore.value + cfg.broker.credentialTtl)
      && m.call < |issues| && issues[m.call].credential == Some(m.credential)
  }

  /** What one issuance step does to the call and to shared state. */
  ghost predicate IssueEffect(cfg: Config, sh: Shared, c: IssueCall, index: nat, sk: Shared, d: IssueCall) {
    && d.request == c.request && d.boot == c.boot && d.alive == c.alive && d.appraisal == c.appraisal
    && sk.count == sh.count && sh.nonce <= sk.nonce
    && sk.tables.redemptions == sh.tables.redemptions
    && sk.tables.resource == sh.tables.resource
    && Advances(sh.tables, sk.tables)
    && (c.consumed ==> d.consumed)
    && (d.consumed && !c.consumed ==>
          TokenHash(c.request.token) in sh.tables.broker
          && sh.tables.broker[TokenHash(c.request.token)].consumedAt.None?)
    && (c.credential.Some? ==> d.credential == c.credential && sk.minted == sh.minted)
    && (c.credential.None? && d.credential.None? ==> sk.minted == sh.minted)
    && (c.credential.None? && d.credential.Some? ==>
          && sk.nonce == sh.nonce + 1
          && d.credential.value.notBefore.Some?
          && d.credential.value == MintedCredential(cfg, sh.nonce, c.request.holderKey, d.credential.value.notBefore.value)
          && sk.minted == sh.minted[Random(sh.nonce) := Mint(d.credential.value, index)])
  }

  /** The call after its consume step, with the cells that step wrote. */
  function AfterConsumeStep(t: Tables, c: IssueCall, h: Term, e: Env): IssueCall {
    var refusal := ConsumeRefusal(t, h, e.now);
    var c := c.(cells := if refusal.Some? then {} else {BrokerCell(h)}, consumed := refusal.None?);
    if e.fault == FaultAfter then c.(pc := IDenying(INTERNAL_ERROR))
    else if refusal.Some? then c.(pc := IDenying(refusal.value))
    else c.(pc := IConsumed)
  }

  lemma ConsumeCallKeeps(cfg: Config, sh: Shared, boot: nat, c: IssueCall, index: nat, e: Env)
    requires IssueInv(cfg, sh, boot, c) && c.pc == IAppraised
    requires Advances(sh.tables, AfterConsume(sh.tables, TokenHash(c.request.token), e.now))
    ensures
      var h := TokenHash(c.request.token);
      var sk := sh.(tables := AfterConsume(sh.tables, h, e.now));
      var d := AfterConsumeStep(sh.tables, c, h, e);
      IssueEffect(cfg, sh, c, index, sk, d) && IssueInv(cfg, sk, boot, d)
  {
    hide Advances;
  }

  lemma ConsumeStepKeeps(cfg: Config, sh: Shared, boot: nat, c: IssueCall, index: nat, e: Env)
    requires Accounted(sh.tables) && IssueInv(cfg, sh, boot, c) && c.pc == IAppraised
    ensures
      var (sk, d) := IssueStep(cfg, sh, c, index, e);
      Accounted(sk.tables) && IssueEffect(cfg, sh, c, index, sk, d) && IssueInv(cfg, sk, boot, d)
  {
    hide Accounted, Advances, IssueInv, IssueEffect, Diff, AfterConsume, ConsumeRefusal;
    if e.fault == FaultBefore {
      FailedConsume(cfg, sh, boot, c, index);
    } else {
      var h := TokenHash(c.request.token);
      AppraisedFacts(cfg, sh, boot, c);
      ConsumeKeeps(sh.tables, h, e.now);
      ConsumeCallKeeps(cfg, sh, boot, c, index, e);
      assert {} + Diff(sh.tables, AfterConsume(sh.tables, h, e.now)) == Diff(sh.tables, AfterConsume(sh.tables, h, e.now));
      assert IssueStep(cfg, sh, c, index, e) == (sh.(tables := AfterConsume(sh.tables, h, e.now)), AfterConsumeStep(sh.tables, c, h, e));
    }
  }

  lemma AppraisedFacts(cfg: Config, sh: Shared, boot: nat, c: IssueCall)
    requires IssueInv(cfg, sh, boot, c) && c.pc == IAppraised
    ensures c.tokenHash == Some(TokenHash(c.request.token)) && c.cells == {} && IssueSteppable(c)
  {
  }

  lemma FailedConsume(cfg: Config, sh: Shared, boot: nat, c: IssueCall, index: nat)
    requires IssueInv(cfg, sh, boot, c) && c.pc == IAppraised
    ensures IssueEffect(cfg, sh, c, index, sh, c.(pc := IDenying(INTERNAL_ERROR)))
    ensures IssueInv(cfg, sh, boot, c.(pc := IDenying(INTERNAL_ERROR)))
  {
    assert Advances(sh.tables, sh.tables);
    hide Advances;
  }

  lemma AppraiseStepKeeps(cfg: Config, sh: Shared, boot: nat, c: IssueCall, index: nat, e: Env)
    requires IssueInv(cfg, sh, boot, c) && c.pc == IReceived
    ensures IssueSteppable(c)
    ensures
      var (sk, d) := IssueStep(cfg, sh, c, index, e);
      sk.tables == sh.tables && IssueEffect(cfg, sh, c, index, sk, d) && IssueInv(cfg, sk, boot, d)
  {
    assert IssueSteppable(c);
    assert Advances(sh.tables, sh.tables);
    hide Advances;
  }

  lemma MintStepKeeps(cfg: Config, sh: Shared, boot: nat, c: IssueCall, index: nat, e: Env)
    requires IssueInv(cfg, sh, boot, c) && c.pc == IConsumed
    ensures IssueSteppable(c)
    ensures
      var (sk, d) := IssueStep(cfg, sh, c, index, e);
      sk.tables == sh.tables && IssueEffect(cfg, sh, c, index, sk, d) && IssueInv(cfg, sk, boot, d)
  {
    assert IssueSteppable(c);
    assert Advances(sh.tables, sh.tables);
    hide Advances;
  }

  /** Moving an issuance's program counter and the receipt number keeps its invariant when the new
      point's own facts hold. */
  lemma IssueRepointed(cfg: Config, sh: Shared, boot: nat, c: IssueCall, index: nat, nonce: nat, pc: IssuePc)
    requires IssueInv(cfg, sh, boot, c) && IssuePcOk(sh, c.(pc := pc)) && sh.nonce <= nonce
    ensures IssueEffect(cfg, sh, c, index, sh.(nonce := nonce), c.(pc := pc))
    ensures IssueInv(cfg, sh.(nonce := nonce), boot, c.(pc := pc))
  {
    assert Advances(sh.tables, sh.tables);
    hide Advances, MintedCredential;
  }

  lemma AllowPoint(cfg: Config, sh: Shared, c: IssueCall, now: int)
    requires IssuePcOk(sh, c) && c.pc == IMinted
    ensures IssueSteppable(c)
    ensures var p := IssueAllowPayload(cfg, sh, c, c.credential.value.id, now);
            ValidPayload(p) ==> IssuePcOk(sh, c.(pc := IAnswered(p)))
    ensures IssuePcOk(sh, c.(pc := IDenying(INTERNAL_ERROR)))
  {
    hide ValidPayload, BrokerArtifacts;
  }

  lemma DenyPoint(cfg: Config, sh: Shared, c: IssueCall, reason: Reason, now: int)
    requires IssuePcOk(sh, c) && c.pc == IDenying(reason)
    ensures var p := IssueDenyPayload(cfg, sh, c, reason, now); ValidPayload(p) ==> IssuePcOk(sh, c.(pc := IAnswered(p)))
    ensures IssuePcOk(sh, c.(pc := IRaised))
  {
    hide ValidPayload, DenialArtifacts;
  }

  lemma IssueAnswerKeeps(cfg: Config, sh: Shared, boot: nat, c: IssueCall, index: nat, e: Env)
    requires IssueInv(cfg, sh, boot, c) && c.pc == IMinted
    ensures IssueSteppable(c)
    ensures
      var (sk, d) := IssueStep(cfg, sh, c, index, e);
      sk.tables == sh.tables && IssueEffect(cfg, sh, c, index, sk, d) && IssueInv(cfg, sk, boot, d)
  {
    hide IssueInv, IssueEffect, IssuePcOk, ValidPayload, IssueAllowPayload, IssueSteppable;
    assert IssuePcOk(sh, c) by { IssuePoint(cfg, sh, boot, c); }
    AllowPoint(cfg, sh, c, e.now);
    var (sk, d) := IssueStep(cfg, sh, c, index, e);
    assert c.credential.Some? by { IssuePoint(cfg, sh, boot, c); }
    IssueRepointed(cfg, sh, boot, c, index, sk.nonce, d.pc);
  }

  lemma IssuePoint(cfg: Config, sh: Shared, boot: nat, c: IssueCall)
    requires IssueInv(cfg, sh, boot, c)
    ensures IssuePcOk(sh, c) && (c.pc == IMinted ==> c.credential.Some?)
  {
  }

  lemma IssueDenyKeeps(cfg: Config, sh: Shared, boot: nat, c: IssueCall, index: nat, e: Env)
    requires IssueInv(cfg, sh, boot, c) && c.pc.IDenying?
    ensures IssueSteppable(c)
    ensures
      var (sk, d) := IssueStep(cfg, sh, c, index, e);
      sk.tables == sh.tables && IssueEffect(cfg, sh, c, index, sk, d) && IssueInv(cfg, sk, boot, d)
  {
    hide IssueInv, IssueEffect, IssuePcOk, ValidPayload, IssueDenyPayload;
    assert IssuePcOk(sh, c) by { IssuePoint(cfg, sh, boot, c); }
    DenyPoint(cfg, sh, c, c.pc.reason, e.now);
    var (sk, d) := IssueStep(cfg, sh, c, index, e);
    IssueRepointed(cfg, sh, boot, c, index, sk.nonce, d.pc);
  }

  lemma IssueStepKeeps(cfg: Config, sh: Shared, boot: nat, c: IssueCall, index: nat, e: Env)
    requires Accounted(sh.tables) && IssueInv(cfg, sh, boot, c)
    ensures IssueSteppable(c)
    ensures
      var (sk, d) := IssueStep(cfg, sh, c, index, e);
      Accounted(sk.tables) && IssueEffect(cfg, sh, c, index, sk, d) && IssueInv(cfg, sk, boot, d)
  {
    assert IssueSteppable(c);
    assert Advances(sh.tables, sh.tables);
    hide IssueInv, Advances, Accounted;
    match c.pc
    case IReceived => AppraiseStepKeeps(cfg, sh, boot, c, index, e);
    case IAppraised => ConsumeStepKeeps(cfg, sh, boot, c, index, e);
    case IConsumed => MintStepKeeps(cfg, sh, boot, c, index, e);
    case IMinted => IssueAnswerKeeps(cfg, sh, boot, c, index, e);
    case IDenying(_) => IssueDenyKeeps(cfg, sh, boot, c, index, e);
    case _ =>
  }

  // ---- The whole state ----

  ghost predicate RedeemsInv(cfg: Config, s: State) {
    && Accounted(s.shared.tables)
    && (forall i :: 0 <= i < |s.redeems| ==> CallInv(cfg, s.shared, s.boot, s.redeems[i]))
  }

  /** Two calls never make the first spend of one credential. */
  ghost predicate SpendsDistinct(redeems: seq<RedeemCall>) {
    forall i, j :: 0 <= i < j < |redeems| && redeems[i].spend.Some? && redeems[j].spend.Some? ==>
      redeems[i].credentialId != redeems[j].credentialId
  }

  /** No two answers carry one receipt id. */
  ghost predicate ReceiptsDistinct(redeems: seq<RedeemCall>) {
    forall i, j :: 0 <= i < j < |redeems| && redeems[i].pc.Answered? && redeems[j].pc.Answered? ==>
      redeems[i].pc.receipt.receiptId != redeems[j].pc.receipt.receiptId
  }

  /** Two calls never consume one broker challenge. */
  ghost predicate ConsumesDistinct(issues: seq<IssueCall>) {
    forall i, j :: 0 <= i < j < |issues| && issues[i].consumed && issues[j].consumed ==>
      issues[i].request.token != issues[j].request.token
  }

  ghost predicate IssuesInv(cfg: Config, s: State) {
    && (forall i :: 0 <= i < |s.issues| ==> IssueInv(cfg, s.shared, s.boot, s.issues[i]))
    && ConsumesDistinct(s.issues)
    && MintInv(cfg, s.shared, s.issues)
  }

  /** A log entry is the record of the call it names. */
  ghost predicate EntryOf(h: HandlerCall, c: RedeemCall) {
    && c.invocation == Some(h.number)
    && c.credentialId == Some(h.credentialId)
    && c.tokenHash == Some(h.tokenHash)
    && c.spend.Some? && c.spend.value.committedAt == h.committedAt
    && c.clearedAt == Some(h.clearedAt)
  }

  ghost predicate LogInv(s: State) {
    && s.logAtBoot + s.shared.count == |s.log|
    && (forall k :: 0 <= k < |s.log| ==>
          s.log[k].call < |s.redeems| && EntryOf(s.log[k], s.redeems[s.log[k].call]))
    && (forall k :: s.logAtBoot <= k < |s.log| ==> s.log[k].number == k - s.logAtBoot + 1)
    && (forall k, l :: 0 <= k < l < |s.log| ==> s.log[k].call != s.log[l].call)
  }

  // ---- Counting calls by fate ----

  /** How far a call of the current process lifetime has got with its credential. */
  datatype Fate =
    | Unspent
    | BetweenCommitAndInvocation
    | SpentWithoutInvocation
    | AllowAnswered
    | FailureAnswered
    | PostInvocationError
    | InvokedUnanswered

  function FateOf(c: RedeemCall): Fate {
    if c.spend.None? then Unspent
    else if c.invocation.None? then
      if c.alive && (c.pc == Committed || c.pc == Cleared) then BetweenCommitAndInvocation else SpentWithoutInvocation
    else match c.pc
      case Answered(p) => if p.reason == ALLOW then AllowAnswered else FailureAnswered
      case PostInvocationFailed => PostInvocationError
      case _ => InvokedUnanswered
  }

  const InvokedFates: set<Fate> := {AllowAnswered, FailureAnswered, PostInvocationError, InvokedUnanswered}
  const SpentFates: set<Fate> := InvokedFates + {BetweenCommitAndInvocation, SpentWithoutInvocation}

  /** How many calls of one process lifetime have a fate in the set. */
  function Tally(cs: seq<RedeemCall>, boot: nat, fates: set<Fate>): nat {
    if cs == [] then 0
    else Tally(cs[..|cs| - 1], boot, fates) + Hits(cs[|cs| - 1], boot, fates)
  }

  function Hits(c: RedeemCall, boot: nat, fates: set<Fate>): nat {
    if c.boot == boot && FateOf(c) in fates then 1 else 0
  }

  lemma {:induction false} TallyUpdate(cs: seq<RedeemCall>, boot: nat, fates: set<Fate>, i: nat, d: RedeemCall)
    requires i < |cs|
    ensures Tally(cs[i := d], boot, fates) + Hits(cs[i], boot, fates) == Tally(cs, boot, fates) + Hits(d, boot, fates)
  {
    var n := |cs| - 1;
    if i < n {
      assert cs[i := d][..n] == cs[..n][i := d];
      TallyUpdate(cs[..n], boot, fates, i, d);
    } else {
      assert cs[i := d][..n] == cs[..n];
    }
  }

  lemma TallyAppend(cs: seq<RedeemCall>, boot: nat, fates: set<Fate>, c: RedeemCall)
    ensures Tally(cs + [c], boot, fates) == Tally(cs, boot, fates) + Hits(c, boot, fates)
  {
    assert (cs + [c])[..|cs|] == cs;
  }

  lemma {:induction false} TallySplit(cs: seq<RedeemCall>, boot: nat, a: set<Fate>, b: set<Fate>)
    requires a !! b
    ensures Tally(cs, boot, a + b) == Tally(cs, boot, a) + Tally(cs, boot, b)
  {
    if cs != [] {
      TallySplit(cs[..|cs| - 1], boot, a, b);
    }
  }

  lemma {:induction false} TallyOtherLifetime(cs: seq<RedeemCall>, boot: nat, fates: set<Fate>)
    requires forall i :: 0 <= i < |cs| ==> cs[i].boot < boot
    ensures Tally(cs, boot, fates) == 0
  {
    if cs != [] {
      TallyOtherLifetime(cs[..|cs| - 1], boot, fates);
    }
  }

  ghost predicate CountInv(s: State) {
    && |s.shared.tables.redemptions| == s.rowsAtBoot + Tally(s.redeems, s.boot, SpentFates)
    && s.shared.count == Tally(s.redeems, s.boot, InvokedFates)
  }

  ghost predicate Inv(cfg: Config, s: State) {
    && RedeemsInv(cfg, s) && SpendsDistinct(s.redeems) && ReceiptsDistinct(s.redeems)
    && IssuesInv(cfg, s) && LogInv(s) && CountInv(s)
  }
}
