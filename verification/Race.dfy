/** Any number of honest redemptions racing on one unspent credential, under every schedule. */
module Race {
  import opened Symbols
  import opened Receipt
  import opened Storage
  import opened Protocol
  import opened ProtocolInvariant
  import opened ProtocolSafety

  /** The span of clock readings of an honest run. */
  datatype Window = Window(lo: int, hi: int)

  /** A step in which nothing fails and the clock stays in the window. */
  predicate HonestEnv(e: Env, w: Window) {
    w.lo <= e.now <= w.hi && e.fault == NoFault && e.macValid && e.handlerOk && e.signerOk
  }

  /** A request on `cred` with a genuine proof over a stored challenge that outlives the window. */
  ghost predicate Contender(cfg: Config, w: Window, sh: Shared, cred: Credential, r: LookupRequest) {
    && WellFormedRequest(r)
    && r.credential == ParsedCredential(cred)
    && BoundsAccepted(cfg, cred)
    && cred.id in sh.minted && sh.minted[cred.id].credential == cred
    && cred.issuer == cfg.resource.trustedBroker
    && cred.scope == {cfg.resource.scope}
    && cred.notBefore.value <= w.lo && w.hi <= cred.notAfter.value
    && ProofCovers(r.proof, cred, cfg.resource.audience, cfg.resource.scope, r.recordId, r.sku)
    && var h := TokenHash(r.proof.challenge);
    && h in sh.tables.resource
    && RowMatches(cfg, r, cred.id, sh.tables.resource[h])
    && w.hi < sh.tables.resource[h].expiresAt
  }

  predicate BeforeCommit(pc: RedeemPc) {
    pc.Received? || pc.CredentialVerified? || pc.ChallengeRead? || pc.ProofChecked?
  }

  function Hash(r: LookupRequest): Term {
    TokenHash(r.proof.challenge)
  }

  /** The receipt of a settled call: allowed for the winner, spent for everyone else. */
  ghost predicate RaceReceipt(cfg: Config, w: Window, cred: Credential, c: RedeemCall, p: Payload) {
    && p.receiptId.Random?
    && w.lo <= p.decidedAt <= w.hi
    && p == (if c.spend.Some?
             then InventoryPayload(cfg.resource, p.receiptId.nonce, p.decidedAt, p.snapshot, Allow, ALLOW, Some(cred.id),
                                   Some(Hash(c.request)), ArgumentsDigest(c.request.sku), Some(c.request.recordId),
                                   c.invocation, Completed)
             else InventoryPayload(cfg.resource, p.receiptId.nonce, p.decidedAt, p.snapshot, Deny, CREDENTIAL_SPENT,
                                   Some(cred.id), Some(Hash(c.request)), ArgumentsDigest(c.request.sku),
                                   Some(c.request.recordId), None, NotInvoked))
  }

  ghost predicate Known(cred: Credential, c: RedeemCall) {
    c.credentialId == Some(cred.id) && c.tokenHash == Some(Hash(c.request))
  }

  ghost predicate RacerPoint(cfg: Config, w: Window, cred: Credential, c: RedeemCall) {
    match c.pc
    case Received => true
    case CredentialVerified => c.credentialId == Some(cred.id)
    case ChallengeRead => Known(cred, c) && c.row.Some? && w.hi < c.row.value.expiresAt
    case ProofChecked => Known(cred, c)
    case Committed => Known(cred, c) && c.spend.Some? && w.hi < c.spend.value.challengeExpiresAt
    case Cleared => Known(cred, c) && c.spend.Some?
    case Invoked => Known(cred, c) && c.spend.Some?
    case Handled(completed) => Known(cred, c) && c.spend.Some? && completed
    case Denying(reason) => Known(cred, c) && c.spend.None? && reason == CREDENTIAL_SPENT
    case Answered(p) => Known(cred, c) && RaceReceipt(cfg, w, cred, c, p) && (c.spend.Some? ==> c.invocation.Some?)
    case PostInvocationFailed => false
    case Raised => false
  }

  /** One contender at some point of its call. */
  ghost predicate RacerOk(cfg: Config, w: Window, sh: Shared, cred: Credential, c: RedeemCall) {
    && c.alive
    && Contender(cfg, w, sh, cred, c.request)
    && RacerPoint(cfg, w, cred, c)
    && (BeforeCommit(c.pc) ==> sh.tables.resource[Hash(c.request)].consumedAt.None?)
    && (!BeforeCommit(c.pc) ==> sh.tables.resource[Hash(c.request)].consumedAt.Some? && cred.id in sh.tables.redemptions)
  }

  /** Steps still ahead of a call, at most. */
  function Rank(pc: RedeemPc): nat {
    match pc
    case Received => 8
    case CredentialVerified => 7
    case ChallengeRead => 6
    case ProofChecked => 5
    case Committed => 4
    case Cleared => 3
    case Invoked => 2
    case Handled(_) => 1
    case Denying(_) => 1
    case _ => 0
  }

  // ---- One honest step of one contender ----

  lemma EarlyStep(cfg: Config, w: Window, sh: Shared, boot: nat, cred: Credential, c: RedeemCall, e: Env)
    requires RacerOk(cfg, w, sh, cred, c) && HonestEnv(e, w) && Steppable(c)
    requires c.pc.Received? || c.pc.CredentialVerified? || c.pc.ChallengeRead?
    ensures var (sk, d) := RedeemStep(cfg, sh, c, e);
            sk == sh && RacerOk(cfg, w, sh, cred, d) && Rank(d.pc) < Rank(c.pc) && BeforeCommit(d.pc)
  {
    hide LowerHex, AfterSpend, SpendOutcome, Diff, ValidPayload;
  }

  /** The commit of a contender is never refused; it wins exactly when the credential is unspent. */
  lemma CommitStep(cfg: Config, w: Window, sh: Shared, cred: Credential, c: RedeemCall, e: Env)
    requires RacerOk(cfg, w, sh, cred, c) && HonestEnv(e, w) && c.pc.ProofChecked? && c.spend.None?
    ensures Steppable(c)
    ensures
      var (sk, d) := RedeemStep(cfg, sh, c, e);
      && RacerOk(cfg, w, sk, cred, d) && Rank(d.pc) < Rank(c.pc)
      && (d.spend.Some? <==> cred.id !in sh.tables.redemptions)
      && d.invocation == c.invocation
      && sk == sh.(tables := sk.tables)
      && sk.tables.broker == sh.tables.broker
      && sk.tables.resource == sh.tables.resource[Hash(c.request) := sh.tables.resource[Hash(c.request)].(consumedAt := Some(e.now))]
      && sk.tables.redemptions == (if cred.id in sh.tables.redemptions then sh.tables.redemptions
                                   else sh.tables.redemptions[cred.id := Redemption(Hash(c.request), c.request.recordId, e.now)])
  {
    hide RacerOk, Diff, LowerHex, ValidPayload, SpendOutcome, AfterSpend, HonestEnv;
    NeverRefused(cfg, w, sh, cred, c, e);
    CommitOutcome(cfg, sh, cred, c, e);
    CommittedRacer(cfg, w, sh, cred, c, e);
  }

  /** What the transaction is asked to do. */
  function SpendFor(cfg: Config, cred: Credential, c: RedeemCall): SpendArgs
    requires cred.notBefore.Some? && cred.notAfter.Some?
  {
    Arguments(cfg, c.request, cred, Hash(c.request))
  }

  lemma NeverRefused(cfg: Config, w: Window, sh: Shared, cred: Credential, c: RedeemCall, e: Env)
    requires RacerOk(cfg, w, sh, cred, c) && HonestEnv(e, w) && c.pc.ProofChecked?
    ensures Steppable(c) && e.fault == NoFault && Known(cred, c) && c.request.credential == ParsedCredential(cred)
    ensures cred.notBefore.Some? && cred.notAfter.Some?
    ensures Hash(c.request) in sh.tables.resource && SpendRefusal(sh.tables, SpendFor(cfg, cred, c), e.now).None?
  {
    hide LowerHex, ProofCovers;
  }

  /** The commit step of a call whose transaction is not refused. */
  lemma CommitOutcome(cfg: Config, sh: Shared, cred: Credential, c: RedeemCall, e: Env)
    requires c.pc.ProofChecked? && Steppable(c) && e.fault == NoFault && Known(cred, c) && c.spend.None?
    requires c.request.credential == ParsedCredential(cred) && cred.notBefore.Some? && cred.notAfter.Some?
    requires Hash(c.request) in sh.tables.resource && SpendRefusal(sh.tables, SpendFor(cfg, cred, c), e.now).None?
    ensures
      var (sk, d) := RedeemStep(cfg, sh, c, e);
      var first, row := cred.id !in sh.tables.redemptions, sh.tables.resource[Hash(c.request)];
      && d == c.(spend := d.spend, pc := if first then Committed else Denying(CREDENTIAL_SPENT), cells := d.cells)
      && d.spend == (if first then Some(SpendResult(true, e.now, row.expiresAt)) else None)
      && sk == sh.(tables := sk.tables) && sk.tables.broker == sh.tables.broker
      && sk.tables.resource == sh.tables.resource[Hash(c.request) := row.(consumedAt := Some(e.now))]
      && sk.tables.redemptions == (if first then sh.tables.redemptions[cred.id := Redemption(Hash(c.request), c.request.recordId, e.now)]
                                   else sh.tables.redemptions)
  {
    hide Diff;
  }

  lemma CommittedRacer(cfg: Config, w: Window, sh: Shared, cred: Credential, c: RedeemCall, e: Env)
    requires RacerOk(cfg, w, sh, cred, c) && c.pc.ProofChecked? && Steppable(c) && Hash(c.request) in sh.tables.resource
    requires
      var (sk, d) := RedeemStep(cfg, sh, c, e);
      var first, row := cred.id !in sh.tables.redemptions, sh.tables.resource[Hash(c.request)];
      && d == c.(spend := d.spend, pc := if first then Committed else Denying(CREDENTIAL_SPENT), cells := d.cells)
      && d.spend == (if first then Some(SpendResult(true, e.now, row.expiresAt)) else None)
      && sk == sh.(tables := sk.tables)
      && sk.tables.resource == sh.tables.resource[Hash(c.request) := row.(consumedAt := Some(e.now))]
      && cred.id in sk.tables.redemptions
    ensures var (sk, d) := RedeemStep(cfg, sh, c, e); RacerOk(cfg, w, sk, cred, d)
  {
    hide RedeemStep, LowerHex, ProofCovers, BoundsAccepted;
  }

  /** What a step after the commit keeps. */
  ghost predicate LateMove(cfg: Config, w: Window, cred: Credential, sh: Shared, c: RedeemCall, sk: Shared, d: RedeemCall) {
    && RacerOk(cfg, w, sk, cred, d)
    && (Rank(d.pc) < Rank(c.pc) || Rank(c.pc) == 0 == Rank(d.pc))
    && sk.tables == sh.tables && sk.minted == sh.minted
    && !BeforeCommit(d.pc) && d.spend == c.spend
  }

  lemma LateQuiet(cfg: Config, w: Window, sh: Shared, cred: Credential, c: RedeemCall, e: Env)
    requires RacerOk(cfg, w, sh, cred, c) && HonestEnv(e, w) && Steppable(c)
    requires !BeforeCommit(c.pc) && !c.pc.Handled? && !c.pc.Denying?
    ensures var (sk, d) := RedeemStep(cfg, sh, c, e); LateMove(cfg, w, cred, sh, c, sk, d)
  {
    hide LowerHex, Diff, AfterSpend, SpendOutcome, ProofCovers, ValidPayload, RowMatches, RaceReceipt;
  }

  lemma LateSign(cfg: Config, w: Window, sh: Shared, cred: Credential, c: RedeemCall, e: Env)
    requires RacerOk(cfg, w, sh, cred, c) && HonestEnv(e, w) && (c.pc.Handled? || c.pc.Denying?)
    requires c.pc.Handled? ==> ValidPayload(AllowPayload(cfg, sh, c, c.pc.completed, e.now)) && c.invocation.Some?
    requires c.pc.Denying? ==> ValidPayload(DenialPayload(cfg, sh, c, c.pc.reason, e.now)) && c.invocation.None?
    ensures var (sk, d) := RedeemStep(cfg, sh, c, e); LateMove(cfg, w, cred, sh, c, sk, d)
  {
    hide LowerHex, Diff, AfterSpend, SpendOutcome, ProofCovers, ValidPayload, RowMatches, BoundsAccepted;
  }

  lemma LateStep(cfg: Config, w: Window, sh: Shared, boot: nat, cred: Credential, c: RedeemCall, e: Env)
    requires RacerOk(cfg, w, sh, cred, c) && HonestEnv(e, w) && CallInv(cfg, sh, boot, c) && Steppable(c)
    requires !BeforeCommit(c.pc) && w.lo >= 0 && cfg.NonEmptyStrings()
    ensures var (sk, d) := RedeemStep(cfg, sh, c, e); LateMove(cfg, w, cred, sh, c, sk, d)
  {
    hide RacerOk, CallInv, LateMove, RedeemStep, ValidPayload, AllowPayload, DenialPayload;
    if c.pc.Handled? || c.pc.Denying? {
      assert RacerAlive(c) by { RacerFacts(cfg, w, sh, cred, c); }
      SigningSucceeds(cfg, sh, boot, c, e.now);
      LateSign(cfg, w, sh, cred, c, e);
    } else {
      LateQuiet(cfg, w, sh, cred, c, e);
    }
  }

  lemma SigningSucceeds(cfg: Config, sh: Shared, boot: nat, c: RedeemCall, now: int)
    requires CallInv(cfg, sh, boot, c) && c.alive && now >= 0 && cfg.NonEmptyStrings()
    ensures c.pc.Handled? ==> ValidPayload(AllowPayload(cfg, sh, c, c.pc.completed, now)) && c.invocation.Some?
    ensures c.pc.Denying? ==> ValidPayload(DenialPayload(cfg, sh, c, c.pc.reason, now)) && c.invocation.None?
  {
  }

  // ---- The race as a whole ----

  /** Contenders are the calls numbered base, …, base + n - 1. */
  predicate InRace(i: int, base: nat, n: nat) {
    base <= i < base + n
  }

  ghost predicate DistinctTokens(s: State, base: nat, n: nat)
    requires base + n <= |s.redeems|
  {
    forall i, j :: base <= i < j < base + n ==> Hash(s.redeems[i].request) != Hash(s.redeems[j].request)
  }

  /** Before the race: n fresh calls on distinct stored challenges for one unspent credential. */
  ghost predicate Ready(cfg: Config, w: Window, s: State, base: nat, n: nat, cred: Credential) {
    && Inv(cfg, s) && cfg.NonEmptyStrings() && 0 <= w.lo
    && base + n <= |s.redeems| && DistinctTokens(s, base, n)
    && cred.id !in s.shared.tables.redemptions
    && (forall i :: InRace(i, base, n) ==> s.redeems[i].pc.Received? && RacerOk(cfg, w, s.shared, cred, s.redeems[i]))
  }

  /** Only contenders move, and only by honest steps. */
  predicate HonestSchedule(labels: seq<Label>, base: nat, n: nat, w: Window) {
    forall k :: 0 <= k < |labels| ==>
      labels[k].StepRedeem? && InRace(labels[k].call, base, n) && HonestEnv(labels[k].env, w)
  }

  /** What the race leaves alone. */
  ghost predicate Untouched(s: State, t: State, base: nat, n: nat, cred: Credential)
    requires |s.redeems| == |t.redeems| && base + n <= |s.redeems|
  {
    && (forall i :: 0 <= i < |s.redeems| ==>
          t.redeems[i].request == s.redeems[i].request && (!InRace(i, base, n) ==> t.redeems[i] == s.redeems[i]))
    && t.shared.minted == s.shared.minted
    && t.shared.tables.broker == s.shared.tables.broker
    && t.shared.tables.resource.Keys == s.shared.tables.resource.Keys
    && (forall h :: h in s.shared.tables.resource && (forall i :: InRace(i, base, n) ==> h != Hash(s.redeems[i].request)) ==>
          t.shared.tables.resource[h] == s.shared.tables.resource[h])
    && (forall id :: id != cred.id ==>
          (id in t.shared.tables.redemptions <==> id in s.shared.tables.redemptions)
          && (id in s.shared.tables.redemptions ==> t.shared.tables.redemptions[id] == s.shared.tables.redemptions[id]))
    && t.issues == s.issues && t.boot == s.boot && t.rowsAtBoot == s.rowsAtBoot && t.logAtBoot == s.logAtBoot
    && s.shared.nonce <= t.shared.nonce
  }

  ghost predicate Racing(cfg: Config, w: Window, s: State, t: State, base: nat, n: nat, cred: Credential) {
    && Inv(cfg, t) && |t.redeems| == |s.redeems| && base + n <= |s.redeems|
    && Untouched(s, t, base, n, cred)
    && DistinctTokens(t, base, n)
    && (forall i :: InRace(i, base, n) ==> RacerOk(cfg, w, t.shared, cred, t.redeems[i]))
    && WinnerOk(t, base, n, cred) && CountsOk(s, t, base, n) && SnapshotsOk(s, t, base, n)
  }

  /** Every receipt of the race saw the counter between its start and now. */
  ghost predicate SnapshotsOk(s: State, t: State, base: nat, n: nat)
    requires base + n <= |t.redeems|
  {
    && s.shared.count <= t.shared.count
    && (forall i :: InRace(i, base, n) && t.redeems[i].pc.Answered? ==>
          s.shared.count <= t.redeems[i].pc.receipt.snapshot <= t.shared.count)
  }

  lemma RaceSnapshots(s: State, t: State, u: State, base: nat, n: nat, i: nat, d: RedeemCall)
    requires base + n <= |t.redeems| && InRace(i, base, n) && SnapshotsOk(s, t, base, n)
    requires u.redeems == t.redeems[i := d] && RedeemEffect(t.shared, t.redeems[i], u.shared, d)
    requires t.shared.count <= u.shared.count
    ensures SnapshotsOk(s, u, base, n)
  {
  }

  /** A contender is untouched by another contender's step. */
  lemma BystanderOk(cfg: Config, w: Window, sh: Shared, sk: Shared, cred: Credential, c: RedeemCall, h: Term)
    requires RacerOk(cfg, w, sh, cred, c) && Hash(c.request) != h
    requires sk.minted == sh.minted
    requires Hash(c.request) in sk.tables.resource
             && sk.tables.resource[Hash(c.request)] == sh.tables.resource[Hash(c.request)]
    requires cred.id in sh.tables.redemptions ==> cred.id in sk.tables.redemptions
    ensures RacerOk(cfg, w, sk, cred, c)
  {
  }

  /** What the moving contender's step does, whichever point it is at. */
  ghost predicate RaceMove(cfg: Config, w: Window, cred: Credential, sh: Shared, c: RedeemCall, sk: Shared, d: RedeemCall) {
    && RacerOk(cfg, w, sk, cred, d)
    && (Rank(d.pc) < Rank(c.pc) || Rank(c.pc) == 0 == Rank(d.pc))
    && sk.minted == sh.minted && sk.tables.broker == sh.tables.broker
    && sk.tables.resource.Keys == sh.tables.resource.Keys
    && (forall h :: h in sh.tables.resource && h != Hash(c.request) ==> sk.tables.resource[h] == sh.tables.resource[h])
    && (forall id :: id != cred.id ==>
          (id in sk.tables.redemptions <==> id in sh.tables.redemptions)
          && (id in sh.tables.redemptions ==> sk.tables.redemptions[id] == sh.tables.redemptions[id]))
    && (cred.id in sh.tables.redemptions ==> cred.id in sk.tables.redemptions)
    && (cred.id in sk.tables.redemptions && cred.id !in sh.tables.redemptions ==> d.spend.Some?)
  }

  lemma OneMove(cfg: Config, w: Window, sh: Shared, boot: nat, cred: Credential, c: RedeemCall, e: Env)
    requires RacerOk(cfg, w, sh, cred, c) && HonestEnv(e, w) && CallInv(cfg, sh, boot, c)
    requires w.lo >= 0 && cfg.NonEmptyStrings()
    ensures Steppable(c)
    ensures var (sk, d) := RedeemStep(cfg, sh, c, e); RaceMove(cfg, w, cred, sh, c, sk, d)
  {
    hide CallInv, RacerOk, RedeemStep, HonestEnv, RaceMove, Steppable;
    CallSteppable(cfg, sh, boot, c);
    PointFacts(cfg, sh, boot, c);
    if c.pc.ProofChecked? {
      assert Hash(c.request) in sh.tables.resource by { RacerRow(cfg, w, sh, cred, c); }
      CommitMove(cfg, w, sh, cred, c, e);
    } else {
      OtherMove(cfg, w, sh, boot, cred, c, e);
    }
  }

  lemma RacerRow(cfg: Config, w: Window, sh: Shared, cred: Credential, c: RedeemCall)
    requires RacerOk(cfg, w, sh, cred, c)
    ensures Hash(c.request) in sh.tables.resource
  {
  }

  lemma CommitMove(cfg: Config, w: Window, sh: Shared, cred: Credential, c: RedeemCall, e: Env)
    requires RacerOk(cfg, w, sh, cred, c) && HonestEnv(e, w) && c.pc.ProofChecked? && c.spend.None? && Steppable(c)
    requires Hash(c.request) in sh.tables.resource
    ensures var (sk, d) := RedeemStep(cfg, sh, c, e); RaceMove(cfg, w, cred, sh, c, sk, d)
  {
    hide RacerOk, RedeemStep, HonestEnv, Rank;
    CommitStep(cfg, w, sh, cred, c, e);
  }

  lemma OtherMove(cfg: Config, w: Window, sh: Shared, boot: nat, cred: Credential, c: RedeemCall, e: Env)
    requires RacerOk(cfg, w, sh, cred, c) && HonestEnv(e, w) && CallInv(cfg, sh, boot, c) && !c.pc.ProofChecked? && Steppable(c)
    requires w.lo >= 0 && cfg.NonEmptyStrings()
    ensures var (sk, d) := RedeemStep(cfg, sh, c, e); RaceMove(cfg, w, cred, sh, c, sk, d)
  {
    hide CallInv, RacerOk, RedeemStep, HonestEnv, Rank, Steppable;
    if BeforeCommit(c.pc) {
      EarlyStep(cfg, w, sh, boot, cred, c, e);
    } else {
      LateStep(cfg, w, sh, boot, cred, c, e);
    }
  }

  lemma RaceNext(cfg: Config, w: Window, s: State, t: State, base: nat, n: nat, cred: Credential, i: nat, e: Env)
    requires Racing(cfg, w, s, t, base, n, cred) && InRace(i, base, n) && HonestEnv(e, w)
    requires w.lo >= 0 && cfg.NonEmptyStrings()
    ensures Racing(cfg, w, s, StepRedeemAt(cfg, t, i, e), base, n, cred)
    ensures var u := StepRedeemAt(cfg, t, i, e);
            && |u.redeems| == |t.redeems|
            && (forall j :: InRace(j, base, n) && j != i ==> u.redeems[j] == t.redeems[j])
            && (Rank(u.redeems[i].pc) < Rank(t.redeems[i].pc) || Rank(t.redeems[i].pc) == 0 == Rank(u.redeems[i].pc))
  {
    hide CallInv, Accounted, IssuesInv, LogInv, CountInv, SpendsDistinct, ReceiptsDistinct, RedeemStep, Steppable,
      RacerOk, Contender, Untouched, WinnerOk, CountsOk, SnapshotsOk, RedeemEffect;
    var c := t.redeems[i];
    RedeemStepInv(cfg, t, i, e);
    OneMove(cfg, w, t.shared, t.boot, cred, c, e);
    StepEffect(cfg, t.shared, t.boot, c, e);
    RedeemStepKeeps(cfg, t.shared, t.boot, c, e);
    var (sk, d) := RedeemStep(cfg, t.shared, c, e);
    var u := StepRedeemAt(cfg, t, i, e);
    assert RacerAlive(c) by { RacerFacts(cfg, w, t.shared, cred, c); }
    assert u.redeems == t.redeems[i := d] && u.shared == sk;
    EffectFacts(t.shared, c, sk, d);
    RaceCalls(cfg, w, t, base, n, cred, i, sk, d);
    RaceUntouched(s, t, u, base, n, cred, i, d);
    forall j | InRace(j, base, n)
      ensures u.redeems[j].request.credential == ParsedCredential(cred)
    {
      RacerFacts(cfg, w, u.shared, cred, u.redeems[j]);
    }
    RaceCounts(cfg, w, s, t, u, base, n, cred, i, d);
    RaceWinner(cfg, w, t, u, base, n, cred, i, d);
    RaceSnapshots(s, t, u, base, n, i, d);
  }

  predicate RacerAlive(c: RedeemCall) {
    c.alive
  }

  lemma RacerFacts(cfg: Config, w: Window, sh: Shared, cred: Credential, c: RedeemCall)
    requires RacerOk(cfg, w, sh, cred, c)
    ensures RacerAlive(c) && c.request.credential == ParsedCredential(cred)
  {
  }

  lemma EffectFacts(sh: Shared, c: RedeemCall, sk: Shared, d: RedeemCall)
    requires RedeemEffect(sh, c, sk, d)
    ensures d.request == c.request
  {
  }

  lemma RaceCalls(cfg: Config, w: Window, t: State, base: nat, n: nat, cred: Credential, i: nat, sk: Shared, d: RedeemCall)
    requires base + n <= |t.redeems| && InRace(i, base, n) && DistinctTokens(t, base, n)
    requires forall j :: InRace(j, base, n) ==> RacerOk(cfg, w, t.shared, cred, t.redeems[j])
    requires RaceMove(cfg, w, cred, t.shared, t.redeems[i], sk, d)
    ensures forall j :: InRace(j, base, n) ==> RacerOk(cfg, w, sk, cred, t.redeems[i := d][j])
  {
    forall j | InRace(j, base, n)
      ensures RacerOk(cfg, w, sk, cred, t.redeems[i := d][j])
    {
      if j != i {
        BystanderOk(cfg, w, t.shared, sk, cred, t.redeems[j], Hash(t.redeems[i].request));
      }
    }
  }

  lemma RaceUntouched(s: State, t: State, u: State, base: nat, n: nat, cred: Credential, i: nat, d: RedeemCall)
    requires |s.redeems| == |t.redeems| && base + n <= |s.redeems| && InRace(i, base, n)
    requires Untouched(s, t, base, n, cred)
    requires u == t.(shared := u.shared, clock := u.clock, redeems := t.redeems[i := d], log := u.log)
    requires d.request == t.redeems[i].request
    requires var sh, sk := t.shared, u.shared;
      && sk.minted == sh.minted && sk.tables.broker == sh.tables.broker
      && sk.tables.resource.Keys == sh.tables.resource.Keys
      && (forall h :: h in sh.tables.resource && h != Hash(t.redeems[i].request) ==> sk.tables.resource[h] == sh.tables.resource[h])
      && (forall id :: id != cred.id ==>
            (id in sk.tables.redemptions <==> id in sh.tables.redemptions)
            && (id in sh.tables.redemptions ==> sk.tables.redemptions[id] == sh.tables.redemptions[id]))
    requires t.shared.nonce <= u.shared.nonce
    ensures Untouched(s, u, base, n, cred)
  {
    forall h | h in s.shared.tables.resource && (forall i :: InRace(i, base, n) ==> h != Hash(s.redeems[i].request))
      ensures u.shared.tables.resource[h] == s.shared.tables.resource[h]
    {
      assert h != Hash(s.redeems[i].request);
    }
  }

  lemma SpentCredential(cfg: Config, sh: Shared, boot: nat, c: RedeemCall)
    requires CallInv(cfg, sh, boot, c)
    ensures c.invocation.Some? ==> c.spend.Some?
    ensures c.spend.Some? && c.request.credential.ParsedCredential? ==> c.credentialId == Some(c.request.credential.credential.id)
  {
  }

  /** Two contenders cannot both have invoked the handler, nor both have spent. */
  lemma NoRival(cfg: Config, w: Window, u: State, base: nat, n: nat, cred: Credential, i: int, j: int)
    requires RedeemsInv(cfg, u) && SpendsDistinct(u.redeems) && base + n <= |u.redeems|
    requires InRace(i, base, n) && InRace(j, base, n) && i != j
    requires u.redeems[i].request.credential == u.redeems[j].request.credential == ParsedCredential(cred)
    ensures u.redeems[i].spend.None? || u.redeems[j].spend.None?
    ensures u.redeems[i].invocation.None? || u.redeems[j].invocation.None?
  {
    hide CallInv, Accounted;
    SpentCredential(cfg, u.shared, u.boot, u.redeems[i]);
    SpentCredential(cfg, u.shared, u.boot, u.redeems[j]);
  }

  /** The counter tells whether some contender has invoked, and every such contender its number. */
  ghost predicate CountsOk(s: State, u: State, base: nat, n: nat)
    requires base + n <= |u.redeems|
  {
    && ((forall i :: InRace(i, base, n) ==> u.redeems[i].invocation.None?) ==> u.shared.count == s.shared.count)
    && (forall i :: InRace(i, base, n) && u.redeems[i].invocation.Some? ==>
          u.shared.count == s.shared.count + 1 && u.redeems[i].invocation == Some(s.shared.count + 1))
  }

  ghost predicate WinnerOk(u: State, base: nat, n: nat, cred: Credential)
    requires base + n <= |u.redeems|
  {
    cred.id in u.shared.tables.redemptions ==> exists i :: InRace(i, base, n) && u.redeems[i].spend.Some?
  }

  lemma RaceCounts(cfg: Config, w: Window, s: State, t: State, u: State, base: nat, n: nat, cred: Credential, i: nat, d: RedeemCall)
    requires base + n <= |t.redeems| && InRace(i, base, n) && CountsOk(s, t, base, n)
    requires u.redeems == t.redeems[i := d] && RedeemEffect(t.shared, t.redeems[i], u.shared, d)
    requires RedeemsInv(cfg, u) && SpendsDistinct(u.redeems)
    requires forall j :: InRace(j, base, n) ==> u.redeems[j].request.credential == ParsedCredential(cred)
    ensures CountsOk(s, u, base, n)
  {
    hide RedeemsInv, SpendsDistinct;
    var c := t.redeems[i];
    forall j | InRace(j, base, n) && j != i
      ensures u.redeems[j] == t.redeems[j]
      ensures d.invocation.Some? ==> t.redeems[j].invocation.None?
    {
      NoRival(cfg, w, u, base, n, cred, i, j);
    }
    assert u.redeems[i] == d;
    if c.invocation.None? && d.invocation.Some? {
      assert forall j :: InRace(j, base, n) ==> t.redeems[j].invocation.None?;
    } else {
      assert u.shared.count == t.shared.count && d.invocation == c.invocation;
      assert forall j :: InRace(j, base, n) ==> u.redeems[j].invocation == t.redeems[j].invocation;
    }
  }

  lemma RaceWinner(cfg: Config, w: Window, t: State, u: State, base: nat, n: nat, cred: Credential, i: nat, d: RedeemCall)
    requires base + n <= |t.redeems| && InRace(i, base, n) && WinnerOk(t, base, n, cred)
    requires u.redeems == t.redeems[i := d]
    requires RedeemEffect(t.shared, t.redeems[i], u.shared, d) && RaceMove(cfg, w, cred, t.shared, t.redeems[i], u.shared, d)
    ensures WinnerOk(u, base, n, cred)
  {
    if cred.id in u.shared.tables.redemptions {
      if cred.id in t.shared.tables.redemptions {
        var j :| InRace(j, base, n) && t.redeems[j].spend.Some?;
        assert InRace(j, base, n) && u.redeems[j].spend.Some?;
      } else {
        assert InRace(i, base, n) && u.redeems[i].spend.Some?;
      }
    }
  }

  // ---- Outcome ----

  /** How often the schedule moves one call. */
  function Steps(labels: seq<Label>, i: nat): nat {
    if labels == [] then 0
    else
      var last := labels[|labels| - 1];
      Steps(labels[..|labels| - 1], i) + (if last.StepRedeem? && last.call == i then 1 else 0)
  }

  /** Every contender has settled or has used up as many of its eight steps as it was given. */
  ghost predicate Progressed(t: State, labels: seq<Label>, base: nat, n: nat)
    requires base + n <= |t.redeems|
  {
    forall i :: InRace(i, base, n) ==> Rank(t.redeems[i].pc) == 0 || Rank(t.redeems[i].pc) + Steps(labels, i) <= 8
  }

  lemma ProgressNext(t: State, u: State, labels: seq<Label>, base: nat, n: nat, l: Label)
    requires base + n <= |t.redeems| == |u.redeems| && Progressed(t, labels, base, n)
    requires l.StepRedeem? && InRace(l.call, base, n)
    requires forall j :: InRace(j, base, n) && j != l.call ==> u.redeems[j] == t.redeems[j]
    requires Rank(u.redeems[l.call].pc) < Rank(t.redeems[l.call].pc) || Rank(t.redeems[l.call].pc) == 0 == Rank(u.redeems[l.call].pc)
    ensures Progressed(u, labels + [l], base, n)
  {
    assert (labels + [l])[..|labels|] == labels;
  }

  lemma {:induction false} RaceRun(cfg: Config, w: Window, s: State, base: nat, n: nat, cred: Credential, labels: seq<Label>)
    requires Ready(cfg, w, s, base, n, cred) && HonestSchedule(labels, base, n, w)
    ensures Racing(cfg, w, s, Exec(cfg, s, labels), base, n, cred)
    ensures Progressed(Exec(cfg, s, labels), labels, base, n)
    decreases |labels|
  {
    hide Inv, RacerOk, Untouched, CountsOk, WinnerOk, SnapshotsOk, Rank, Steps, DistinctTokens, StepRedeemAt;
    if labels == [] {
      RaceStart(cfg, w, s, base, n, cred);
    } else {
      var m := |labels| - 1;
      var before, l := labels[..m], labels[m];
      RaceRun(cfg, w, s, base, n, cred, before);
      var t := Exec(cfg, s, before);
      RaceNext(cfg, w, s, t, base, n, cred, l.call, l.env);
      ProgressNext(t, StepRedeemAt(cfg, t, l.call, l.env), before, base, n, l);
      assert before + [l] == labels;
    }
  }

  lemma RaceStart(cfg: Config, w: Window, s: State, base: nat, n: nat, cred: Credential)
    requires Ready(cfg, w, s, base, n, cred)
    ensures Racing(cfg, w, s, s, base, n, cred) && Progressed(s, [], base, n)
  {
    hide RacerOk, CallInv, Accounted, IssueInv, Tally;
    forall i | InRace(i, base, n)
      ensures s.redeems[i].invocation.None?
    {
      PointFacts(cfg, s.shared, s.boot, s.redeems[i]);
    }
  }

  /** The race is over: the k-th call won, everyone else found the credential spent. */
  ghost predicate RaceWon(cfg: Config, w: Window, s: State, t: State, base: nat, n: nat, cred: Credential, k: nat) {
    && |t.redeems| == |s.redeems| && base + n <= |s.redeems| && InRace(k, base, n)
    && Inv(cfg, t) && Untouched(s, t, base, n, cred)
    && t.shared.count == s.shared.count + 1
    && cred.id in t.shared.tables.redemptions
    && t.shared.tables.redemptions[cred.id].tokenHash == Hash(s.redeems[k].request)
    && |t.shared.tables.redemptions| == |s.shared.tables.redemptions| + 1
    && (forall i :: InRace(i, base, n) ==>
          && t.redeems[i].pc.Answered?
          && RaceReceipt(cfg, w, cred, t.redeems[i], t.redeems[i].pc.receipt)
          && s.shared.count <= t.redeems[i].pc.receipt.snapshot <= t.shared.count
          && (t.redeems[i].spend.Some? <==> i == k)
          && Hash(s.redeems[i].request) in t.shared.tables.resource
          && t.shared.tables.resource[Hash(s.redeems[i].request)].consumedAt.Some?
          && RowMatches(cfg, s.redeems[i].request, cred.id, t.shared.tables.resource[Hash(s.redeems[i].request)]))
    && t.redeems[k].invocation == Some(t.shared.count)
  }

  /** For every n ≥ 1 and every honest schedule in which each contender gets its eight steps, the
      race ends with exactly one ALLOW and n - 1 CREDENTIAL_SPENT, one more invocation and one
      more redemption row, which names the winner's challenge. */
  lemma RaceOutcome(cfg: Config, w: Window, s: State, base: nat, n: nat, cred: Credential, labels: seq<Label>) returns (k: nat)
    requires Ready(cfg, w, s, base, n, cred) && HonestSchedule(labels, base, n, w) && n >= 1
    requires forall i :: InRace(i, base, n) ==> Steps(labels, i) >= 8
    ensures RaceWon(cfg, w, s, Exec(cfg, s, labels), base, n, cred, k)
  {
    hide Exec, HonestSchedule, RacerOk, CallInv, Untouched, CountsOk, SnapshotsOk, Inv, WinnerOk, DistinctTokens;
    RaceRun(cfg, w, s, base, n, cred, labels);
    k := RaceSettled(cfg, w, s, Exec(cfg, s, labels), base, n, cred);
  }

  lemma SettledRacer(cfg: Config, w: Window, sh: Shared, cred: Credential, c: RedeemCall)
    requires RacerOk(cfg, w, sh, cred, c) && Rank(c.pc) == 0
    ensures c.pc.Answered? && RaceReceipt(cfg, w, cred, c, c.pc.receipt)
    ensures c.spend.Some? ==> c.invocation.Some?
    ensures Hash(c.request) in sh.tables.resource && sh.tables.resource[Hash(c.request)].consumedAt.Some?
    ensures RowMatches(cfg, c.request, cred.id, sh.tables.resource[Hash(c.request)])
    ensures cred.id in sh.tables.redemptions
  {
  }

  lemma WinnerRow(cfg: Config, sh: Shared, boot: nat, c: RedeemCall, cred: Credential)
    requires CallInv(cfg, sh, boot, c) && c.spend.Some? && c.request.credential == ParsedCredential(cred)
    ensures cred.id in sh.tables.redemptions && sh.tables.redemptions[cred.id].tokenHash == Hash(c.request)
  {
  }

  lemma OneMoreRow(s: State, t: State, base: nat, n: nat, cred: Credential)
    requires |s.redeems| == |t.redeems| && base + n <= |s.redeems| && Untouched(s, t, base, n, cred)
    requires cred.id !in s.shared.tables.redemptions && cred.id in t.shared.tables.redemptions
    ensures |t.shared.tables.redemptions| == |s.shared.tables.redemptions| + 1
  {
    var a, b := s.shared.tables.redemptions, t.shared.tables.redemptions;
    assert b.Keys == a.Keys + {cred.id};
    assert |a.Keys| == |a| && |b.Keys| == |b|;
  }

  /** A contender that has settled. */
  ghost predicate RacerDone(cfg: Config, w: Window, sh: Shared, cred: Credential, c: RedeemCall) {
    && c.pc.Answered? && RaceReceipt(cfg, w, cred, c, c.pc.receipt)
    && (c.spend.Some? ==> c.invocation.Some?)
    && Hash(c.request) in sh.tables.resource && sh.tables.resource[Hash(c.request)].consumedAt.Some?
    && RowMatches(cfg, c.request, cred.id, sh.tables.resource[Hash(c.request)])
    && cred.id in sh.tables.redemptions
    && c.request.credential == ParsedCredential(cred)
  }

  lemma AllDone(cfg: Config, w: Window, s: State, t: State, base: nat, n: nat, cred: Credential)
    requires Racing(cfg, w, s, t, base, n, cred)
    requires forall i :: InRace(i, base, n) ==> Rank(t.redeems[i].pc) == 0
    ensures forall i :: InRace(i, base, n) ==> RacerDone(cfg, w, t.shared, cred, t.redeems[i])
  {
    hide RacerOk, Inv, Untouched, Rank, RaceReceipt, RowMatches, WinnerOk, CountsOk, SnapshotsOk, DistinctTokens;
    forall i | InRace(i, base, n)
      ensures RacerDone(cfg, w, t.shared, cred, t.redeems[i])
    {
      SettledRacer(cfg, w, t.shared, cred, t.redeems[i]);
      RacerFacts(cfg, w, t.shared, cred, t.redeems[i]);
    }
  }

  /** Exactly one contender made the first spend. */
  lemma OneSpender(cfg: Config, w: Window, t: State, base: nat, n: nat, cred: Credential) returns (k: nat)
    requires base + n <= |t.redeems| && n >= 1 && Inv(cfg, t) && WinnerOk(t, base, n, cred)
    requires forall i :: InRace(i, base, n) ==> RacerDone(cfg, w, t.shared, cred, t.redeems[i])
    ensures InRace(k, base, n) && forall i :: InRace(i, base, n) ==> (t.redeems[i].spend.Some? <==> i == k)
    ensures cred.id in t.shared.tables.redemptions && t.shared.tables.redemptions[cred.id].tokenHash == Hash(t.redeems[k].request)
    ensures t.redeems[k].invocation.Some?
  {
    hide CallInv, Accounted, IssuesInv, LogInv, CountInv, RaceReceipt, SpendsDistinct, ReceiptsDistinct, RowMatches, Hash;
    assert InRace(base, base, n);
    var j: int :| InRace(j, base, n) && t.redeems[j].spend.Some?;
    k := j;
    forall i | InRace(i, base, n) && i != k
      ensures t.redeems[i].spend.None?
    {
      NoRival(cfg, w, t, base, n, cred, i, k);
    }
    WinnerRow(cfg, t.shared, t.boot, t.redeems[k], cred);
  }

  lemma RaceSettled(cfg: Config, w: Window, s: State, t: State, base: nat, n: nat, cred: Credential) returns (k: nat)
    requires Racing(cfg, w, s, t, base, n, cred) && n >= 1 && cred.id !in s.shared.tables.redemptions
    requires forall i :: InRace(i, base, n) ==> Rank(t.redeems[i].pc) == 0
    ensures RaceWon(cfg, w, s, t, base, n, cred, k)
  {
    hide RacerOk, Inv, Untouched, Rank, RaceReceipt, RowMatches, DistinctTokens, Hash;
    AllDone(cfg, w, s, t, base, n, cred);
    k := OneSpender(cfg, w, t, base, n, cred);
    OneMoreRow(s, t, base, n, cred);
    SameRequests(s, t, base, n, cred);
  }

  lemma SameRequests(s: State, t: State, base: nat, n: nat, cred: Credential)
    requires |s.redeems| == |t.redeems| && base + n <= |s.redeems| && Untouched(s, t, base, n, cred)
    ensures forall i :: 0 <= i < |s.redeems| ==> t.redeems[i].request == s.redeems[i].request
  {
  }
}
