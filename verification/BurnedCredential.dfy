/** A credential can be spent and its handler never run: the clock runs out between the commit and
    the last look at it. */
module BurnedCredential {
  import opened Symbols
  import opened Receipt
  import opened Storage
  import opened Protocol
  import opened ProtocolTheorems
  import opened Race
  import opened Inventory

  /** What the last look at the clock says against the call, if anything. */
  function LateReason(cred: Credential, expiresAt: int, now: int): Option<Reason>
    requires cred.notBefore.Some? && cred.notAfter.Some?
  {
    if now >= expiresAt then Some(CHALLENGE_STALE)
    else if now < cred.notBefore.value || now > cred.notAfter.value then Some(CREDENTIAL_EXPIRED)
    else None
  }

  /** A genuine lookup of an unspent credential, about to be redeemed at one instant, and a clock
      that has run out when the handler would start. */
  ghost predicate AboutToBurn(cfg: Config, sh: Shared, cred: Credential, r: LookupRequest, f: Env, e: Env, g: Env) {
    && cfg.NonEmptyStrings()
    && Contender(cfg, Window(f.now, f.now), sh, cred, r) && HonestEnv(f, Window(f.now, f.now))
    && sh.tables.resource[Hash(r)].consumedAt.None? && cred.id !in sh.tables.redemptions
    && e.fault == NoFault && LateReason(cred, sh.tables.resource[Hash(r)].expiresAt, e.now).Some?
    && g.signerOk && g.now >= 0
  }

  /** The call at each of its points. */
  ghost function BurnCall(r: LookupRequest, boot: nat, cred: Credential, row: ResourceRow, at: int, reason: Reason, k: nat): RedeemCall {
    var c := NewCall(r, boot).(credentialId := Some(cred.id));
    if k == 0 then NewCall(r, boot)
    else if k == 1 then c.(pc := CredentialVerified)
    else
      var d := c.(tokenHash := Some(Hash(r)), row := Some(row));
      if k == 2 then d.(pc := ChallengeRead)
      else if k == 3 then d.(pc := ProofChecked)
      else
        var u := d.(spend := Some(SpendResult(true, at, row.expiresAt)), cells := {ResourceCell(Hash(r)), RedemptionCell(cred.id)});
        if k == 4 then u.(pc := Committed) else u.(pc := Denying(reason))
  }

  /** Shared state once the transaction has committed. */
  ghost function BurnShared(sh: Shared, r: LookupRequest, cred: Credential, at: int, k: nat): Shared
    requires Hash(r) in sh.tables.resource
  {
    if k < 4 then sh
    else sh.(tables := Tables(
           sh.tables.broker,
           sh.tables.resource[Hash(r) := sh.tables.resource[Hash(r)].(consumedAt := Some(at))],
           sh.tables.redemptions[cred.id := Redemption(Hash(r), r.recordId, at)]))
  }

  ghost predicate StepsTo(cfg: Config, sh: Shared, c: RedeemCall, e: Env, sk: Shared, d: RedeemCall) {
    Steppable(c) && RedeemStep(cfg, sh, c, e) == (sk, d)
  }

  lemma BurnEarly(cfg: Config, sh: Shared, boot: nat, cred: Credential, r: LookupRequest, f: Env, e: Env, g: Env, reason: Reason, k: nat)
    requires AboutToBurn(cfg, sh, cred, r, f, e, g) && k < 3
    ensures var row := sh.tables.resource[Hash(r)];
            StepsTo(cfg, sh, BurnCall(r, boot, cred, row, f.now, reason, k), f, sh, BurnCall(r, boot, cred, row, f.now, reason, k + 1))
  {
    hide LowerHex, AfterSpend, SpendOutcome, Diff, ValidPayload;
  }

  lemma BurnCommit(cfg: Config, sh: Shared, boot: nat, cred: Credential, r: LookupRequest, f: Env, e: Env, g: Env, reason: Reason)
    requires AboutToBurn(cfg, sh, cred, r, f, e, g)
    ensures var row := sh.tables.resource[Hash(r)];
            StepsTo(cfg, sh, BurnCall(r, boot, cred, row, f.now, reason, 3), f,
                    BurnShared(sh, r, cred, f.now, 4), BurnCall(r, boot, cred, row, f.now, reason, 4))
  {
    var a := Arguments(cfg, r, cred, Hash(r));
    assert SpendRefusal(sh.tables, a, f.now).None?;
    SpendWrites(sh.tables, a, f.now);
    hide LowerHex, Diff, ValidPayload, ProofCovers;
    assert AfterSpend(sh.tables, a, f.now) == BurnShared(sh, r, cred, f.now, 4).tables;
    assert {} + SpendCells(sh.tables, a, f.now) == {ResourceCell(Hash(r)), RedemptionCell(cred.id)};
  }

  lemma BurnLate(cfg: Config, sh: Shared, boot: nat, cred: Credential, r: LookupRequest, f: Env, e: Env, g: Env)
    requires AboutToBurn(cfg, sh, cred, r, f, e, g)
    ensures var row := sh.tables.resource[Hash(r)];
            var reason, sk := LateReason(cred, row.expiresAt, e.now).value, BurnShared(sh, r, cred, f.now, 4);
            && StepsTo(cfg, sk, BurnCall(r, boot, cred, row, f.now, reason, 4), e, sk, BurnCall(r, boot, cred, row, f.now, reason, 5))
  {
    hide LowerHex, ValidPayload, ProofCovers, AfterSpend, SpendOutcome, Diff;
  }

  lemma BurnSigned(cfg: Config, sh: Shared, boot: nat, cred: Credential, r: LookupRequest, f: Env, e: Env, g: Env)
    requires AboutToBurn(cfg, sh, cred, r, f, e, g)
    ensures var row := sh.tables.resource[Hash(r)];
            var reason, sk := LateReason(cred, row.expiresAt, e.now).value, BurnShared(sh, r, cred, f.now, 4);
            var c := BurnCall(r, boot, cred, row, f.now, reason, 5);
            StepsTo(cfg, sk, c, g, sk.(nonce := sk.nonce + 1), c.(pc := Answered(DenialPayload(cfg, sk, c, reason, g.now))))
  {
    hide LowerHex, ProofCovers, AfterSpend, SpendOutcome, Diff;
  }

  lemma Moves(cfg: Config, sh: Shared, c: RedeemCall, envs: seq<Env>, k: nat, sk: Shared, d: RedeemCall, sl: Shared, u: RedeemCall)
    requires k < |envs| && Solo(cfg, sh, c, envs[..k]) == (sk, d) && StepsTo(cfg, sk, d, envs[k], sl, u)
    ensures Solo(cfg, sh, c, envs[..k + 1]) == (sl, u)
  {
    hide Solo, RedeemStep;
    Took(cfg, sh, c, envs, k, sk, d);
  }

  /** Whatever the state, such a call ends in its clock denial with the credential spent: both rows
      are written, the counter has not moved, and the handler was not entered. */
  lemma BurnsCredential(cfg: Config, sh: Shared, boot: nat, cred: Credential, r: LookupRequest, f: Env, e: Env, g: Env)
    requires AboutToBurn(cfg, sh, cred, r, f, e, g)
    ensures
      var (sk, d) := Solo(cfg, sh, NewCall(r, boot), [f, f, f, f, e, g]);
      && d.pc.Answered? && d.pc.receipt.decision == Deny
      && Some(d.pc.receipt.reason) == LateReason(cred, sh.tables.resource[Hash(r)].expiresAt, e.now)
      && d.invocation.None? && SpendOwned(d) && d.credentialId == Some(cred.id)
      && cred.id in sk.tables.redemptions && sk.count == sh.count
  {
    hide Solo, RedeemStep, StepsTo;
    var envs, c := [f, f, f, f, e, g], NewCall(r, boot);
    var row := sh.tables.resource[Hash(r)];
    var reason, sk := LateReason(cred, row.expiresAt, e.now).value, BurnShared(sh, r, cred, f.now, 4);
    Starts(cfg, sh, c, envs);
    BurnEarly(cfg, sh, boot, cred, r, f, e, g, reason, 0);
    Moves(cfg, sh, c, envs, 0, sh, c, sh, BurnCall(r, boot, cred, row, f.now, reason, 1));
    BurnEarly(cfg, sh, boot, cred, r, f, e, g, reason, 1);
    Moves(cfg, sh, c, envs, 1, sh, BurnCall(r, boot, cred, row, f.now, reason, 1), sh, BurnCall(r, boot, cred, row, f.now, reason, 2));
    BurnEarly(cfg, sh, boot, cred, r, f, e, g, reason, 2);
    Moves(cfg, sh, c, envs, 2, sh, BurnCall(r, boot, cred, row, f.now, reason, 2), sh, BurnCall(r, boot, cred, row, f.now, reason, 3));
    BurnCommit(cfg, sh, boot, cred, r, f, e, g, reason);
    var c4, c5 := BurnCall(r, boot, cred, row, f.now, reason, 4), BurnCall(r, boot, cred, row, f.now, reason, 5);
    Moves(cfg, sh, c, envs, 3, sh, BurnCall(r, boot, cred, row, f.now, reason, 3), sk, c4);
    BurnLate(cfg, sh, boot, cred, r, f, e, g);
    Moves(cfg, sh, c, envs, 4, sk, c4, sk, c5);
    BurnSigned(cfg, sh, boot, cred, r, f, e, g);
    var done := c5.(pc := Answered(DenialPayload(cfg, sk, c5, reason, g.now)));
    Moves(cfg, sh, c, envs, 5, sk, c5, sk.(nonce := sk.nonce + 1), done);
    assert envs[..6] == envs;
  }
}
