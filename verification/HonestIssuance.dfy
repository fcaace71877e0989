/** An honest issuance always succeeds. */
module HonestIssuance {
  import opened Symbols
  import opened Receipt
  import opened Storage
  import opened Protocol

  /** A step in which nothing fails. */
  predicate Smooth(e: Env) {
    e.now >= 0 && e.fault == NoFault && e.signerOk
  }

  /** A fresh challenge, an accepted request on it, and the four steps of the call. */
  function IssueLabels(r: IssueRequest, i: nat, e: Env): seq<Label> {
    [NewBrokerChallenge(r.token, e.now), BeginIssue(r, Accepted), StepIssue(i, e), StepIssue(i, e), StepIssue(i, e), StepIssue(i, e)]
  }

  lemma ExecSix(cfg: Config, s: State, a: Label, b: Label, c: Label)
    ensures Exec(cfg, s, [a, b, c, c, c, c]) == Next(cfg, Next(cfg, Next(cfg, Next(cfg, Next(cfg, Next(cfg, s, a), b), c), c), c), c)
  {
    hide Next;
    var l := [a, b, c, c, c, c];
    assert l[..5] == [a, b, c, c, c] && l[..5][..4] == [a, b, c, c] && [a, b, c, c][..3] == [a, b, c];
    assert [a, b, c][..2] == [a, b] && [a, b][..1] == [a] && [a][..0] == [];
    assert Exec(cfg, s, [a]) == Next(cfg, s, a);
    assert Exec(cfg, s, [a, b]) == Next(cfg, Exec(cfg, s, [a]), b);
    assert Exec(cfg, s, [a, b, c]) == Next(cfg, Exec(cfg, s, [a, b]), c);
    assert Exec(cfg, s, [a, b, c, c]) == Next(cfg, Exec(cfg, s, [a, b, c]), c);
    assert Exec(cfg, s, [a, b, c, c, c]) == Next(cfg, Exec(cfg, s, [a, b, c, c]), c);
  }

  /** The call after each of its steps. */
  function CallAt(cfg: Config, r: IssueRequest, boot: nat, nonce: nat, now: int, k: nat): IssueCall {
    var c := NewIssue(r, Accepted, boot);
    var h := TokenHash(r.token);
    if k == 0 then c
    else if k == 1 then c.(gathered := AllFields, tokenHash := Some(h), pc := IAppraised)
    else if k == 2 then c.(gathered := AllFields, tokenHash := Some(h), pc := IConsumed, cells := {BrokerCell(h)}, consumed := true)
    else
      var d := c.(gathered := AllFields, tokenHash := Some(h), cells := {BrokerCell(h)}, consumed := true,
                  credential := Some(MintedCredential(cfg, nonce, r.holderKey, now)));
      if k == 3 then d.(pc := IMinted)
      else d.(pc := IAnswered(BrokerPayload(cfg.broker, nonce + 1, now, Allow, ALLOW, Some(Random(nonce)), Some(h),
                                            Some(r.manifestDigest), BrokerArtifacts(cfg, r))))
  }

  /** Shared state after each of the call's steps. */
  function SharedAt(cfg: Config, sh: Shared, r: IssueRequest, i: nat, now: int, k: nat): Shared {
    var h := TokenHash(r.token);
    var row := BrokerRow(now, now + cfg.broker.challengeTtl, if k >= 2 then Some(now) else None);
    var t := sh.(tables := sh.tables.(broker := sh.tables.broker[h := row]));
    if k < 3 then t
    else t.(nonce := if k == 3 then sh.nonce + 1 else sh.nonce + 2,
            minted := sh.minted[Random(sh.nonce) := Mint(MintedCredential(cfg, sh.nonce, r.holderKey, now), i)])
  }

  /** The k-th step of the call takes it to its next point. */
  ghost predicate StepsOn(cfg: Config, sh: Shared, r: IssueRequest, boot: nat, i: nat, e: Env, k: nat) {
    var c := CallAt(cfg, r, boot, sh.nonce, e.now, k);
    && IssueSteppable(c)
    && IssueStep(cfg, SharedAt(cfg, sh, r, i, e.now, k), c, i, e) ==
       (SharedAt(cfg, sh, r, i, e.now, k + 1), CallAt(cfg, r, boot, sh.nonce, e.now, k + 1))
  }

  lemma AppraiseOn(cfg: Config, sh: Shared, r: IssueRequest, boot: nat, i: nat, e: Env)
    requires Smooth(e)
    ensures StepsOn(cfg, sh, r, boot, i, e, 0)
  {
    hide BrokerArtifacts, MintedCredential;
  }

  lemma ConsumeOn(cfg: Config, sh: Shared, r: IssueRequest, boot: nat, i: nat, e: Env)
    requires Smooth(e) && cfg.broker.Valid()
    ensures StepsOn(cfg, sh, r, boot, i, e, 1)
  {
    hide Diff, BrokerArtifacts, MintedCredential, TokenHash;
    var t, h := SharedAt(cfg, sh, r, i, e.now, 1).tables, TokenHash(r.token);
    ConsumeDiff(t, h, e.now);
    assert AfterConsume(t, h, e.now).broker == sh.tables.broker[h := BrokerRow(e.now, e.now + cfg.broker.challengeTtl, Some(e.now))];
    assert {} + Diff(t, AfterConsume(t, h, e.now)) == {BrokerCell(h)};
  }

  lemma MintOn(cfg: Config, sh: Shared, r: IssueRequest, boot: nat, i: nat, e: Env)
    requires Smooth(e)
    ensures StepsOn(cfg, sh, r, boot, i, e, 2)
  {
    hide BrokerArtifacts, TokenHash;
  }

  lemma AnswerOn(cfg: Config, sh: Shared, r: IssueRequest, boot: nat, i: nat, e: Env)
    requires Smooth(e) && cfg.NonEmptyStrings() && r.manifestDigest == cfg.broker.manifestDigest
    ensures StepsOn(cfg, sh, r, boot, i, e, 3)
  {
    hide ValidPayload;
    AllowIsValid(cfg, r, sh.nonce, e.now);
    hide BrokerArtifacts, TokenHash;
  }

  lemma AllowIsValid(cfg: Config, r: IssueRequest, nonce: nat, now: int)
    requires now >= 0 && cfg.NonEmptyStrings() && r.manifestDigest == cfg.broker.manifestDigest
    ensures ValidPayload(BrokerPayload(cfg.broker, nonce + 1, now, Allow, ALLOW, Some(Random(nonce)), Some(TokenHash(r.token)),
                                       Some(r.manifestDigest), BrokerArtifacts(cfg, r)))
  {
  }

  lemma ConsumeDiff(t: Tables, h: Term, now: int)
    requires ConsumeRefusal(t, h, now).None?
    ensures Diff(t, AfterConsume(t, h, now)) == {BrokerCell(h)}
  {
    var u := AfterConsume(t, h, now);
    forall c
      ensures c in Diff(t, u) <==> c == BrokerCell(h)
    {
      InDiff(t, u, c);
    }
  }

  /** The state while the call runs: it is the last issuance, everything else stands still. */
  function IssuingState(cfg: Config, s: State, r: IssueRequest, now: int, k: nat): State {
    s.(clock := now, shared := SharedAt(cfg, s.shared, r, |s.issues|, now, k),
       issues := s.issues + [CallAt(cfg, r, s.boot, s.shared.nonce, now, k)])
  }

  lemma IssuingNext(cfg: Config, s: State, r: IssueRequest, e: Env, k: nat)
    requires k < 4 && Smooth(e) && cfg.NonEmptyStrings() && cfg.broker.Valid()
    requires r.manifestDigest == cfg.broker.manifestDigest
    ensures Next(cfg, IssuingState(cfg, s, r, e.now, k), StepIssue(|s.issues|, e)) == IssuingState(cfg, s, r, e.now, k + 1)
  {
    hide IssueStep, SharedAt, IssueSteppable, CallAt;
    var i := |s.issues|;
    match k {
      case 0 => AppraiseOn(cfg, s.shared, r, s.boot, i, e);
      case 1 => ConsumeOn(cfg, s.shared, r, s.boot, i, e);
      case 2 => MintOn(cfg, s.shared, r, s.boot, i, e);
      case 3 => AnswerOn(cfg, s.shared, r, s.boot, i, e);
    }
    var c, d := CallAt(cfg, r, s.boot, s.shared.nonce, e.now, k), CallAt(cfg, r, s.boot, s.shared.nonce, e.now, k + 1);
    AliveThroughout(cfg, r, s.boot, s.shared.nonce, e.now, k);
    assert (s.issues + [c])[i := d] == s.issues + [d];
  }

  lemma AliveThroughout(cfg: Config, r: IssueRequest, boot: nat, nonce: nat, now: int, k: nat)
    ensures CallAt(cfg, r, boot, nonce, now, k).alive
  {
    hide BrokerArtifacts, MintedCredential;
  }

  lemma IssuingStarts(cfg: Config, s: State, r: IssueRequest, now: int)
    requires now >= 0 && r.manifestDigest == cfg.broker.manifestDigest && TokenHash(r.token) !in s.shared.tables.broker
    ensures Next(cfg, Next(cfg, s, NewBrokerChallenge(r.token, now)), BeginIssue(r, Accepted)) == IssuingState(cfg, s, r, now, 0)
  {
  }

  /** From any state, an accepted request on a fresh challenge is answered with a credential and
      an allow receipt; nothing else changes but the challenge, consumed, and the drawn numbers. */
  lemma HonestIssue(cfg: Config, s: State, r: IssueRequest, e: Env)
    requires Smooth(e) && cfg.NonEmptyStrings() && cfg.broker.Valid()
    requires r.manifestDigest == cfg.broker.manifestDigest && TokenHash(r.token) !in s.shared.tables.broker
    ensures Exec(cfg, s, IssueLabels(r, |s.issues|, e)) == IssuingState(cfg, s, r, e.now, 4)
  {
    hide Next, IssuingState, Exec;
    var i := |s.issues|;
    ExecSix(cfg, s, NewBrokerChallenge(r.token, e.now), BeginIssue(r, Accepted), StepIssue(i, e));
    IssuingStarts(cfg, s, r, e.now);
    IssuingNext(cfg, s, r, e, 0);
    IssuingNext(cfg, s, r, e, 1);
    IssuingNext(cfg, s, r, e, 2);
    IssuingNext(cfg, s, r, e, 3);
  }
}
