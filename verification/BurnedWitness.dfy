/** Two runs from the empty store, each with a clock that only moves forward, in which a credential
    is spent and never used: one by an expired challenge, one by an expired credential. */
module BurnedWitness {
  import opened Symbols
  import opened Receipt
  import opened Protocol
  import opened ProtocolInvariant
  import opened ProtocolTheorems
  import opened Race
  import opened Submission
  import opened Inventory
  import opened HonestGrants
  import opened HonestWitness
  import opened BurnedCredential

  /** The credential of the first issuance: valid from 0 to 900. */
  lemma FirstCredential() returns (cred: Credential)
    ensures var s := Exec(Policies(), Init, SetupLabels(1));
            && Issued(s, 1) && cred.id in s.shared.minted && s.shared.minted[cred.id].credential == cred && LowerHex(cred.id)
            && cred.issuer == IssuerKey && cred.scope == {Policies().broker.scope}
            && cred.notBefore == Some(0) && cred.notAfter == Some(900)
  {
    hide Exec, SetupLabels, Policies, IssueInv;
    IssuedRun(1);
    AnswerAt(Policies(), SetupLabels(1), 0);
    var s := Exec(Policies(), Init, SetupLabels(1));
    assert AnsweredIssue(s.issues[0], 0);
    cred := s.issues[0].credential.value;
    PolicyFields();
  }

  lemma PolicyFields()
    ensures var c := Policies();
            && c.NonEmptyStrings() && c.resource.trustedBroker == c.broker.issuerKey == IssuerKey && c.resource.scope == c.broker.scope
            && c.resource.challengeTtl == 300 && c.resource.maxLifetime == 900
  {
  }

  const Token: Term := Sha256("resource-token", [])

  function BurnedLookup(cred: Credential): LookupRequest {
    var x := Policies().resource;
    LookupRequest("widget-42", ParsedCredential(cred),
                  HolderProof(Token, Signed(cred.subject, Statement(Token, cred.id, cred.subject, x.audience, x.scope,
                                                                    Plain("record"), "widget-42"))),
                  Plain("record"))
  }

  function At(now: int): Env {
    Calm.(now := now)
  }

  /** The state with the challenge stored at an instant. */
  lemma Stored(s: State, cred: Credential, now: int, commit: int, late: int)
    requires s.shared.tables.resource == map[] && s.shared.tables.redemptions == map[]
    requires cred.id in s.shared.minted && s.shared.minted[cred.id].credential == cred && LowerHex(cred.id)
    requires cred.issuer == IssuerKey && cred.scope == {Policies().broker.scope}
    requires cred.notBefore == Some(0) && cred.notAfter == Some(900)
    requires 0 <= now <= commit <= 900 && commit < now + 300 && (late >= now + 300 || late > 900)
    ensures var t := Next(Policies(), s, NewResourceChallenge(Token, cred.id, "widget-42", Plain("record"), now));
            && AboutToBurn(Policies(), t.shared, cred, BurnedLookup(cred), At(commit), At(late), At(late))
            && Hash(BurnedLookup(cred)) in t.shared.tables.resource
            && t.shared.tables.resource[Hash(BurnedLookup(cred))].expiresAt == now + 300
            && t.shared.count == s.shared.count && t.redeems == s.redeems
  {
    hide Policies, LowerHex, TokenHash;
    PolicyFields();
  }

  /** Commit at one reading, look at the clock too late: a run that burns its credential. */
  lemma BurnedRun(now: int, commit: int, late: int) returns (labels: seq<Label>)
    requires 0 <= now <= commit <= 900 && commit < now + 300 && (late >= now + 300 || late > 900)
    ensures
      var s := Exec(Policies(), Init, labels);
      && |s.redeems| == 1 && s.shared.count == 0
      && var c := s.redeems[0];
      && c.pc.Answered? && c.pc.receipt.decision == Deny
      && c.pc.receipt.reason == (if late >= now + 300 then CHALLENGE_STALE else CREDENTIAL_EXPIRED)
      && c.invocation.None? && SpendOwned(c) && c.credentialId.value in s.shared.tables.redemptions
  {
    hide Exec, Policies, SetupLabels, AboutToBurn, Solo, Next, SpendOwned, BurnedLookup;
    var cred := FirstCredential();
    var s := Exec(Policies(), Init, SetupLabels(1));
    IssuedFacts(s);
    var l := NewResourceChallenge(Token, cred.id, "widget-42", Plain("record"), now);
    Stored(s, cred, now, commit, late);
    var t := Next(Policies(), s, l);
    var r := BurnedLookup(cred);
    var envs := [At(commit), At(commit), At(commit), At(commit), At(late), At(late)];
    BurnsCredential(Policies(), t.shared, t.boot, cred, r, At(commit), At(late), At(late));
    var u := BeginLookup(t, cred);
    SoloIsRun(Policies(), u, 0, envs);
    var steps := seq(|envs|, k requires 0 <= k < |envs| => StepRedeem(0, envs[k]));
    labels := SetupLabels(1) + ([l, BeginRedeem(r)] + steps);
    ExecConcat(Policies(), Init, SetupLabels(1), [l, BeginRedeem(r)] + steps);
    ExecConcat(Policies(), s, [l, BeginRedeem(r)], steps);
    ExecTwo(Policies(), s, l, BeginRedeem(r));
    OwnedCredential(Solo(Policies(), t.shared, NewCall(r, t.boot), envs).1, cred);
  }

  lemma IssuedFacts(s: State)
    requires Issued(s, 1)
    ensures s.redeems == [] && s.shared.count == 0 && s.shared.tables.resource == map[] && s.shared.tables.redemptions == map[]
  {
  }

  lemma BeginLookup(t: State, cred: Credential) returns (u: State)
    requires t.redeems == []
    ensures u == Next(Policies(), t, BeginRedeem(BurnedLookup(cred)))
    ensures u.shared == t.shared && u.redeems == [NewCall(BurnedLookup(cred), t.boot)]
  {
    u := Next(Policies(), t, BeginRedeem(BurnedLookup(cred)));
  }

  lemma ExecTwo(cfg: Config, s: State, a: Label, b: Label)
    ensures Exec(cfg, s, [a, b]) == Next(cfg, Next(cfg, s, a), b)
  {
    hide Next;
    assert [a, b][..1] == [a] && [a][..0] == [];
    assert Exec(cfg, s, [a]) == Next(cfg, s, a);
  }

  lemma OwnedCredential(c: RedeemCall, cred: Credential)
    requires SpendOwned(c)
    ensures c.credentialId.Some?
  {
  }

  /** Neither clock denial is clean: for each there is a run in which it leaves a spent credential. */
  lemma ClockDenialsBurn(reason: Reason) returns (labels: seq<Label>)
    requires ClockReason(reason)
    ensures var s := Exec(Policies(), Init, labels);
            && |s.redeems| == 1 && s.shared.count == 0
            && var c := s.redeems[0];
            c.pc.Answered? && c.pc.receipt.reason == reason && SpendOwned(c) && c.cells != {}
  {
    hide Exec, Policies;
    if reason == CHALLENGE_STALE {
      labels := BurnedRun(0, 0, 300);
    } else {
      labels := BurnedRun(700, 800, 950);
    }
  }
}
