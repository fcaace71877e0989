/** Every label keeps the invariant, so every state of every run satisfies it. */
module ProtocolSafety {
  import opened Symbols
  import opened Receipt
  import opened Storage
  import opened Protocol
  import opened ProtocolInvariant

  /** What one redemption step may do to its call and to shared state. */
  ghost predicate RedeemEffect(sh: Shared, c: RedeemCall, sk: Shared, d: RedeemCall) {
    && d.request == c.request && d.boot == c.boot && d.alive == c.alive
    && sk.tables.broker == sh.tables.broker
    && sk.tables.resource.Keys == sh.tables.resource.Keys
    // A first spend adds exactly the row of the call's credential.
    && (c.spend.Some? ==> d.spend == c.spend)
    && (if c.spend.None? && d.spend.Some?
        then c.request.credential.ParsedCredential?
             && c.request.credential.credential.id !in sh.tables.redemptions
             && sk.tables.redemptions.Keys == sh.tables.redemptions.Keys + {c.request.credential.credential.id}
        else sk.tables.redemptions == sh.tables.redemptions)
    // An invocation takes the next number, once.
    && (c.invocation.Some? ==> d == c.(pc := d.pc) && sk.count == sh.count)
    && (c.invocation.None? && d.invocation.None? ==> sk.count == sh.count)
    && (c.invocation.None? && d.invocation.Some? ==>
          && d == c.(pc := d.pc, invocation := d.invocation)
          && d.invocation == Some(sh.count + 1) && sk.count == sh.count + 1)
    // A new answer uses a new receipt id.
    && (c.pc.Answered? ==> d.pc == c.pc)
    && (d.pc.Answered? && !c.pc.Answered? ==>
          d.pc.receipt.receiptId == Random(sh.nonce) && sk.nonce == sh.nonce + 1 && d.pc.receipt.snapshot == sh.count == sk.count)
  }

  predicate BeforeInvocation(pc: RedeemPc) {
    pc.Received? || pc.CredentialVerified? || pc.ChallengeRead? || pc.ProofChecked? || pc.Committed? || pc.Cleared?
    || pc.Denying?
  }

  /** What a program point knows about the call's history. */
  lemma PointFacts(cfg: Config, sh: Shared, boot: nat, c: RedeemCall)
    requires CallInv(cfg, sh, boot, c)
    ensures Steppable(c)
    ensures c.pc.ProofChecked? ==> c.spend.None?
    ensures BeforeInvocation(c.pc) ==> c.invocation.None?
  {
  }

  lemma CommitEffect(cfg: Config, sh: Shared, c: RedeemCall, e: Env)
    requires c.pc.ProofChecked? && Steppable(c) && c.spend.None? && c.invocation.None?
    ensures var (sk, d) := RedeemStep(cfg, sh, c, e); RedeemEffect(sh, c, sk, d)
  {
    hide Diff, ValidPayload;
  }

  lemma SigningEffect(cfg: Config, sh: Shared, c: RedeemCall, e: Env)
    requires c.pc.Handled? || c.pc.Denying?
    ensures var (sk, d) := RedeemStep(cfg, sh, c, e); RedeemEffect(sh, c, sk, d)
  {
    hide ValidPayload, AfterSpend, SpendOutcome, CommitCall, Diff;
  }

  lemma QuietEffect(cfg: Config, sh: Shared, c: RedeemCall, e: Env)
    requires !c.pc.ProofChecked? && Steppable(c) && !c.pc.Handled? && !c.pc.Denying?
    requires BeforeInvocation(c.pc) ==> c.invocation.None?
    ensures var (sk, d) := RedeemStep(cfg, sh, c, e); RedeemEffect(sh, c, sk, d)
  {
    hide ValidPayload, ProofCovers, ChainVerifies, BoundsAccepted, RowMatches, Arguments, AfterSpend,
      SpendOutcome, CommitCall, Diff, AllowPayload, DenialPayload, LowerHex;
  }

  lemma LocalEffect(cfg: Config, sh: Shared, c: RedeemCall, e: Env)
    requires !c.pc.ProofChecked? && Steppable(c)
    requires BeforeInvocation(c.pc) ==> c.invocation.None?
    ensures var (sk, d) := RedeemStep(cfg, sh, c, e); RedeemEffect(sh, c, sk, d)
  {
    hide RedeemStep, RedeemEffect;
    if c.pc.Handled? || c.pc.Denying? {
      SigningEffect(cfg, sh, c, e);
    } else {
      QuietEffect(cfg, sh, c, e);
    }
  }

  lemma StepEffect(cfg: Config, sh: Shared, boot: nat, c: RedeemCall, e: Env)
    requires CallInv(cfg, sh, boot, c)
    ensures Steppable(c)
    ensures var (sk, d) := RedeemStep(cfg, sh, c, e); RedeemEffect(sh, c, sk, d)
  {
    hide CallInv, RedeemEffect, RedeemStep, Steppable;
    PointFacts(cfg, sh, boot, c);
    if c.pc.ProofChecked? {
      CommitEffect(cfg, sh, c, e);
    } else {
      LocalEffect(cfg, sh, c, e);
    }
  }

  // ---- A redemption step keeps each part of the invariant ----

  lemma MoveRedeems(cfg: Config, s: State, i: nat, sk: Shared, d: RedeemCall)
    requires RedeemsInv(cfg, s) && i < |s.redeems| && CallInv(cfg, sk, s.boot, d)
    requires Accounted(sk.tables) && Grows(s.shared, sk) && s.shared.count <= sk.count
    ensures RedeemsInv(cfg, s.(shared := sk, redeems := s.redeems[i := d]))
  {
    hide Accounted;
    forall j | 0 <= j < |s.redeems| && j != i
      ensures CallInv(cfg, sk, s.boot, s.redeems[j])
    {
      CallStable(cfg, s.shared, sk, s.boot, s.redeems[j]);
    }
    hide CallInv;
  }

  /** A call that spends first names a credential no other call has spent. */
  lemma SpendIsNew(cfg: Config, s: State, i: nat, j: nat, sk: Shared, d: RedeemCall)
    requires RedeemsInv(cfg, s) && i < |s.redeems| && j < |s.redeems| && j != i
    requires RedeemEffect(s.shared, s.redeems[i], sk, d) && CallInv(cfg, sk, s.boot, d)
    requires SpendsDistinct(s.redeems)
    ensures s.redeems[j].spend.Some? && d.spend.Some? ==> s.redeems[j].credentialId != d.credentialId
  {
    if s.redeems[j].spend.Some? && d.spend.Some? {
      assert Owner(cfg, s.shared, s.redeems[j]);
      assert Owner(cfg, sk, d);
      if s.redeems[i].spend.Some? {
        assert Owner(cfg, s.shared, s.redeems[i]);
      }
    }
  }

  lemma ReceiptIsNew(cfg: Config, s: State, i: nat, j: nat, sk: Shared, d: RedeemCall)
    requires RedeemsInv(cfg, s) && i < |s.redeems| && j < |s.redeems| && j != i
    requires RedeemEffect(s.shared, s.redeems[i], sk, d) && ReceiptsDistinct(s.redeems)
    ensures s.redeems[j].pc.Answered? && d.pc.Answered? ==> s.redeems[j].pc.receipt.receiptId != d.pc.receipt.receiptId
  {
    assert CallInv(cfg, s.shared, s.boot, s.redeems[j]);
  }

  lemma MoveDistinct(cfg: Config, s: State, i: nat, sk: Shared, d: RedeemCall)
    requires RedeemsInv(cfg, s) && i < |s.redeems|
    requires RedeemEffect(s.shared, s.redeems[i], sk, d) && CallInv(cfg, sk, s.boot, d)
    requires SpendsDistinct(s.redeems) && ReceiptsDistinct(s.redeems)
    ensures SpendsDistinct(s.redeems[i := d]) && ReceiptsDistinct(s.redeems[i := d])
  {
    hide CallInv, Accounted, RedeemEffect, RedeemsInv;
    forall j | 0 <= j < |s.redeems| && j != i
      ensures s.redeems[j].spend.Some? && d.spend.Some? ==> s.redeems[j].credentialId != d.credentialId
      ensures s.redeems[j].pc.Answered? && d.pc.Answered? ==> s.redeems[j].pc.receipt.receiptId != d.pc.receipt.receiptId
    {
      SpendIsNew(cfg, s, i, j, sk, d);
      ReceiptIsNew(cfg, s, i, j, sk, d);
    }
  }

  lemma SharedIssues(cfg: Config, s: State, sk: Shared)
    requires IssuesInv(cfg, s) && Advances(s.shared.tables, sk.tables)
    requires sk.minted == s.shared.minted && s.shared.nonce <= sk.nonce
    ensures IssuesInv(cfg, s.(shared := sk))
  {
    forall j | 0 <= j < |s.issues|
      ensures IssueInv(cfg, sk, s.boot, s.issues[j])
    {
      IssueStable(cfg, s.shared, sk, s.boot, s.issues[j]);
    }
    hide IssueInv, Advances;
  }

  lemma MoveLog(s: State, i: nat, sk: Shared, d: RedeemCall)
    requires LogInv(s) && i < |s.redeems|
    requires RedeemEffect(s.shared, s.redeems[i], sk, d)
    requires d.invocation.Some? ==> d.credentialId.Some? && d.tokenHash.Some? && d.spend.Some? && d.clearedAt.Some?
    ensures LogInv(s.(shared := sk, redeems := s.redeems[i := d], log := Logged(s.log, i, s.redeems[i], d)))
  {
    var s' := s.(shared := sk, redeems := s.redeems[i := d], log := Logged(s.log, i, s.redeems[i], d));
    var c := s.redeems[i];
    forall k | 0 <= k < |s.log|
      ensures s'.log[k] == s.log[k] && EntryOf(s.log[k], s'.redeems[s.log[k].call])
      ensures c.invocation.None? ==> s.log[k].call != i
    {
      assert EntryOf(s.log[k], s.redeems[s.log[k].call]);
    }
  }

  lemma FateMeaning(c: RedeemCall)
    ensures FateOf(c) in SpentFates <==> c.spend.Some?
    ensures FateOf(c) in InvokedFates <==> c.spend.Some? && c.invocation.Some?
  {
  }

  lemma MoveCount(s: State, i: nat, sk: Shared, d: RedeemCall)
    requires CountInv(s) && i < |s.redeems| && s.redeems[i].boot == s.boot
    requires RedeemEffect(s.shared, s.redeems[i], sk, d)
    requires d.invocation.Some? ==> d.spend.Some?
    ensures CountInv(s.(shared := sk, redeems := s.redeems[i := d]))
  {
    var c := s.redeems[i];
    TallyUpdate(s.redeems, s.boot, SpentFates, i, d);
    TallyUpdate(s.redeems, s.boot, InvokedFates, i, d);
    FateMeaning(c);
    FateMeaning(d);
    hide FateOf, Tally;
    assert |sk.tables.redemptions| == |sk.tables.redemptions.Keys|;
    assert |s.shared.tables.redemptions| == |s.shared.tables.redemptions.Keys|;
  }

  lemma InvokedCall(cfg: Config, sh: Shared, boot: nat, c: RedeemCall)
    requires CallInv(cfg, sh, boot, c)
    ensures c.alive ==> c.boot == boot
    ensures c.invocation.Some? ==> c.credentialId.Some? && c.tokenHash.Some? && c.spend.Some? && c.clearedAt.Some?
  {
  }

  lemma RedeemStepInv(cfg: Config, s: State, i: nat, e: Env)
    requires Inv(cfg, s)
    ensures Inv(cfg, StepRedeemAt(cfg, s, i, e))
  {
    hide CallInv, Steppable, RedeemStep, Accounted, Advances, RedeemEffect, Tally, LogInv, CountInv, SpendsDistinct,
      ReceiptsDistinct, IssuesInv;
    if i < |s.redeems| && s.redeems[i].alive && Steppable(s.redeems[i]) {
      var c := s.redeems[i];
      assert CallInv(cfg, s.shared, s.boot, c);
      RedeemStepKeeps(cfg, s.shared, s.boot, c, e);
      StepEffect(cfg, s.shared, s.boot, c, e);
      var (sk, d) := RedeemStep(cfg, s.shared, c, e);
      InvokedCall(cfg, s.shared, s.boot, c);
      InvokedCall(cfg, sk, s.boot, d);
      MoveRedeems(cfg, s, i, sk, d);
      MoveDistinct(cfg, s, i, sk, d);
      SharedIssues(cfg, s, sk);
      MoveLog(s, i, sk, d);
      MoveCount(s, i, sk, d);
      ClockFree(cfg, s.(shared := sk, redeems := s.redeems[i := d], log := Logged(s.log, i, c, d)), s, e.now);
    }
  }

  /** The invariant reads neither the clock nor, except through the log's own part, the log. */
  lemma ClockFree(cfg: Config, s': State, s: State, now: int)
    requires RedeemsInv(cfg, s'.(log := s.log)) && SpendsDistinct(s'.redeems) && ReceiptsDistinct(s'.redeems)
    requires IssuesInv(cfg, s.(shared := s'.shared)) && LogInv(s') && CountInv(s'.(log := s.log))
    requires s' == s.(shared := s'.shared, redeems := s'.redeems, log := s'.log)
    ensures Inv(cfg, s'.(clock := now))
  {
    hide CallInv, IssueInv, Accounted, Tally, MintInv;
  }

  // ---- An issuance step ----

  lemma MintKeeps(cfg: Config, sh: Shared, issues: seq<IssueCall>, i: nat, sk: Shared, d: IssueCall)
    requires MintInv(cfg, sh, issues) && i < |issues|
    requires IssueEffect(cfg, sh, issues[i], i, sk, d)
    ensures MintInv(cfg, sk, issues[i := d])
    ensures Grows(sh, sk)
  {
    hide Advances;
    assert Random(sh.nonce) !in sh.minted;
    if sk.minted == sh.minted {
      MintsStay(cfg, sh, issues, i, sk, d);
    }
  }

  lemma MintsStay(cfg: Config, sh: Shared, issues: seq<IssueCall>, i: nat, sk: Shared, d: IssueCall)
    requires MintInv(cfg, sh, issues) && i < |issues|
    requires sk.minted == sh.minted && sh.nonce <= sk.nonce
    requires issues[i].credential.Some? ==> d.credential == issues[i].credential
    ensures MintInv(cfg, sk, issues[i := d])
  {
  }

  lemma IssueKeepsRedeems(cfg: Config, s: State, sk: Shared)
    requires RedeemsInv(cfg, s) && Grows(s.shared, sk) && sk.count == s.shared.count && Accounted(sk.tables)
    ensures RedeemsInv(cfg, s.(shared := sk))
  {
    hide Accounted;
    forall j | 0 <= j < |s.redeems|
      ensures CallInv(cfg, sk, s.boot, s.redeems[j])
    {
      CallStable(cfg, s.shared, sk, s.boot, s.redeems[j]);
    }
    hide CallInv;
  }

  lemma ConsumeIsNew(cfg: Config, s: State, i: nat, j: nat, sk: Shared, d: IssueCall)
    requires IssuesInv(cfg, s) && i < |s.issues| && j < |s.issues| && j != i
    requires IssueEffect(cfg, s.shared, s.issues[i], i, sk, d)
    ensures IssueInv(cfg, sk, s.boot, s.issues[j])
    ensures s.issues[j].consumed && d.consumed ==> s.issues[j].request.token != d.request.token
  {
    assert IssueInv(cfg, s.shared, s.boot, s.issues[j]);
    IssueStable(cfg, s.shared, sk, s.boot, s.issues[j]);
    hide Advances, MintInv;
  }

  lemma IssueKeepsIssues(cfg: Config, s: State, i: nat, sk: Shared, d: IssueCall)
    requires IssuesInv(cfg, s) && i < |s.issues|
    requires IssueEffect(cfg, s.shared, s.issues[i], i, sk, d) && IssueInv(cfg, sk, s.boot, d)
    ensures IssuesInv(cfg, s.(shared := sk, issues := s.issues[i := d]))
  {
    MintKeeps(cfg, s.shared, s.issues, i, sk, d);
    hide IssueInv, IssueEffect, MintInv, Grows;
    forall j | 0 <= j < |s.issues| && j != i
      ensures IssueInv(cfg, sk, s.boot, s.issues[j])
      ensures s.issues[j].consumed && d.consumed ==> s.issues[j].request.token != d.request.token
    {
      ConsumeIsNew(cfg, s, i, j, sk, d);
    }
  }

  /** The parts of the invariant an issuance does not touch. */
  lemma IssueFrame(cfg: Config, s: State, i: nat, sk: Shared, d: IssueCall, now: int)
    requires Inv(cfg, s) && i < |s.issues|
    requires sk.count == s.shared.count && sk.tables.redemptions == s.shared.tables.redemptions
    requires RedeemsInv(cfg, s.(shared := sk))
    requires IssuesInv(cfg, s.(shared := sk, issues := s.issues[i := d]))
    ensures Inv(cfg, s.(shared := sk, clock := now, issues := s.issues[i := d]))
  {
    hide CallInv, Accounted, IssueInv, MintInv, Tally, SpendsDistinct, ReceiptsDistinct;
  }

  lemma IssueStepInv(cfg: Config, s: State, i: nat, e: Env)
    requires Inv(cfg, s)
    ensures Inv(cfg, StepIssueAt(cfg, s, i, e))
  {
    if i < |s.issues| && s.issues[i].alive && IssueSteppable(s.issues[i]) {
      hide CallInv, Accounted, Advances, Tally, IssueStep, IssueInv, MintInv, SpendsDistinct, ReceiptsDistinct, LogInv,
        CountInv, MintedCredential, IssueSteppable;
      IssueStepKeeps(cfg, s.shared, s.boot, s.issues[i], i, e);
      var (sk, d) := IssueStep(cfg, s.shared, s.issues[i], i, e);
      MintKeeps(cfg, s.shared, s.issues, i, sk, d);
      hide Grows;
      IssueKeepsRedeems(cfg, s, sk);
      IssueKeepsIssues(cfg, s, i, sk, d);
      IssueFrame(cfg, s, i, sk, d, e.now);
    }
  }

  // ---- Every other label ----

  lemma ChallengeInv(cfg: Config, s: State, t: Tables, now: int)
    requires Inv(cfg, s)
    requires Accounted(t) && Advances(s.shared.tables, t) && t.redemptions == s.shared.tables.redemptions
    ensures Inv(cfg, s.(clock := now, shared := s.shared.(tables := t)))
  {
    hide CallInv, Accounted, Advances, IssueInv, MintInv, Tally;
    var sk := s.shared.(tables := t);
    IssueKeepsRedeems(cfg, s, sk);
    SharedIssues(cfg, s, sk);
  }

  lemma BeginLog(s: State, c: RedeemCall)
    requires LogInv(s)
    ensures LogInv(s.(redeems := s.redeems + [c]))
  {
    var s' := s.(redeems := s.redeems + [c]);
    forall k | 0 <= k < |s.log|
      ensures s.log[k].call < |s'.redeems| && EntryOf(s.log[k], s'.redeems[s.log[k].call])
    {
      assert EntryOf(s.log[k], s.redeems[s.log[k].call]);
    }
  }

  lemma BeginCount(s: State, c: RedeemCall)
    requires CountInv(s) && c.spend.None?
    ensures CountInv(s.(redeems := s.redeems + [c]))
  {
    TallyAppend(s.redeems, s.boot, SpentFates, c);
    TallyAppend(s.redeems, s.boot, InvokedFates, c);
    hide Tally;
  }

  lemma BeginRedeemInv(cfg: Config, s: State, r: LookupRequest)
    requires Inv(cfg, s) && WellFormedRequest(r)
    ensures Inv(cfg, s.(redeems := s.redeems + [NewCall(r, s.boot)]))
  {
    hide CallInv, IssuesInv, Accounted, LogInv, CountInv;
    var c := NewCall(r, s.boot);
    BeginLog(s, c);
    BeginCount(s, c);
    FreshCall(cfg, s.shared, s.boot, r);
    assert IssuesInv(cfg, s.(redeems := s.redeems + [c])) by { OnlyIssues(cfg, s, s.(redeems := s.redeems + [c])); }
  }

  lemma FreshCall(cfg: Config, sh: Shared, boot: nat, r: LookupRequest)
    requires WellFormedRequest(r)
    ensures CallInv(cfg, sh, boot, NewCall(r, boot))
  {
  }

  /** The issuance part of the invariant reads the issuances, the tables and the boot number. */
  lemma OnlyIssues(cfg: Config, s: State, t: State)
    requires IssuesInv(cfg, s) && t.issues == s.issues && t.shared == s.shared && t.boot == s.boot
    ensures IssuesInv(cfg, t)
  {
    hide IssueInv, MintInv;
  }

  lemma BeginIssues(cfg: Config, s: State, c: IssueCall)
    requires IssuesInv(cfg, s) && IssueInv(cfg, s.shared, s.boot, c) && !c.consumed
    ensures IssuesInv(cfg, s.(issues := s.issues + [c]))
  {
    hide IssueInv;
  }

  lemma BeginIssueInv(cfg: Config, s: State, r: IssueRequest, a: Appraisal)
    requires Inv(cfg, s) && PossibleAppraisal(cfg.broker, r, a)
    ensures Inv(cfg, s.(issues := s.issues + [NewIssue(r, a, s.boot)]))
  {
    hide CallInv, Accounted, IssuesInv, Tally;
    BeginIssues(cfg, s, NewIssue(r, a, s.boot));
  }

  /** A dead call keeps everything but its liveness. */
  lemma DeadCall(cfg: Config, sh: Shared, boot: nat, c: RedeemCall)
    requires CallInv(cfg, sh, boot, c)
    ensures CallInv(cfg, sh, boot, c.(alive := false))
  {
  }

  lemma KillLog(s: State, i: nat)
    requires LogInv(s) && i < |s.redeems|
    ensures LogInv(s.(redeems := s.redeems[i := s.redeems[i].(alive := false)]))
  {
    forall k | 0 <= k < |s.log|
      ensures EntryOf(s.log[k], s.redeems[i := s.redeems[i].(alive := false)][s.log[k].call])
    {
      assert EntryOf(s.log[k], s.redeems[s.log[k].call]);
    }
  }

  lemma KillCount(s: State, i: nat)
    requires CountInv(s) && i < |s.redeems|
    ensures CountInv(s.(redeems := s.redeems[i := s.redeems[i].(alive := false)]))
  {
    var c := s.redeems[i];
    var d := c.(alive := false);
    FateMeaning(c);
    FateMeaning(d);
    TallyUpdate(s.redeems, s.boot, SpentFates, i, d);
    TallyUpdate(s.redeems, s.boot, InvokedFates, i, d);
    hide FateOf, Tally;
  }

  lemma KillRedeemInv(cfg: Config, s: State, i: nat)
    requires Inv(cfg, s) && i < |s.redeems|
    ensures Inv(cfg, s.(redeems := s.redeems[i := s.redeems[i].(alive := false)]))
  {
    hide CallInv, IssueInv, Accounted, MintInv, LogInv, CountInv;
    KillLog(s, i);
    KillCount(s, i);
    DeadCall(cfg, s.shared, s.boot, s.redeems[i]);
  }

  lemma DeadIssue(cfg: Config, s: State, i: nat)
    requires IssuesInv(cfg, s) && i < |s.issues|
    ensures IssuesInv(cfg, s.(issues := s.issues[i := s.issues[i].(alive := false)]))
  {
    hide IssueInv;
    KilledIssue(cfg, s.shared, s.boot, s.issues[i]);
  }

  lemma KilledIssue(cfg: Config, sh: Shared, boot: nat, c: IssueCall)
    requires IssueInv(cfg, sh, boot, c)
    ensures IssueInv(cfg, sh, boot, c.(alive := false))
  {
  }

  lemma KillIssueInv(cfg: Config, s: State, i: nat)
    requires Inv(cfg, s) && i < |s.issues|
    ensures Inv(cfg, s.(issues := s.issues[i := s.issues[i].(alive := false)]))
  {
    hide CallInv, IssuesInv, Accounted, Tally;
    DeadIssue(cfg, s, i);
  }

  lemma RestartRedeems(cfg: Config, s: State)
    requires RedeemsInv(cfg, s)
    ensures
      var s' := Next(cfg, s, Restart);
      RedeemsInv(cfg, s') && forall j :: 0 <= j < |s'.redeems| ==> s'.redeems[j].boot < s'.boot
  {
    hide Accounted, CallInv;
    var s' := Next(cfg, s, Restart);
    forall j | 0 <= j < |s.redeems|
      ensures CallInv(cfg, s'.shared, s'.boot, s'.redeems[j]) && s'.redeems[j].boot < s'.boot
    {
      CallSurvivesRestart(cfg, s.shared, s.boot, s.redeems[j]);
    }
  }

  lemma IssueSurvivesRestart(cfg: Config, sh: Shared, boot: nat, c: IssueCall)
    requires IssueInv(cfg, sh, boot, c)
    ensures IssueInv(cfg, sh.(count := 0), boot + 1, c.(alive := false))
  {
  }

  lemma RestartIssues(cfg: Config, s: State)
    requires IssuesInv(cfg, s)
    ensures IssuesInv(cfg, Next(cfg, s, Restart))
  {
    hide IssueInv;
    var s' := Next(cfg, s, Restart);
    forall j | 0 <= j < |s.issues|
      ensures IssueInv(cfg, s'.shared, s'.boot, s'.issues[j])
    {
      IssueSurvivesRestart(cfg, s.shared, s.boot, s.issues[j]);
    }
  }

  lemma RestartLog(cfg: Config, s: State)
    requires LogInv(s)
    ensures LogInv(Next(cfg, s, Restart))
  {
    var s' := Next(cfg, s, Restart);
    forall k | 0 <= k < |s.log|
      ensures EntryOf(s.log[k], s'.redeems[s.log[k].call])
    {
      assert EntryOf(s.log[k], s.redeems[s.log[k].call]);
    }
  }

  lemma RestartInv(cfg: Config, s: State)
    requires Inv(cfg, s)
    ensures Inv(cfg, Next(cfg, s, Restart))
  {
    var s' := Next(cfg, s, Restart);
    hide RedeemsInv, IssuesInv, LogInv, Tally;
    RestartRedeems(cfg, s);
    RestartIssues(cfg, s);
    RestartLog(cfg, s);
    TallyOtherLifetime(s'.redeems, s'.boot, SpentFates);
    TallyOtherLifetime(s'.redeems, s'.boot, InvokedFates);
  }

  lemma InvTables(cfg: Config, s: State)
    requires Inv(cfg, s)
    ensures Accounted(s.shared.tables) && Advances(s.shared.tables, s.shared.tables)
  {
    hide CallInv, IssueInv, Accounted, Tally, LogInv, MintInv;
  }

  /** Every label keeps the invariant. */
  lemma NextInv(cfg: Config, s: State, l: Label)
    requires Inv(cfg, s)
    ensures Inv(cfg, Next(cfg, s, l))
  {
    hide Inv, Accounted, Advances;
    var t := s.shared.tables;
    InvTables(cfg, s);
    match l
    case NewBrokerChallenge(token, now) =>
      StoreBrokerKeeps(t, TokenHash(token), now, now + cfg.broker.challengeTtl);
      ChallengeInv(cfg, s, if now < 0 then t else AfterStoreBroker(t, TokenHash(token), now, now + cfg.broker.challengeTtl), now);
    case NewResourceChallenge(token, id, sku, recordId, now) =>
      var row := ChallengeRow(cfg, id, sku, recordId, now);
      StoreResourceKeeps(t, TokenHash(token), row);
      ChallengeInv(cfg, s, if now < 0 then t else AfterStoreResource(t, TokenHash(token), row), now);
    case BeginRedeem(r) => if WellFormedRequest(r) { BeginRedeemInv(cfg, s, r); }
    case BeginIssue(r, a) => if PossibleAppraisal(cfg.broker, r, a) { BeginIssueInv(cfg, s, r, a); }
    case StepRedeem(i, e) => RedeemStepInv(cfg, s, i, e);
    case StepIssue(i, e) => IssueStepInv(cfg, s, i, e);
    case KillRedeem(i) => if i < |s.redeems| { KillRedeemInv(cfg, s, i); }
    case KillIssue(i) => if i < |s.issues| { KillIssueInv(cfg, s, i); }
    case Restart => RestartInv(cfg, s);
  }

  lemma InitInv(cfg: Config)
    ensures Inv(cfg, Init)
  {
    InitParts(cfg);
    InitCount();
    hide RedeemsInv, SpendsDistinct, ReceiptsDistinct, IssuesInv, LogInv, CountInv;
  }

  lemma InitCount()
    ensures CountInv(Init)
  {
    assert Tally([], 0, SpentFates) == 0 && Tally([], 0, InvokedFates) == 0;
  }

  lemma InitParts(cfg: Config)
    ensures RedeemsInv(cfg, Init) && SpendsDistinct(Init.redeems) && ReceiptsDistinct(Init.redeems)
    ensures IssuesInv(cfg, Init) && LogInv(Init)
  {
    hide CallInv, IssueInv, Tally;
  }

  /** Every state of every run from an empty store satisfies the invariant. */
  lemma {:induction false} RunInv(cfg: Config, labels: seq<Label>)
    ensures Inv(cfg, Exec(cfg, Init, labels))
    decreases |labels|
  {
    hide Inv;
    if labels == [] {
      InitInv(cfg);
    } else {
      RunInv(cfg, labels[..|labels| - 1]);
      NextInv(cfg, Exec(cfg, Init, labels[..|labels| - 1]), labels[|labels| - 1]);
    }
  }
}
