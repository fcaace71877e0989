/** What every run of the protocol guarantees, whatever the interleaving, crashes, restarts,
    clock readings and failures. */
module ProtocolTheorems {
  import opened Symbols
  import opened Receipt
  import opened Storage
  import opened Protocol
  import opened ProtocolInvariant
  import opened ProtocolSafety

  // ---- At most once ----

  /** The broker challenge behind a signed credential. */
  function IssuingToken(s: State, id: Term): Term
    requires id in s.shared.minted && s.shared.minted[id].call < |s.issues|
  {
    s.issues[s.shared.minted[id].call].request.token
  }

  /** A handler entry rests on its own redemption row, on a credential the broker signed, and on
      a broker challenge consumed for that credential. */
  ghost predicate Grounded(s: State, h: HandlerCall) {
    var t := s.shared.tables;
    && h.credentialId in t.redemptions
    && t.redemptions[h.credentialId].tokenHash == h.tokenHash
    && t.redemptions[h.credentialId].redeemedAt == h.committedAt
    && h.credentialId in s.shared.minted
    && s.shared.minted[h.credentialId].call < |s.issues|
    && var b := TokenHash(IssuingToken(s, h.credentialId));
    && b in t.broker && t.broker[b].consumedAt.Some?
  }

  lemma EntryOwner(cfg: Config, s: State, k: nat)
    requires RedeemsInv(cfg, s) && LogInv(s) && k < |s.log|
    ensures s.log[k].call < |s.redeems|
    ensures var c := s.redeems[s.log[k].call];
            EntryOf(s.log[k], c) && c.spend.Some? && Owner(cfg, s.shared, c)
  {
    assert CallInv(cfg, s.shared, s.boot, s.redeems[s.log[k].call]);
    hide Accounted, Verified, PcOk;
  }

  lemma MintGrounded(cfg: Config, s: State, id: Term)
    requires IssuesInv(cfg, s) && id in s.shared.minted
    ensures s.shared.minted[id].call < |s.issues|
    ensures var c := s.issues[s.shared.minted[id].call]; c.consumed && c.credential == Some(s.shared.minted[id].credential)
    ensures var b := TokenHash(IssuingToken(s, id)); b in s.shared.tables.broker && s.shared.tables.broker[b].consumedAt.Some?
  {
    assert IssueInv(cfg, s.shared, s.boot, s.issues[s.shared.minted[id].call]);
  }

  lemma EntryGrounded(cfg: Config, s: State, k: nat)
    requires Inv(cfg, s) && k < |s.log|
    ensures Grounded(s, s.log[k])
  {
    hide CallInv, Accounted, CountInv, IssueInv, MintInv, PcOk;
    EntryOwner(cfg, s, k);
    var c := s.redeems[s.log[k].call];
    MintGrounded(cfg, s, c.request.credential.credential.id);
  }

  /** Two credentials signed by the broker come from two consumed broker challenges. */
  lemma DistinctMints(cfg: Config, s: State, id: Term, id': Term)
    requires IssuesInv(cfg, s) && id in s.shared.minted && id' in s.shared.minted && id != id'
    ensures s.shared.minted[id].call < |s.issues| && s.shared.minted[id'].call < |s.issues|
    ensures IssuingToken(s, id) != IssuingToken(s, id')
  {
    MintGrounded(cfg, s, id);
    MintGrounded(cfg, s, id');
    hide IssueInv;
  }

  lemma DistinctEntries(cfg: Config, s: State, k: nat, l: nat)
    requires Inv(cfg, s) && k < l < |s.log|
    ensures s.log[k].credentialId != s.log[l].credentialId
    ensures s.log[k].tokenHash != s.log[l].tokenHash
  {
    hide CallInv, IssueInv, MintInv, CountInv, PcOk;
    EntryOwner(cfg, s, k);
    EntryOwner(cfg, s, l);
    assert s.log[k].call != s.log[l].call;
  }

  /** In every run each credential reaches the handler at most once, over all process lifetimes;
      handler entries map injectively to redemption rows, to signed credentials and to consumed
      broker challenges. */
  lemma AtMostOnce(cfg: Config, labels: seq<Label>)
    ensures
      var s := Exec(cfg, Init, labels);
      && (forall k :: 0 <= k < |s.log| ==> Grounded(s, s.log[k]))
      && (forall k, l :: 0 <= k < l < |s.log| ==>
            && s.log[k].credentialId != s.log[l].credentialId
            && s.log[k].tokenHash != s.log[l].tokenHash
            && IssuingToken(s, s.log[k].credentialId) != IssuingToken(s, s.log[l].credentialId))
  {
    RunInv(cfg, labels);
    var s := Exec(cfg, Init, labels);
    hide Exec, Grounded, RedeemsInv, IssuesInv, LogInv, CountInv;
    forall k | 0 <= k < |s.log|
      ensures Grounded(s, s.log[k])
    {
      EntryGrounded(cfg, s, k);
    }
    forall k, l | 0 <= k < l < |s.log|
      ensures s.log[k].credentialId != s.log[l].credentialId && s.log[k].tokenHash != s.log[l].tokenHash
      ensures IssuingTokenDiffer(s, s.log[k].credentialId, s.log[l].credentialId)
    {
      DistinctEntries(cfg, s, k, l);
      EntriesIssued(cfg, s, k);
      EntriesIssued(cfg, s, l);
      DistinctMints(cfg, s, s.log[k].credentialId, s.log[l].credentialId);
    }
  }

  ghost predicate IssuingTokenDiffer(s: State, id: Term, id': Term) {
    && id in s.shared.minted && s.shared.minted[id].call < |s.issues|
    && id' in s.shared.minted && s.shared.minted[id'].call < |s.issues|
    && IssuingToken(s, id) != IssuingToken(s, id')
  }

  lemma EntriesIssued(cfg: Config, s: State, k: nat)
    requires Inv(cfg, s) && k < |s.log|
    ensures s.log[k].credentialId in s.shared.minted && s.shared.minted[s.log[k].credentialId].call < |s.issues|
  {
    hide CallInv, IssueInv, Inv;
    EntryGrounded(cfg, s, k);
  }

  // ---- The tables over a run ----

  lemma StepAdvances(cfg: Config, s: State, l: Label)
    requires RedeemsInv(cfg, s) && IssuesInv(cfg, s) && (l.StepRedeem? || l.StepIssue?)
    ensures Advances(s.shared.tables, Next(cfg, s, l).shared.tables)
  {
    hide Accounted, Advances, CallInv, IssueInv, RedeemStep, IssueStep, MintInv, Steppable, IssueSteppable;
    AdvancesSelf(s.shared.tables);
    match l
    case StepRedeem(i, e) =>
      if i < |s.redeems| { RedeemStepKeeps(cfg, s.shared, s.boot, s.redeems[i], e); }
    case StepIssue(i, e) =>
      if i < |s.issues| { IssueStepKeeps(cfg, s.shared, s.boot, s.issues[i], i, e); }
  }

  lemma AdvancesSelf(t: Tables)
    ensures Advances(t, t)
  {
  }

  lemma NextAdvances(cfg: Config, s: State, l: Label)
    requires Inv(cfg, s)
    ensures Advances(s.shared.tables, Next(cfg, s, l).shared.tables)
  {
    hide Accounted, Advances, RedeemsInv, IssuesInv, LogInv, CountInv, StepRedeemAt, StepIssueAt;
    InvTables(cfg, s);
    var t := s.shared.tables;
    match l
    case NewBrokerChallenge(token, now) =>
      StoreBrokerKeeps(t, TokenHash(token), now, now + cfg.broker.challengeTtl);
    case NewResourceChallenge(token, id, sku, recordId, now) =>
      StoreResourceKeeps(t, TokenHash(token), ChallengeRow(cfg, id, sku, recordId, now));
    case StepRedeem(i, e) => StepAdvances(cfg, s, l);
    case StepIssue(i, e) => StepAdvances(cfg, s, l);
    case _ =>
  }

  /** Over any stretch of any run rows are kept, and a row changes only by its consumed_at going
      once from NULL to a time; redemption rows never change; redemption rows and consumed
      challenges account for each other throughout. */
  lemma {:induction false} TablesOverRuns(cfg: Config, labels: seq<Label>, more: seq<Label>)
    ensures Accounted(Exec(cfg, Init, labels + more).shared.tables)
    ensures Advances(Exec(cfg, Init, labels).shared.tables, Exec(cfg, Init, labels + more).shared.tables)
    decreases |more|
  {
    hide Inv, Advances, Accounted, Next;
    RunInv(cfg, labels + more);
    InvTables(cfg, Exec(cfg, Init, labels + more));
    if more == [] {
      assert labels + more == labels;
    } else {
      var n := |more| - 1;
      var before := Exec(cfg, Init, labels + more[..n]);
      assert (labels + more)[..|labels + more| - 1] == labels + more[..n];
      TablesOverRuns(cfg, labels, more[..n]);
      RunInv(cfg, labels + more[..n]);
      NextAdvances(cfg, before, more[n]);
      AdvancesTransitive(Exec(cfg, Init, labels).shared.tables, before.shared.tables,
                         Exec(cfg, Init, labels + more).shared.tables);
    }
  }

  // ---- Conservation ----

  lemma SplitInvoked(cs: seq<RedeemCall>, boot: nat)
    ensures Tally(cs, boot, InvokedFates) ==
              Tally(cs, boot, {AllowAnswered}) + Tally(cs, boot, {FailureAnswered})
              + Tally(cs, boot, {PostInvocationError}) + Tally(cs, boot, {InvokedUnanswered})
  {
    hide Tally;
    TallySplit(cs, boot, {AllowAnswered}, {FailureAnswered});
    TallySplit(cs, boot, {AllowAnswered} + {FailureAnswered}, {PostInvocationError});
    TallySplit(cs, boot, {AllowAnswered} + {FailureAnswered} + {PostInvocationError}, {InvokedUnanswered});
    assert InvokedFates == {AllowAnswered} + {FailureAnswered} + {PostInvocationError} + {InvokedUnanswered};
  }

  lemma SplitSpent(cs: seq<RedeemCall>, boot: nat)
    ensures Tally(cs, boot, SpentFates) ==
              Tally(cs, boot, InvokedFates) + Tally(cs, boot, {BetweenCommitAndInvocation})
              + Tally(cs, boot, {SpentWithoutInvocation})
  {
    hide Tally;
    TallySplit(cs, boot, InvokedFates, {BetweenCommitAndInvocation});
    TallySplit(cs, boot, InvokedFates + {BetweenCommitAndInvocation}, {SpentWithoutInvocation});
    assert SpentFates == InvokedFates + {BetweenCommitAndInvocation} + {SpentWithoutInvocation};
  }

  /** In one process lifetime the redemption rows added are the invocations, the calls between
      commit and invocation, and the calls that ended or died after commit without invoking; and
      the invocations are the four ways an invoked call can stand. */
  lemma Conservation(cfg: Config, labels: seq<Label>)
    ensures
      var s := Exec(cfg, Init, labels);
      && |s.shared.tables.redemptions| - s.rowsAtBoot ==
           s.shared.count + Tally(s.redeems, s.boot, {BetweenCommitAndInvocation})
           + Tally(s.redeems, s.boot, {SpentWithoutInvocation})
      && s.shared.count ==
           Tally(s.redeems, s.boot, {AllowAnswered}) + Tally(s.redeems, s.boot, {FailureAnswered})
           + Tally(s.redeems, s.boot, {PostInvocationError}) + Tally(s.redeems, s.boot, {InvokedUnanswered})
  {
    RunInv(cfg, labels);
    var s := Exec(cfg, Init, labels);
    hide Exec, Tally, RedeemsInv, IssuesInv, LogInv;
    SplitSpent(s.redeems, s.boot);
    SplitInvoked(s.redeems, s.boot);
  }

  // ---- Receipts ----

  /** The payload a call is about to have signed, if it is about to. */
  function PendingPayload(cfg: Config, sh: Shared, c: RedeemCall, now: int): Option<Payload> {
    match c.pc
    case Handled(completed) => Some(AllowPayload(cfg, sh, c, completed, now))
    case Denying(reason) => Some(DenialPayload(cfg, sh, c, reason, now))
    case _ => None
  }

  function PendingIssuePayload(cfg: Config, sh: Shared, c: IssueCall, now: int): Option<Payload> {
    match c.pc
    case IMinted => if c.credential.Some? then Some(IssueAllowPayload(cfg, sh, c, c.credential.value.id, now)) else None
    case IDenying(reason) => Some(IssueDenyPayload(cfg, sh, c, reason, now))
    case _ => None
  }

  lemma PendingValid(cfg: Config, sh: Shared, boot: nat, c: RedeemCall, now: int)
    requires cfg.NonEmptyStrings() && CallInv(cfg, sh, boot, c) && c.alive
    ensures var p := PendingPayload(cfg, sh, c, now); p.Some? ==> (ValidPayload(p.value) <==> now >= 0)
  {
  }

  lemma PendingIssueValid(cfg: Config, sh: Shared, boot: nat, c: IssueCall, now: int)
    requires cfg.NonEmptyStrings() && IssueInv(cfg, sh, boot, c)
    ensures var p := PendingIssuePayload(cfg, sh, c, now); p.Some? ==> (ValidPayload(p.value) <==> now >= 0)
  {
  }

  lemma AnsweredAsInvoked(cfg: Config, sh: Shared, boot: nat, c: RedeemCall)
    requires CallInv(cfg, sh, boot, c) && c.pc.Answered?
    ensures ValidPayload(c.pc.receipt)
    ensures c.invocation.Some? <==> c.pc.receipt.decision == Allow
    ensures c.invocation.Some? ==> c.pc.receipt.invocationId == c.invocation
  {
  }

  /** In every run, with non-empty policy strings, the payload any live call is about to sign
      passes the receipt validator exactly when its clock reading is non-negative; an answered
      call holds an allow receipt exactly when it invoked the handler, naming that invocation;
      and the invocation numbers of the current lifetime are 1, 2, …, count in log order. */
  lemma ReceiptsSound(cfg: Config, labels: seq<Label>, now: int)
    requires cfg.NonEmptyStrings()
    ensures
      var s := Exec(cfg, Init, labels);
      && (forall i :: 0 <= i < |s.redeems| && s.redeems[i].alive ==>
            var p := PendingPayload(cfg, s.shared, s.redeems[i], now);
            p.Some? ==> (ValidPayload(p.value) <==> now >= 0))
      && (forall i :: 0 <= i < |s.issues| ==>
            var p := PendingIssuePayload(cfg, s.shared, s.issues[i], now);
            p.Some? ==> (ValidPayload(p.value) <==> now >= 0))
      && (forall i :: 0 <= i < |s.redeems| && s.redeems[i].pc.Answered? ==>
            && ValidPayload(s.redeems[i].pc.receipt)
            && (s.redeems[i].invocation.Some? <==> s.redeems[i].pc.receipt.decision == Allow)
            && (s.redeems[i].invocation.Some? ==> s.redeems[i].pc.receipt.invocationId == s.redeems[i].invocation))
      && |s.log| == s.logAtBoot + s.shared.count
      && (forall k :: s.logAtBoot <= k < |s.log| ==> s.log[k].number == k - s.logAtBoot + 1)
  {
    RunInv(cfg, labels);
    var s := Exec(cfg, Init, labels);
    hide Exec, CallInv, IssueInv, ValidPayload, Accounted, MintInv, PendingPayload, PendingIssuePayload, Tally;
    forall i | 0 <= i < |s.redeems| && s.redeems[i].alive
      ensures var p := PendingPayload(cfg, s.shared, s.redeems[i], now); p.Some? ==> (ValidPayload(p.value) <==> now >= 0)
    {
      PendingValid(cfg, s.shared, s.boot, s.redeems[i], now);
    }
    forall i | 0 <= i < |s.issues|
      ensures var p := PendingIssuePayload(cfg, s.shared, s.issues[i], now); p.Some? ==> (ValidPayload(p.value) <==> now >= 0)
    {
      PendingIssueValid(cfg, s.shared, s.boot, s.issues[i], now);
    }
    forall i | 0 <= i < |s.redeems| && s.redeems[i].pc.Answered?
      ensures ValidPayload(s.redeems[i].pc.receipt)
      ensures s.redeems[i].invocation.Some? <==> s.redeems[i].pc.receipt.decision == Allow
      ensures s.redeems[i].invocation.Some? ==> s.redeems[i].pc.receipt.invocationId == s.redeems[i].invocation
    {
      AnsweredAsInvoked(cfg, s.shared, s.boot, s.redeems[i]);
    }
  }

  // ---- What a denial leaves behind ----

  /** The call spent its credential: it wrote its challenge row and its redemption row. */
  predicate SpendOwned(c: RedeemCall) {
    && c.spend.Some? && c.tokenHash.Some? && c.credentialId.Some?
    && c.cells == {ResourceCell(c.tokenHash.value), RedemptionCell(c.credentialId.value)}
  }

  predicate WroteNothing(c: RedeemCall) {
    c.spend.None? && c.cells == {}
  }

  /** What a redemption denied for this reason has written. */
  predicate Footprint(c: RedeemCall, reason: Reason) {
    match reason
    case CREDENTIAL_INVALID => WroteNothing(c)
    case SCOPE_DENIED => WroteNothing(c)
    case HOLDER_PROOF_INVALID => WroteNothing(c)
    case CHALLENGE_INVALID => WroteNothing(c)
    case CHALLENGE_CONSUMED => WroteNothing(c)
    case CREDENTIAL_SPENT => c.spend.None? && OwnChallenge(c)
    case CHALLENGE_STALE => WroteNothing(c) || SpendOwned(c)
    case CREDENTIAL_EXPIRED => WroteNothing(c) || SpendOwned(c)
    case INTERNAL_ERROR => WroteNothing(c) || (c.spend.None? && OwnChallenge(c)) || SpendOwned(c)
    case _ => false
  }

  /** What a denied issuance has written: its challenge, and then only with an internal error. */
  predicate IssueFootprint(c: IssueCall, reason: Reason) {
    if c.consumed then reason == INTERNAL_ERROR && c.cells == {BrokerCell(TokenHash(c.request.token))} else c.cells == {}
  }

  lemma DeniedCall(cfg: Config, sh: Shared, boot: nat, c: RedeemCall)
    requires CallInv(cfg, sh, boot, c) && c.pc.Answered? && c.pc.receipt.decision == Deny
    ensures Footprint(c, c.pc.receipt.reason)
  {
    hide ValidPayload, InWindow, BoundsAccepted, Covered;
  }

  lemma DeniedIssue(cfg: Config, sh: Shared, boot: nat, c: IssueCall)
    requires IssueInv(cfg, sh, boot, c) && c.pc.IAnswered? && c.pc.receipt.decision == Deny
    ensures IssueFootprint(c, c.pc.receipt.reason)
  {
    hide ValidPayload;
  }

  /** A call's history of cells is exact: each step adds the cells it changes and no others. */
  lemma CellsAreWrites(cfg: Config, sh: Shared, c: RedeemCall, e: Env)
    requires Steppable(c)
    ensures var (sk, d) := RedeemStep(cfg, sh, c, e); d.cells == c.cells + Diff(sh.tables, sk.tables)
  {
    hide Diff, AfterSpend, SpendOutcome, ValidPayload, LowerHex, BoundsAccepted, ChainVerifies;
    DiffEmpty(sh.tables, sh.tables);
  }

  lemma IssueCellsAreWrites(cfg: Config, sh: Shared, c: IssueCall, index: nat, e: Env)
    requires IssueSteppable(c)
    ensures var (sk, d) := IssueStep(cfg, sh, c, index, e); d.cells == c.cells + Diff(sh.tables, sk.tables)
  {
    hide Diff, AfterConsume, ConsumeRefusal, ValidPayload;
    DiffEmpty(sh.tables, sh.tables);
  }

  /** In every run what a denial has written is settled by its reason and by whether the call made
      the first spend. The five reasons about the credential's form, scope, proof, and an unknown
      or consumed challenge wrote nothing; CREDENTIAL_SPENT wrote its own challenge row; the two
      clock reasons wrote nothing before the spend, and after it the challenge and redemption rows;
      an internal error may stand at any of these points; no other reason is ever given. A denied
      issuance wrote nothing unless it reports an internal error after consuming its challenge. */
  lemma DenialFootprints(cfg: Config, labels: seq<Label>)
    ensures
      var s := Exec(cfg, Init, labels);
      && (forall i :: 0 <= i < |s.redeems| && s.redeems[i].pc.Answered? && s.redeems[i].pc.receipt.decision == Deny ==>
            Footprint(s.redeems[i], s.redeems[i].pc.receipt.reason))
      && (forall i :: 0 <= i < |s.issues| && s.issues[i].pc.IAnswered? && s.issues[i].pc.receipt.decision == Deny ==>
            IssueFootprint(s.issues[i], s.issues[i].pc.receipt.reason))
  {
    hide Exec, CallInv, IssueInv, Accounted, MintInv, LogInv, CountInv, Footprint, IssueFootprint;
    RunInv(cfg, labels);
    var s := Exec(cfg, Init, labels);
    forall i | 0 <= i < |s.redeems| && s.redeems[i].pc.Answered? && s.redeems[i].pc.receipt.decision == Deny
      ensures Footprint(s.redeems[i], s.redeems[i].pc.receipt.reason)
    {
      DeniedCall(cfg, s.shared, s.boot, s.redeems[i]);
    }
    forall i | 0 <= i < |s.issues| && s.issues[i].pc.IAnswered? && s.issues[i].pc.receipt.decision == Deny
      ensures IssueFootprint(s.issues[i], s.issues[i].pc.receipt.reason)
    {
      DeniedIssue(cfg, s.shared, s.boot, s.issues[i]);
    }
  }

  /** For the two clock reasons, exactly: the tables were changed if and only if the call had
      spent its credential, and then by both rows. */
  lemma ClockDenials(cfg: Config, labels: seq<Label>, i: nat)
    requires i < |Exec(cfg, Init, labels).redeems|
    requires var c := Exec(cfg, Init, labels).redeems[i];
             c.pc.Answered? && c.pc.receipt.decision == Deny && ClockReason(c.pc.receipt.reason)
    ensures var c := Exec(cfg, Init, labels).redeems[i];
            && (c.cells != {} <==> c.spend.Some?)
            && (c.spend.Some? ==> SpendOwned(c) && c.credentialId.value in Exec(cfg, Init, labels).shared.tables.redemptions)
  {
    hide Exec, CallInv, IssuesInv, LogInv, CountInv, SpendsDistinct, ReceiptsDistinct, Accounted;
    RunInv(cfg, labels);
    var s := Exec(cfg, Init, labels);
    DeniedCall(cfg, s.shared, s.boot, s.redeems[i]);
    SpenderRow(cfg, s.shared, s.boot, s.redeems[i]);
  }

  lemma SpenderRow(cfg: Config, sh: Shared, boot: nat, c: RedeemCall)
    requires CallInv(cfg, sh, boot, c)
    ensures c.spend.Some? ==> c.credentialId.Some? && c.credentialId.value in sh.tables.redemptions
  {
  }

  /** In every run a call whose holder proof does not cover its credential and arguments has
      written nothing and never reaches the handler; so every handler entry has such a proof. */
  lemma ProofBeforeEffect(cfg: Config, labels: seq<Label>)
    ensures
      var s := Exec(cfg, Init, labels);
      && (forall i :: 0 <= i < |s.redeems| && !Covered(cfg, s.redeems[i].request) ==>
            s.redeems[i].cells == {} && s.redeems[i].spend.None? && s.redeems[i].invocation.None?)
      && (forall k :: 0 <= k < |s.log| ==> s.log[k].call < |s.redeems| && Covered(cfg, s.redeems[s.log[k].call].request))
  {
    RunInv(cfg, labels);
    var s := Exec(cfg, Init, labels);
    hide Exec, Accounted, CountInv, IssuesInv, Covered, PcOk, Owner, InWindow;
    forall i | 0 <= i < |s.redeems| && !Covered(cfg, s.redeems[i].request)
      ensures s.redeems[i].cells == {} && s.redeems[i].spend.None? && s.redeems[i].invocation.None?
    {
      assert CallInv(cfg, s.shared, s.boot, s.redeems[i]);
    }
    forall k | 0 <= k < |s.log|
      ensures s.log[k].call < |s.redeems| && Covered(cfg, s.redeems[s.log[k].call].request)
    {
      assert EntryOf(s.log[k], s.redeems[s.log[k].call]);
    }
  }
}
