/** Freshness of every handler entry, for arbitrary and for monotone clocks. */
module ProtocolTime {
  import opened Symbols
  import opened Receipt
  import opened Storage
  import opened Protocol
  import opened ProtocolInvariant
  import opened ProtocolSafety
  import opened ProtocolTheorems

  /** Every resource challenge expires one TTL after its issue. */
  ghost predicate TtlInv(cfg: Config, t: Tables) {
    forall h :: h in t.resource ==> t.resource[h].expiresAt == t.resource[h].issuedAt + cfg.resource.challengeTtl
  }

  lemma KeysSame(cfg: Config, s: State, l: Label)
    requires RedeemsInv(cfg, s) && IssuesInv(cfg, s) && !l.NewResourceChallenge?
    ensures Next(cfg, s, l).shared.tables.resource.Keys == s.shared.tables.resource.Keys
  {
    hide Accounted, CallInv, IssueInv, RedeemStep, IssueStep, MintInv, Steppable, IssueSteppable, Advances;
    match l
    case StepRedeem(i, e) =>
      if i < |s.redeems| { StepEffect(cfg, s.shared, s.boot, s.redeems[i], e); }
    case StepIssue(i, e) =>
      if i < |s.issues| { IssueStepKeeps(cfg, s.shared, s.boot, s.issues[i], i, e); }
    case _ =>
  }

  lemma TtlNext(cfg: Config, s: State, l: Label)
    requires Inv(cfg, s) && TtlInv(cfg, s.shared.tables)
    ensures TtlInv(cfg, Next(cfg, s, l).shared.tables)
  {
    hide RedeemsInv, IssuesInv, LogInv, CountInv, SpendsDistinct, ReceiptsDistinct;
    if l.NewResourceChallenge? {
      NewRowTtl(cfg, s, l);
    } else {
      KeysSame(cfg, s, l);
      NextAdvances(cfg, s, l);
      SameTtl(cfg, s.shared.tables, Next(cfg, s, l).shared.tables);
    }
  }

  lemma NewRowTtl(cfg: Config, s: State, l: Label)
    requires TtlInv(cfg, s.shared.tables) && l.NewResourceChallenge?
    ensures TtlInv(cfg, Next(cfg, s, l).shared.tables)
  {
  }

  lemma SameTtl(cfg: Config, t: Tables, u: Tables)
    requires TtlInv(cfg, t) && Advances(t, u) && u.resource.Keys == t.resource.Keys
    ensures TtlInv(cfg, u)
  {
  }

  lemma {:induction false} TtlRun(cfg: Config, labels: seq<Label>)
    ensures TtlInv(cfg, Exec(cfg, Init, labels).shared.tables)
    decreases |labels|
  {
    hide Inv, Next;
    if labels != [] {
      var before := labels[..|labels| - 1];
      TtlRun(cfg, before);
      RunInv(cfg, before);
      TtlNext(cfg, Exec(cfg, Init, before), labels[|labels| - 1]);
    }
  }

  /** Every broker challenge expires one TTL after its issue. */
  ghost predicate BrokerTtlInv(cfg: Config, t: Tables) {
    forall h :: h in t.broker ==> t.broker[h].expiresAt == t.broker[h].issuedAt + cfg.broker.challengeTtl
  }

  lemma BrokerKeysSame(cfg: Config, s: State, l: Label)
    requires RedeemsInv(cfg, s) && IssuesInv(cfg, s) && !l.NewBrokerChallenge?
    ensures Next(cfg, s, l).shared.tables.broker.Keys == s.shared.tables.broker.Keys
  {
    hide Accounted, CallInv, IssueInv, RedeemStep, IssueStep, MintInv, Steppable, IssueSteppable, Advances;
    match l
    case StepRedeem(i, e) =>
      if i < |s.redeems| { StepEffect(cfg, s.shared, s.boot, s.redeems[i], e); }
    case StepIssue(i, e) =>
      if i < |s.issues| && IssueSteppable(s.issues[i]) { IssueBrokerKeys(cfg, s.shared, s.issues[i], i, e); }
    case _ =>
  }

  lemma IssueBrokerKeys(cfg: Config, sh: Shared, c: IssueCall, i: nat, e: Env)
    requires IssueSteppable(c)
    ensures IssueStep(cfg, sh, c, i, e).0.tables.broker.Keys == sh.tables.broker.Keys
  {
    hide ValidPayload, Diff, Appraise, IssueDenyPayload, IssueAllowPayload;
  }

  lemma BrokerTtlNext(cfg: Config, s: State, l: Label)
    requires Inv(cfg, s) && BrokerTtlInv(cfg, s.shared.tables)
    ensures BrokerTtlInv(cfg, Next(cfg, s, l).shared.tables)
  {
    hide RedeemsInv, IssuesInv, LogInv, CountInv, SpendsDistinct, ReceiptsDistinct;
    if l.NewBrokerChallenge? {
      NewBrokerTtl(cfg, s, l);
    } else {
      BrokerKeysSame(cfg, s, l);
      NextAdvances(cfg, s, l);
      SameBrokerTtl(cfg, s.shared.tables, Next(cfg, s, l).shared.tables);
    }
  }

  lemma NewBrokerTtl(cfg: Config, s: State, l: Label)
    requires BrokerTtlInv(cfg, s.shared.tables) && l.NewBrokerChallenge?
    ensures BrokerTtlInv(cfg, Next(cfg, s, l).shared.tables)
  {
  }

  lemma SameBrokerTtl(cfg: Config, t: Tables, u: Tables)
    requires BrokerTtlInv(cfg, t) && Advances(t, u) && u.broker.Keys == t.broker.Keys
    ensures BrokerTtlInv(cfg, u)
  {
  }

  lemma {:induction false} BrokerTtlRun(cfg: Config, labels: seq<Label>)
    ensures BrokerTtlInv(cfg, Exec(cfg, Init, labels).shared.tables)
    decreases |labels|
  {
    hide Inv, Next;
    if labels != [] {
      var m := |labels| - 1;
      BrokerTtlRun(cfg, labels[..m]);
      RunInv(cfg, labels[..m]);
      BrokerTtlNext(cfg, Exec(cfg, Init, labels[..m]), labels[m]);
    }
  }

  /** A reading at which the entry's credential is valid and its challenge unexpired. */
  ghost predicate Timely(s: State, h: HandlerCall, t: int) {
    && h.credentialId in s.shared.minted
    && InWindow(s.shared.minted[h.credentialId].credential, t)
    && h.tokenHash in s.shared.tables.resource
    && t < s.shared.tables.resource[h.tokenHash].expiresAt
  }

  /** The windows the two policies allow around an entry. */
  ghost predicate Bounded(cfg: Config, s: State, h: HandlerCall)
    requires Timely(s, h, h.clearedAt)
  {
    && h.clearedAt <= s.shared.minted[h.credentialId].credential.notBefore.value + cfg.resource.maxLifetime
    && h.clearedAt < s.shared.tables.resource[h.tokenHash].issuedAt + cfg.resource.challengeTtl
  }

  lemma EntryTimely(cfg: Config, s: State, k: nat)
    requires RedeemsInv(cfg, s) && LogInv(s) && k < |s.log| && TtlInv(cfg, s.shared.tables)
    ensures Timely(s, s.log[k], s.log[k].committedAt) && Timely(s, s.log[k], s.log[k].clearedAt)
    ensures Bounded(cfg, s, s.log[k])
  {
    EntryOwner(cfg, s, k);
    assert CallInv(cfg, s.shared, s.boot, s.redeems[s.log[k].call]);
    hide Accounted, PcOk, RedeemsInv;
  }

  /** Whatever the clock does, the commit reading and the last reading before each handler entry
      lie in the credential's window and before the challenge's expiry; hence within the maximum
      lifetime of not_before and within the challenge TTL of its issue. */
  lemma HandlerIsTimely(cfg: Config, labels: seq<Label>)
    ensures
      var s := Exec(cfg, Init, labels);
      forall k :: 0 <= k < |s.log| ==>
        && Timely(s, s.log[k], s.log[k].committedAt)
        && Timely(s, s.log[k], s.log[k].clearedAt)
        && Bounded(cfg, s, s.log[k])
  {
    RunInv(cfg, labels);
    TtlRun(cfg, labels);
    var s := Exec(cfg, Init, labels);
    hide Exec, CallInv, Timely, Bounded, CountInv, IssuesInv, TtlInv;
    forall k | 0 <= k < |s.log|
      ensures Timely(s, s.log[k], s.log[k].committedAt) && Timely(s, s.log[k], s.log[k].clearedAt) && Bounded(cfg, s, s.log[k])
    {
      EntryTimely(cfg, s, k);
    }
  }

  // ---- Monotone clocks ----

  /** No clock reading of the run precedes an earlier one. */
  predicate MonotoneClock(cfg: Config, labels: seq<Label>)
    decreases |labels|
  {
    labels == [] ||
    (var before := labels[..|labels| - 1];
     MonotoneClock(cfg, before) && Exec(cfg, Init, before).clock <= Exec(cfg, Init, labels).clock)
  }

  ghost predicate CallTimes(t: Tables, clock: int, c: RedeemCall) {
    && (c.spend.Some? && c.tokenHash.Some? && c.tokenHash.value in t.resource ==>
          t.resource[c.tokenHash.value].issuedAt <= c.spend.value.committedAt <= clock)
    && (c.spend.Some? && c.clearedAt.Some? ==> c.spend.value.committedAt <= c.clearedAt.value <= clock)
  }

  ghost predicate TimeInv(s: State) {
    && (forall h :: h in s.shared.tables.resource ==> s.shared.tables.resource[h].issuedAt <= s.clock)
    && (forall i :: 0 <= i < |s.redeems| ==> CallTimes(s.shared.tables, s.clock, s.redeems[i]))
  }

  /** A step stamps its call with its own reading, and only once. */
  ghost predicate Stamps(c: RedeemCall, d: RedeemCall, now: int) {
    && (c.spend.Some? ==> d.spend == c.spend && d.tokenHash == c.tokenHash)
    && (c.spend.None? && d.spend.Some? ==> d.spend.value.committedAt == now && d.clearedAt == c.clearedAt)
    && (c.clearedAt.Some? ==> d.clearedAt == c.clearedAt)
    && (c.clearedAt.None? && d.clearedAt.Some? ==> d.clearedAt.value == now && c.spend.Some?)
  }

  ghost predicate PreCommit(c: RedeemCall) {
    (c.pc.Received? || c.pc.CredentialVerified? || c.pc.ChallengeRead? || c.pc.ProofChecked?) ==>
      c.spend.None? && c.clearedAt.None?
  }

  lemma PreCommitCall(cfg: Config, sh: Shared, boot: nat, c: RedeemCall)
    requires CallInv(cfg, sh, boot, c)
    ensures PreCommit(c) && Steppable(c)
    ensures c.spend.Some? ==> c.tokenHash.Some? && c.tokenHash.value in sh.tables.resource
    ensures c.clearedAt.Some? ==> c.spend.Some?
    ensures c.pc.Committed? ==> c.clearedAt.None?
  {
  }

  lemma StepStamps(cfg: Config, sh: Shared, c: RedeemCall, e: Env)
    requires Steppable(c) && PreCommit(c) && (c.pc.Committed? ==> c.clearedAt.None?)
    ensures Stamps(c, RedeemStep(cfg, sh, c, e).1, e.now)
  {
    hide ValidPayload, ProofCovers, ChainVerifies, BoundsAccepted, RowMatches, AfterSpend, Diff, AllowPayload, DenialPayload, LowerHex,
      SpendRefusal;
  }

  lemma TimeMove(cfg: Config, s: State, i: nat, e: Env)
    requires RedeemsInv(cfg, s) && TimeInv(s) && s.clock <= e.now
    requires i < |s.redeems| && s.redeems[i].alive && Steppable(s.redeems[i])
    ensures TimeInv(StepRedeemAt(cfg, s, i, e))
  {
    hide CallInv, Accounted, RedeemStep, Steppable, CallTimes, Advances, Stamps;
    var c := s.redeems[i];
    RedeemStepKeeps(cfg, s.shared, s.boot, c, e);
    StepEffect(cfg, s.shared, s.boot, c, e);
    PreCommitCall(cfg, s.shared, s.boot, c);
    StepStamps(cfg, s.shared, c, e);
    var (sk, d) := RedeemStep(cfg, s.shared, c, e);
    PreCommitCall(cfg, sk, s.boot, d);
    forall j | 0 <= j < |s.redeems| && j != i
      ensures CallTimes(sk.tables, e.now, s.redeems[j])
    {
      PreCommitCall(cfg, s.shared, s.boot, s.redeems[j]);
      LaterTimes(s.shared.tables, sk.tables, s.clock, e.now, s.redeems[j]);
    }
    RowsLater(s.shared.tables, sk.tables, s.clock, e.now);
    MovedTimes(s.shared.tables, sk.tables, s.clock, e.now, c, d);
  }

  /** A call that did not move keeps its times under later tables and a later clock. */
  lemma LaterTimes(t: Tables, u: Tables, clock: int, now: int, c: RedeemCall)
    requires CallTimes(t, clock, c) && Advances(t, u) && clock <= now
    requires c.spend.Some? ==> c.tokenHash.Some? && c.tokenHash.value in t.resource
    ensures CallTimes(u, now, c)
  {
  }

  lemma RowsLater(t: Tables, u: Tables, clock: int, now: int)
    requires Advances(t, u) && clock <= now && u.resource.Keys == t.resource.Keys
    requires forall h :: h in t.resource ==> t.resource[h].issuedAt <= clock
    ensures forall h :: h in u.resource ==> u.resource[h].issuedAt <= now
  {
  }

  lemma MovedTimes(t: Tables, u: Tables, clock: int, now: int, c: RedeemCall, d: RedeemCall)
    requires CallTimes(t, clock, c) && Advances(t, u) && clock <= now && u.resource.Keys == t.resource.Keys
    requires forall h :: h in t.resource ==> t.resource[h].issuedAt <= clock
    requires Stamps(c, d, now) && (c.clearedAt.Some? ==> c.spend.Some?)
    requires c.spend.Some? ==> c.tokenHash.Some? && c.tokenHash.value in t.resource
    ensures CallTimes(u, now, d)
  {
  }

  lemma TimeFrame(cfg: Config, s: State, s': State)
    requires RedeemsInv(cfg, s) && TimeInv(s) && s.clock <= s'.clock
    requires Advances(s.shared.tables, s'.shared.tables)
    requires forall h :: h in s'.shared.tables.resource && h !in s.shared.tables.resource ==>
               s'.shared.tables.resource[h].issuedAt <= s'.clock
    requires |s.redeems| <= |s'.redeems|
    requires forall j :: 0 <= j < |s.redeems| ==> s'.redeems[j] == s.redeems[j].(alive := s'.redeems[j].alive)
    requires forall j :: |s.redeems| <= j < |s'.redeems| ==> s'.redeems[j].spend.None?
    ensures TimeInv(s')
  {
    hide CallInv, Accounted;
    forall j | 0 <= j < |s.redeems|
      ensures CallTimes(s'.shared.tables, s'.clock, s'.redeems[j])
    {
      PreCommitCall(cfg, s.shared, s.boot, s.redeems[j]);
      assert CallTimes(s.shared.tables, s.clock, s.redeems[j]);
    }
  }

  lemma TimeNext(cfg: Config, s: State, l: Label)
    requires Inv(cfg, s) && TimeInv(s) && s.clock <= Next(cfg, s, l).clock
    ensures TimeInv(Next(cfg, s, l))
  {
    hide RedeemsInv, IssuesInv, LogInv, CountInv, SpendsDistinct, ReceiptsDistinct, TimeInv, Steppable;
    if l.StepRedeem? {
      var i, e := l.call, l.env;
      if i < |s.redeems| && s.redeems[i].alive && Steppable(s.redeems[i]) {
        TimeMove(cfg, s, i, e);
      }
    } else {
      NextAdvances(cfg, s, l);
      if !l.NewResourceChallenge? { KeysSame(cfg, s, l); }
      NewRowsLater(cfg, s, l);
      CallsStay(cfg, s, l);
      TimeFrame(cfg, s, Next(cfg, s, l));
    }
  }

  /** A row that was not there before was issued at the current reading. */
  lemma NewRowsLater(cfg: Config, s: State, l: Label)
    requires !l.StepRedeem? && s.clock <= Next(cfg, s, l).clock
    requires l.NewResourceChallenge? || Next(cfg, s, l).shared.tables.resource.Keys == s.shared.tables.resource.Keys
    ensures var t := Next(cfg, s, l);
            forall h :: h in t.shared.tables.resource && h !in s.shared.tables.resource ==>
              t.shared.tables.resource[h].issuedAt <= t.clock
  {
    hide StepIssueAt;
  }

  /** Any other label only adds fresh calls or marks calls dead. */
  lemma CallsStay(cfg: Config, s: State, l: Label)
    requires !l.StepRedeem?
    ensures var t := Next(cfg, s, l);
            && |s.redeems| <= |t.redeems|
            && (forall j :: 0 <= j < |s.redeems| ==> t.redeems[j] == s.redeems[j].(alive := t.redeems[j].alive))
            && (forall j :: |s.redeems| <= j < |t.redeems| ==> t.redeems[j].spend.None?)
  {
    hide IssueStep, IssueSteppable;
  }

  lemma {:induction false} TimeRun(cfg: Config, labels: seq<Label>)
    requires MonotoneClock(cfg, labels)
    ensures TimeInv(Exec(cfg, Init, labels))
    decreases |labels|
  {
    hide Inv, Next;
    if labels != [] {
      var before := labels[..|labels| - 1];
      TimeRun(cfg, before);
      RunInv(cfg, before);
      TimeNext(cfg, Exec(cfg, Init, before), labels[|labels| - 1]);
    }
  }

  /** With a monotone clock each entry follows its challenge: issue, commit and last check come in
      that order, all inside one challenge TTL. */
  lemma HandlerFollowsChallenge(cfg: Config, labels: seq<Label>)
    requires MonotoneClock(cfg, labels)
    ensures
      var s := Exec(cfg, Init, labels);
      forall k :: 0 <= k < |s.log| ==>
        var h := s.log[k];
        && h.tokenHash in s.shared.tables.resource
        && s.shared.tables.resource[h.tokenHash].issuedAt <= h.committedAt <= h.clearedAt
        && h.clearedAt < s.shared.tables.resource[h.tokenHash].issuedAt + cfg.resource.challengeTtl
  {
    RunInv(cfg, labels);
    TtlRun(cfg, labels);
    TimeRun(cfg, labels);
    var s := Exec(cfg, Init, labels);
    hide Exec, CallInv, CountInv, IssuesInv, Accounted, MonotoneClock;
    forall k | 0 <= k < |s.log|
      ensures
        var h := s.log[k];
        && h.tokenHash in s.shared.tables.resource
        && s.shared.tables.resource[h.tokenHash].issuedAt <= h.committedAt <= h.clearedAt
        && h.clearedAt < s.shared.tables.resource[h.tokenHash].issuedAt + cfg.resource.challengeTtl
    {
      EntryTimely(cfg, s, k);
      assert CallTimes(s.shared.tables, s.clock, s.redeems[s.log[k].call]);
    }
  }
}
