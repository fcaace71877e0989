/** One case of an honest run: what must hold before it, and how its calls end whatever the
    schedule. */
module HonestCase {
  import opened Symbols
  import opened Receipt
  import opened Protocol
  import opened ProtocolInvariant
  import opened Race
  import opened Refusal
  import opened Submission
  import opened Worker
  import opened Wire
  import opened Controller
  import opened Lab

  /** What the honest run's parties agree on: the controller's trust, the worker, and the span of
      the clock. */
  datatype Setting = Setting(t: Trust, holder: Holder, w: Window) {
    predicate Ok() {
      && t.cfg.NonEmptyStrings() && 0 <= w.lo <= w.hi
      && t.expected == Expected(holder.key, holder.image, holder.codeDigest)
      && holder.stranger != holder.key
    }
  }

  function CredOf(v: Validated): Credential {
    v.prepared.grant.credential
  }

  /** A prepared request for the case, answered by the honest worker. */
  predicate RequestOk(x: Setting, v: Validated, q: WorkerRequest, p: WorkerResponse) {
    && PreparedFor(x.t.cfg, q)
    && q.variant == v.prepared.variant && q.credential == CredOf(v) && q.caseId == v.prepared.caseId
    && q.sku != "" && q.recordId != ""
    && p == Generate(x.holder, q)
  }

  predicate Apart(a: WorkerRequest, b: WorkerRequest) {
    a.runId != b.runId && a.recordId != b.recordId && a.challenge != b.challenge && a.sku == b.sku
  }

  /** The case was prepared from a granted credential that lasts, and answered honestly. */
  ghost predicate Genuine(x: Setting, v: Validated) {
    && Shaped(v)
    && (v.prepared.variant == Concurrent ==> |v.prepared.requests| >= 2)
    && GrantOk(x.t, v.prepared.grant) && BoundsAccepted(x.t.cfg, CredOf(v))
    && CredOf(v).notBefore.value <= x.w.lo && x.w.hi <= CredOf(v).notAfter.value
    && (forall k :: 0 <= k < |v.responses| ==> RequestOk(x, v, v.prepared.requests[k], v.responses[k]))
    && (forall i, j :: 0 <= i < j < |v.prepared.requests| ==> Apart(v.prepared.requests[i], v.prepared.requests[j]))
  }

  /** A request's challenge waits in the store, unconsumed and outliving the run. */
  predicate ChallengeWaits(x: Setting, sh: Shared, q: WorkerRequest) {
    && var h := TokenHash(q.challenge);
    && h in sh.tables.resource
    && var row := sh.tables.resource[h];
    && row.credentialId == q.credential.id && row.tool == x.t.cfg.resource.tool
    && row.argumentsDigest == ArgumentsDigest(q.sku) && row.recordId == Plain(q.recordId)
    && row.audience == x.t.cfg.resource.audience
    && row.consumedAt.None? && x.w.hi < row.expiresAt
  }

  /** The credential is signed and unspent and every challenge of the case waits. */
  ghost predicate Waiting(x: Setting, sh: Shared, v: Validated) {
    && CredOf(v).id in sh.minted && sh.minted[CredOf(v).id].credential == CredOf(v)
    && CredOf(v).id !in sh.tables.redemptions
    && (forall k :: 0 <= k < |v.prepared.requests| ==> ChallengeWaits(x, sh, v.prepared.requests[k]))
  }

  /** The clock never goes back along the schedule. */
  ghost predicate ClockSorted(labels: seq<Label>) {
    forall i, j :: 0 <= i < j < |labels| && labels[i].StepRedeem? && labels[j].StepRedeem? ==>
      labels[i].env.now <= labels[j].env.now
  }

  /** Any interleaving of honest steps that gives every call of the case its eight steps. */
  ghost predicate HonestSteps(w: Window, v: Validated, sched: Schedule, base: nat) {
    && HonestSchedule(sched.first, base, |v.prepared.requests|, w) && AllGiven(sched.first, base, |v.prepared.requests|)
    && (v.prepared.variant == Replay ==>
          && HonestSchedule(sched.second, base + 1, 1, w) && Steps(sched.second, base + 1) >= 8
          && ClockSorted(sched.first + sched.second))
  }

  /** The lookups a case submits, in order. */
  function AllLookups(v: Validated): seq<LookupRequest>
    requires Shaped(v)
  {
    if v.prepared.variant == Replay then [Lookups(v)[0], Lookups(v)[0]] else Lookups(v)
  }

  /** The reasons a case's calls must be answered for. */
  ghost predicate ReasonsOk(v: Variant, reasons: seq<Reason>) {
    match v
    case Valid => reasons == [ALLOW]
    case Replay => reasons == [ALLOW, CHALLENGE_CONSUMED]
    case Concurrent => exists k :: OneWinner(reasons, k)
    case _ => reasons == [HOLDER_PROOF_INVALID]
  }

  ghost predicate CaseSettled(x: Setting, v: Validated, s: State, u: State, reasons: seq<Reason>) {
    && Shaped(v)
    && Settled(x.t.cfg, x.w, s, u, CredOf(v), AllLookups(v), reasons)
    && ReasonsOk(v.prepared.variant, reasons)
    && u.shared.count == s.shared.count + Executed(v.prepared.variant)
    && (CredOf(v).id in u.shared.tables.redemptions <==> AllowVariant(v.prepared.variant))
    && (v.prepared.variant == Replay ==> InOrder(u.redeems, |s.redeems|))
  }

  // ---- The lookups of an honest case ----

  /** An honest answer's lookup: covered exactly for the variants meant to be allowed. */
  lemma LookupFacts(x: Setting, v: Validated, k: nat)
    requires x.Ok() && Genuine(x, v) && k < |v.responses|
    ensures var q := v.prepared.requests[k];
            var r := Lookup(q, v.responses[k]);
            && WellFormedRequest(r) && Hash(r) == TokenHash(q.challenge)
            && r.credential == ParsedCredential(CredOf(v))
            && (Covered(x.t.cfg, r) <==> AllowVariant(v.prepared.variant))
            && (r.proof.signature.NotASignature? <==> v.prepared.variant == Malformed)
            && CredOf(v).issuer == x.t.cfg.resource.trustedBroker && CredOf(v).scope == {x.t.cfg.resource.scope}
  {
    var q, p := v.prepared.requests[k], v.responses[k];
    assert RequestOk(x, v, q, p);
    hide Preappraised, ValidPayload;
    GeneratePasses(x.holder, q);
    PreappraisalDecides(x.t.cfg, q, p, true, true);
  }

  /** An allowed variant's lookup is a contender in any part of the window. */
  lemma LookupContends(x: Setting, sh: Shared, v: Validated, k: nat, z: Window)
    requires x.Ok() && Genuine(x, v) && Waiting(x, sh, v) && k < |v.responses| && AllowVariant(v.prepared.variant)
    requires x.w.lo <= z.lo && z.hi <= x.w.hi
    ensures var r := Lookup(v.prepared.requests[k], v.responses[k]);
            Contender(x.t.cfg, z, sh, CredOf(v), r)
            && Hash(r) in sh.tables.resource && sh.tables.resource[Hash(r)].consumedAt.None?
  {
    LookupFacts(x, v, k);
    assert ChallengeWaits(x, sh, v.prepared.requests[k]);
    hide GrantOk, RequestOk, ProofCovers, BoundsAccepted;
  }

  lemma CaseSubmittable(x: Setting, sh: Shared, v: Validated, z: Window)
    requires x.Ok() && Genuine(x, v) && Waiting(x, sh, v) && AllowVariant(v.prepared.variant)
    requires x.w.lo <= z.lo && z.hi <= x.w.hi
    ensures Submittable(x.t.cfg, z, sh, CredOf(v), Lookups(v))
  {
    hide GrantOk, BoundsAccepted, Contender, RequestOk, ChallengeWaits;
    var ls := Lookups(v);
    forall k | 0 <= k < |ls|
      ensures Contender(x.t.cfg, z, sh, CredOf(v), ls[k])
      ensures Hash(ls[k]) in sh.tables.resource && sh.tables.resource[Hash(ls[k])].consumedAt.None?
      ensures Hash(ls[k]) == TokenHash(v.prepared.requests[k].challenge)
    {
      LookupContends(x, sh, v, k, z);
      LookupFacts(x, v, k);
    }
    forall i, j | 0 <= i < j < |ls|
      ensures Hash(ls[i]) != Hash(ls[j])
    {
      assert Apart(v.prepared.requests[i], v.prepared.requests[j]);
    }
  }

  /** A denied variant's lookup will be refused for its proof. */
  lemma LookupRefused(x: Setting, sh: Shared, v: Validated)
    requires x.Ok() && Genuine(x, v) && Waiting(x, sh, v) && !AllowVariant(v.prepared.variant)
    ensures var r := Lookups(v)[0];
            WillRefuse(x.t.cfg, x.w, sh, CredOf(v), r, HOLDER_PROOF_INVALID, TokenShown(r))
  {
    LookupFacts(x, v, 0);
    assert ChallengeWaits(x, sh, v.prepared.requests[0]);
    hide GrantOk, RequestOk, ProofCovers, BoundsAccepted;
  }

  /** A consumed challenge submitted again will be refused as consumed. */
  lemma LookupReplayed(x: Setting, sh: Shared, sk: Shared, v: Validated, z: Window)
    requires x.Ok() && Genuine(x, v) && Waiting(x, sh, v) && v.prepared.variant == Replay
    requires sk.minted == sh.minted && AllConsumed(x.t.cfg, sk, CredOf(v), Lookups(v))
    requires x.w.lo <= z.lo && z.hi <= x.w.hi
    ensures var r := Lookups(v)[0];
            WillRefuse(x.t.cfg, z, sk, CredOf(v), r, CHALLENGE_CONSUMED, TokenShown(r))
  {
    LookupFacts(x, v, 0);
    assert Lookups(v)[0] == Lookup(v.prepared.requests[0], v.responses[0]);
    hide GrantOk, RequestOk, ProofCovers, BoundsAccepted, RowMatches, ChallengeWaits;
  }

  // ---- Each kind of case ----

  lemma RaceCaseSettles(x: Setting, s: State, v: Validated, sched: Schedule) returns (reasons: seq<Reason>)
    requires x.Ok() && Genuine(x, v) && Waiting(x, s.shared, v) && Inv(x.t.cfg, s)
    requires v.prepared.variant == Valid || v.prepared.variant == Concurrent
    requires HonestSteps(x.w, v, sched, |s.redeems|)
    ensures CaseSettled(x, v, s, RunCase(x.t, s, v, sched), reasons)
  {
    hide Exec, Inv, Waiting, Submittable, Settled, HonestSchedule, ObserveCall;
    CaseSubmittable(x, s.shared, v, x.w);
    var k;
    reasons, k := RaceSubmitted(x.t.cfg, x.w, s, CredOf(v), Lookups(v), sched.first);
    SettledLength(x.t.cfg, x.w, s, RunCase(x.t, s, v, sched), CredOf(v), Lookups(v), reasons);
    assert v.prepared.variant == Valid ==> reasons == [ALLOW];
  }

  lemma SettledLength(cfg: Config, w: Window, s: State, t: State, cred: Credential, ls: seq<LookupRequest>, reasons: seq<Reason>)
    requires Settled(cfg, w, s, t, cred, ls, reasons)
    ensures Inv(cfg, t) && |reasons| == |ls| && |t.redeems| == |s.redeems| + |ls| && t.shared.minted == s.shared.minted
  {
    hide Inv;
  }

  lemma RefusedCaseSettles(x: Setting, s: State, v: Validated, sched: Schedule)
    requires x.Ok() && Genuine(x, v) && Waiting(x, s.shared, v) && Inv(x.t.cfg, s)
    requires !AllowVariant(v.prepared.variant) && HonestSteps(x.w, v, sched, |s.redeems|)
    ensures CaseSettled(x, v, s, RunCase(x.t, s, v, sched), [HOLDER_PROOF_INVALID])
  {
    hide Exec, Inv, Settled, HonestSchedule, WillRefuse, ObserveCall, GrantOk, BoundsAccepted, RequestOk, ChallengeWaits;
    LookupRefused(x, s.shared, v);
    var ls := Lookups(v);
    assert ls == [ls[0]] && Begins(ls) == [BeginRedeem(ls[0])];
    assert InRace(|s.redeems|, |s.redeems|, |ls|);
    RefusalSubmitted(x.t.cfg, x.w, s, CredOf(v), ls[0], HOLDER_PROOF_INVALID, sched.first);
  }

  /** The instant between the replay's two submissions. */
  lemma SplitClock(w: Window, v: Validated, sched: Schedule, base: nat) returns (mid: int)
    requires HonestSteps(w, v, sched, base) && Shaped(v) && v.prepared.variant == Replay
    ensures w.lo <= mid <= w.hi
    ensures HonestSchedule(sched.first, base, 1, Window(w.lo, mid)) && AllGiven(sched.first, base, 1)
    ensures HonestSchedule(sched.second, base + 1, 1, Window(mid, w.hi))
  {
    var all, n := sched.first + sched.second, |sched.first|;
    assert sched.second != [];
    mid := sched.second[0].env.now;
    forall k | 0 <= k < |sched.first|
      ensures sched.first[k].env.now <= mid
    {
      assert all[k] == sched.first[k] && all[n] == sched.second[0];
    }
    forall k | 0 <= k < |sched.second|
      ensures mid <= sched.second[k].env.now
    {
      assert all[n + k] == sched.second[k] && all[n] == sched.second[0];
    }
  }

  /** The replay's first answer is one the controller records. */
  lemma FirstObserved(x: Setting, v: Validated, s: State, t: State, z: Window)
    requires x.Ok() && Genuine(x, v) && Shaped(v) && v.prepared.variant == Replay
    requires Settled(x.t.cfg, z, s, t, CredOf(v), [Lookups(v)[0]], [ALLOW])
    ensures |t.redeems| == |s.redeems| + 1
    ensures ObserveCall(x.t, v.prepared.requests[0], v.responses[0], 1, t.redeems[|s.redeems|]).Some?
  {
    hide Settled, SettledCall, Genuine, OnlyTouches, Inv;
    SettledOne(x.t.cfg, z, s, t, CredOf(v), Lookups(v)[0], ALLOW);
    AnswerObserved(x, v, z, s.shared.count, t.shared.count, t.redeems[|s.redeems|]);
  }

  lemma AnswerObserved(x: Setting, v: Validated, z: Window, low: int, high: int, c: RedeemCall)
    requires x.Ok() && Genuine(x, v) && Shaped(v) && v.prepared.variant == Replay
    requires SettledCall(x.t.cfg, z, low, high, CredOf(v), Lookups(v)[0], ALLOW, c)
    ensures ObserveCall(x.t, v.prepared.requests[0], v.responses[0], 1, c).Some?
  {
    LookupFacts(x, v, 0);
    var q, p := v.prepared.requests[0], v.responses[0];
    assert RequestOk(x, v, q, p) && Lookups(v)[0] == Lookup(q, p);
    hide Genuine, ConsistentInventory, ConsistentBroker, RequestDigest, ResponseDigest, ProofDigest, Generate, ProofCovers;
    assert ReceiptBinds(x.t, q, c.pc.receipt);
    assert AttemptSemantics(AttemptFrom(x.t, q, p, 1, c.pc.receipt));
  }

  lemma ReplayCaseSettles(x: Setting, s: State, v: Validated, sched: Schedule)
    requires x.Ok() && Genuine(x, v) && Waiting(x, s.shared, v) && Inv(x.t.cfg, s)
    requires v.prepared.variant == Replay && HonestSteps(x.w, v, sched, |s.redeems|)
    ensures CaseSettled(x, v, s, RunCase(x.t, s, v, sched), [ALLOW, CHALLENGE_CONSUMED])
  {
    hide Exec, Inv, Settled, HonestSchedule, WillRefuse, Genuine, Waiting, Submittable, AllConsumed, AllGiven, InOrder, ObserveCall;
    assert Shaped(v) by { GenuineShape(x, v); }
    var cfg, ls, r := x.t.cfg, Lookups(v), Lookups(v)[0];
    assert ls == [r];
    var mid := SplitClock(x.w, v, sched, |s.redeems|);
    var a, b := Window(x.w.lo, mid), Window(mid, x.w.hi);
    CaseSubmittable(x, s.shared, v, a);
    var reasons, k := RaceSubmitted(cfg, a, s, CredOf(v), ls, sched.first);
    var t := Exec(cfg, s, Begins(ls) + sched.first);
    SettledLength(cfg, a, s, t, CredOf(v), ls, reasons);
    assert reasons == [ALLOW];
    FirstObserved(x, v, s, t, a);
    LookupReplayed(x, s.shared, t.shared, v, b);
    RefusalSubmitted(cfg, b, t, CredOf(v), r, CHALLENGE_CONSUMED, sched.second);
    var u := Exec(cfg, t, [BeginRedeem(r)] + sched.second);
    SettledTwice(cfg, a, b, s, t, u, CredOf(v), r, ALLOW, CHALLENGE_CONSUMED);
    assert CredOf(v).id in u.shared.tables.redemptions by { ConsumedRow(cfg, t.shared, CredOf(v), ls); }
  }

  lemma GenuineShape(x: Setting, v: Validated)
    requires Genuine(x, v)
    ensures Shaped(v)
  {
    hide GrantOk, BoundsAccepted, RequestOk, Apart;
  }

  lemma ConsumedRow(cfg: Config, sh: Shared, cred: Credential, ls: seq<LookupRequest>)
    requires AllConsumed(cfg, sh, cred, ls)
    ensures cred.id in sh.tables.redemptions
  {
  }

  /** Under every honest schedule a waiting case ends in its prescribed answers. */
  lemma CaseSettles(x: Setting, s: State, v: Validated, sched: Schedule) returns (reasons: seq<Reason>)
    requires x.Ok() && Genuine(x, v) && Waiting(x, s.shared, v) && Inv(x.t.cfg, s)
    requires HonestSteps(x.w, v, sched, |s.redeems|)
    ensures CaseSettled(x, v, s, RunCase(x.t, s, v, sched), reasons)
  {
    hide CaseSettled, Genuine, Waiting, HonestSteps, Inv, RunCase;
    GenuineShape(x, v);
    match v.prepared.variant
    case Valid => reasons := RaceCaseSettles(x, s, v, sched);
    case Concurrent => reasons := RaceCaseSettles(x, s, v, sched);
    case Replay =>
      ReplayCaseSettles(x, s, v, sched);
      reasons := [ALLOW, CHALLENGE_CONSUMED];
    case _ =>
      RefusedCaseSettles(x, s, v, sched);
      reasons := [HOLDER_PROOF_INVALID];
  }

  /** Another case's row and credential do not move. */
  lemma StillWaiting(x: Setting, s: State, u: State, v: Validated, reasons: seq<Reason>, other: Validated)
    requires CaseSettled(x, v, s, u, reasons) && Waiting(x, s.shared, other) && x.Ok() && Genuine(x, v)
    requires CredOf(v).id != CredOf(other).id
    requires forall k, l :: 0 <= k < |v.prepared.requests| && 0 <= l < |other.prepared.requests| ==>
               v.prepared.requests[k].challenge != other.prepared.requests[l].challenge
    ensures Waiting(x, u.shared, other)
  {
    hide Inv, GrantOk, BoundsAccepted, RequestOk, SettledCall, InOrder, ReasonsOk;
    var ls := AllLookups(v);
    forall l | 0 <= l < |other.prepared.requests|
      ensures ChallengeWaits(x, u.shared, other.prepared.requests[l])
    {
      var q := other.prepared.requests[l];
      assert ChallengeWaits(x, s.shared, q);
      forall j | 0 <= j < |ls|
        ensures TokenHash(q.challenge) != Hash(ls[j])
      {
        LookupFacts(x, v, if v.prepared.variant == Replay then 0 else j);
      }
    }
  }
}
