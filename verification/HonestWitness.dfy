/** The honest experiment exists: for every race size there is a run that sets it up. */
module HonestWitness {
  import opened Symbols
  import opened Receipt
  import opened Storage
  import opened Protocol
  import opened Race
  import opened Submission
  import opened Worker
  import opened Wire
  import opened Images
  import opened RecordVerifier
  import opened Controller
  import opened Preparation
  import opened Lab
  import opened HonestCase
  import opened HonestFold
  import opened HonestRun
  import opened HonestRecord
  import opened RecordSound
  import opened RecordExecution
  import opened HonestGrants
  import opened HonestPreparation
  import opened HonestIssuance
  import opened HonestExperiment

  // ---- The parties ----

  const IssuerKey: Term := Plain("issuer")

  function Policies(): Config {
    Config(ResourcePolicy(ExpectedAudience, ExpectedTool, ExpectedScope, IssuerKey, 300, 900),
           BrokerPolicy(ExpectedScope, IssuerKey, Labelled(Sha256("manifest", [])), 300, 900))
  }

  function Worker0(): Holder {
    Holder(Plain("worker"), Plain("image"), Plain("code"), Plain("stranger"))
  }

  /** All clock readings of this run are zero. */
  function Parties(): Setting {
    Setting(Trust(Policies(), Expected(Worker0().key, Worker0().image, Worker0().codeDigest),
                  Verifier("broker", Plain("broker-key")), Verifier("resource", Plain("resource-key"))),
            Worker0(), Window(0, 0))
  }

  const Calm: Env := Env(0, NoFault, false, true, true, true, AllFields)

  lemma PartiesOk()
    ensures Parties().Ok() && LabNames(Parties()) && PoliciesAgree(Parties())
    ensures Policies().NonEmptyStrings() && Policies().broker.Valid() && Policies().resource.Valid() && Policies().resource.challengeTtl == 300
    ensures Parties().t.cfg == Policies() && Parties().w == Window(0, 0) && Parties().holder == Worker0()
  {
    assert |"worker"| != |"stranger"|;
    assert |"broker"| != |"resource"|;
    assert |"broker-key"| != |"resource-key"|;
    assert Plain("worker").chars != Plain("stranger").chars;
    assert Plain("broker-key").chars != Plain("resource-key").chars;
  }

  // ---- Seven issuances ----

  function RequestOf(i: nat): IssueRequest {
    IssueRequest(Random(i), Worker0().key, Policies().broker.manifestDigest, TpmEvidence(Random(i), Random(i), Plain("chain")))
  }

  function SetupLabels(k: nat): seq<Label> {
    if k == 0 then [] else SetupLabels(k - 1) + IssueLabels(RequestOf(k - 1), k - 1, Calm)
  }

  /** The i-th call after it was answered. */
  ghost predicate AnsweredIssue(c: IssueCall, i: nat) {
    && c.request == RequestOf(i) && c.pc.IAnswered? && c.pc.receipt.decision == Allow && c.pc.receipt.decidedAt == 0
    && c.credential.Some? && c.credential.value.notBefore == Some(0) && c.credential.value.notAfter == Some(900)
    && LowerHex(c.credential.value.id)
  }

  ghost predicate Issued(s: State, k: nat) {
    && |s.issues| == k && s.redeems == [] && s.shared.count == 0
    && s.shared.tables.resource == map[] && s.shared.tables.redemptions == map[]
    && (forall i :: 0 <= i < k ==> AnsweredIssue(s.issues[i], i))
    && (forall h :: h in s.shared.tables.broker ==> exists i :: 0 <= i < k && h == TokenHash(Random(i)))
  }

  lemma IssuedMore(s: State, k: nat)
    requires Issued(s, k)
    ensures TokenHash(RequestOf(k).token) !in s.shared.tables.broker
    ensures Issued(IssuingState(Policies(), s, RequestOf(k), 0, 4), k + 1)
  {
    var h := TokenHash(Random(k));
    assert h !in s.shared.tables.broker;
    var t := IssuingState(Policies(), s, RequestOf(k), 0, 4);
    assert t.shared.tables.broker.Keys == s.shared.tables.broker.Keys + {h};
    forall g | g in t.shared.tables.broker
      ensures exists i :: 0 <= i < k + 1 && g == TokenHash(Random(i))
    {
      if g in s.shared.tables.broker {
        var i :| 0 <= i < k && g == TokenHash(Random(i));
        assert g == TokenHash(Random(i));
      } else {
        assert g == TokenHash(Random(k));
      }
    }
    hide RequestOf;
    assert AnsweredIssue(t.issues[k], k);
  }

  lemma {:induction false} IssuedRun(k: nat)
    ensures Issued(Exec(Policies(), Init, SetupLabels(k)), k)
  {
    hide Exec, Issued, IssueLabels, IssuingState, RequestOf, Policies;
    if k == 0 {
      NothingIssued();
    } else {
      IssuedRun(k - 1);
      var s := Exec(Policies(), Init, SetupLabels(k - 1));
      assert |s.issues| == k - 1 by { IssuedLength(s, k - 1); }
      IssuedMore(s, k - 1);
      PartiesOk();
      assert RequestOf(k - 1).manifestDigest == Policies().broker.manifestDigest by { RequestManifest(k - 1); }
      HonestIssue(Policies(), s, RequestOf(k - 1), Calm);
      ExecConcat(Policies(), Init, SetupLabels(k - 1), IssueLabels(RequestOf(k - 1), k - 1, Calm));
    }
  }

  lemma NothingIssued()
    ensures Issued(Exec(Policies(), Init, SetupLabels(0)), 0)
  {
    assert Exec(Policies(), Init, []) == Init;
  }

  lemma IssuedLength(s: State, k: nat)
    requires Issued(s, k)
    ensures |s.issues| == k
  {
  }

  lemma RequestManifest(k: nat)
    ensures RequestOf(k).manifestDigest == Policies().broker.manifestDigest
  {
  }

  // ---- Seven cases ----

  const Order: seq<Variant> :=
    [Valid, Replay, ArgumentSubstitution, RecordSubstitution, WrongHolder, Malformed, Concurrent]

  /** The i-th case, with n racers in the race. */
  function SpecOf(i: nat, n: nat): CaseSpec
    requires i < 7
  {
    CaseSpec(VariantName(Order[i]), Order[i], "widget-42", "record", if i == 6 then n else 1)
  }

  lemma SpecOk(i: nat, n: nat)
    requires i < 7 && 2 <= n <= 64
    ensures SpecOf(i, n).Ok() && SpecOf(i, n).concurrency == (if i == 6 then n else 1)
  {
  }

  function GrantAt(s: State, i: nat): Grant
    requires i < |s.issues| && s.issues[i].pc.IAnswered? && s.issues[i].credential.Some?
  {
    var c, x := s.issues[i], Parties();
    Grant(c.credential.value, Compact(x.t.brokerVerifier.keyId, x.t.brokerVerifier.key, c.pc.receipt),
          c.request.manifestDigest, x.t.cfg.broker.Digest(), TokenHash(c.request.token),
          Sha256("tpm-attest", [c.request.evidence.attest]), Sha256("tpm-signature", [c.request.evidence.signature]),
          Sha256("tpm-ak-chain", [c.request.evidence.akChain]),
          Sha256("issuance-request", [c.request.token, c.request.holderKey, c.request.manifestDigest]))
  }

  function TokenOf(i: nat, k: nat): Term {
    Sha256("resource-token", [Random(i), Random(k)])
  }

  lemma TokensDiffer(i: nat, k: nat, j: nat, l: nat)
    requires i != j || k != l
    ensures TokenOf(i, k) != TokenOf(j, l) && TokenHash(TokenOf(i, k)) != TokenHash(TokenOf(j, l))
  {
    assert TokenOf(i, k).parts[0] == Random(i) && TokenOf(j, l).parts[0] == Random(j);
    assert TokenOf(i, k).parts[1] == Random(k) && TokenOf(j, l).parts[1] == Random(l);
    assert TokenHash(TokenOf(i, k)).parts[0] == TokenOf(i, k) && TokenHash(TokenOf(j, l)).parts[0] == TokenOf(j, l);
  }

  function DrawsOf(i: nat, count: nat): seq<Draw> {
    seq(count, k requires 0 <= k < count => Draw(TokenOf(i, k), 0))
  }

  /** The i-th case as prepared and honestly answered. */
  ghost function CaseOf(s: State, i: nat, n: nat): Validated
    requires Issued(s, 7) && i < 7 && 2 <= n <= 64
  {
    SpecOk(i, n);
    var spec := SpecOf(i, n);
    assert AnsweredIssue(s.issues[i], i);
    var qs := RequestsFor(Parties().t, spec, GrantAt(s, i), DrawsOf(i, spec.concurrency));
    Validated(PreparedCase(spec.caseId, spec.variant, GrantAt(s, i), qs),
              seq(|qs|, k requires 0 <= k < |qs| => Generate(Worker0(), qs[k])))
  }

  lemma CaseFields(s: State, i: nat, n: nat)
    requires Issued(s, 7) && i < 7 && 2 <= n <= 64
    ensures SpecOf(i, n).Ok() && |s.issues| == 7 && s.issues[i].pc.IAnswered? && s.issues[i].credential.Some?
    ensures var v, spec := CaseOf(s, i, n), SpecOf(i, n);
            && |v.prepared.requests| == |v.responses| == spec.concurrency == |DrawsOf(i, spec.concurrency)|
            && v.prepared.requests == RequestsFor(Parties().t, spec, GrantAt(s, i), DrawsOf(i, spec.concurrency))
            && v.prepared.caseId == spec.caseId && v.prepared.variant == Order[i] == spec.variant
            && v.prepared.grant == GrantAt(s, i)
            && (forall k :: 0 <= k < |v.responses| ==>
                  v.responses[k] == Generate(Worker0(), v.prepared.requests[k]) && v.prepared.requests[k].challenge == TokenOf(i, k))
  {
    SpecOk(i, n);
    assert AnsweredIssue(s.issues[i], i);
    hide Parties, GrantAt, Generate, TokenOf, Issued;
  }

  // ---- Their challenges ----

  /** The state once the first j cases are prepared. */
  ghost function Staged(s: State, n: nat, j: nat): State
    requires Issued(s, 7) && j <= 7 && 2 <= n <= 64
  {
    if j == 0 then s
    else
      SpecOk(j - 1, n);
      assert AnsweredIssue(s.issues[j - 1], j - 1);
      Challenged(Parties().t, Staged(s, n, j - 1), SpecOf(j - 1, n), GrantAt(s, j - 1), DrawsOf(j - 1, SpecOf(j - 1, n).concurrency))
  }

  /** Every stored challenge was drawn for one of the first j cases. */
  ghost predicate DrawnFor(resource: map<Term, ResourceRow>, j: nat) {
    forall h :: h in resource ==> exists i: nat, k: nat :: i < j && h == TokenHash(TokenOf(i, k))
  }

  ghost predicate CaseStaged(s: State, u: State, n: nat, i: nat)
    requires Issued(s, 7) && i < 7 && 2 <= n <= 64
  {
    var qs := CaseOf(s, i, n).prepared.requests;
    forall k :: 0 <= k < |qs| ==> ChallengeWaits(Parties(), u.shared, qs[k])
  }

  lemma DrawsFit(s: State, u: State, j: nat, count: nat)
    requires Issued(s, 7) && j < 7 && DrawnFor(u.shared.tables.resource, j)
    ensures s.issues[j].pc.IAnswered? && s.issues[j].credential.Some? && DrawsOk(u, GrantAt(s, j), DrawsOf(j, count))
  {
    assert AnsweredIssue(s.issues[j], j);
    var draws := DrawsOf(j, count);
    hide TokenOf, TokenHash, LowerHex, Parties;
    forall k | 0 <= k < |draws|
      ensures TokenHash(draws[k].token) !in u.shared.tables.resource
    {
      if TokenHash(draws[k].token) in u.shared.tables.resource {
        var i: nat, l: nat :| i < j && TokenHash(draws[k].token) == TokenHash(TokenOf(i, l));
        TokensDiffer(j, k, i, l);
      }
    }
    forall i, k | 0 <= i < k < |draws|
      ensures draws[i].token != draws[k].token
    {
      TokensDiffer(j, i, j, k);
    }
  }

  lemma DrawnMore(t: Trust, spec: CaseSpec, g: Grant, j: nat, a: map<Term, ResourceRow>, b: map<Term, ResourceRow>)
    requires spec.Ok() && DrawnFor(a, j) && Adds(t, spec, g, DrawsOf(j, spec.concurrency), a, b)
    ensures DrawnFor(b, j + 1)
  {
    hide TokenHash, TokenOf, RowFor;
    var draws := DrawsOf(j, spec.concurrency);
    forall h | h in b
      ensures exists i: nat, k: nat :: i < j + 1 && h == TokenHash(TokenOf(i, k))
    {
      if h in a {
        var i: nat, k: nat :| i < j && h == TokenHash(TokenOf(i, k));
        assert i < j + 1 && h == TokenHash(TokenOf(i, k));
      } else {
        assert Drawn(draws, h);
        var k :| 0 <= k < |draws| && h == TokenHash(draws[k].token);
        assert j < j + 1 && h == TokenHash(TokenOf(j, k));
      }
    }
  }

  lemma WaitsOn(x: Setting, sh: Shared, sk: Shared, q: WorkerRequest)
    requires ChallengeWaits(x, sh, q)
    requires TokenHash(q.challenge) in sk.tables.resource
             && sk.tables.resource[TokenHash(q.challenge)] == sh.tables.resource[TokenHash(q.challenge)]
    ensures ChallengeWaits(x, sk, q)
  {
  }

  lemma RowsStay(t: Trust, spec: CaseSpec, g: Grant, draws: seq<Draw>, a: map<Term, ResourceRow>, b: map<Term, ResourceRow>, h: Term)
    requires spec.Ok() && |draws| <= spec.concurrency && Adds(t, spec, g, draws, a, b) && h in a
    ensures h in b && b[h] == a[h]
  {
  }

  lemma WaitsKey(x: Setting, sh: Shared, q: WorkerRequest)
    requires ChallengeWaits(x, sh, q)
    ensures TokenHash(q.challenge) in sh.tables.resource
  {
  }

  lemma StagedStill(s: State, u: State, v: State, n: nat, i: nat, spec: CaseSpec, g: Grant, draws: seq<Draw>)
    requires Issued(s, 7) && i < 7 && 2 <= n <= 64 && CaseStaged(s, u, n, i)
    requires spec.Ok() && |draws| <= spec.concurrency
    requires Adds(Parties().t, spec, g, draws, u.shared.tables.resource, v.shared.tables.resource)
    ensures CaseStaged(s, v, n, i)
  {
    hide Issued, CaseOf, Parties, ChallengeWaits, Adds, TokenHash;
    var qs := CaseOf(s, i, n).prepared.requests;
    forall k | 0 <= k < |qs|
      ensures ChallengeWaits(Parties(), v.shared, qs[k])
    {
      WaitsKey(Parties(), u.shared, qs[k]);
      RowsStay(Parties().t, spec, g, draws, u.shared.tables.resource, v.shared.tables.resource, TokenHash(qs[k].challenge));
      WaitsOn(Parties(), u.shared, v.shared, qs[k]);
    }
  }

  lemma NextStaged(s: State, u: State, n: nat, j: nat)
    requires Issued(s, 7) && j < 7 && 2 <= n <= 64 && DrawnFor(u.shared.tables.resource, j)
    ensures SpecOf(j, n).Ok() && s.issues[j].pc.IAnswered? && s.issues[j].credential.Some?
    ensures var spec, draws := SpecOf(j, n), DrawsOf(j, SpecOf(j, n).concurrency);
            var v := Challenged(Parties().t, u, spec, GrantAt(s, j), draws);
            && OnlyResource(u, v) && CaseStaged(s, v, n, j) && DrawnFor(v.shared.tables.resource, j + 1)
            && Adds(Parties().t, spec, GrantAt(s, j), draws, u.shared.tables.resource, v.shared.tables.resource)
  {
    hide Issued, DrawnFor, CaseOf, GrantAt, Challenged, OnlyResource, Adds, Parties, DrawsOk, ChallengeWaits, SpecOf, Policies,
      PreparedRequest, Apart, RequestsFor;
    CaseFields(s, j, n);
    var spec := SpecOf(j, n);
    var g, draws := GrantAt(s, j), DrawsOf(j, spec.concurrency);
    DrawsFit(s, u, j, spec.concurrency);
    PartiesOk();
    ChallengedRows(Parties().t, u, spec, g, draws);
    PreparedCaseWaits(Parties(), u, spec, g, draws);
    var v := Challenged(Parties().t, u, spec, g, draws);
    DrawnMore(Parties().t, spec, g, j, u.shared.tables.resource, v.shared.tables.resource);
  }

  lemma {:induction false} StagedOk(s: State, n: nat, j: nat)
    requires Issued(s, 7) && j <= 7 && 2 <= n <= 64
    ensures var u := Staged(s, n, j);
            && OnlyResource(s, u) && DrawnFor(u.shared.tables.resource, j)
            && (forall i :: 0 <= i < j ==> CaseStaged(s, u, n, i))
  {
    hide Issued, CaseStaged, DrawnFor, Challenged, Parties, GrantAt, Adds, SpecOf, OnlyResource;
    if j == 0 {
      StagedNone(s, n);
    } else {
      StagedOk(s, n, j - 1);
      var u := Staged(s, n, j - 1);
      NextStaged(s, u, n, j - 1);
      var v := Staged(s, n, j);
      ResourceTwice(s, u, v);
      CaseFields(s, j - 1, n);
      forall i | 0 <= i < j - 1
        ensures CaseStaged(s, v, n, i)
      {
        StagedStill(s, u, v, n, i, SpecOf(j - 1, n), GrantAt(s, j - 1), DrawsOf(j - 1, SpecOf(j - 1, n).concurrency));
      }
    }
  }

  lemma StagedNone(s: State, n: nat)
    requires Issued(s, 7) && 2 <= n <= 64
    ensures Staged(s, n, 0) == s && OnlyResource(s, s) && DrawnFor(s.shared.tables.resource, 0)
  {
  }

  lemma ResourceTwice(s: State, u: State, v: State)
    requires OnlyResource(s, u) && OnlyResource(u, v)
    ensures OnlyResource(s, v)
  {
  }

  lemma {:induction false} ChallengedExec(t: Trust, s: State, spec: CaseSpec, g: Grant, draws: seq<Draw>) returns (ls: seq<Label>)
    requires spec.Ok() && |draws| <= spec.concurrency
    ensures Exec(t.cfg, s, ls) == Challenged(t, s, spec, g, draws)
    decreases |draws|
  {
    hide Next, RequestFor, ChallengeLabel;
    ls := [];
    if draws != [] {
      var m := |draws| - 1;
      var before := ChallengedExec(t, s, spec, g, draws[..m]);
      var l := ChallengeLabel(RequestFor(t, spec, g, draws[m], m), draws[m].now);
      ls := before + [l];
      assert ls[..|ls| - 1] == before;
    }
  }

  lemma {:induction false} StagedExec(s: State, n: nat, j: nat) returns (ls: seq<Label>)
    requires Issued(s, 7) && j <= 7 && 2 <= n <= 64
    ensures Exec(Policies(), s, ls) == Staged(s, n, j)
  {
    hide Issued, Challenged, GrantAt, SpecOf, Policies, Next;
    if j == 0 {
      ls := [];
    } else {
      var before := StagedExec(s, n, j - 1);
      CaseFields(s, j - 1, n);
      var u := Staged(s, n, j - 1);
      PartiesOk();
      var more := ChallengedExec(Parties().t, u, SpecOf(j - 1, n), GrantAt(s, j - 1), DrawsOf(j - 1, SpecOf(j - 1, n).concurrency));
      ls := before + more;
      ExecConcat(Policies(), s, before, more);
    }
  }

  // ---- Their schedules ----

  /** Eight steps for each of n calls, one call after the other. */
  function Rounds(base: nat, n: nat): seq<Label> {
    if n == 0 then [] else Rounds(base, n - 1) + seq(8, _ => StepRedeem(base + n - 1, Calm))
  }

  lemma {:induction false} RoundsLabels(base: nat, n: nat)
    ensures forall k :: 0 <= k < |Rounds(base, n)| ==>
              var l := Rounds(base, n)[k]; l.StepRedeem? && base <= l.call < base + n && l.env == Calm
  {
    if n > 0 {
      RoundsLabels(base, n - 1);
    }
  }

  lemma {:induction false} StepsConcat(a: seq<Label>, b: seq<Label>, i: nat)
    ensures Steps(a + b, i) == Steps(a, i) + Steps(b, i)
    decreases |b|
  {
    if b == [] {
      assert a + b == a;
    } else {
      assert (a + b)[..|a + b| - 1] == a + b[..|b| - 1];
      StepsConcat(a, b[..|b| - 1], i);
    }
  }

  lemma {:induction false} EightSteps(m: nat, c: nat)
    ensures Steps(seq(m, _ => StepRedeem(c, Calm)), c) == m
  {
    if m > 0 {
      EightSteps(m - 1, c);
      assert seq(m, _ => StepRedeem(c, Calm))[..m - 1] == seq(m - 1, _ => StepRedeem(c, Calm));
    }
  }

  lemma {:induction false} RoundsSteps(base: nat, n: nat, i: nat)
    requires base <= i < base + n
    ensures Steps(Rounds(base, n), i) >= 8
  {
    hide Steps;
    var turn := seq(8, _ => StepRedeem(base + n - 1, Calm));
    StepsConcat(Rounds(base, n - 1), turn, i);
    if i == base + n - 1 {
      EightSteps(8, i);
    } else {
      RoundsSteps(base, n - 1, i);
    }
  }

  ghost function ScheduleOf(v: Validated, base: nat): Schedule {
    Schedule(Rounds(base, |v.prepared.requests|), Rounds(base + 1, 1))
  }

  lemma RoundsHonest(base: nat, n: nat)
    ensures HonestSchedule(Rounds(base, n), base, n, Window(0, 0)) && AllGiven(Rounds(base, n), base, n)
  {
    hide Rounds, Steps;
    RoundsLabels(base, n);
    forall i | InRace(i, base, n)
      ensures Steps(Rounds(base, n), i) >= 8
    {
      RoundsSteps(base, n, i);
    }
  }

  lemma ScheduleHonest(v: Validated, base: nat)
    ensures HonestSteps(Window(0, 0), v, ScheduleOf(v, base), base)
  {
    hide Rounds, Steps, HonestSchedule, AllGiven;
    RoundsHonest(base, |v.prepared.requests|);
    RoundsHonest(base + 1, 1);
    RoundsLabels(base, |v.prepared.requests|);
    RoundsLabels(base + 1, 1);
    assert Steps(Rounds(base + 1, 1), base + 1) >= 8 by { RoundsSteps(base + 1, 1, base + 1); }
    var all := Rounds(base, |v.prepared.requests|) + Rounds(base + 1, 1);
    assert forall k :: 0 <= k < |all| ==> all[k].StepRedeem? && all[k].env == Calm;
  }

  // ---- The setup ----

  ghost function Cases(s: State, n: nat): seq<Validated>
    requires Issued(s, 7) && 2 <= n <= 64
  {
    seq(7, i requires 0 <= i < 7 => CaseOf(s, i, n))
  }

  ghost function Schedules(s0: State, vs: seq<Validated>): seq<Schedule> {
    seq(|vs|, i requires 0 <= i < |vs| => ScheduleOf(vs[i], |s0.redeems| + Offset(vs, i)))
  }

  lemma GrantIssued(s: State, u: State, i: nat)
    requires Issued(s, 7) && i < 7 && OnlyResource(s, u)
    ensures s.issues[i].pc.IAnswered? && s.issues[i].credential.Some? && GrantOf(Parties(), u, GrantAt(s, i), i)
    ensures var g := GrantAt(s, i);
            Claims(g.receipt).decidedAt == 0 && Lasts(g.credential, Window(0, 0))
            && g.akChain == Sha256("tpm-ak-chain", [Plain("chain")])
            && g.attest == Sha256("tpm-attest", [Random(i)]) && g.signature == Sha256("tpm-signature", [Random(i)])
  {
    assert AnsweredIssue(s.issues[i], i);
    hide Policies;
    PartiesOk();
  }

  lemma CasePrepared(s: State, u: State, n: nat, i: nat, base: nat)
    requires Issued(s, 7) && i < 7 && 2 <= n <= 64 && OnlyResource(s, u) && CaseStaged(s, u, n, i)
    ensures Prepared(Parties(), u, CaseOf(s, i, n), i, ScheduleOf(CaseOf(s, i, n), base), base)
  {
    hide GrantAt, ChallengeWaits, Parties, Policies, HonestSteps, GrantOf, ScheduleOf, Generate, Lasts, RequestsFor, SpecOf;
    CaseFields(s, i, n);
    GrantIssued(s, u, i);
    PartiesOk();
    var v, spec := CaseOf(s, i, n), SpecOf(i, n);
    ScheduleHonest(v, base);
    CaseRequests(s, n, i);
    assert CredOf(v).id !in u.shared.tables.redemptions by { assert s.shared.tables.redemptions == map[]; }
    SpecShape(i, n);
  }

  lemma SpecShape(i: nat, n: nat)
    requires i < 7 && 2 <= n <= 64
    ensures var spec := SpecOf(i, n);
            && 1 <= spec.concurrency <= 64 && (spec.variant != Concurrent ==> spec.concurrency == 1)
            && (spec.variant == Concurrent ==> spec.concurrency >= 2)
  {
    SpecOk(i, n);
  }

  /** The requests of a case, seen from the case alone. */
  lemma CaseRequests(s: State, n: nat, i: nat)
    requires Issued(s, 7) && i < 7 && 2 <= n <= 64
    ensures var v := CaseOf(s, i, n);
            && |v.responses| == |v.prepared.requests|
            && (forall k :: 0 <= k < |v.responses| ==> RequestOk(Parties(), v, v.prepared.requests[k], v.responses[k]))
            && (forall k, l :: 0 <= k < l < |v.prepared.requests| ==> Apart(v.prepared.requests[k], v.prepared.requests[l]))
  {
    hide Issued, GrantAt, Parties, Policies, Generate, SpecOf, NameAt, CaseOf;
    CaseFields(s, i, n);
    PartiesOk();
    var v, spec := CaseOf(s, i, n), SpecOf(i, n);
    var qs := v.prepared.requests;
    forall k | 0 <= k < |qs|
      ensures RequestOk(Parties(), v, qs[k], v.responses[k])
    {
      NamesThere(spec, k);
    }
    forall k, l | 0 <= k < l < |qs|
      ensures Apart(qs[k], qs[l])
    {
      NamesDiffer(spec.caseId, spec.concurrency, k, l);
      NamesDiffer(spec.recordId, spec.concurrency, k, l);
      TokensDiffer(i, k, i, l);
    }
  }

  lemma NamesThere(spec: CaseSpec, k: nat)
    requires spec.Ok() && k < spec.concurrency
    ensures NameAt(spec.recordId, spec.concurrency, k) != "" && spec.sku != ""
  {
  }

  lemma VariantNamesDiffer(i: nat, j: nat)
    requires i < j < 7
    ensures Order[i] != Order[j] && VariantName(Order[i]) != VariantName(Order[j])
  {
    var a, b := VariantName(Order[i]), VariantName(Order[j]);
    assert |VariantName(Valid)| == 5 && |VariantName(Replay)| == 6 && |VariantName(ArgumentSubstitution)| == 21;
    assert |VariantName(RecordSubstitution)| == 19 && |VariantName(WrongHolder)| == 12;
    assert |VariantName(Malformed)| == 9 && |VariantName(Concurrent)| == 10;
    assert |a| != |b|;
  }

  lemma CasesDiffer(s: State, n: nat, i: nat, j: nat, realTpm: bool)
    requires Issued(s, 7) && i < j < 7 && 2 <= n <= 64
    ensures PreparedApart(realTpm, CaseOf(s, i, n), CaseOf(s, j, n))
  {
    hide Issued, GrantAt, Parties, Policies, Generate, CaseOf, GrantOf, Lasts, Claims;
    CaseFields(s, i, n);
    CaseFields(s, j, n);
    GrantIssued(s, s, i);
    GrantIssued(s, s, j);
    VariantNamesDiffer(i, j);
    var a, b := CaseOf(s, i, n), CaseOf(s, j, n);
    forall k, l | 0 <= k < |a.prepared.requests| && 0 <= l < |b.prepared.requests|
      ensures a.prepared.requests[k].challenge != b.prepared.requests[l].challenge
    {
      TokensDiffer(i, k, j, l);
    }
    DigestsDiffer("tpm-attest", i, j);
    DigestsDiffer("tpm-signature", i, j);
  }

  lemma DigestsDiffer(tag: string, i: nat, j: nat)
    requires i != j
    ensures Sha256(tag, [Random(i)]) != Sha256(tag, [Random(j)])
  {
    assert Sha256(tag, [Random(i)]).parts[0] == Random(i) && Sha256(tag, [Random(j)]).parts[0] == Random(j);
  }

  lemma CasesMatrix(s: State, n: nat)
    requires Issued(s, 7) && 2 <= n <= 64
    ensures Matrix(Cases(s, n))
  {
    hide Issued, CaseOf, VariantName;
    var vs := Cases(s, n);
    forall i | 0 <= i < 7
      ensures PlannedVariant(vs[i]) == Order[i]
    {
      CaseFields(s, i, n);
    }
    AllPlanned(vs);
  }

  lemma AllPlanned(vs: seq<Validated>)
    requires |vs| == 7 && forall i :: 0 <= i < 7 ==> PlannedVariant(vs[i]) == Order[i]
    ensures Matrix(vs)
  {
    hide Image;
    PlannedImage(vs);
    forall i, j | 0 <= i < |vs| && 0 <= j < |vs|
      ensures vs[i].prepared.variant == Valid && vs[j].prepared.variant == Replay ==> i < j
      ensures vs[i].prepared.variant == Replay && vs[j].prepared.variant == Concurrent ==> i < j
    {
      assert PlannedVariant(vs[i]) == Order[i] && PlannedVariant(vs[j]) == Order[j];
    }
  }

  function PlaceOf(v: Variant): (i: nat)
    ensures i < 7 && Order[i] == v
  {
    match v
    case Valid => 0
    case Replay => 1
    case ArgumentSubstitution => 2
    case RecordSubstitution => 3
    case WrongHolder => 4
    case Malformed => 5
    case Concurrent => 6
  }

  lemma PlannedImage(vs: seq<Validated>)
    requires |vs| == 7 && forall i :: 0 <= i < 7 ==> PlannedVariant(vs[i]) == Order[i]
    ensures Image(PlannedVariant, vs) == AllVariants
  {
    hide Image, PlannedVariant;
    forall v
      ensures v in Image(PlannedVariant, vs) && v in AllVariants
    {
      InImage(PlannedVariant, vs, PlaceOf(v));
      assert Order[PlaceOf(v)] == v;
    }
  }

  /** For every race size there is a run from the empty store that sets up an honest experiment,
      on either kind of TPM. */
  lemma HonestSetupExists(n: nat, realTpm: bool)
    returns (labels: seq<Label>, vs: seq<Validated>, calls: seq<nat>, scheds: seq<Schedule>)
    requires 2 <= n <= 64
    ensures HonestSetup(Parties(), Exec(Policies(), Init, labels), vs, calls, scheds, realTpm)
    ensures |vs| == 7 && vs[6].prepared.variant == Concurrent && |vs[6].prepared.requests| == n
  {
    hide Exec, Issued, CaseOf, Staged, CaseStaged, OnlyResource, DrawnFor, Matrix, Prepared, PreparedApart, Parties, Policies, Offset,
      LabNames, PoliciesAgree, ScheduleOf, SpecOf;
    IssuedRun(7);
    var s := Exec(Policies(), Init, SetupLabels(7));
    var more := StagedExec(s, n, 7);
    labels := SetupLabels(7) + more;
    ExecConcat(Policies(), Init, SetupLabels(7), more);
    StagedOk(s, n, 7);
    var u := Staged(s, n, 7);
    vs := Cases(s, n);
    calls := seq(7, i => i);
    scheds := Schedules(u, vs);
    PartiesOk();
    CasesMatrix(s, n);
    assert u.shared.count == 0 by { CountZero(s, u); }
    forall i | 0 <= i < |vs|
      ensures Prepared(Parties(), u, vs[i], calls[i], scheds[i], |u.redeems| + Offset(vs, i))
    {
      CasePrepared(s, u, n, i, |u.redeems| + Offset(vs, i));
    }
    forall i, j | 0 <= i < j < |vs|
      ensures calls[i] != calls[j] && PreparedApart(realTpm, vs[i], vs[j])
    {
      CasesDiffer(s, n, i, j, realTpm);
    }
    CaseFields(s, 6, n);
    SpecOk(6, n);
  }

  lemma CountZero(s: State, u: State)
    requires Issued(s, 7) && OnlyResource(s, u)
    ensures u.shared.count == 0
  {
  }

  /** So for every race size and either kind of TPM there is a run from the empty store and a record
      of it with that race, whose receipts are the run's answers and which both validators accept. */
  lemma AcceptedRecordExists(n: nat, realTpm: bool) returns (labels: seq<Label>, r: Record)
    requires 2 <= n <= 64
    ensures RecordSemantics(r) && EmbeddedOk(r) && r.realTpm == realTpm && RaceSize(r.cases, n)
    ensures TakenFrom(Exec(Policies(), Init, labels), r)
  {
    hide Exec, HonestSetup, RecordSemantics, EmbeddedOk, Redeemed, Shaped, CaseInputsOk, Policies, Recorded, TakenFrom, RaceSize;
    var start, vs, calls, scheds := HonestSetupExists(n, realTpm);
    PartiesOk();
    var s0 := Exec(Policies(), Init, start);
    HonestExperimentAccepted(Parties(), start, vs, calls, scheds, realTpm, 0);
    var (s, cases) := Redeemed(Parties().t, s0, vs, scheds, |vs|);
    r := RecordOf(Parties(), 0, realTpm, cases.value);
    var more := RedeemedExec(Parties().t, s0, vs, scheds, |vs|);
    labels := start + more;
    ExecConcat(Policies(), Init, start, more);
    SetupMatrix(s0, vs, calls, scheds, realTpm);
    RecordedRace(vs, cases.value, n);
  }

  lemma SetupMatrix(s0: State, vs: seq<Validated>, calls: seq<nat>, scheds: seq<Schedule>, realTpm: bool)
    requires HonestSetup(Parties(), s0, vs, calls, scheds, realTpm)
    ensures Matrix(vs)
  {
    hide Matrix, Prepared, PreparedApart, LabNames, PoliciesAgree, Parties;
  }

  /** The one race of the record has n attempts. */
  lemma RecordedRace(vs: seq<Validated>, cases: seq<CaseObservation>, n: nat)
    requires Recorded(vs, cases) && Matrix(vs) && |vs| == 7
    requires vs[6].prepared.variant == Concurrent && |vs[6].prepared.requests| == n
    ensures RaceSize(cases, n)
  {
    hide Matrix;
    forall k | 0 <= k < |cases| && cases[k].variant == Concurrent
      ensures |cases[k].attempts| == n
    {
      if k < 6 { MatrixDistinct(vs, k, 6); }
    }
  }

  /** Redeeming cases is a run of the system. */
  lemma RunCaseExec(t: Trust, s: State, v: Validated, sched: Schedule) returns (ls: seq<Label>)
    requires Shaped(v)
    ensures Exec(t.cfg, s, ls) == RunCase(t, s, v, sched)
  {
    hide Exec, ObserveCall;
    ls := Begins(Lookups(v)) + sched.first;
    var u := Exec(t.cfg, s, ls);
    if RunCase(t, s, v, sched) != u {
      var again := [BeginRedeem(Lookups(v)[0])] + sched.second;
      ExecConcat(t.cfg, s, ls, again);
      ls := ls + again;
    }
  }

  lemma {:induction false} RedeemedExec(t: Trust, s: State, vs: seq<Validated>, scheds: seq<Schedule>, k: nat) returns (ls: seq<Label>)
    requires k <= |vs| == |scheds| && forall i :: 0 <= i < |vs| ==> Shaped(vs[i])
    ensures Exec(t.cfg, s, ls) == Redeemed(t, s, vs, scheds, k).0
  {
    hide Next, RunCase, ObserveCase, Shaped;
    ls := [];
    if k > 0 {
      var before := RedeemedExec(t, s, vs, scheds, k - 1);
      ls := before;
      var (u, cases) := Redeemed(t, s, vs, scheds, k - 1);
      if cases.Some? {
        var more := RunCaseExec(t, u, vs[k - 1], scheds[k - 1]);
        ExecConcat(t.cfg, s, before, more);
        ls := before + more;
      }
    }
  }
}
