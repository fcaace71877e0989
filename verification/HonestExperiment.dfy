/** The whole honest experiment, from an empty store: seven issuances, seven cases, any race
    schedule, one accepted record. */
module HonestExperiment {
  import opened Symbols
  import opened Receipt
  import opened Protocol
  import opened ProtocolInvariant
  import opened ProtocolSafety
  import Race
  import opened Worker
  import opened Controller
  import opened Lab
  import opened HonestCase
  import opened HonestFold
  import opened HonestRun
  import opened HonestRecord
  import opened HonestGrants

  /** One case prepared from the i-th issuance in the state s0, with an honest schedule. */
  ghost predicate Prepared(x: Setting, s0: State, v: Validated, i: nat, sched: Schedule, base: nat) {
    && Shaped(v) && GrantOf(x, s0, v.prepared.grant, i)
    && (v.prepared.variant == Concurrent ==> |v.prepared.requests| >= 2)
    && (forall k :: 0 <= k < |v.responses| ==> RequestOk(x, v, v.prepared.requests[k], v.responses[k]))
    && (forall k, l :: 0 <= k < l < |v.prepared.requests| ==> Apart(v.prepared.requests[k], v.prepared.requests[l]))
    && GrantClaims(v).decidedAt <= x.w.lo && Lasts(CredOf(v), x.w)
    && CredOf(v).id !in s0.shared.tables.redemptions
    && (forall k :: 0 <= k < |v.prepared.requests| ==> ChallengeWaits(x, s0.shared, v.prepared.requests[k]))
    && HonestSteps(x.w, v, sched, base)
  }

  predicate Lasts(cred: Credential, w: Race.Window) {
    (cred.notBefore.Some? ==> cred.notBefore.value <= w.lo) && (cred.notAfter.Some? ==> w.hi <= cred.notAfter.value)
  }

  /** Two cases are told apart by name and by challenge; on real hardware one key chain quotes
      each issuance afresh. */
  predicate PreparedApart(realTpm: bool, a: Validated, b: Validated) {
    && a.prepared.caseId != b.prepared.caseId
    && (forall k, l :: 0 <= k < |a.prepared.requests| && 0 <= l < |b.prepared.requests| ==>
          a.prepared.requests[k].challenge != b.prepared.requests[l].challenge)
    && (realTpm ==>
          && a.prepared.grant.akChain == b.prepared.grant.akChain
          && a.prepared.grant.attest != b.prepared.grant.attest && a.prepared.grant.signature != b.prepared.grant.signature)
  }

  ghost predicate HonestSetup(x: Setting, s0: State, vs: seq<Validated>, calls: seq<nat>, scheds: seq<Schedule>, realTpm: bool) {
    && x.Ok() && LabNames(x) && PoliciesAgree(x) && Matrix(vs)
    && |vs| == |scheds| == |calls| && s0.shared.count == 0
    && (forall i :: 0 <= i < |vs| ==> Prepared(x, s0, vs[i], calls[i], scheds[i], |s0.redeems| + Offset(vs, i)))
    && (forall i, j :: 0 <= i < j < |vs| ==> calls[i] != calls[j] && PreparedApart(realTpm, vs[i], vs[j]))
  }

  lemma PreparedStarts(x: Setting, labels: seq<Label>, v: Validated, i: nat, sched: Schedule, base: nat)
    requires x.Ok() && PoliciesAgree(x) && Prepared(x, Exec(x.t.cfg, Init, labels), v, i, sched, base)
    ensures CaseStart(x, Exec(x.t.cfg, Init, labels), v, sched, base) && GrantShown(x, v)
  {
    hide Exec, GrantOf, GrantOk, Apart, RequestOk, HonestSteps, ChallengeWaits;
    var s := Exec(x.t.cfg, Init, labels);
    GrantFromIssuance(x, labels, v.prepared.grant, i);
    LastsWhile(x, CredOf(v));
    assert Genuine(x, v) && Waiting(x, s.shared, v);
  }

  lemma LastsWhile(x: Setting, cred: Credential)
    requires BoundsAccepted(x.t.cfg, cred) && Lasts(cred, x.w)
    ensures cred.notBefore.value <= x.w.lo && x.w.hi <= cred.notAfter.value
  {
  }

  lemma PreparedDiffer(x: Setting, labels: seq<Label>, realTpm: bool, a: Validated, i: nat, b: Validated, j: nat)
    requires x.Ok() && PoliciesAgree(x) && i != j && PreparedApart(realTpm, a, b)
    requires GrantOf(x, Exec(x.t.cfg, Init, labels), a.prepared.grant, i) && GrantOf(x, Exec(x.t.cfg, Init, labels), b.prepared.grant, j)
    ensures Unrelated(a, b) && SameOrigin(realTpm, a.prepared.grant, b.prepared.grant)
  {
    hide Exec, GrantOf;
    GrantsUnrelated(x, labels, a.prepared.grant, i, b.prepared.grant, j);
  }

  lemma SetupAt(x: Setting, s0: State, vs: seq<Validated>, calls: seq<nat>, scheds: seq<Schedule>, realTpm: bool, i: nat)
    requires HonestSetup(x, s0, vs, calls, scheds, realTpm) && i < |vs|
    ensures |vs| == |scheds| == |calls| && x.Ok() && PoliciesAgree(x)
    ensures Shaped(vs[i]) && GrantOf(x, s0, vs[i].prepared.grant, calls[i])
    ensures Prepared(x, s0, vs[i], calls[i], scheds[i], |s0.redeems| + Offset(vs, i))
    ensures forall k :: 0 <= k < i ==> calls[k] != calls[i] && PreparedApart(realTpm, vs[k], vs[i])
  {
    hide Matrix, LabNames, RequestOk, Apart, ChallengeWaits, HonestSteps, GrantOf, PreparedApart, Offset;
    assert Prepared(x, s0, vs[i], calls[i], scheds[i], |s0.redeems| + Offset(vs, i));
  }

  lemma SetupStarts(x: Setting, labels: seq<Label>, vs: seq<Validated>, calls: seq<nat>, scheds: seq<Schedule>, realTpm: bool)
    requires HonestSetup(x, Exec(x.t.cfg, Init, labels), vs, calls, scheds, realTpm)
    ensures HonestStart(x, Exec(x.t.cfg, Init, labels), vs, scheds) && Granted(x, realTpm, vs)
    ensures Matrix(vs) && LabNames(x) && |vs| == |scheds| && forall i :: 0 <= i < |vs| ==> Shaped(vs[i])
  {
    hide Exec, Inv, Prepared, PreparedApart, GrantOf, CaseStart, GrantShown, Unrelated, SameOrigin, Shaped, Offset, Matrix, LabNames, PoliciesAgree;
    var s := Exec(x.t.cfg, Init, labels);
    RunInv(x.t.cfg, labels);
    forall i | 0 <= i < |vs|
      ensures Shaped(vs[i]) && CaseStart(x, s, vs[i], scheds[i], |s.redeems| + Offset(vs, i)) && GrantShown(x, vs[i])
    {
      SetupAt(x, s, vs, calls, scheds, realTpm, i);
      PreparedStarts(x, labels, vs[i], calls[i], scheds[i], |s.redeems| + Offset(vs, i));
    }
    forall i, j | 0 <= i < j < |vs|
      ensures Unrelated(vs[i], vs[j]) && SameOrigin(realTpm, vs[i].prepared.grant, vs[j].prepared.grant)
    {
      SetupAt(x, s, vs, calls, scheds, realTpm, i);
      SetupAt(x, s, vs, calls, scheds, realTpm, j);
      PreparedDiffer(x, labels, realTpm, vs[i], calls[i], vs[j], calls[j]);
    }
  }

  /** Every case passes the controller's validation. */
  lemma HonestInputsValid(x: Setting, labels: seq<Label>, vs: seq<Validated>, calls: seq<nat>, scheds: seq<Schedule>, realTpm: bool, i: nat)
    requires HonestSetup(x, Exec(x.t.cfg, Init, labels), vs, calls, scheds, realTpm) && i < |vs|
    ensures CaseInputsOk(x.t, _ => (true, true), vs[i].prepared, vs[i].responses)
  {
    hide Exec, HonestSetup, CaseInputsOk, Prepared, GrantOf, GrantOk, BoundsAccepted, ShownBy, PreparedApart, Shaped, Offset, PoliciesAgree;
    SetupAt(x, Exec(x.t.cfg, Init, labels), vs, calls, scheds, realTpm, i);
    GrantFromIssuance(x, labels, vs[i].prepared.grant, calls[i]);
    PreparedInputs(x, Exec(x.t.cfg, Init, labels), vs[i], calls[i], scheds[i], |Exec(x.t.cfg, Init, labels).redeems| + Offset(vs, i));
  }

  lemma PreparedInputs(x: Setting, s0: State, v: Validated, i: nat, sched: Schedule, base: nat)
    requires x.Ok() && Prepared(x, s0, v, i, sched, base) && GrantOk(x.t, v.prepared.grant)
    ensures CaseInputsOk(x.t, _ => (true, true), v.prepared, v.responses)
  {
    hide HonestSteps, ChallengeWaits, GrantOf, Preappraised, ResponseBound, ValidPayload;
    var qs, ps := v.prepared.requests, v.responses;
    assert CredOf(v).subject == x.holder.key;
    hide GrantOk;
    forall k | 0 <= k < |ps|
      ensures ps[k].body.runId == qs[k].runId && ResponseOk(x.t, _ => (true, true), qs[k], ps[k])
    {
      assert RequestOk(x, v, qs[k], ps[k]);
      GeneratePasses(x.holder, qs[k]);
    }
    forall k, l | 0 <= k < l < |ps|
      ensures ps[k].body.runId != ps[l].body.runId
    {
      assert Apart(qs[k], qs[l]);
    }
    forall k | 0 <= k < |qs|
      ensures Answers(ps, qs[k].runId) && Requested(qs, ps[k].body.runId)
    {
      assert ps[k].body.runId == qs[k].runId;
    }
  }

  /** Every case would pass the controller's validation. */
  ghost predicate AllInputsOk(t: Trust, vs: seq<Validated>) {
    forall i :: 0 <= i < |vs| ==> CaseInputsOk(t, _ => (true, true), vs[i].prepared, vs[i].responses)
  }

  /** From any run of the system that ends with a fresh counter and seven cases prepared from
      seven issuances: the controller validates every case, redeems every case without a failed
      check, and signs a record that its own validator and the receipt verifier both accept. */
  lemma HonestExperimentAccepted(
    x: Setting, labels: seq<Label>, vs: seq<Validated>, calls: seq<nat>, scheds: seq<Schedule>, realTpm: bool, observedAt: int)
    requires HonestSetup(x, Exec(x.t.cfg, Init, labels), vs, calls, scheds, realTpm) && x.w.hi <= observedAt
    ensures AllInputsOk(x.t, vs)
    ensures RunAccepted(x, Exec(x.t.cfg, Init, labels), vs, scheds, realTpm, observedAt)
  {
    hide Exec, HonestSetup, HonestStart, Granted, Matrix, LabNames, RunAccepted, Shaped, CaseInputsOk;
    SetupStarts(x, labels, vs, calls, scheds, realTpm);
    forall i | 0 <= i < |vs|
      ensures CaseInputsOk(x.t, _ => (true, true), vs[i].prepared, vs[i].responses)
    {
      HonestInputsValid(x, labels, vs, calls, scheds, realTpm, i);
    }
    HonestRecordAccepted(x, Exec(x.t.cfg, Init, labels), vs, scheds, realTpm, observedAt);
  }
}
