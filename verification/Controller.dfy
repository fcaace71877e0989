/** The trusted controller: validate every case of a bundle, then redeem every case. */
module Controller {
  import opened Symbols
  import opened Receipt
  import opened Protocol
  import opened Worker
  import opened Wire
  import opened RecordVerifier

  /** What a prepared case carries from issuance: the credential and what its receipt must say. */
  datatype Grant = Grant(
    credential: Credential, receipt: Jws, manifestDigest: Term, brokerPolicy: Term, challengeHash: Term,
    attest: Term, signature: Term, akChain: Term, issuanceRequest: Term)

  datatype PreparedCase = PreparedCase(caseId: string, variant: Variant, grant: Grant, requests: seq<WorkerRequest>)

  datatype Trust = Trust(cfg: Config, expected: Expected, brokerVerifier: Verifier, resourceVerifier: Verifier)

  /** `_verify_grant`. */
  predicate GrantOk(t: Trust, g: Grant) {
    && Verifies(t.brokerVerifier, g.receipt)
    && var p := Claims(g.receipt);
    && p.service == Broker && p.decision == Allow && p.reason == ALLOW
    && p.credentialId == Some(g.credential.id)
    && p.scope == Some(t.cfg.resource.scope)
    && p.manifestDigest == Some(g.manifestDigest)
    && p.tokenHash == Some(g.challengeHash)
    && p.artifacts == map["broker_policy_sha256" := g.brokerPolicy, "tpm_attest_sha256" := g.attest,
                          "tpm_signature_sha256" := g.signature, "tpm_ak_chain_sha256" := g.akChain,
                          "issuance_request_sha256" := g.issuanceRequest]
    && g.credential.subject == t.expected.workerKey
    && g.credential.issuer == t.cfg.resource.trustedBroker
    && g.credential.scope == {t.cfg.resource.scope}
  }

  /** The outcome of the two keyed challenge checks made while appraising a request's proof. */
  type MacChecks = WorkerRequest -> (bool, bool)

  predicate ResponseOk(t: Trust, mac: MacChecks, q: WorkerRequest, p: WorkerResponse) {
    ResponseBound(t.expected, q, p) && Preappraised(q, p, mac(q).0, mac(q).1)
  }

  ghost predicate DistinctRuns(rs: seq<WorkerResponse>) {
    forall i, j :: 0 <= i < j < |rs| ==> rs[i].body.runId != rs[j].body.runId
  }

  predicate Answers(rs: seq<WorkerResponse>, runId: string) {
    exists k :: 0 <= k < |rs| && rs[k].body.runId == runId
  }

  predicate Requested(qs: seq<WorkerRequest>, runId: string) {
    exists k :: 0 <= k < |qs| && qs[k].runId == runId
  }

  /** `_validate_case_inputs` accepts. */
  ghost predicate CaseInputsOk(t: Trust, mac: MacChecks, c: PreparedCase, rs: seq<WorkerResponse>) {
    && GrantOk(t, c.grant)
    && |rs| == |c.requests|
    && DistinctRuns(rs)
    && (forall k :: 0 <= k < |c.requests| ==> Answers(rs, c.requests[k].runId))
    && (forall k :: 0 <= k < |rs| ==> Requested(c.requests, rs[k].body.runId))
    && (forall k, l :: 0 <= k < |c.requests| && 0 <= l < |rs| && rs[l].body.runId == c.requests[k].runId ==>
          ResponseOk(t, mac, c.requests[k], rs[l]))
  }

  /** Each request's own response, in request order. */
  ghost predicate Ordered(c: PreparedCase, rs: seq<WorkerResponse>, ordered: seq<WorkerResponse>) {
    && |ordered| == |c.requests|
    && (forall k :: 0 <= k < |c.requests| ==> ordered[k] in rs && ordered[k].body.runId == c.requests[k].runId)
  }

  /** The dictionary from run id to response. */
  method IndexByRun(rs: seq<WorkerResponse>) returns (byRun: map<string, WorkerResponse>, distinct: bool)
    ensures forall id :: id in byRun <==> Answers(rs, id)
    ensures forall id :: id in byRun ==> byRun[id] in rs && byRun[id].body.runId == id
    ensures distinct <==> DistinctRuns(rs)
  {
    hide Answers, DistinctRuns;
    byRun, distinct := map[], true;
    NoResponses();
    for i := 0 to |rs|
      invariant forall id :: id in byRun <==> Answers(rs[..i], id)
      invariant forall id :: id in byRun ==> byRun[id] in rs[..i] && byRun[id].body.runId == id
      invariant distinct <==> DistinctRuns(rs[..i])
    {
      var id := rs[i].body.runId;
      assert rs[..i + 1] == rs[..i] + [rs[i]];
      DistinctAppend(rs[..i], rs[i]);
      if id in byRun {
        distinct := false;
      }
      forall x
        ensures Answers(rs[..i + 1], x) <==> Answers(rs[..i], x) || x == id
      {
        AnswersAppend(rs[..i], rs[i], x);
      }
      byRun := byRun[id := rs[i]];
    }
    assert rs[..|rs|] == rs;
  }

  lemma NoResponses()
    ensures DistinctRuns([]) && forall id :: !Answers([], id)
  {
  }

  lemma DistinctAppend(rs: seq<WorkerResponse>, p: WorkerResponse)
    ensures DistinctRuns(rs + [p]) <==> DistinctRuns(rs) && !Answers(rs, p.body.runId)
  {
    var all := rs + [p];
    assert forall k :: 0 <= k < |rs| ==> all[k] == rs[k];
    assert all[|rs|] == p;
    if DistinctRuns(all) {
      forall k | 0 <= k < |rs|
        ensures rs[k].body.runId != p.body.runId
      {
        assert all[k].body.runId != all[|rs|].body.runId;
      }
      forall k, l | 0 <= k < l < |rs|
        ensures rs[k].body.runId != rs[l].body.runId
      {
        assert all[k].body.runId != all[l].body.runId;
      }
    }
  }

  lemma AnswersAppend(rs: seq<WorkerResponse>, p: WorkerResponse, x: string)
    ensures Answers(rs + [p], x) <==> Answers(rs, x) || x == p.body.runId
  {
    if Answers(rs, x) {
      var k :| 0 <= k < |rs| && rs[k].body.runId == x;
      assert (rs + [p])[k].body.runId == x;
    }
    if x == p.body.runId {
      assert (rs + [p])[|rs|].body.runId == x;
    }
  }

  /** Validate one complete case without touching challenge or spend state. */
  method ValidateCaseInputs(t: Trust, mac: MacChecks, c: PreparedCase, rs: seq<WorkerResponse>)
    returns (ordered: Option<seq<WorkerResponse>>)
    ensures ordered.Some? <==> CaseInputsOk(t, mac, c, rs)
    ensures ordered.Some? ==> Ordered(c, rs, ordered.value)
    ensures ordered.Some? ==> forall k :: 0 <= k < |ordered.value| ==>
      && ordered.value[k].signature == BodySigned(t.expected.workerKey, ordered.value[k].body)
      && ordered.value[k].body.image == t.expected.image && ordered.value[k].body.codeDigest == t.expected.codeDigest
  {
    hide GrantOk, ResponseOk, CaseInputsOk, DistinctRuns;
    if CaseInputsOk(t, mac, c, rs) { EarlyInputs(t, mac, c, rs); }
    if !GrantOk(t, c.grant) || |rs| != |c.requests| { return None; }
    var byRun, distinct := IndexByRun(rs);
    if !distinct { return None; }
    var requested := set k | 0 <= k < |c.requests| :: c.requests[k].runId;
    assert forall id :: id in requested <==> Requested(c.requests, id);
    if byRun.Keys != requested {
      SameKeys(t, mac, c, rs, byRun, requested);
      return None;
    }
    var out: seq<WorkerResponse> := [];
    for k := 0 to |c.requests|
      invariant |out| == k
      invariant forall l :: 0 <= l < k ==> out[l] in rs && out[l].body.runId == c.requests[l].runId
      invariant forall l :: 0 <= l < k ==> ResponseOk(t, mac, c.requests[l], out[l])
    {
      var q := c.requests[k];
      assert q.runId in requested;
      var p := byRun[q.runId];
      if !ResponseOk(t, mac, q, p) {
        ResponseRejected(t, mac, c, rs, k, p);
        return None;
      }
      out := out + [p];
    }
    ordered := Some(out);
    forall l | 0 <= l < |out|
      ensures out[l].signature == BodySigned(t.expected.workerKey, out[l].body)
      ensures out[l].body.image == t.expected.image && out[l].body.codeDigest == t.expected.codeDigest
    {
      BoundToWorker(t, mac, c.requests[l], out[l]);
    }
    InputsAccepted(t, mac, c, rs, out, byRun, requested);
  }

  /** The tests made before looking at single responses. */
  lemma EarlyInputs(t: Trust, mac: MacChecks, c: PreparedCase, rs: seq<WorkerResponse>)
    requires CaseInputsOk(t, mac, c, rs)
    ensures GrantOk(t, c.grant) && |rs| == |c.requests| && DistinctRuns(rs)
  {
    hide GrantOk, ResponseOk;
  }

  lemma BoundToWorker(t: Trust, mac: MacChecks, q: WorkerRequest, p: WorkerResponse)
    requires ResponseOk(t, mac, q, p)
    ensures p.signature == BodySigned(t.expected.workerKey, p.body)
    ensures p.body.image == t.expected.image && p.body.codeDigest == t.expected.codeDigest
  {
    hide Preappraised;
  }

  /** A response that fails its own checks rejects the case. */
  lemma ResponseRejected(t: Trust, mac: MacChecks, c: PreparedCase, rs: seq<WorkerResponse>, k: nat, p: WorkerResponse)
    requires k < |c.requests| && p in rs && p.body.runId == c.requests[k].runId && !ResponseOk(t, mac, c.requests[k], p)
    ensures !CaseInputsOk(t, mac, c, rs)
  {
    hide GrantOk, ResponseOk;
    var l :| 0 <= l < |rs| && rs[l] == p;
  }

  lemma SameKeys(t: Trust, mac: MacChecks, c: PreparedCase, rs: seq<WorkerResponse>, byRun: map<string, WorkerResponse>, requested: set<string>)
    requires forall id :: id in byRun <==> Answers(rs, id)
    requires forall id :: id in requested <==> Requested(c.requests, id)
    requires byRun.Keys != requested
    ensures !CaseInputsOk(t, mac, c, rs)
  {
    var id :| (id in byRun.Keys) != (id in requested);
    if id in byRun.Keys {
      var k :| 0 <= k < |rs| && rs[k].body.runId == id;
      assert !Requested(c.requests, rs[k].body.runId);
    } else {
      var k :| 0 <= k < |c.requests| && c.requests[k].runId == id;
      assert !Answers(rs, c.requests[k].runId);
    }
  }

  lemma InputsAccepted(t: Trust, mac: MacChecks, c: PreparedCase, rs: seq<WorkerResponse>, out: seq<WorkerResponse>,
                  byRun: map<string, WorkerResponse>, requested: set<string>)
    requires GrantOk(t, c.grant) && |rs| == |c.requests| == |out| && DistinctRuns(rs)
    requires forall id :: id in byRun <==> Answers(rs, id)
    requires forall id :: id in requested <==> Requested(c.requests, id)
    requires byRun.Keys == requested
    requires forall l :: 0 <= l < |out| ==> out[l] in rs && out[l].body.runId == c.requests[l].runId
    requires forall l :: 0 <= l < |out| ==> ResponseOk(t, mac, c.requests[l], out[l])
    ensures CaseInputsOk(t, mac, c, rs)
  {
    hide GrantOk, ResponseOk;
    forall k | 0 <= k < |c.requests|
      ensures Answers(rs, c.requests[k].runId)
    {
      assert Requested(c.requests, c.requests[k].runId);
      assert c.requests[k].runId in byRun;
    }
    forall k | 0 <= k < |rs|
      ensures Requested(c.requests, rs[k].body.runId)
    {
      assert Answers(rs, rs[k].body.runId);
      assert rs[k].body.runId in byRun.Keys;
    }
  }

  // ---- The bundle and its partition ----

  /** The responses of one case, in bundle order. */
  function ForCase(bundle: seq<WorkerResponse>, caseId: string): seq<WorkerResponse> {
    if bundle == [] then []
    else
      var last := bundle[|bundle| - 1];
      ForCase(bundle[..|bundle| - 1], caseId) + (if last.body.caseId == caseId then [last] else [])
  }

  lemma {:induction false} ForCaseMembers(bundle: seq<WorkerResponse>, caseId: string, p: WorkerResponse)
    ensures p in ForCase(bundle, caseId) <==> p in bundle && p.body.caseId == caseId
  {
    if bundle != [] {
      var m := |bundle| - 1;
      ForCaseMembers(bundle[..m], caseId, p);
      assert bundle == bundle[..m] + [bundle[m]];
    }
  }

  lemma {:induction false} ForCaseCounts(bundle: seq<WorkerResponse>, caseId: string, p: WorkerResponse)
    ensures multiset(ForCase(bundle, caseId))[p] == if p.body.caseId == caseId then multiset(bundle)[p] else 0
  {
    if bundle != [] {
      var m := |bundle| - 1;
      ForCaseCounts(bundle[..m], caseId, p);
      assert bundle == bundle[..m] + [bundle[m]];
    }
  }

  /** What the trusted state guarantees of the prepared cases. */
  ghost predicate StateOk(cases: seq<PreparedCase>) {
    && (forall i, j :: 0 <= i < j < |cases| ==> cases[i].caseId != cases[j].caseId)
    && (forall i, k :: 0 <= i < |cases| && 0 <= k < |cases[i].requests| ==> cases[i].requests[k].caseId == cases[i].caseId)
    && (forall i, k, j, l :: IsRequest(cases, i, k) && IsRequest(cases, j, l) && (i != j || k != l) ==>
          cases[i].requests[k].runId != cases[j].requests[l].runId)
  }

  predicate IsRequest(cases: seq<PreparedCase>, i: int, k: int) {
    0 <= i < |cases| && 0 <= k < |cases[i].requests|
  }

  /** The bundle answers the prepared run ids and nothing else, each once. */
  ghost predicate BundleOk(cases: seq<PreparedCase>, bundle: seq<WorkerResponse>) {
    && DistinctRuns(bundle)
    && (forall b :: 0 <= b < |bundle| ==> exists i :: 0 <= i < |cases| && Requested(cases[i].requests, bundle[b].body.runId))
    && (forall i, k :: 0 <= i < |cases| && 0 <= k < |cases[i].requests| ==> Answers(bundle, cases[i].requests[k].runId))
  }

  ghost predicate AllValid(t: Trust, mac: MacChecks, cases: seq<PreparedCase>, bundle: seq<WorkerResponse>) {
    forall i :: 0 <= i < |cases| ==> CaseInputsOk(t, mac, cases[i], ForCase(bundle, cases[i].caseId))
  }

  /** When every case validates, the per-case lists partition the bundle: each response belongs to
      exactly one case and answers exactly one of its requests. */
  lemma BundlePartitioned(t: Trust, mac: MacChecks, cases: seq<PreparedCase>, bundle: seq<WorkerResponse>, b: nat)
    returns (i: nat, k: nat)
    requires StateOk(cases) && BundleOk(cases, bundle) && AllValid(t, mac, cases, bundle) && b < |bundle|
    ensures i < |cases| && k < |cases[i].requests|
    ensures bundle[b] in ForCase(bundle, cases[i].caseId)
    ensures cases[i].requests[k].runId == bundle[b].body.runId && ResponseOk(t, mac, cases[i].requests[k], bundle[b])
    ensures forall j :: 0 <= j < |cases| && bundle[b] in ForCase(bundle, cases[j].caseId) ==> j == i
    ensures forall j, l :: IsRequest(cases, j, l) && cases[j].requests[l].runId == bundle[b].body.runId ==> j == i && l == k
  {
    hide CaseInputsOk, ResponseOk, ForCase, DistinctRuns;
    var p := bundle[b];
    var i0 :| 0 <= i0 < |cases| && Requested(cases[i0].requests, p.body.runId);
    i := i0;
    var k0 :| 0 <= k0 < |cases[i].requests| && cases[i].requests[k0].runId == p.body.runId;
    k := k0;
    assert IsRequest(cases, i, k);
    OwnResponse(t, mac, cases[i], bundle, b, k);
    ForCaseMembers(bundle, cases[i].caseId, p);
    forall j | 0 <= j < |cases| && p in ForCase(bundle, cases[j].caseId)
      ensures j == i
    {
      ForCaseMembers(bundle, cases[j].caseId, p);
    }
  }

  /** A validated case's request is answered by the bundle's response with its run id. */
  lemma OwnResponse(t: Trust, mac: MacChecks, c: PreparedCase, bundle: seq<WorkerResponse>, b: nat, k: nat)
    requires DistinctRuns(bundle) && CaseInputsOk(t, mac, c, ForCase(bundle, c.caseId))
    requires b < |bundle| && k < |c.requests| && c.requests[k].runId == bundle[b].body.runId
    ensures bundle[b] in ForCase(bundle, c.caseId) && ResponseOk(t, mac, c.requests[k], bundle[b])
  {
    hide GrantOk, ResponseOk, ForCase;
    var rs := ForCase(bundle, c.caseId);
    assert Answers(rs, c.requests[k].runId);
    var l :| 0 <= l < |rs| && rs[l].body.runId == c.requests[k].runId;
    ForCaseMembers(bundle, c.caseId, rs[l]);
    SameRun(bundle, b, rs[l]);
  }

  lemma SameRun(bundle: seq<WorkerResponse>, b: nat, p: WorkerResponse)
    requires DistinctRuns(bundle) && b < |bundle| && p in bundle && p.body.runId == bundle[b].body.runId
    ensures p == bundle[b]
  {
  }

  /** Validation and the matching of responses to requests do not depend on the bundle's order. */
  lemma OrderIrrelevant(t: Trust, mac: MacChecks, c: PreparedCase, bundle: seq<WorkerResponse>, shuffled: seq<WorkerResponse>,
                        ordered: seq<WorkerResponse>, other: seq<WorkerResponse>)
    requires multiset(bundle) == multiset(shuffled)
    ensures CaseInputsOk(t, mac, c, ForCase(bundle, c.caseId)) ==> CaseInputsOk(t, mac, c, ForCase(shuffled, c.caseId))
    ensures CaseInputsOk(t, mac, c, ForCase(bundle, c.caseId))
            && Ordered(c, ForCase(bundle, c.caseId), ordered) && Ordered(c, ForCase(shuffled, c.caseId), other) ==>
              ordered == other
  {
    hide CaseInputsOk, ForCase, Ordered, DistinctRuns;
    var rs, us := ForCase(bundle, c.caseId), ForCase(shuffled, c.caseId);
    SameForCase(bundle, shuffled, c.caseId);
    if CaseInputsOk(t, mac, c, rs) {
      ShuffledCase(t, mac, c, rs, us);
      EarlyInputs(t, mac, c, rs);
      if Ordered(c, rs, ordered) && Ordered(c, us, other) {
        SameOrder(c, rs, us, ordered, other);
      }
    }
  }

  lemma SameForCase(bundle: seq<WorkerResponse>, shuffled: seq<WorkerResponse>, caseId: string)
    requires multiset(bundle) == multiset(shuffled)
    ensures multiset(ForCase(bundle, caseId)) == multiset(ForCase(shuffled, caseId))
  {
    hide ForCase;
    forall p
      ensures multiset(ForCase(bundle, caseId))[p] == multiset(ForCase(shuffled, caseId))[p]
    {
      ForCaseCounts(bundle, caseId, p);
      ForCaseCounts(shuffled, caseId, p);
    }
  }

  lemma SameOrder(c: PreparedCase, rs: seq<WorkerResponse>, us: seq<WorkerResponse>, ordered: seq<WorkerResponse>, other: seq<WorkerResponse>)
    requires multiset(rs) == multiset(us) && DistinctRuns(rs) && Ordered(c, rs, ordered) && Ordered(c, us, other)
    ensures ordered == other
  {
    hide DistinctRuns;
    forall k | 0 <= k < |c.requests|
      ensures ordered[k] == other[k]
    {
      SameMembers(rs, us, other[k]);
      var l :| 0 <= l < |rs| && rs[l] == other[k];
      SameRun(rs, l, ordered[k]);
    }
  }

  lemma SameMembers(rs: seq<WorkerResponse>, us: seq<WorkerResponse>, p: WorkerResponse)
    requires multiset(rs) == multiset(us)
    ensures p in rs <==> p in us
  {
    assert p in rs <==> p in multiset(rs);
    assert p in us <==> p in multiset(us);
  }

  lemma ShuffledDistinct(rs: seq<WorkerResponse>, us: seq<WorkerResponse>)
    requires multiset(rs) == multiset(us) && DistinctRuns(rs)
    ensures DistinctRuns(us)
  {
    forall i, j | 0 <= i < j < |us|
      ensures us[i].body.runId != us[j].body.runId
    {
      if us[i].body.runId == us[j].body.runId {
        SameMembers(rs, us, us[i]);
        SameMembers(rs, us, us[j]);
        var k :| 0 <= k < |rs| && rs[k] == us[i];
        SameRun(rs, k, us[j]);
        Twice(us, i, j);
        Once(rs, k);
      }
    }
  }

  lemma Twice(us: seq<WorkerResponse>, i: nat, j: nat)
    requires i < j < |us| && us[i] == us[j]
    ensures multiset(us)[us[i]] >= 2
  {
    assert us == us[..j] + [us[j]] + us[j + 1..];
    assert us[..j] == us[..i] + [us[i]] + us[i + 1..j];
  }

  lemma Once(rs: seq<WorkerResponse>, k: nat)
    requires DistinctRuns(rs) && k < |rs|
    ensures multiset(rs)[rs[k]] == 1
  {
    assert rs == rs[..k] + [rs[k]] + rs[k + 1..];
    assert rs[k] !in rs[..k] && rs[k] !in rs[k + 1..];
  }

  lemma ShuffledCase(t: Trust, mac: MacChecks, c: PreparedCase, rs: seq<WorkerResponse>, us: seq<WorkerResponse>)
    requires multiset(rs) == multiset(us) && CaseInputsOk(t, mac, c, rs)
    ensures CaseInputsOk(t, mac, c, us)
  {
    hide GrantOk, ResponseOk;
    ShuffledDistinct(rs, us);
    assert |rs| == |multiset(rs)| == |multiset(us)| == |us|;
    forall k | 0 <= k < |c.requests|
      ensures Answers(us, c.requests[k].runId)
    {
      assert Answers(rs, c.requests[k].runId);
      var l :| 0 <= l < |rs| && rs[l].body.runId == c.requests[k].runId;
      SameMembers(rs, us, rs[l]);
      var m :| 0 <= m < |us| && us[m] == rs[l];
      assert us[m].body.runId == c.requests[k].runId;
    }
    forall k | 0 <= k < |us|
      ensures Requested(c.requests, us[k].body.runId)
      ensures exists l :: 0 <= l < |rs| && rs[l] == us[k]
    {
      SameMembers(rs, us, us[k]);
    }
  }
}
