/** Redeeming validated cases and recording what was observed. */
module Lab {
  import opened Symbols
  import opened Receipt
  import opened Protocol
  import opened Worker
  import opened Wire
  import opened Controller
  import opened Submission
  import opened Preparation

  /** A case whose inputs passed validation, with its responses in request order. */
  datatype Validated = Validated(prepared: PreparedCase, responses: seq<WorkerResponse>)

  /** The prepared case's own validator, and one response per request. */
  predicate Shaped(v: Validated) {
    && |v.responses| == |v.prepared.requests|
    && 1 <= |v.prepared.requests| <= 64
    && (v.prepared.variant != Concurrent ==> |v.prepared.requests| == 1)
  }

  function Lookups(v: Validated): seq<LookupRequest>
    requires Shaped(v)
  {
    seq(|v.responses|, k requires 0 <= k < |v.responses| => Lookup(v.prepared.requests[k], v.responses[k]))
  }

  /** How the steps of a case's calls are interleaved; the second part drives the replay. */
  datatype Schedule = Schedule(first: seq<Label>, second: seq<Label>)

  function AttemptFrom(t: Trust, q: WorkerRequest, p: WorkerResponse, sequence: int, claims: Payload): Attempt {
    Attempt(q.runId, sequence, RequestDigest(q), ResponseDigest(p), ProofDigest(p.body.proof),
            claims.decision == Allow, claims.reason,
            Compact(t.resourceVerifier.keyId, t.resourceVerifier.key, claims),
            claims.handlerInvoked, claims.businessResult, claims.invocationId)
  }

  function SignatureParts(s: Signature): seq<Term> {
    match s
    case NotASignature => []
    case Signed(key, st) =>
      [key, st.challenge, st.credentialId, st.subject, st.audience, st.scope, st.recordId, Plain(st.sku)]
  }

  function ProofDigest(p: HolderProof): Term {
    Sha256("holder-proof", [p.challenge] + SignatureParts(p.signature))
  }

  function ResponseDigest(p: WorkerResponse): Term {
    Sha256("worker-response",
           [Plain(p.body.caseId), Plain(p.body.runId), p.body.requestSha, p.body.workerKey, p.body.proofSubject,
            p.body.image, p.body.codeDigest, ProofDigest(p.body.proof)])
  }

  /** The receipt binds the decision to this request. */
  predicate ReceiptBinds(t: Trust, q: WorkerRequest, p: Payload) {
    && ValidPayload(p) && p.service == Inventory
    && p.credentialId == Some(q.credential.id)
    && p.scope == Some(q.scope) && p.tool == Some(t.cfg.resource.tool) && p.audience == Some(q.audience)
    && p.argumentsDigest == Some(ArgumentsDigest(q.sku)) && p.recordId == Some(Plain(q.recordId))
    && p.tokenHash == (if q.variant == Malformed then None else Some(TokenHash(q.challenge)))
    && p.artifacts == map["resource_policy_sha256" := t.cfg.resource.Digest()]
    && p.businessResult != NotApplicable
  }

  /** `_observe_decision`: nothing is recorded for a call that raised or whose receipt does not bind. */
  function ObserveCall(t: Trust, q: WorkerRequest, p: WorkerResponse, sequence: int, c: RedeemCall): Option<Attempt> {
    if c.pc.Answered? && ReceiptBinds(t, q, c.pc.receipt) && AttemptSemantics(AttemptFrom(t, q, p, sequence, c.pc.receipt))
    then Some(AttemptFrom(t, q, p, sequence, c.pc.receipt)) else None
  }

  /** An attempt is recorded only of an answered call whose receipt speaks of this request alone, and
      it says what that receipt says. */
  lemma RecordedAttempt(t: Trust, q: WorkerRequest, p: WorkerResponse, sequence: int, c: RedeemCall)
    requires ObserveCall(t, q, p, sequence, c).Some?
    ensures c.pc.Answered?
    ensures var a, claims := ObserveCall(t, q, p, sequence, c).value, c.pc.receipt;
            && a.receipt == Compact(t.resourceVerifier.keyId, t.resourceVerifier.key, claims)
            && a.runId == q.runId && a.sequence == sequence
            && (a.allowed <==> claims.decision == Allow) && a.reason == claims.reason && a.invocationId == claims.invocationId
            && a.handlerInvoked == claims.handlerInvoked && a.businessResult == claims.businessResult
            && (a.allowed ==> a.reason == ALLOW && a.businessResult == Completed && a.invocationId.Some?)
            && (!a.allowed ==> a.reason != ALLOW && a.businessResult == NotInvoked && a.invocationId.None?)
    ensures var claims := c.pc.receipt;
            && claims.service == Inventory && claims.credentialId == Some(q.credential.id) && claims.scope == Some(q.scope)
            && claims.audience == Some(q.audience) && claims.tool == Some(t.cfg.resource.tool)
            && claims.argumentsDigest == Some(Sha256("arguments", [Plain(q.sku)])) && claims.recordId == Some(Plain(q.recordId))
            && claims.tokenHash == (if q.variant == Malformed then None else Some(Sha256("challenge-token", [q.challenge])))
            && claims.artifacts == map["resource_policy_sha256" := t.cfg.resource.Digest()]
  {
    hide ValidPayload, RequestDigest, ResponseDigest, ProofDigest;
  }

  /** Submit the case's lookups; a replay submits the first one again once its answer was recorded. */
  function RunCase(t: Trust, s: State, v: Validated, sched: Schedule): State
    requires Shaped(v)
  {
    var u := Exec(t.cfg, s, Begins(Lookups(v)) + sched.first);
    if v.prepared.variant == Replay && |u.redeems| == |s.redeems| + 1
       && ObserveCall(t, v.prepared.requests[0], v.responses[0], 1, u.redeems[|s.redeems|]).Some?
    then Exec(t.cfg, u, [BeginRedeem(Lookups(v)[0])] + sched.second)
    else u
  }

  function AttemptsOf(v: Validated): nat {
    if v.prepared.variant == Replay then 2 else |v.prepared.requests|
  }

  /** The attempt the k-th call of a case makes. */
  function ObserveAt(t: Trust, v: Validated, calls: seq<RedeemCall>, k: nat): Option<Attempt>
    requires Shaped(v) && k < AttemptsOf(v) == |calls|
  {
    if v.prepared.variant == Replay then ObserveCall(t, v.prepared.requests[0], v.responses[0], k + 1, calls[k])
    else ObserveCall(t, v.prepared.requests[k], v.responses[k], 1, calls[k])
  }

  function ObserveCalls(t: Trust, v: Validated, calls: seq<RedeemCall>, n: nat): Option<seq<Attempt>>
    requires Shaped(v) && n <= AttemptsOf(v) == |calls|
  {
    if n == 0 then Some([])
    else
      var before := ObserveCalls(t, v, calls, n - 1);
      var last := ObserveAt(t, v, calls, n - 1);
      if before.Some? && last.Some? then Some(before.value + [last.value]) else None
  }

  function Executed(v: Variant): int {
    if AllowVariant(v) then 1 else 0
  }

  /** What the controller records for a case, if every check on its outcome passes. */
  function ObserveCase(t: Trust, v: Validated, before: State, after: State): Option<CaseObservation>
    requires Shaped(v)
  {
    if |after.redeems| != |before.redeems| + AttemptsOf(v) then None
    else
      var attempts := ObserveCalls(t, v, after.redeems[|before.redeems|..], AttemptsOf(v));
      if attempts.None? then None
      else
        var delta := after.shared.count - before.shared.count;
        var redeemed := if v.prepared.grant.credential.id in after.shared.tables.redemptions then 1 else 0;
        var c := CaseObservation(v.prepared.caseId, v.prepared.variant, v.prepared.grant.receipt, t.expected.workerKey,
                                 t.expected.image, t.expected.codeDigest, |v.responses|, attempts.value, delta, redeemed);
        if VerdictsMatch(v.prepared.variant, AttemptsOf(v), Verdicts(attempts.value))
           && delta == Executed(v.prepared.variant) && redeemed == Executed(v.prepared.variant)
           && CaseSemantics(c)
        then Some(c) else None
  }

  /** Redeem the first k validated cases in order, stopping at the first one that fails. */
  function Redeemed(t: Trust, s: State, vs: seq<Validated>, scheds: seq<Schedule>, k: nat): (State, Option<seq<CaseObservation>>)
    requires k <= |vs| == |scheds| && forall i :: 0 <= i < |vs| ==> Shaped(vs[i])
  {
    if k == 0 then (s, Some([]))
    else
      var (before, cases) := Redeemed(t, s, vs, scheds, k - 1);
      if cases.None? then (before, None)
      else
        var after := RunCase(t, before, vs[k - 1], scheds[k - 1]);
        var c := ObserveCase(t, vs[k - 1], before, after);
        (after, if c.Some? then Some(cases.value + [c.value]) else None)
  }

  /** `sign_record`: the payload whose counts are read off the observed cases. */
  function BuildRecord(t: Trust, observedAt: int, realTpm: bool, evidenceVerified: bool, observedImage: Term, cases: seq<CaseObservation>): Record {
    Record(observedAt, realTpm, evidenceVerified, realTpm && evidenceVerified,
           t.expected.workerKey, t.expected.image, t.expected.codeDigest, observedImage,
           t.brokerVerifier, t.resourceVerifier,
           |cases|, |Flat(cases)|, Allowed(Flat(cases)), |Flat(cases)| - Allowed(Flat(cases)),
           SumDeltas(cases), SumRedemptions(cases), cases)
  }

  /** A case as it arrives for finalization: prepared locally, answered by the worker. */
  datatype CaseInput = CaseInput(prepared: PreparedCase, responses: seq<WorkerResponse>)

  ghost predicate InputValid(t: Trust, mac: MacChecks, c: CaseInput) {
    CaseInputsOk(t, mac, c.prepared, c.responses)
  }

  predicate PreparedShape(c: PreparedCase) {
    1 <= |c.requests| <= 64 && (c.variant != Concurrent ==> |c.requests| == 1)
  }

  class TrustedController {
    const trust: Trust
    var system: State
    var caseIds: set<string>

    constructor (trust: Trust, system: State)
      ensures this.trust == trust && this.system == system && caseIds == {}
    {
      this.trust, this.system, caseIds := trust, system, {};
    }

    /** Reserve the case id, verify the grant, then issue one challenge per request. A failure
        leaves the id reserved, and the challenges issued before it. */
    method PrepareCase(spec: CaseSpec, grant: Grant, draws: seq<Draw>) returns (prepared: Option<PreparedCase>)
      requires spec.Ok() && |draws| == spec.concurrency
      modifies this`system, this`caseIds
      ensures caseIds == old(caseIds) + {spec.caseId}
      ensures prepared.Some? <==> spec.caseId !in old(caseIds) && GrantOk(trust, grant) && DrawsOk(old(system), grant, draws)
      ensures spec.caseId in old(caseIds) || !GrantOk(trust, grant) ==> system == old(system)
      ensures prepared.Some? ==>
        && prepared.value == PreparedCase(spec.caseId, spec.variant, grant, RequestsFor(trust, spec, grant, draws))
        && system == Challenged(trust, old(system), spec, grant, draws)
    {
      hide GrantOk, DrawsOk, DrawOk, Next, LowerHex, RequestsFor, Challenged, RequestFor, ChallengeLabel;
      if spec.caseId in caseIds {
        assert caseIds + {spec.caseId} == caseIds;
        return None;
      }
      caseIds := caseIds + {spec.caseId};
      if !GrantOk(trust, grant) { return None; }
      var requests: seq<WorkerRequest> := [];
      ghost var start := system;
      NothingChallenged(trust, system, spec, grant, draws);
      for index := 0 to spec.concurrency
        invariant caseIds == old(caseIds) + {spec.caseId}
        invariant requests == RequestsFor(trust, spec, grant, draws[..index])
        invariant system == Challenged(trust, start, spec, grant, draws[..index])
        invariant index > 0 ==> DrawsOk(start, grant, draws[..index])
      {
        var d := draws[index];
        var q := RequestFor(trust, spec, grant, d, index);
        ChallengedMore(trust, start, spec, grant, draws, index);
        DrawsStep(trust, start, spec, grant, draws, index);
        if !DrawOk(system, grant, d) {
          return None;
        }
        system := Next(trust.cfg, system, ChallengeLabel(q, d.now));
        requests := requests + [q];
      }
      assert draws[..spec.concurrency] == draws;
      prepared := Some(PreparedCase(spec.caseId, spec.variant, grant, requests));
    }

    /** Validate every remote case before the first redemption: if any case fails, nothing has
        moved; otherwise the cases are redeemed in order from exactly the starting state. */
    method FinalizeCases(mac: MacChecks, inputs: seq<CaseInput>, scheds: seq<Schedule>)
      returns (rejected: bool, cases: Option<seq<CaseObservation>>, ghost vs: seq<Validated>)
      requires |scheds| == |inputs| && forall i :: 0 <= i < |inputs| ==> PreparedShape(inputs[i].prepared)
      modifies this`system
      ensures rejected <==> exists i :: 0 <= i < |inputs| && !InputValid(trust, mac, inputs[i])
      ensures rejected ==> system == old(system) && cases.None?
      ensures !rejected ==>
        && |vs| == |inputs|
        && (forall i :: 0 <= i < |vs| ==>
              vs[i].prepared == inputs[i].prepared && Ordered(inputs[i].prepared, inputs[i].responses, vs[i].responses) && Shaped(vs[i]))
        && (system, cases) == Redeemed(trust, old(system), vs, scheds, |vs|)
    {
      hide CaseInputsOk, RunCase, ObserveCase;
      cases, rejected := None, false;
      var validated: seq<Validated> := [];
      for i := 0 to |inputs|
        invariant |validated| == i && system == old(system)
        invariant forall k :: 0 <= k < i ==> InputValid(trust, mac, inputs[k])
        invariant forall k :: 0 <= k < i ==>
          validated[k].prepared == inputs[k].prepared
          && Ordered(inputs[k].prepared, inputs[k].responses, validated[k].responses) && Shaped(validated[k])
      {
        var ordered := ValidateCaseInputs(trust, mac, inputs[i].prepared, inputs[i].responses);
        if ordered.None? {
          assert !InputValid(trust, mac, inputs[i]);
          rejected, vs := true, [];
          return;
        }
        validated := validated + [Validated(inputs[i].prepared, ordered.value)];
      }
      vs := validated;
      cases := Some([]);
      ghost var start := system;
      for k := 0 to |validated|
        invariant (system, cases) == Redeemed(trust, start, validated, scheds, k)
      {
        if cases.Some? {
          var before := system;
          system := RunCase(trust, before, validated[k], scheds[k]);
          var c := ObserveCase(trust, validated[k], before, system);
          cases := if c.Some? then Some(cases.value + [c.value]) else None;
        }
      }
    }
  }
}
