/** A case prepared by the controller is one an honest run can start from. */
module HonestPreparation {
  import opened Symbols
  import opened Protocol
  import opened Worker
  import opened Controller
  import opened Preparation
  import opened HonestCase

  /** Every request of a prepared case names its case and its credential, differs from the others,
      and has a challenge waiting until the resource's TTL has passed. */
  lemma PreparedCaseWaits(x: Setting, s: State, spec: CaseSpec, g: Grant, draws: seq<Draw>)
    requires spec.Ok() && |draws| == spec.concurrency && DrawsOk(s, g, draws)
    requires forall k :: 0 <= k < |draws| ==> x.w.hi < draws[k].now + x.t.cfg.resource.challengeTtl
    ensures var qs := RequestsFor(x.t, spec, g, draws);
            var u := Challenged(x.t, s, spec, g, draws);
            && (forall k :: 0 <= k < |qs| ==> PreparedRequest(x, spec, g, qs[k]) && ChallengeWaits(x, u.shared, qs[k]))
            && (forall i, j :: 0 <= i < j < |qs| ==> Apart(qs[i], qs[j]))
            && OnlyResource(s, u)
  {
    hide LowerHex, Challenged, NameAt, Adds, OnlyResource;
    ChallengedRows(x.t, s, spec, g, draws);
    var qs, u := RequestsFor(x.t, spec, g, draws), Challenged(x.t, s, spec, g, draws);
    forall k | 0 <= k < |qs|
      ensures PreparedRequest(x, spec, g, qs[k]) && ChallengeWaits(x, u.shared, qs[k])
    {
      RowWaits(x, s, u, spec, g, draws, k);
    }
    forall i, j | 0 <= i < j < |qs|
      ensures Apart(qs[i], qs[j])
    {
      NamesDiffer(spec.caseId, spec.concurrency, i, j);
      NamesDiffer(spec.recordId, spec.concurrency, i, j);
    }
  }

  predicate PreparedRequest(x: Setting, spec: CaseSpec, g: Grant, q: WorkerRequest) {
    && PreparedFor(x.t.cfg, q) && q.caseId == spec.caseId && q.variant == spec.variant && q.credential == g.credential
    && q.sku != "" && q.recordId != ""
  }

  lemma RowWaits(x: Setting, s: State, u: State, spec: CaseSpec, g: Grant, draws: seq<Draw>, k: nat)
    requires spec.Ok() && k < |draws| == spec.concurrency && x.w.hi < draws[k].now + x.t.cfg.resource.challengeTtl
    requires Adds(x.t, spec, g, draws, s.shared.tables.resource, u.shared.tables.resource)
    ensures var q := RequestFor(x.t, spec, g, draws[k], k);
            PreparedRequest(x, spec, g, q) && ChallengeWaits(x, u.shared, q)
  {
    DrawnAt(draws, k);
    hide Drawn;
  }
}
