/** The honest run, case after case: what holds after the first k of them. */
module HonestFold {
  import opened Symbols
  import opened Receipt
  import opened Protocol
  import opened ProtocolInvariant
  import opened Submission
  import opened Worker
  import opened Wire
  import opened Images
  import opened RecordVerifier
  import opened Lab
  import opened HonestCase
  import opened HonestObservation

  function PlannedVariant(v: Validated): Variant {
    v.prepared.variant
  }

  function GrantClaims(v: Validated): Payload {
    Claims(v.prepared.grant.receipt)
  }

  /** Two cases share no identity, no grant and no challenge. */
  ghost predicate Unrelated(a: Validated, b: Validated) {
    && a.prepared.caseId != b.prepared.caseId
    && CredOf(a).id != CredOf(b).id
    && GrantClaims(a).receiptId != GrantClaims(b).receiptId
    && a.prepared.grant.receipt != b.prepared.grant.receipt
    && a.prepared.grant.challengeHash != b.prepared.grant.challengeHash
    && a.prepared.grant.issuanceRequest != b.prepared.grant.issuanceRequest
    && (forall k, l :: 0 <= k < |a.prepared.requests| && 0 <= l < |b.prepared.requests| ==>
          a.prepared.requests[k].challenge != b.prepared.requests[l].challenge)
  }

  /** The seven variants, once each, with valid before replay before concurrent. */
  ghost predicate Matrix(vs: seq<Validated>) {
    && |vs| == 7 && Image(PlannedVariant, vs) == AllVariants
    && (forall i, j :: 0 <= i < |vs| && 0 <= j < |vs| && vs[i].prepared.variant == Valid && vs[j].prepared.variant == Replay ==> i < j)
    && (forall i, j :: 0 <= i < |vs| && 0 <= j < |vs| && vs[i].prepared.variant == Replay && vs[j].prepared.variant == Concurrent ==> i < j)
  }

  /** How many attempts the first k cases make. */
  function Offset(vs: seq<Validated>, k: nat): nat
    requires k <= |vs|
  {
    if k == 0 then 0 else Offset(vs, k - 1) + AttemptsOf(vs[k - 1])
  }

  /** How many of the first k cases execute. */
  function Score(vs: seq<Validated>, k: nat): int
    requires k <= |vs|
  {
    if k == 0 then 0 else Score(vs, k - 1) + Executed(vs[k - 1].prepared.variant)
  }

  /** One genuine case, waiting, with an honest schedule for its calls. */
  ghost predicate CaseStart(x: Setting, s0: State, v: Validated, sched: Schedule, base: nat) {
    Shaped(v) && Genuine(x, v) && Waiting(x, s0.shared, v) && HonestSteps(x.w, v, sched, base)
  }

  /** Before the run: a fresh counter, genuine unrelated cases waiting, honest schedules. */
  ghost predicate HonestStart(x: Setting, s0: State, vs: seq<Validated>, scheds: seq<Schedule>) {
    && x.Ok() && Inv(x.t.cfg, s0) && s0.shared.count == 0
    && |vs| == |scheds|
    && (forall i :: 0 <= i < |vs| ==> CaseStart(x, s0, vs[i], scheds[i], |s0.redeems| + Offset(vs, i)))
    && (forall i, j :: 0 <= i < j < |vs| ==> Unrelated(vs[i], vs[j]))
  }

  /** The recorded attempts are the answers of the calls appended since s0, in order. */
  ghost predicate Aligned(s0: State, s: State, attempts: seq<Attempt>) {
    && |s.redeems| == |s0.redeems| + |attempts|
    && AnswersFrom(s.redeems, |s0.redeems|, attempts)
  }

  /** After k cases. */
  ghost predicate Told(x: Setting, s0: State, vs: seq<Validated>, s: State, cases: seq<CaseObservation>, k: nat)
    requires k <= |vs|
  {
    && Inv(x.t.cfg, s) && s.shared.count == Score(vs, k)
    && |cases| == k && |Flat(cases)| == Offset(vs, k)
    && Aligned(s0, s, Flat(cases))
    && (forall i :: 0 <= i < k ==> CaseFacts(x, vs[i], Score(vs, i), Score(vs, i + 1), cases[i]))
    && (forall i :: k <= i < |vs| ==> Waiting(x, s.shared, vs[i]))
  }

  lemma ToldStart(x: Setting, s0: State, vs: seq<Validated>, scheds: seq<Schedule>)
    requires HonestStart(x, s0, vs, scheds)
    ensures Told(x, s0, vs, s0, [], 0)
  {
    hide Inv, HonestStart, Waiting;
    assert Inv(x.t.cfg, s0) && s0.shared.count == 0 by { StartCount(x, s0, vs, scheds); }
    forall i | 0 <= i < |vs|
      ensures Waiting(x, s0.shared, vs[i])
    {
      StartWaits(x, s0, vs, scheds, i);
    }
  }

  lemma StartCount(x: Setting, s0: State, vs: seq<Validated>, scheds: seq<Schedule>)
    requires HonestStart(x, s0, vs, scheds)
    ensures Inv(x.t.cfg, s0) && s0.shared.count == 0
  {
    hide Inv, CaseStart, Unrelated;
  }

  lemma StartWaits(x: Setting, s0: State, vs: seq<Validated>, scheds: seq<Schedule>, i: nat)
    requires HonestStart(x, s0, vs, scheds) && i < |vs|
    ensures Waiting(x, s0.shared, vs[i])
  {
    hide Inv, Genuine, HonestSteps, Waiting, Unrelated, Shaped, Offset;
    assert CaseStart(x, s0, vs[i], scheds[i], |s0.redeems| + Offset(vs, i));
  }

  lemma AlignedNext(s0: State, s: State, u: State, attempts: seq<Attempt>, more: seq<Attempt>)
    requires Aligned(s0, s, attempts) && |u.redeems| == |s.redeems| + |more| && u.redeems[..|s.redeems|] == s.redeems
    requires AnswersFrom(u.redeems, |s.redeems|, more)
    ensures Aligned(s0, u, attempts + more)
  {
    var n, all := |s0.redeems|, attempts + more;
    forall p | 0 <= p < |all|
      ensures AnswerFrom(u.redeems[n + p], all[p])
    {
      if p < |attempts| {
        assert u.redeems[n + p] == u.redeems[..|s.redeems|][n + p];
        assert all[p] == attempts[p];
      } else {
        var k := p - |attempts|;
        assert all[p] == more[k] && n + p == |s.redeems| + k;
      }
    }
  }

  lemma SettledPrefix(x: Setting, v: Validated, s: State, u: State, reasons: seq<Reason>)
    requires CaseSettled(x, v, s, u, reasons)
    ensures Inv(x.t.cfg, u) && |u.redeems| >= |s.redeems| && u.redeems[..|s.redeems|] == s.redeems
    ensures u.shared.count == s.shared.count + Executed(v.prepared.variant)
  {
    hide Inv, OnlyTouches, SettledCall, ReasonsOk, InOrder;
  }

  /** The case after the first k was redeemed and recorded too. */
  ghost predicate ToldAfter(x: Setting, s0: State, vs: seq<Validated>, s: State, sched: Schedule, cases: seq<CaseObservation>, k: nat)
    requires k < |vs| && Shaped(vs[k])
  {
    var u := RunCase(x.t, s, vs[k], sched);
    var c := ObserveCase(x.t, vs[k], s, u);
    c.Some? && Told(x, s0, vs, u, cases + [c.value], k + 1)
  }

  /** One more case. */
  lemma ToldNext(x: Setting, s0: State, vs: seq<Validated>, scheds: seq<Schedule>, s: State, cases: seq<CaseObservation>, k: nat)
    requires k < |vs| == |scheds| && Shaped(vs[k]) && Told(x, s0, vs, s, cases, k) && HonestStart(x, s0, vs, scheds)
    ensures ToldAfter(x, s0, vs, s, scheds[k], cases, k)
  {
    hide HonestStart, Told, Inv, Genuine, Waiting, HonestSteps, RunCase, ObserveCase, Flat, Aligned, CaseFacts, Unrelated, AnswersFrom, Shaped;
    var v := vs[k];
    StartAt(x, s0, vs, scheds, k);
    ToldAt(x, s0, vs, s, cases, k);
    var reasons := CaseSettles(x, s, v, scheds[k]);
    var u := RunCase(x.t, s, v, scheds[k]);
    hide CaseSettled;
    SettledPrefix(x, v, s, u, reasons);
    CaseObserved(x, v, s, u, reasons);
    var c := ObserveCase(x.t, v, s, u).value;
    FactsLength(x, v, s.shared.count, u.shared.count, c);
    FlatAppend(cases, c);
    AlignedNext(s0, s, u, Flat(cases), c.attempts);
    forall i | k + 1 <= i < |vs|
      ensures Waiting(x, u.shared, vs[i])
    {
      StartAt(x, s0, vs, scheds, i);
      ToldWaits(x, s0, vs, s, cases, k, i);
      UnrelatedParts(v, vs[i]);
      StillWaiting(x, s, u, v, reasons, vs[i]);
    }
    ToldMore(x, s0, vs, s, u, cases, c, k);
  }

  lemma StartAt(x: Setting, s0: State, vs: seq<Validated>, scheds: seq<Schedule>, i: nat)
    requires HonestStart(x, s0, vs, scheds) && i < |vs|
    ensures |vs| == |scheds| && x.Ok()
    ensures Shaped(vs[i]) && Genuine(x, vs[i]) && HonestSteps(x.w, vs[i], scheds[i], |s0.redeems| + Offset(vs, i))
    ensures forall k :: 0 <= k < i ==> Unrelated(vs[k], vs[i])
  {
    hide Inv, Genuine, HonestSteps, Waiting, Unrelated, Shaped, Offset;
    assert CaseStart(x, s0, vs[i], scheds[i], |s0.redeems| + Offset(vs, i));
  }

  lemma ToldAt(x: Setting, s0: State, vs: seq<Validated>, s: State, cases: seq<CaseObservation>, k: nat)
    requires k < |vs| && Told(x, s0, vs, s, cases, k)
    ensures Inv(x.t.cfg, s) && s.shared.count == Score(vs, k) && Aligned(s0, s, Flat(cases))
    ensures |s.redeems| == |s0.redeems| + Offset(vs, k) && Waiting(x, s.shared, vs[k])
  {
    hide Inv, Waiting, CaseFacts, Flat, AnswersFrom;
  }

  lemma ToldWaits(x: Setting, s0: State, vs: seq<Validated>, s: State, cases: seq<CaseObservation>, k: nat, i: nat)
    requires k <= i < |vs| && Told(x, s0, vs, s, cases, k)
    ensures Waiting(x, s.shared, vs[i])
  {
    hide Inv, Waiting, CaseFacts, Flat, Aligned;
  }

  lemma ToldMore(x: Setting, s0: State, vs: seq<Validated>, s: State, u: State, cases: seq<CaseObservation>, c: CaseObservation, k: nat)
    requires k < |vs| && Told(x, s0, vs, s, cases, k)
    requires Inv(x.t.cfg, u) && u.shared.count == Score(vs, k + 1)
    requires Flat(cases + [c]) == Flat(cases) + c.attempts && |c.attempts| == AttemptsOf(vs[k])
    requires Aligned(s0, u, Flat(cases) + c.attempts)
    requires CaseFacts(x, vs[k], Score(vs, k), Score(vs, k + 1), c)
    requires forall i :: k + 1 <= i < |vs| ==> Waiting(x, u.shared, vs[i])
    ensures Told(x, s0, vs, u, cases + [c], k + 1)
  {
    hide Inv, Waiting, CaseFacts, Flat, Aligned, AttemptsOf, Executed;
  }

  lemma UnrelatedParts(a: Validated, b: Validated)
    requires Unrelated(a, b)
    ensures CredOf(a).id != CredOf(b).id
    ensures forall k, l :: 0 <= k < |a.prepared.requests| && 0 <= l < |b.prepared.requests| ==>
              a.prepared.requests[k].challenge != b.prepared.requests[l].challenge
  {
  }

  lemma FactsLength(x: Setting, v: Validated, low: int, high: int, c: CaseObservation)
    requires CaseFacts(x, v, low, high, c)
    ensures Shaped(v) && |c.attempts| == AttemptsOf(v)
  {
  }

  lemma FlatAppend(cases: seq<CaseObservation>, c: CaseObservation)
    ensures Flat(cases + [c]) == Flat(cases) + c.attempts
  {
    assert (cases + [c])[..|cases|] == cases;
  }

  /** No check of the controller fails in an honest run, and every recorded case is as it should be. */
  lemma {:induction false} HonestFoldRuns(x: Setting, s0: State, vs: seq<Validated>, scheds: seq<Schedule>, k: nat)
    requires k <= |vs| == |scheds| && (forall i :: 0 <= i < |vs| ==> Shaped(vs[i])) && HonestStart(x, s0, vs, scheds)
    ensures FoldTold(x, s0, vs, scheds, k)
  {
    hide HonestStart, Told, Shaped, RunCase, ObserveCase;
    if k == 0 {
      ToldStart(x, s0, vs, scheds);
    } else {
      HonestFoldRuns(x, s0, vs, scheds, k - 1);
      var (s, cases) := Redeemed(x.t, s0, vs, scheds, k - 1);
      ToldNext(x, s0, vs, scheds, s, cases.value, k - 1);
    }
  }

  /** The first k cases were redeemed without a failure and recorded. */
  ghost predicate FoldTold(x: Setting, s0: State, vs: seq<Validated>, scheds: seq<Schedule>, k: nat)
    requires k <= |vs| == |scheds| && forall i :: 0 <= i < |vs| ==> Shaped(vs[i])
  {
    var (s, cases) := Redeemed(x.t, s0, vs, scheds, k);
    cases.Some? && Told(x, s0, vs, s, cases.value, k)
  }

  // ---- Where the three executions fall ----

  /** The positions of the three executing variants. */
  ghost predicate Turns(vs: seq<Validated>, a: int, b: int, c: int) {
    && 0 <= a < b < c < |vs|
    && (forall i :: 0 <= i < |vs| ==>
          && (vs[i].prepared.variant == Valid <==> i == a)
          && (vs[i].prepared.variant == Replay <==> i == b)
          && (vs[i].prepared.variant == Concurrent <==> i == c))
  }

  lemma SevenVariants()
    ensures |AllVariants| == 7
  {
  }

  lemma MatrixDistinct(vs: seq<Validated>, i: nat, j: nat)
    requires Matrix(vs) && i < j < |vs|
    ensures vs[i].prepared.variant != vs[j].prepared.variant
  {
    hide Image;
    SevenVariants();
    FullImage(PlannedVariant, vs, i, j);
  }

  lemma MatrixHas(vs: seq<Validated>, v: Variant) returns (i: nat)
    requires Matrix(vs)
    ensures i < |vs| && vs[i].prepared.variant == v
  {
    assert v in AllVariants;
    var k :| 0 <= k < |vs| && PlannedVariant(vs[k]) == v;
    i := k;
  }

  lemma MatrixTurns(vs: seq<Validated>) returns (a: nat, b: nat, c: nat)
    requires Matrix(vs)
    ensures Turns(vs, a, b, c)
  {
    a := MatrixHas(vs, Valid);
    b := MatrixHas(vs, Replay);
    c := MatrixHas(vs, Concurrent);
    hide Image;
    forall i | 0 <= i < |vs|
      ensures vs[i].prepared.variant == Valid <==> i == a
      ensures vs[i].prepared.variant == Replay <==> i == b
      ensures vs[i].prepared.variant == Concurrent <==> i == c
    {
      forall j | j == a || j == b || j == c
        ensures i != j ==> vs[i].prepared.variant != vs[j].prepared.variant
      {
        if i < j { MatrixDistinct(vs, i, j); } else if j < i { MatrixDistinct(vs, j, i); }
      }
    }
  }

  lemma {:induction false} ScoreTurns(vs: seq<Validated>, a: int, b: int, c: int, k: nat)
    requires Turns(vs, a, b, c) && k <= |vs|
    ensures Score(vs, k) == (if k > a then 1 else 0) + (if k > b then 1 else 0) + (if k > c then 1 else 0)
  {
    if k > 0 {
      ScoreTurns(vs, a, b, c, k - 1);
      var v := vs[k - 1].prepared.variant;
      assert AllowVariant(v) <==> k - 1 == a || k - 1 == b || k - 1 == c;
    }
  }
}
