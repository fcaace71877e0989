/** Preparing a case: its requests, their names, and the challenges issued for them. */
module Preparation {
  import opened Symbols
  import opened Storage
  import opened Protocol
  import opened Worker
  import opened Controller

  datatype CaseSpec = CaseSpec(caseId: string, variant: Variant, sku: string, recordId: string, concurrency: nat) {
    /** The specification's own validator. */
    predicate Ok() {
      && sku != "" && recordId != ""
      && 1 <= concurrency <= 64
      && (variant == Concurrent ==> concurrency >= 2)
      && (variant != Concurrent ==> concurrency == 1)
    }
  }

  function Digit(n: nat): char
    requires n < 10
  {
    "0123456789"[n]
  }

  /** f"{base}.{n:02d}", for n below 100. */
  function Numbered(base: string, n: nat): string
    requires n < 100
  {
    base + "." + [Digit(n / 10), Digit(n % 10)]
  }

  /** Run and record names: the bare name for a single request, numbered from 01 otherwise. */
  function NameAt(base: string, count: nat, index: nat): string
    requires index < count <= 64
  {
    if count == 1 then base else Numbered(base, index + 1)
  }

  lemma NamesDiffer(base: string, count: nat, i: nat, j: nat)
    requires i < j < count <= 64
    ensures NameAt(base, count, i) != NameAt(base, count, j)
  {
    hide Digit;
    NameEnds(base, i + 1);
    NameEnds(base, j + 1);
    DigitsDiffer(i + 1, j + 1);
  }

  lemma NameEnds(base: string, n: nat)
    requires n < 100
    ensures var s := Numbered(base, n);
            |s| == |base| + 3 && s[|base| + 1] == Digit(n / 10) && s[|base| + 2] == Digit(n % 10)
  {
    hide Digit;
  }

  lemma DigitsDiffer(m: nat, n: nat)
    requires m < n < 100
    ensures Digit(m / 10) != Digit(n / 10) || Digit(m % 10) != Digit(n % 10)
  {
    assert forall a, b :: 0 <= a < b < 10 ==> "0123456789"[a] != "0123456789"[b];
  }

  /** The names themselves: the bare name alone, otherwise a dot and the position from 01. */
  lemma NamesAre(base: string, count: nat, index: nat)
    requires index < count <= 64
    ensures count == 1 ==> NameAt(base, count, index) == base
    ensures count > 1 ==>
      var s := NameAt(base, count, index);
      && |s| == |base| + 3 && s[..|base|] == base && s[|base|] == '.'
      && s[|base| + 1] as int == '0' as int + (index + 1) / 10 && s[|base| + 2] as int == '0' as int + (index + 1) % 10
  {
    if count > 1 {
      NameEnds(base, index + 1);
      DigitValue((index + 1) / 10);
      DigitValue((index + 1) % 10);
      hide Digit;
      var s := NameAt(base, count, index);
      assert s[..|base|] == base;
    }
  }

  lemma DigitValue(n: nat)
    requires n < 10
    ensures Digit(n) as int == '0' as int + n
  {
    assert "0123456789"[n] as int == '0' as int + n;
  }

  /** One challenge as drawn: its token and the clock reading it was issued at. */
  datatype Draw = Draw(token: Term, now: int)

  function RequestFor(t: Trust, spec: CaseSpec, g: Grant, d: Draw, index: nat): WorkerRequest
    requires spec.Ok() && index < spec.concurrency
  {
    WorkerRequest(spec.caseId, NameAt(spec.caseId, spec.concurrency, index), spec.variant, g.credential, d.token,
                  t.cfg.resource.audience, t.cfg.resource.scope, NameAt(spec.recordId, spec.concurrency, index), spec.sku,
                  t.expected.image, t.expected.codeDigest)
  }

  function RequestsFor(t: Trust, spec: CaseSpec, g: Grant, draws: seq<Draw>): seq<WorkerRequest>
    requires spec.Ok() && |draws| <= spec.concurrency
  {
    seq(|draws|, k requires 0 <= k < |draws| => RequestFor(t, spec, g, draws[k], k))
  }

  /** A prepared request carries the case's names, the granted credential, the drawn challenge, the
      resource's own audience and scope, and the pinned build. */
  lemma RequestCarries(t: Trust, spec: CaseSpec, g: Grant, draws: seq<Draw>, k: nat)
    requires spec.Ok() && k < |draws| <= spec.concurrency
    ensures var q := RequestsFor(t, spec, g, draws)[k];
            && q.caseId == spec.caseId && q.variant == spec.variant && q.sku == spec.sku
            && q.runId == NameAt(spec.caseId, spec.concurrency, k) && q.recordId == NameAt(spec.recordId, spec.concurrency, k)
            && q.credential == g.credential && q.challenge == draws[k].token
            && q.audience == t.cfg.resource.audience && q.scope == t.cfg.resource.scope
            && q.image == t.expected.image && q.codeDigest == t.expected.codeDigest
  {
    hide NameAt;
  }

  /** The system label that issues a request's challenge. */
  function ChallengeLabel(q: WorkerRequest, now: int): Label {
    NewResourceChallenge(q.challenge, q.credential.id, q.sku, Plain(q.recordId), now)
  }

  /** The state after the first n challenges of a case. */
  function Challenged(t: Trust, s: State, spec: CaseSpec, g: Grant, draws: seq<Draw>): State
    requires spec.Ok() && |draws| <= spec.concurrency
    decreases |draws|
  {
    if draws == [] then s
    else
      var m := |draws| - 1;
      Next(t.cfg, Challenged(t, s, spec, g, draws[..m]), ChallengeLabel(RequestFor(t, spec, g, draws[m], m), draws[m].now))
  }

  /** The draws go through: a well-formed credential id, readings at which a token can be issued,
      and tokens that are new and different. */
  ghost predicate DrawsOk(s: State, g: Grant, draws: seq<Draw>) {
    && LowerHex(g.credential.id)
    && (forall k :: 0 <= k < |draws| ==> draws[k].now >= 0 && TokenHash(draws[k].token) !in s.shared.tables.resource)
    && (forall i, j :: 0 <= i < j < |draws| ==> draws[i].token != draws[j].token)
  }

  /** The row that request k of the case gets. */
  function RowFor(t: Trust, spec: CaseSpec, g: Grant, d: Draw, k: nat): ResourceRow
    requires spec.Ok() && k < spec.concurrency
  {
    ChallengeRow(t.cfg, g.credential.id, spec.sku, Plain(NameAt(spec.recordId, spec.concurrency, k)), d.now)
  }

  predicate Drawn(draws: seq<Draw>, h: Term) {
    exists k :: 0 <= k < |draws| && h == TokenHash(draws[k].token)
  }

  /** The second table is the first with one new row per draw. */
  ghost predicate Adds(t: Trust, spec: CaseSpec, g: Grant, draws: seq<Draw>, a: map<Term, ResourceRow>, b: map<Term, ResourceRow>)
    requires spec.Ok() && |draws| <= spec.concurrency
  {
    && (forall h :: h in b <==> h in a || Drawn(draws, h))
    && (forall h :: h in a ==> b[h] == a[h])
    && (forall k :: 0 <= k < |draws| ==> b[TokenHash(draws[k].token)] == RowFor(t, spec, g, draws[k], k))
  }

  lemma DrawnAppend(draws: seq<Draw>, d: Draw, h: Term)
    ensures Drawn(draws + [d], h) <==> Drawn(draws, h) || h == TokenHash(d.token)
  {
    var all := draws + [d];
    if Drawn(draws, h) {
      var k :| 0 <= k < |draws| && h == TokenHash(draws[k].token);
      assert h == TokenHash(all[k].token);
    }
    if h == TokenHash(d.token) {
      assert h == TokenHash(all[|draws|].token);
    }
  }

  lemma AddsNext(t: Trust, spec: CaseSpec, g: Grant, draws: seq<Draw>, d: Draw, a: map<Term, ResourceRow>, b: map<Term, ResourceRow>)
    requires spec.Ok() && |draws| < spec.concurrency && Adds(t, spec, g, draws, a, b) && TokenHash(d.token) !in b
    ensures Adds(t, spec, g, draws + [d], a, b[TokenHash(d.token) := RowFor(t, spec, g, d, |draws|)])
  {
    hide RowFor, TokenHash, Drawn;
    var h', all := TokenHash(d.token), draws + [d];
    var c := b[h' := RowFor(t, spec, g, d, |draws|)];
    forall h
      ensures h in c <==> h in a || Drawn(all, h)
    {
      DrawnAppend(draws, d, h);
    }
    forall k | 0 <= k < |all|
      ensures TokenHash(all[k].token) in c && c[TokenHash(all[k].token)] == RowFor(t, spec, g, all[k], k)
    {
      if k < |draws| {
        assert all[k] == draws[k];
        DrawnAt(draws, k);
      }
    }
  }

  lemma DrawnAt(draws: seq<Draw>, k: nat)
    requires k < |draws|
    ensures Drawn(draws, TokenHash(draws[k].token))
  {
  }

  /** Issuing one challenge touches nothing but the resource table. */
  lemma OneChallenge(t: Trust, s: State, spec: CaseSpec, g: Grant, d: Draw, k: nat)
    requires spec.Ok() && k < spec.concurrency
    ensures var u := Next(t.cfg, s, ChallengeLabel(RequestFor(t, spec, g, d, k), d.now));
            DrawOk(s, g, d) ==>
              u == s.(clock := d.now, shared := s.shared.(tables := s.shared.tables.(resource :=
                s.shared.tables.resource[TokenHash(d.token) := RowFor(t, spec, g, d, k)])))
  {
    hide LowerHex, NameAt;
  }

  ghost predicate OnlyResource(s: State, u: State) {
    u == s.(clock := u.clock, shared := s.shared.(tables := s.shared.tables.(resource := u.shared.tables.resource)))
  }

  /** Issuing a case's challenges touches nothing but the resource table, where it adds one row
      per request. */
  lemma {:induction false} ChallengedRows(t: Trust, s: State, spec: CaseSpec, g: Grant, draws: seq<Draw>)
    requires spec.Ok() && |draws| <= spec.concurrency && DrawsOk(s, g, draws)
    ensures var u := Challenged(t, s, spec, g, draws);
            OnlyResource(s, u) && Adds(t, spec, g, draws, s.shared.tables.resource, u.shared.tables.resource)
    decreases |draws|
  {
    hide LowerHex, Adds, OnlyResource, RequestFor, ChallengeLabel, Next, DrawOk;
    if draws == [] {
      NothingAdded(t, s, spec, g);
    } else {
      var m := |draws| - 1;
      var before, d := draws[..m], draws[m];
      assert forall k :: 0 <= k < m ==> before[k] == draws[k];
      assert before + [d] == draws;
      ChallengedRows(t, s, spec, g, before);
      var v := Challenged(t, s, spec, g, before);
      StillNew(t, s, v, spec, g, before, d);
      OneMore(t, s, v, spec, g, before, d);
    }
  }

  lemma NothingAdded(t: Trust, s: State, spec: CaseSpec, g: Grant)
    requires spec.Ok()
    ensures OnlyResource(s, s) && Adds(t, spec, g, [], s.shared.tables.resource, s.shared.tables.resource)
  {
  }

  lemma OneMore(t: Trust, s: State, v: State, spec: CaseSpec, g: Grant, draws: seq<Draw>, d: Draw)
    requires spec.Ok() && |draws| < spec.concurrency && DrawOk(v, g, d) && OnlyResource(s, v)
    requires Adds(t, spec, g, draws, s.shared.tables.resource, v.shared.tables.resource)
    ensures var u := Next(t.cfg, v, ChallengeLabel(RequestFor(t, spec, g, d, |draws|), d.now));
            OnlyResource(s, u) && Adds(t, spec, g, draws + [d], s.shared.tables.resource, u.shared.tables.resource)
  {
    hide LowerHex, RowFor, RequestFor, ChallengeLabel, Next, Adds;
    OneChallenge(t, v, spec, g, d, |draws|);
    AddsNext(t, spec, g, draws, d, s.shared.tables.resource, v.shared.tables.resource);
  }

  lemma StillNew(t: Trust, s: State, v: State, spec: CaseSpec, g: Grant, draws: seq<Draw>, d: Draw)
    requires spec.Ok() && |draws| <= spec.concurrency && LowerHex(g.credential.id) && d.now >= 0
    requires Adds(t, spec, g, draws, s.shared.tables.resource, v.shared.tables.resource)
    requires TokenHash(d.token) !in s.shared.tables.resource
    requires forall k :: 0 <= k < |draws| ==> draws[k].token != d.token
    ensures DrawOk(v, g, d)
  {
    hide LowerHex, RowFor;
  }

  /** An issue that fails: the row set does not grow by this token. */
  predicate DrawOk(s: State, g: Grant, d: Draw) {
    LowerHex(g.credential.id) && d.now >= 0 && TokenHash(d.token) !in s.shared.tables.resource
  }

  lemma DrawsExtend(t: Trust, s: State, spec: CaseSpec, g: Grant, draws: seq<Draw>)
    requires spec.Ok() && draws != [] && |draws| <= spec.concurrency && DrawsOk(s, g, draws[..|draws| - 1])
    ensures DrawsOk(s, g, draws) <==>
            DrawOk(Challenged(t, s, spec, g, draws[..|draws| - 1]), g, draws[|draws| - 1])
  {
    hide LowerHex, RowFor, Challenged;
    var m := |draws| - 1;
    var before, d := draws[..m], draws[m];
    ChallengedRows(t, s, spec, g, before);
    assert forall k :: 0 <= k < m ==> before[k] == draws[k];
    var u := Challenged(t, s, spec, g, before);
    if DrawOk(u, g, d) {
      forall k | 0 <= k < m
        ensures draws[k].token != d.token
      {
        DrawnAt(before, k);
      }
    }
    if DrawsOk(s, g, draws) {
      StillNew(t, s, u, spec, g, before, d);
    }
  }

  /** The draws seen so far go on going through exactly when the next one does; a draw that fails
      fails the whole case. */
  lemma DrawsStep(t: Trust, s: State, spec: CaseSpec, g: Grant, draws: seq<Draw>, i: nat)
    requires spec.Ok() && i < |draws| == spec.concurrency && (i > 0 ==> DrawsOk(s, g, draws[..i]))
    ensures DrawOk(Challenged(t, s, spec, g, draws[..i]), g, draws[i]) <==> DrawsOk(s, g, draws[..i + 1])
    ensures DrawsOk(s, g, draws) ==> DrawsOk(s, g, draws[..i + 1])
  {
    hide DrawsOk, DrawOk, Challenged;
    var some := draws[..i + 1];
    assert some[..i] == draws[..i] && some[i] == draws[i];
    DrawsPrefix(s, g, draws, i + 1);
    if i > 0 {
      DrawsExtend(t, s, spec, g, some);
    } else {
      FirstDraw(t, s, spec, g, some);
    }
  }

  lemma DrawsPrefix(s: State, g: Grant, draws: seq<Draw>, n: nat)
    requires n <= |draws|
    ensures DrawsOk(s, g, draws) ==> DrawsOk(s, g, draws[..n])
  {
    hide LowerHex;
  }

  lemma FirstDraw(t: Trust, s: State, spec: CaseSpec, g: Grant, draws: seq<Draw>)
    requires spec.Ok() && |draws| == 1
    ensures DrawOk(Challenged(t, s, spec, g, draws[..0]), g, draws[0]) <==> DrawsOk(s, g, draws)
  {
    hide LowerHex;
    NothingChallenged(t, s, spec, g, draws);
    hide Challenged;
  }

  lemma NothingChallenged(t: Trust, s: State, spec: CaseSpec, g: Grant, draws: seq<Draw>)
    requires spec.Ok()
    ensures RequestsFor(t, spec, g, draws[..0]) == [] && Challenged(t, s, spec, g, draws[..0]) == s
  {
  }

  lemma ChallengedMore(t: Trust, s: State, spec: CaseSpec, g: Grant, draws: seq<Draw>, i: nat)
    requires spec.Ok() && i < |draws| <= spec.concurrency
    ensures RequestsFor(t, spec, g, draws[..i + 1]) == RequestsFor(t, spec, g, draws[..i]) + [RequestFor(t, spec, g, draws[i], i)]
    ensures Challenged(t, s, spec, g, draws[..i + 1]) ==
            Next(t.cfg, Challenged(t, s, spec, g, draws[..i]), ChallengeLabel(RequestFor(t, spec, g, draws[i], i), draws[i].now))
  {
    hide Next, RequestFor, ChallengeLabel;
    assert draws[..i + 1][..i] == draws[..i];
  }
}
