/** What the controller records for a settled honest case. */
module HonestObservation {
  import opened Symbols
  import opened Receipt
  import opened Protocol
  import opened ProtocolInvariant
  import opened Submission
  import opened Worker
  import opened Wire
  import opened RecordVerifier
  import opened Controller
  import opened Lab
  import opened HonestCase

  /** The request behind the k-th attempt; a replay submits its only request twice. */
  function RequestAt(v: Validated, k: nat): WorkerRequest
    requires Shaped(v) && k < AttemptsOf(v)
  {
    v.prepared.requests[if v.prepared.variant == Replay then 0 else k]
  }

  function ResponseAt(v: Validated, k: nat): WorkerResponse
    requires Shaped(v) && k < AttemptsOf(v)
  {
    v.responses[if v.prepared.variant == Replay then 0 else k]
  }

  /** One attempt as recorded: built from a receipt that binds the request and saw the counter
      between two readings. */
  ghost predicate AttemptFacts(x: Setting, v: Validated, k: nat, reason: Reason, low: int, high: int, a: Attempt)
    requires Shaped(v) && k < AttemptsOf(v)
  {
    && a.receipt.Compact?
    && var p := a.receipt.claims;
    && a == AttemptFrom(x.t, RequestAt(v, k), ResponseAt(v, k), if v.prepared.variant == Replay then k + 1 else 1, p)
    && ReceiptBinds(x.t, RequestAt(v, k), p)
    && x.w.lo <= p.decidedAt <= x.w.hi && low <= p.snapshot <= high
    && p.reason == reason && p.decision == (if reason == ALLOW then Allow else Deny)
    && p.invocationId == (if reason == ALLOW then Some(high) else None)
    && p.manifestDigest.None?
  }

  lemma LookupAt(x: Setting, v: Validated, k: nat)
    requires x.Ok() && Genuine(x, v) && k < AttemptsOf(v)
    ensures Shaped(v) && k < |AllLookups(v)|
    ensures var r, q := AllLookups(v)[k], RequestAt(v, k);
            && r.sku == q.sku && r.recordId == Plain(q.recordId) && PreparedFor(x.t.cfg, q)
            && TokenShown(r) == (if q.variant == Malformed then None else Some(TokenHash(q.challenge)))
            && q.variant == v.prepared.variant && q.credential == CredOf(v)
  {
    hide GrantOk, BoundsAccepted;
    var j := if v.prepared.variant == Replay then 0 else k;
    LookupFacts(x, v, j);
    assert RequestOk(x, v, v.prepared.requests[j], v.responses[j]);
  }

  /** A settled call of an honest case is recorded. */
  lemma ObservedAt(x: Setting, v: Validated, calls: seq<RedeemCall>, k: nat, reason: Reason, low: int, high: int)
    requires x.Ok() && Genuine(x, v) && Shaped(v) && k < AttemptsOf(v) == |calls| && k < |AllLookups(v)|
    requires SettledCall(x.t.cfg, x.w, low, high, CredOf(v), AllLookups(v)[k], reason, calls[k])
    requires reason != HANDLER_FAILED
    ensures ObserveAt(x.t, v, calls, k).Some? && calls[k].pc.Answered?
    ensures AttemptFacts(x, v, k, reason, low, high, ObserveAt(x.t, v, calls, k).value)
    ensures ObserveAt(x.t, v, calls, k).value.receipt.claims == calls[k].pc.receipt
    ensures AttemptSemantics(ObserveAt(x.t, v, calls, k).value)
  {
    hide Genuine, AllLookups, ReceiptBinds, AttemptSemantics, AnsweredFor, RequestDigest, ResponseDigest, ProofDigest;
    LookupAt(x, v, k);
    var p, q, seqno := calls[k].pc.receipt, RequestAt(v, k), if v.prepared.variant == Replay then k + 1 else 1;
    AnswerBinds(x, v, AllLookups(v)[k], q, reason, high, p);
    AnswerSemantics(x, CredOf(v), AllLookups(v)[k], q, ResponseAt(v, k), seqno, reason, high, p);
  }

  lemma AnswerBinds(x: Setting, v: Validated, r: LookupRequest, q: WorkerRequest, reason: Reason, number: int, p: Payload)
    requires AnsweredFor(x.t.cfg, x.w, CredOf(v), r, reason, number, p)
    requires r.sku == q.sku && r.recordId == Plain(q.recordId) && PreparedFor(x.t.cfg, q) && q.credential == CredOf(v)
    requires TokenShown(r) == (if q.variant == Malformed then None else Some(TokenHash(q.challenge)))
    ensures ReceiptBinds(x.t, q, p)
    ensures p.reason == reason && p.decision == (if reason == ALLOW then Allow else Deny) && p.manifestDigest.None?
    ensures p.invocationId == (if reason == ALLOW then Some(number) else None) && x.w.lo <= p.decidedAt <= x.w.hi
  {
    hide ValidPayload;
  }

  lemma AnswerSemantics(
    x: Setting, cred: Credential, r: LookupRequest, q: WorkerRequest, resp: WorkerResponse, seqno: int, reason: Reason, number: int, p: Payload)
    requires AnsweredFor(x.t.cfg, x.w, cred, r, reason, number, p) && 1 <= seqno <= 2 && reason != HANDLER_FAILED
    ensures AttemptSemantics(AttemptFrom(x.t, q, resp, seqno, p))
  {
    hide ConsistentInventory, ConsistentBroker, RequestDigest, ResponseDigest, ProofDigest;
  }

  /** All attempts of a case, recorded for the given reasons, from the calls' own receipts. */
  ghost predicate AttemptsFacts(
    x: Setting, v: Validated, reasons: seq<Reason>, low: int, high: int, calls: seq<RedeemCall>, attempts: seq<Attempt>)
    requires Shaped(v) && |attempts| <= AttemptsOf(v) == |calls| == |reasons|
  {
    forall k :: 0 <= k < |attempts| ==>
      && AttemptFacts(x, v, k, reasons[k], low, high, attempts[k]) && AttemptSemantics(attempts[k])
      && calls[k].pc.Answered? && attempts[k].receipt.claims == calls[k].pc.receipt
  }

  lemma {:induction false} ObservedCalls(
    x: Setting, v: Validated, calls: seq<RedeemCall>, reasons: seq<Reason>, low: int, high: int, n: nat)
    requires x.Ok() && Genuine(x, v) && Shaped(v) && n <= AttemptsOf(v) == |calls| == |reasons| == |AllLookups(v)|
    requires forall k :: 0 <= k < |calls| ==>
               reasons[k] != HANDLER_FAILED
               && SettledCall(x.t.cfg, x.w, low, high, CredOf(v), AllLookups(v)[k], reasons[k], calls[k])
    ensures ObserveCalls(x.t, v, calls, n).Some? && |ObserveCalls(x.t, v, calls, n).value| == n
    ensures AttemptsFacts(x, v, reasons, low, high, calls, ObserveCalls(x.t, v, calls, n).value)
  {
    hide Genuine, AllLookups, SettledCall, AttemptFacts, ObserveAt, AttemptSemantics;
    if n > 0 {
      ObservedCalls(x, v, calls, reasons, low, high, n - 1);
      ObservedAt(x, v, calls, n - 1, reasons[n - 1], low, high);
    }
  }

  // ---- The record of one case ----

  function VerdictOf(reason: Reason): (bool, Reason) {
    (reason == ALLOW, reason)
  }

  function VerdictSeq(reasons: seq<Reason>): seq<(bool, Reason)> {
    seq(|reasons|, k requires 0 <= k < |reasons| => VerdictOf(reasons[k]))
  }

  /** Wherever the winner stands, the sorted verdicts are one ALLOW and the rest spent. */
  lemma WinnerVerdicts(reasons: seq<Reason>, k: int)
    requires OneWinner(reasons, k)
    ensures multiset(VerdictSeq(reasons)) == multiset(ExpectedVerdicts(Concurrent, |reasons|))
  {
    var won, lost := (true, ALLOW), (false, CREDENTIAL_SPENT);
    var a, b := seq(k, _ => lost), seq(|reasons| - 1 - k, _ => lost);
    assert VerdictSeq(reasons) == a + [won] + b;
    assert ExpectedVerdicts(Concurrent, |reasons|) == [won] + (a + b);
  }

  lemma VerdictsAgree(v: Variant, reasons: seq<Reason>)
    requires ReasonsOk(v, reasons)
    ensures reasons != [] && VerdictsMatch(v, |reasons|, VerdictSeq(reasons))
    ensures forall k :: 0 <= k < |reasons| ==> reasons[k] != HANDLER_FAILED
  {
    if v == Concurrent {
      var k :| OneWinner(reasons, k);
      WinnerVerdicts(reasons, k);
    }
  }

  /** Exactly the k-th reason is ALLOW when the variant executes, none otherwise. */
  predicate AllowedAt(v: Variant, reasons: seq<Reason>, k: int) {
    if AllowVariant(v) then 0 <= k < |reasons| && forall j :: 0 <= j < |reasons| ==> (reasons[j] == ALLOW <==> j == k)
    else k == 0 && ALLOW !in reasons
  }

  lemma ReasonsAllowOnce(v: Variant, reasons: seq<Reason>) returns (k: int)
    requires ReasonsOk(v, reasons)
    ensures AllowedAt(v, reasons, k)
  {
    k := 0;
    if v == Concurrent {
      k :| OneWinner(reasons, k);
    }
  }

  /** An attempt that drew the number, or one that drew none. */
  predicate Drew(a: Attempt, drew: bool, number: int) {
    a.allowed == drew && a.invocationId == if drew then Some(number) else None
  }

  /** The numbers of attempts of which at most the k-th drew one. */
  lemma {:induction false} NumbersAt(attempts: seq<Attempt>, won: bool, k: int, number: int)
    requires forall j :: 0 <= j < |attempts| ==> Drew(attempts[j], won && j == k, number)
    ensures InvocationIds(attempts) == if won && 0 <= k < |attempts| then [number] else []
    ensures AllowedIds(attempts) == if won && 0 <= k < |attempts| then [Some(number)] else []
  {
    if attempts != [] {
      var m := |attempts| - 1;
      assert Drew(attempts[m], won && m == k, number);
      NumbersAt(attempts[..m], won, k, number);
    }
  }

  lemma NumbersOf(x: Setting, v: Validated, reasons: seq<Reason>, low: int, high: int, attempts: seq<Attempt>, k: int)
    requires Shaped(v) && |attempts| == AttemptsOf(v) == |reasons| && AllowedAt(v.prepared.variant, reasons, k)
    requires forall j :: 0 <= j < |attempts| ==> AttemptFacts(x, v, j, reasons[j], low, high, attempts[j])
    ensures InvocationIds(attempts) == if AllowVariant(v.prepared.variant) then [high] else []
    ensures AllowedIds(attempts) == if AllowVariant(v.prepared.variant) then [Some(high)] else []
  {
    hide AttemptFacts, InvocationIds, AllowedIds;
    var won := AllowVariant(v.prepared.variant);
    forall j | 0 <= j < |attempts|
      ensures Drew(attempts[j], won && j == k, high)
    {
      NumberAt(x, v, j, reasons[j], low, high, attempts[j]);
    }
    NumbersAt(attempts, won, k, high);
  }

  lemma NumberAt(x: Setting, v: Validated, k: nat, reason: Reason, low: int, high: int, a: Attempt)
    requires Shaped(v) && k < AttemptsOf(v) && AttemptFacts(x, v, k, reason, low, high, a)
    ensures a.allowed == (reason == ALLOW) && a.invocationId == (if reason == ALLOW then Some(high) else None)
  {
    hide ReceiptBinds, RequestDigest, ResponseDigest, ProofDigest;
  }

  /** Different requests leave different marks on their attempts. */
  lemma DifferentMarks(x: Setting, v: Validated, reasons: seq<Reason>, low: int, high: int, attempts: seq<Attempt>, i: nat, j: nat)
    requires x.Ok() && Genuine(x, v) && Shaped(v) && v.prepared.variant == Concurrent
    requires i < j < |attempts| == AttemptsOf(v) == |reasons|
    requires AttemptFacts(x, v, i, reasons[i], low, high, attempts[i]) && AttemptFacts(x, v, j, reasons[j], low, high, attempts[j])
    ensures DifferentCall(attempts[i], attempts[j])
    ensures ChallengeOf(attempts[i]) != ChallengeOf(attempts[j]) && RecordIdOf(attempts[i]) != RecordIdOf(attempts[j])
    ensures ArgumentsOf(attempts[i]) == ArgumentsOf(attempts[j])
  {
    hide GrantOk, BoundsAccepted;
    var qs, ps := v.prepared.requests, v.responses;
    assert Apart(qs[i], qs[j]);
    assert RequestOk(x, v, qs[i], ps[i]) && RequestOk(x, v, qs[j], ps[j]);
    MarksApart(x.holder, qs[i], qs[j]);
    hide ValidPayload, Generate, RequestDigest, ResponseDigest, ProofDigest;
  }

  lemma MarksApart(h: Holder, a: WorkerRequest, b: WorkerRequest)
    requires a.runId != b.runId && a.challenge != b.challenge
    ensures RequestDigest(a) != RequestDigest(b)
    ensures ResponseDigest(Generate(h, a)) != ResponseDigest(Generate(h, b))
    ensures ProofDigest(Generate(h, a).body.proof) != ProofDigest(Generate(h, b).body.proof)
  {
    var da, db := RequestDigest(a), RequestDigest(b);
    assert da.parts[1] == Plain(a.runId) && db.parts[1] == Plain(b.runId);
    var pa, pb := Generate(h, a), Generate(h, b);
    assert ResponseDigest(pa).parts[1] == Plain(a.runId) && ResponseDigest(pb).parts[1] == Plain(b.runId);
    assert ProofDigest(pa.body.proof).parts[0] == a.challenge && ProofDigest(pb.body.proof).parts[0] == b.challenge;
  }

  /** What is known of a recorded case once it is recorded. */
  ghost predicate CaseFacts(x: Setting, v: Validated, low: int, high: int, c: CaseObservation) {
    && Shaped(v) && CaseSemantics(c)
    && c.caseId == v.prepared.caseId && c.variant == v.prepared.variant && c.brokerReceipt == v.prepared.grant.receipt
    && c.workerKey == x.t.expected.workerKey && c.image == x.t.expected.image && c.codeDigest == x.t.expected.codeDigest
    && |c.attempts| == AttemptsOf(v)
    && (forall k :: 0 <= k < |c.attempts| ==> AttemptFacts(x, v, k, c.attempts[k].reason, low, high, c.attempts[k]))
    && InvocationIds(c.attempts) == (if AllowVariant(v.prepared.variant) then [high] else [])
    && AllowedIds(c.attempts) == (if AllowVariant(v.prepared.variant) then [Some(high)] else [])
    && (v.prepared.variant == Replay ==>
          && DecidedAtOf(c.attempts[0]) <= DecidedAtOf(c.attempts[1])
          && SnapshotOf(c.attempts[0]) <= SnapshotOf(c.attempts[1]))
  }

  lemma SettledParts(x: Setting, v: Validated, s: State, u: State, reasons: seq<Reason>)
    requires CaseSettled(x, v, s, u, reasons)
    ensures Shaped(v) && |AllLookups(v)| == AttemptsOf(v) == |reasons| && |u.redeems| == |s.redeems| + AttemptsOf(v)
    ensures ReasonsOk(v.prepared.variant, reasons)
    ensures forall k :: 0 <= k < |reasons| ==>
              SettledCall(x.t.cfg, x.w, s.shared.count, u.shared.count, CredOf(v), AllLookups(v)[k], reasons[k],
                          u.redeems[|s.redeems|..][k])
    ensures v.prepared.variant == Replay ==>
              InOrder(u.redeems, |s.redeems|) && u.redeems[|s.redeems|] == u.redeems[|s.redeems|..][0]
              && u.redeems[|s.redeems| + 1] == u.redeems[|s.redeems|..][1]
    ensures u.shared.count == s.shared.count + Executed(v.prepared.variant)
    ensures CredOf(v).id in u.shared.tables.redemptions <==> AllowVariant(v.prepared.variant)
  {
    hide Inv, SettledCall, OnlyTouches, ReasonsOk, InOrder;
  }

  /** The recorded attempts have the shape and the outcome of their variant. */
  lemma CaseShape(x: Setting, v: Validated, reasons: seq<Reason>, low: int, high: int, calls: seq<RedeemCall>, attempts: seq<Attempt>, c: CaseObservation)
    requires x.Ok() && Genuine(x, v) && Shaped(v) && |attempts| == AttemptsOf(v) == |calls| == |reasons|
    requires AttemptsFacts(x, v, reasons, low, high, calls, attempts) && ReasonsOk(v.prepared.variant, reasons)
    requires c.variant == v.prepared.variant && c.attempts == attempts && c.metadata == |v.responses|
    requires c.invocationDelta == Executed(c.variant) == c.redemptionCount
    ensures VerdictsMatch(c.variant, |attempts|, Verdicts(attempts)) && CaseSemantics(c)
  {
    hide Genuine, AttemptFacts, AttemptSemantics, ReasonsOk, VerdictsMatch, SameCall, DifferentCall;
    VerdictsAgree(c.variant, reasons);
    forall k | 0 <= k < |attempts|
      ensures attempts[k].sequence == (if c.variant == Replay then k + 1 else 1)
      ensures attempts[k].allowed == (reasons[k] == ALLOW) && attempts[k].reason == reasons[k]
      ensures AttemptSemantics(attempts[k])
    {
      ShownAt(x, v, k, reasons[k], low, high, attempts[k]);
    }
    assert Verdicts(attempts) == VerdictSeq(reasons);
    if c.variant == Concurrent {
      assert |attempts| >= 2 by { GenuineRace(x, v); }
      forall i, j | 0 <= i < j < |attempts|
        ensures DifferentCall(attempts[i], attempts[j])
      {
        DifferentMarks(x, v, reasons, low, high, attempts, i, j);
      }
    } else if c.variant == Replay {
      SameMarks(x, v, reasons, low, high, attempts);
    }
  }

  lemma GenuineRace(x: Setting, v: Validated)
    requires Genuine(x, v) && v.prepared.variant == Concurrent
    ensures |v.prepared.requests| >= 2
  {
    hide GrantOk, BoundsAccepted, RequestOk, Apart;
  }

  lemma ShownAt(x: Setting, v: Validated, k: nat, reason: Reason, low: int, high: int, a: Attempt)
    requires Shaped(v) && k < AttemptsOf(v) && AttemptFacts(x, v, k, reason, low, high, a)
    ensures a.sequence == (if v.prepared.variant == Replay then k + 1 else 1)
    ensures a.allowed == (reason == ALLOW) && a.reason == reason
  {
    hide ReceiptBinds, RequestDigest, ResponseDigest, ProofDigest;
  }

  /** A replay's two attempts make the same call. */
  lemma SameMarks(x: Setting, v: Validated, reasons: seq<Reason>, low: int, high: int, attempts: seq<Attempt>)
    requires Shaped(v) && v.prepared.variant == Replay && |attempts| == AttemptsOf(v) == |reasons|
    requires AttemptFacts(x, v, 0, reasons[0], low, high, attempts[0]) && AttemptFacts(x, v, 1, reasons[1], low, high, attempts[1])
    ensures SameCall(attempts[0], attempts[1])
  {
    hide ReceiptBinds, RequestDigest, ResponseDigest, ProofDigest;
  }

  /** The attempts were recorded from the answers of consecutive calls. */
  ghost predicate AnswersFrom(calls: seq<RedeemCall>, base: nat, attempts: seq<Attempt>) {
    && base + |attempts| <= |calls|
    && (forall k :: 0 <= k < |attempts| ==> AnswerFrom(calls[base + k], attempts[k]))
  }

  predicate AnswerFrom(c: RedeemCall, a: Attempt) {
    c.pc.Answered? && Claims(a.receipt) == c.pc.receipt
  }

  /** Every check the controller makes of an honest case passes, and the record tells it truly. */
  lemma CaseObserved(x: Setting, v: Validated, s: State, u: State, reasons: seq<Reason>)
    requires x.Ok() && Genuine(x, v) && CaseSettled(x, v, s, u, reasons) && Shaped(v)
    ensures var c := ObserveCase(x.t, v, s, u);
            && c.Some? && CaseFacts(x, v, s.shared.count, u.shared.count, c.value)
            && |u.redeems| == |s.redeems| + |c.value.attempts|
            && AnswersFrom(u.redeems, |s.redeems|, c.value.attempts)
  {
    hide CaseSettled, Genuine, SettledCall, AllLookups, AttemptFacts, ReasonsOk, CaseSemantics, VerdictsMatch, AttemptSemantics,
      ObserveCase, ObserveCalls, CaseFacts, InvocationIds, AllowedIds, Verdicts, InOrder;
    SettledParts(x, v, s, u, reasons);
    VerdictsAgree(v.prepared.variant, reasons);
    var calls, low, high := u.redeems[|s.redeems|..], s.shared.count, u.shared.count;
    ObservedCalls(x, v, calls, reasons, low, high, AttemptsOf(v));
    var attempts := ObserveCalls(x.t, v, calls, AttemptsOf(v)).value;
    var n := Executed(v.prepared.variant);
    var c := CaseObservation(v.prepared.caseId, v.prepared.variant, v.prepared.grant.receipt, x.t.expected.workerKey,
                             x.t.expected.image, x.t.expected.codeDigest, |v.responses|, attempts, n, n);
    CaseShape(x, v, reasons, low, high, calls, attempts, c);
    ObserveCaseIs(x.t, v, s, u, attempts, c);
    var k := ReasonsAllowOnce(v.prepared.variant, reasons);
    NumbersOf(x, v, reasons, low, high, attempts, k);
    assert v.prepared.variant == Replay ==> InOrder(calls, 0) by { ReplayInOrder(v, s, u); }
    CaseFactsFrom(x, v, reasons, low, high, calls, attempts, c);
    forall k | 0 <= k < |attempts|
      ensures AnswerFrom(u.redeems[|s.redeems| + k], attempts[k])
    {
      assert calls[k] == u.redeems[|s.redeems| + k];
    }
  }

  lemma ReplayInOrder(v: Validated, s: State, u: State)
    requires v.prepared.variant == Replay ==> InOrder(u.redeems, |s.redeems|)
    requires |u.redeems| >= |s.redeems|
    ensures v.prepared.variant == Replay ==> InOrder(u.redeems[|s.redeems|..], 0)
  {
  }

  lemma ObserveCaseIs(t: Trust, v: Validated, s: State, u: State, attempts: seq<Attempt>, c: CaseObservation)
    requires Shaped(v) && |u.redeems| == |s.redeems| + AttemptsOf(v)
    requires ObserveCalls(t, v, u.redeems[|s.redeems|..], AttemptsOf(v)) == Some(attempts)
    requires u.shared.count == s.shared.count + Executed(v.prepared.variant)
    requires CredOf(v).id in u.shared.tables.redemptions <==> AllowVariant(v.prepared.variant)
    requires c == CaseObservation(v.prepared.caseId, v.prepared.variant, v.prepared.grant.receipt, t.expected.workerKey,
                                  t.expected.image, t.expected.codeDigest, |v.responses|, attempts,
                                  Executed(v.prepared.variant), Executed(v.prepared.variant))
    requires |attempts| == AttemptsOf(v) && VerdictsMatch(v.prepared.variant, |attempts|, Verdicts(attempts)) && CaseSemantics(c)
    ensures ObserveCase(t, v, s, u) == Some(c)
  {
    hide ObserveCalls, CaseSemantics, VerdictsMatch, Verdicts;
  }

  lemma CaseFactsFrom(x: Setting, v: Validated, reasons: seq<Reason>, low: int, high: int, calls: seq<RedeemCall>, attempts: seq<Attempt>, c: CaseObservation)
    requires Shaped(v) && |attempts| == AttemptsOf(v) == |calls| == |reasons|
    requires AttemptsFacts(x, v, reasons, low, high, calls, attempts)
    requires CaseSemantics(c) && c.attempts == attempts
    requires c.caseId == v.prepared.caseId && c.variant == v.prepared.variant && c.brokerReceipt == v.prepared.grant.receipt
    requires c.workerKey == x.t.expected.workerKey && c.image == x.t.expected.image && c.codeDigest == x.t.expected.codeDigest
    requires InvocationIds(attempts) == (if AllowVariant(v.prepared.variant) then [high] else [])
    requires AllowedIds(attempts) == (if AllowVariant(v.prepared.variant) then [Some(high)] else [])
    requires v.prepared.variant == Replay ==> InOrder(calls, 0)
    ensures CaseFacts(x, v, low, high, c)
    ensures forall k :: 0 <= k < |attempts| ==> calls[k].pc.Answered? && Claims(attempts[k].receipt) == calls[k].pc.receipt
  {
    hide CaseSemantics, ReceiptBinds, AttemptSemantics, RequestDigest, ResponseDigest, ProofDigest, InvocationIds, AllowedIds;
    forall k | 0 <= k < |attempts|
      ensures AttemptFacts(x, v, k, attempts[k].reason, low, high, attempts[k])
      ensures calls[k].pc.Answered? && Claims(attempts[k].receipt) == calls[k].pc.receipt
    {
      assert AttemptFacts(x, v, k, reasons[k], low, high, attempts[k]);
    }
  }
}
