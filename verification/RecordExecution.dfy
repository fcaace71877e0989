/** An accepted record joined to the run it was taken from. */
module RecordExecution {
  import opened Symbols
  import Receipt
  import opened Storage
  import opened Protocol
  import opened ProtocolInvariant
  import opened ProtocolSafety
  import opened ProtocolTheorems
  import opened Worker
  import opened Images
  import opened Wire
  import opened RecordVerifier
  import opened RecordSound

  // ---- Every invocation is in the log ----

  predicate LoggedAt(s: State, i: nat, k: int) {
    0 <= k < |s.log| && s.log[k].call == i
  }

  /** Every call that drew an invocation number has its entry, over all lifetimes. */
  ghost predicate LogComplete(s: State) {
    forall i :: 0 <= i < |s.redeems| && s.redeems[i].invocation.Some? ==> exists k :: LoggedAt(s, i, k)
  }

  lemma LogKept(s: State, t: State)
    requires LogComplete(s) && |s.log| <= |t.log| && t.log[..|s.log|] == s.log && |s.redeems| <= |t.redeems|
    requires forall i :: 0 <= i < |t.redeems| && t.redeems[i].invocation.Some? ==>
               (i < |s.redeems| && s.redeems[i].invocation.Some?) || exists k :: LoggedAt(t, i, k)
    ensures LogComplete(t)
  {
    forall i | 0 <= i < |t.redeems| && t.redeems[i].invocation.Some?
      ensures exists k :: LoggedAt(t, i, k)
    {
      if i < |s.redeems| && s.redeems[i].invocation.Some? {
        var k :| LoggedAt(s, i, k);
        assert t.log[k] == t.log[..|s.log|][k];
        assert LoggedAt(t, i, k);
      }
    }
  }

  lemma StepLogs(cfg: Config, s: State, i: nat, e: Env)
    requires Inv(cfg, s) && LogComplete(s)
    ensures LogComplete(StepRedeemAt(cfg, s, i, e))
  {
    hide LogComplete, IssuesInv, LogInv, CountInv, SpendsDistinct, ReceiptsDistinct, CallInv, Accounted, RedeemStep, Steppable;
    if i < |s.redeems| && s.redeems[i].alive && Steppable(s.redeems[i]) {
      var c := s.redeems[i];
      var (sk, d) := RedeemStep(cfg, s.shared, c, e);
      var t := StepRedeemAt(cfg, s, i, e);
      RedeemStepKeeps(cfg, s.shared, s.boot, c, e);
      InvokedCall(cfg, sk, s.boot, d);
      assert t.log[..|s.log|] == s.log;
      if d.invocation.Some? && c.invocation.None? {
        assert LoggedAt(t, i, |s.log|);
      }
      LogKept(s, t);
    }
  }

  lemma NextLogs(cfg: Config, s: State, l: Label)
    requires Inv(cfg, s) && LogComplete(s)
    ensures LogComplete(Next(cfg, s, l))
  {
    hide Inv, StepRedeemAt, StepIssueAt;
    match l
    case StepRedeem(i, e) => StepLogs(cfg, s, i, e);
    case StepIssue(i, e) => IssueKeepsLog(cfg, s, i, e);
    case _ => LogKept(s, Next(cfg, s, l));
  }

  lemma IssueKeepsLog(cfg: Config, s: State, i: nat, e: Env)
    requires LogComplete(s)
    ensures LogComplete(StepIssueAt(cfg, s, i, e))
  {
    hide LogComplete, IssueStep, IssueSteppable;
    LogKept(s, StepIssueAt(cfg, s, i, e));
  }

  lemma {:induction false} RunLogs(cfg: Config, labels: seq<Label>)
    ensures LogComplete(Exec(cfg, Init, labels))
    decreases |labels|
  {
    hide Inv, Next;
    if labels != [] {
      var m := |labels| - 1;
      RunLogs(cfg, labels[..m]);
      RunInv(cfg, labels[..m]);
      NextLogs(cfg, Exec(cfg, Init, labels[..m]), labels[m]);
    }
  }

  // ---- The record's attempts as calls of a run ----

  /** The attempt's receipt is the answer of some call of the run. */
  ghost predicate AnsweredIn(s: State, a: Attempt) {
    exists c :: AnswerOf(s, c, a)
  }

  predicate AnswerOf(s: State, c: int, a: Attempt) {
    0 <= c < |s.redeems| && s.redeems[c].pc.Answered? && s.redeems[c].pc.receipt == Claims(a.receipt)
  }

  /** The record was taken from this run. */
  ghost predicate TakenFrom(s: State, r: Record) {
    forall i, j :: 0 <= i < |r.cases| && 0 <= j < |r.cases[i].attempts| ==> AnsweredIn(s, r.cases[i].attempts[j])
  }

  /** The variants that execute, in the order of their invocation numbers. */
  const Executing: seq<Variant> := [Valid, Replay, Concurrent]

  /** Handler entry k is the execution of the case of the m-th executing variant. */
  ghost predicate ExecutionOf(s: State, r: Record, m: nat, k: nat)
    requires m < 3
  {
    && k < |s.log| && s.log[k].number == m + 1 && Grounded(s, s.log[k])
    && exists i :: CaseWith(r, i, Executing[m], s.log[k].credentialId)
  }

  predicate CaseWith(r: Record, i: int, v: Variant, id: Term) {
    0 <= i < |r.cases| && r.cases[i].variant == v && CredentialOf(r.cases[i]) == Some(id)
  }

  lemma CaseOfVariant(r: Record, v: Variant) returns (i: nat)
    requires RecordSemantics(r) && EmbeddedOk(r)
    ensures i < |r.cases| && r.cases[i].variant == v && CaseAccepted(r, i)
  {
    hide CaseSemantics, InvocationIds, Flat, GlobalOk, CaseAccepted;
    assert v in Image(VariantOf, r.cases);
    var k :| 0 <= k < |r.cases| && VariantOf(r.cases[k]) == v;
    i := k;
  }

  /** The allowed attempt of an executing case. */
  lemma AllowedAttempt(r: Record, m: nat) returns (i: nat, j: nat)
    requires RecordSemantics(r) && EmbeddedOk(r) && m < 3
    ensures i < |r.cases| && r.cases[i].variant == Executing[m] && j < |r.cases[i].attempts| && r.cases[i].attempts[j].allowed
    ensures var p := Claims(r.cases[i].attempts[j].receipt);
            p.decision == Receipt.Allow && p.invocationId == Some(m + 1) && p.credentialId == CredentialOf(r.cases[i]) && p.credentialId.Some?
  {
    hide RecordSemantics, EmbeddedOk, AllowedIds, BrokerAccepted, AttemptAccepted, Image;
    i := CaseOfVariant(r, Executing[m]);
    j := AllowedExists(r.cases[i].attempts);
    AllowedCase(r, i, j);
    AllowedDecision(r, i, j);
  }

  lemma AllowedDecision(r: Record, i: nat, j: nat)
    requires i < |r.cases| && CaseAccepted(r, i) && j < |r.cases[i].attempts| && r.cases[i].attempts[j].allowed
    ensures Claims(r.cases[i].attempts[j].receipt).decision == Receipt.Allow && CredentialOf(r.cases[i]).Some?
  {
    hide Image, StoryOk, BrokerFresh;
    assert AttemptAccepted(r, i, j);
  }

  /** A call answered with an allow receipt is in the log under that receipt's number and credential. */
  lemma AllowedEntry(cfg: Config, labels: seq<Label>, c: nat) returns (k: nat)
    requires var s := Exec(cfg, Init, labels);
             c < |s.redeems| && s.redeems[c].pc.Answered? && s.redeems[c].pc.receipt.decision == Receipt.Allow
    ensures var s := Exec(cfg, Init, labels);
            && k < |s.log| && Grounded(s, s.log[k])
            && s.redeems[c].pc.receipt.invocationId == Some(s.log[k].number)
            && s.redeems[c].pc.receipt.credentialId == Some(s.log[k].credentialId)
  {
    hide Exec, CallInv, IssuesInv, CountInv, SpendsDistinct, ReceiptsDistinct, Accounted, Grounded;
    RunInv(cfg, labels);
    RunLogs(cfg, labels);
    var s := Exec(cfg, Init, labels);
    AnsweredAsInvoked(cfg, s.shared, s.boot, s.redeems[c]);
    AnsweredFields(cfg, s.shared, s.boot, s.redeems[c]);
    var l :| LoggedAt(s, c, l);
    k := l;
    assert EntryOf(s.log[k], s.redeems[c]);
    EntryGrounded(cfg, s, k);
  }

  lemma AnsweredFields(cfg: Config, sh: Shared, boot: nat, c: RedeemCall)
    requires CallInv(cfg, sh, boot, c) && c.pc.Answered?
    ensures c.pc.receipt.credentialId == c.credentialId && c.pc.receipt.tokenHash == c.tokenHash
  {
  }

  /** Two handler entries used one credential. */
  predicate SharesCredential(s: State, k: int, l: int) {
    0 <= k < |s.log| && 0 <= l < |s.log| && s.log[k].credentialId == s.log[l].credentialId
  }

  lemma OneExecution(r: Record, cfg: Config, labels: seq<Label>, m: nat) returns (k: nat)
    requires RecordSemantics(r) && EmbeddedOk(r) && TakenFrom(Exec(cfg, Init, labels), r) && m < 3
    ensures ExecutionOf(Exec(cfg, Init, labels), r, m, k)
  {
    hide RecordSemantics, EmbeddedOk, Exec, Grounded, CredentialOf;
    var i, j := AllowedAttempt(r, m);
    var s := Exec(cfg, Init, labels);
    assert AnsweredIn(s, r.cases[i].attempts[j]);
    var c :| AnswerOf(s, c, r.cases[i].attempts[j]);
    k := AllowedEntry(cfg, labels, c);
    assert CaseWith(r, i, Executing[m], s.log[k].credentialId);
  }

  /** If a record is accepted and its receipts are answers of a run, then in that run the handler
      was entered three times for the three executing cases: under the numbers 1, 2 and 3, each
      with the case's own credential, its redemption row, a signed credential and a consumed broker
      challenge; and no other entry of the run, in any lifetime, used those credentials. */
  lemma RecordExecuted(r: Record, cfg: Config, labels: seq<Label>) returns (a: nat, b: nat, c: nat)
    requires RecordSemantics(r) && EmbeddedOk(r) && TakenFrom(Exec(cfg, Init, labels), r)
    ensures var s := Exec(cfg, Init, labels);
            && ExecutionOf(s, r, 0, a) && ExecutionOf(s, r, 1, b) && ExecutionOf(s, r, 2, c)
            && a != b && a != c && b != c
            && s.log[a].credentialId != s.log[b].credentialId && s.log[a].credentialId != s.log[c].credentialId
            && s.log[b].credentialId != s.log[c].credentialId
            && (forall k :: SharesCredential(s, k, a) || SharesCredential(s, k, b) || SharesCredential(s, k, c) ==>
                  k == a || k == b || k == c)
  {
    hide RecordSemantics, EmbeddedOk, Exec, TakenFrom, Grounded, CaseWith, IssuingToken;
    a := OneExecution(r, cfg, labels, 0);
    b := OneExecution(r, cfg, labels, 1);
    c := OneExecution(r, cfg, labels, 2);
    var s := Exec(cfg, Init, labels);
    OneEntryEach(cfg, labels);
    assert !SharesCredential(s, a, b) && !SharesCredential(s, a, c) && !SharesCredential(s, b, c);
  }

  lemma OneEntryEach(cfg: Config, labels: seq<Label>)
    ensures var s := Exec(cfg, Init, labels);
            forall k, l :: SharesCredential(s, k, l) ==> k == l
  {
    hide Exec, Grounded, IssuingToken;
    AtMostOnce(cfg, labels);
  }
}
