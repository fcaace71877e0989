/** Submitting lookups and letting them settle: one race, one refusal, or one after the other. */
module Submission {
  import opened Symbols
  import opened Receipt
  import opened Protocol
  import opened ProtocolInvariant
  import opened ProtocolSafety
  import opened Race
  import opened Refusal

  lemma {:induction false} ExecConcat(cfg: Config, s: State, a: seq<Label>, b: seq<Label>)
    ensures Exec(cfg, s, a + b) == Exec(cfg, Exec(cfg, s, a), b)
    decreases |b|
  {
    hide Next;
    if b == [] {
      assert a + b == a;
    } else {
      var m := |b| - 1;
      ExecConcat(cfg, s, a, b[..m]);
      assert (a + b)[..|a| + m] == a + b[..m];
    }
  }

  function Begins(ls: seq<LookupRequest>): seq<Label> {
    seq(|ls|, k requires 0 <= k < |ls| => BeginRedeem(ls[k]))
  }

  function NewCalls(ls: seq<LookupRequest>, boot: nat): seq<RedeemCall> {
    seq(|ls|, k requires 0 <= k < |ls| => NewCall(ls[k], boot))
  }

  /** The state in which the lookups have arrived and none has moved. */
  function Arrived(s: State, ls: seq<LookupRequest>): State {
    s.(redeems := s.redeems + NewCalls(ls, s.boot))
  }

  lemma {:induction false} ExecBegins(cfg: Config, s: State, ls: seq<LookupRequest>)
    requires Inv(cfg, s) && forall k :: 0 <= k < |ls| ==> WellFormedRequest(ls[k])
    ensures Exec(cfg, s, Begins(ls)) == Arrived(s, ls) && Inv(cfg, Arrived(s, ls))
  {
    hide Inv;
    if ls == [] {
      assert s.redeems + NewCalls(ls, s.boot) == s.redeems;
    } else {
      var m := |ls| - 1;
      ExecBegins(cfg, s, ls[..m]);
      assert Begins(ls)[..m] == Begins(ls[..m]);
      var t := Arrived(s, ls[..m]);
      BeginRedeemInv(cfg, t, ls[m]);
      assert NewCalls(ls, s.boot) == NewCalls(ls[..m], s.boot) + [NewCall(ls[m], s.boot)];
      assert t.redeems + [NewCall(ls[m], s.boot)] == s.redeems + NewCalls(ls, s.boot);
    }
  }

  // ---- What a settled submission looks like ----

  /** The challenge hash the receipt of a verified lookup carries. */
  function TokenShown(r: LookupRequest): Option<Term> {
    if r.proof.signature.NotASignature? then None else Some(Hash(r))
  }

  /** The call was answered for `reason`, with a receipt about exactly this lookup. */
  ghost predicate AnsweredFor(cfg: Config, w: Window, cred: Credential, r: LookupRequest, reason: Reason, number: int, p: Payload) {
    && ValidPayload(p) && p.receiptId.Random? && w.lo <= p.decidedAt <= w.hi
    && p == InventoryPayload(cfg.resource, p.receiptId.nonce, p.decidedAt, p.snapshot, if reason == ALLOW then Allow else Deny,
                             reason, Some(cred.id), TokenShown(r), ArgumentsDigest(r.sku), Some(r.recordId),
                             if reason == ALLOW then Some(number) else None, if reason == ALLOW then Completed else NotInvoked)
  }

  /** An answered call whose receipt saw the counter between two readings. */
  ghost predicate SettledCall(cfg: Config, w: Window, low: int, high: int, cred: Credential, r: LookupRequest, reason: Reason, c: RedeemCall) {
    && c.pc.Answered?
    && AnsweredFor(cfg, w, cred, r, reason, high, c.pc.receipt)
    && low <= c.pc.receipt.snapshot <= high
  }

  /** Nothing but the lookups' own challenges and their credential's redemption has moved. */
  ghost predicate OnlyTouches(sh: Shared, sk: Shared, cred: Credential, ls: seq<LookupRequest>) {
    && sk.minted == sh.minted
    && (forall h :: h in sh.tables.resource && (forall j :: 0 <= j < |ls| ==> h != Hash(ls[j])) ==>
          h in sk.tables.resource && sk.tables.resource[h] == sh.tables.resource[h])
    && (forall id :: id != cred.id ==> (id in sk.tables.redemptions <==> id in sh.tables.redemptions))
  }

  /** The lookups were appended as calls and all were answered, the j-th for reasons[j]. */
  ghost predicate Settled(cfg: Config, w: Window, s: State, t: State, cred: Credential, ls: seq<LookupRequest>, reasons: seq<Reason>) {
    && Inv(cfg, t) && |reasons| == |ls|
    && |t.redeems| == |s.redeems| + |ls| && t.redeems[..|s.redeems|] == s.redeems
    && OnlyTouches(s.shared, t.shared, cred, ls)
    && s.shared.count <= t.shared.count
    && (forall j :: 0 <= j < |ls| ==>
          SettledCall(cfg, w, s.shared.count, t.shared.count, cred, ls[j], reasons[j], t.redeems[|s.redeems| + j]))
  }

  // ---- The race ----

  ghost predicate Submittable(cfg: Config, w: Window, sh: Shared, cred: Credential, ls: seq<LookupRequest>) {
    && cred.id !in sh.tables.redemptions
    && (forall j :: 0 <= j < |ls| ==>
          Contender(cfg, w, sh, cred, ls[j]) && sh.tables.resource[Hash(ls[j])].consumedAt.None?)
    && (forall i, j :: 0 <= i < j < |ls| ==> Hash(ls[i]) != Hash(ls[j]))
  }

  lemma FreshRacer(cfg: Config, w: Window, sh: Shared, cred: Credential, r: LookupRequest, boot: nat)
    requires Contender(cfg, w, sh, cred, r) && sh.tables.resource[Hash(r)].consumedAt.None?
    ensures RacerOk(cfg, w, sh, cred, NewCall(r, boot))
  {
    hide Contender;
  }

  lemma RaceReady(cfg: Config, w: Window, s: State, cred: Credential, ls: seq<LookupRequest>)
    requires Inv(cfg, Arrived(s, ls)) && cfg.NonEmptyStrings() && 0 <= w.lo
    requires Submittable(cfg, w, s.shared, cred, ls)
    ensures Ready(cfg, w, Arrived(s, ls), |s.redeems|, |ls|, cred)
  {
    hide Inv, RacerOk, Contender;
    var t := Arrived(s, ls);
    var base := |s.redeems|;
    forall i | InRace(i, base, |ls|)
      ensures t.redeems[i] == NewCall(ls[i - base], s.boot) && RacerOk(cfg, w, t.shared, cred, t.redeems[i])
    {
      FreshRacer(cfg, w, s.shared, cred, ls[i - base], s.boot);
    }
  }

  ghost predicate AllGiven(labels: seq<Label>, base: nat, n: nat) {
    forall i :: InRace(i, base, n) ==> Steps(labels, i) >= 8
  }

  /** One winner, everyone else too late. */
  ghost predicate OneWinner(reasons: seq<Reason>, k: int) {
    0 <= k < |reasons| && forall j :: 0 <= j < |reasons| ==> reasons[j] == if j == k then ALLOW else CREDENTIAL_SPENT
  }

  lemma CoveredShows(cfg: Config, w: Window, sh: Shared, cred: Credential, r: LookupRequest)
    requires Contender(cfg, w, sh, cred, r)
    ensures WellFormedRequest(r) && TokenShown(r) == Some(Hash(r))
  {
  }

  lemma RaceAnswers(cfg: Config, w: Window, sh: Shared, boot: nat, cred: Credential, c: RedeemCall, number: int)
    requires CallInv(cfg, sh, boot, c) && c.pc.Answered? && RaceReceipt(cfg, w, cred, c, c.pc.receipt)
    requires c.spend.Some? ==> c.invocation == Some(number)
    requires TokenShown(c.request) == Some(Hash(c.request))
    ensures AnsweredFor(cfg, w, cred, c.request, if c.spend.Some? then ALLOW else CREDENTIAL_SPENT, number, c.pc.receipt)
  {
    hide Owner, Covered, InWindow;
  }

  /** What the race leaves of its own rows. */
  ghost predicate AllConsumed(cfg: Config, sh: Shared, cred: Credential, ls: seq<LookupRequest>) {
    && cred.id in sh.tables.redemptions
    && (forall j :: 0 <= j < |ls| ==>
          && Hash(ls[j]) in sh.tables.resource && sh.tables.resource[Hash(ls[j])].consumedAt.Some?
          && RowMatches(cfg, ls[j], cred.id, sh.tables.resource[Hash(ls[j])]))
  }

  lemma RaceSubmitted(cfg: Config, w: Window, s: State, cred: Credential, ls: seq<LookupRequest>, labels: seq<Label>)
    returns (reasons: seq<Reason>, k: nat)
    requires Inv(cfg, s) && cfg.NonEmptyStrings() && 0 <= w.lo && ls != []
    requires Submittable(cfg, w, s.shared, cred, ls)
    requires HonestSchedule(labels, |s.redeems|, |ls|, w) && AllGiven(labels, |s.redeems|, |ls|)
    ensures Settled(cfg, w, s, Exec(cfg, s, Begins(ls) + labels), cred, ls, reasons)
    ensures OneWinner(reasons, k)
    ensures Exec(cfg, s, Begins(ls) + labels).shared.count == s.shared.count + 1
    ensures AllConsumed(cfg, Exec(cfg, s, Begins(ls) + labels).shared, cred, ls)
  {
    hide Inv, Exec, HonestSchedule, Contender;
    forall j | 0 <= j < |ls|
      ensures WellFormedRequest(ls[j]) && TokenShown(ls[j]) == Some(Hash(ls[j]))
    {
      CoveredShows(cfg, w, s.shared, cred, ls[j]);
    }
    ExecBegins(cfg, s, ls);
    ExecConcat(cfg, s, Begins(ls), labels);
    RaceReady(cfg, w, s, cred, ls);
    var a := Arrived(s, ls);
    k := RaceOutcome(cfg, w, a, |s.redeems|, |ls|, cred, labels);
    reasons, k := RaceReasons(cfg, w, s, Exec(cfg, a, labels), cred, ls, k);
  }

  lemma RaceReasons(cfg: Config, w: Window, s: State, t: State, cred: Credential, ls: seq<LookupRequest>, winner: nat)
    returns (reasons: seq<Reason>, k: nat)
    requires RaceWon(cfg, w, Arrived(s, ls), t, |s.redeems|, |ls|, cred, winner)
    requires forall j :: 0 <= j < |ls| ==> TokenShown(ls[j]) == Some(Hash(ls[j]))
    ensures Settled(cfg, w, s, t, cred, ls, reasons) && OneWinner(reasons, k)
    ensures t.shared.count == s.shared.count + 1
    ensures AllConsumed(cfg, t.shared, cred, ls)
  {
    hide Inv, RaceWon, SettledCall, RowMatches, Untouched, OnlyTouches, Hash;
    var base := |s.redeems|;
    RaceWonParts(cfg, w, s, t, cred, ls, winner);
    k := winner - base;
    reasons := seq(|ls|, j => if j == k then ALLOW else CREDENTIAL_SPENT);
    RacePrefix(s, t, cred, ls);
    forall j | 0 <= j < |ls|
      ensures SettledCall(cfg, w, s.shared.count, t.shared.count, cred, ls[j], reasons[j], t.redeems[base + j])
    {
      RacerAnswered(cfg, w, s, t, cred, ls, winner, j);
    }
    RaceTouches(s, t, cred, ls);
  }

  lemma RaceWonParts(cfg: Config, w: Window, s: State, t: State, cred: Credential, ls: seq<LookupRequest>, winner: nat)
    requires RaceWon(cfg, w, Arrived(s, ls), t, |s.redeems|, |ls|, cred, winner)
    ensures |t.redeems| == |Arrived(s, ls).redeems| && Inv(cfg, t) && Untouched(Arrived(s, ls), t, |s.redeems|, |ls|, cred)
    ensures |s.redeems| <= winner < |s.redeems| + |ls| && t.shared.count == s.shared.count + 1
    ensures AllConsumed(cfg, t.shared, cred, ls)
  {
    hide Inv, RaceReceipt, RowMatches, Untouched, Hash;
    var a, base := Arrived(s, ls), |s.redeems|;
    forall j | 0 <= j < |ls|
      ensures InRace(base + j, base, |ls|) && a.redeems[base + j].request == ls[j]
    {
      assert a.redeems[base + j] == NewCall(ls[j], s.boot);
    }
  }

  lemma RacerAnswered(cfg: Config, w: Window, s: State, t: State, cred: Credential, ls: seq<LookupRequest>, winner: nat, j: nat)
    requires RaceWon(cfg, w, Arrived(s, ls), t, |s.redeems|, |ls|, cred, winner)
    requires j < |ls| && t.redeems[|s.redeems| + j].request == ls[j] && TokenShown(ls[j]) == Some(Hash(ls[j]))
    ensures SettledCall(cfg, w, s.shared.count, t.shared.count, cred, ls[j],
                        if |s.redeems| + j == winner then ALLOW else CREDENTIAL_SPENT, t.redeems[|s.redeems| + j])
  {
    hide Inv, RaceReceipt, AnsweredFor, RowMatches, Untouched, Hash;
    var i := |s.redeems| + j;
    assert InRace(i, |s.redeems|, |ls|);
    CallOf(cfg, t, i);
    RaceAnswers(cfg, w, t.shared, t.boot, cred, t.redeems[i], t.shared.count);
  }

  lemma RacePrefix(s: State, t: State, cred: Credential, ls: seq<LookupRequest>)
    requires |t.redeems| == |Arrived(s, ls).redeems| && Untouched(Arrived(s, ls), t, |s.redeems|, |ls|, cred)
    ensures t.redeems[..|s.redeems|] == s.redeems
    ensures forall j :: 0 <= j < |ls| ==> t.redeems[|s.redeems| + j].request == ls[j]
    ensures forall j :: 0 <= j < |ls| ==> Arrived(s, ls).redeems[|s.redeems| + j].request == ls[j]
  {
    var a := Arrived(s, ls);
    forall i | 0 <= i < |s.redeems|
      ensures t.redeems[i] == s.redeems[i]
    {
      assert !InRace(i, |s.redeems|, |ls|) && a.redeems[i] == s.redeems[i];
    }
    forall j | 0 <= j < |ls|
      ensures t.redeems[|s.redeems| + j].request == ls[j] && a.redeems[|s.redeems| + j].request == ls[j]
    {
      assert a.redeems[|s.redeems| + j] == NewCall(ls[j], s.boot);
    }
  }

  lemma CallOf(cfg: Config, s: State, i: nat)
    requires Inv(cfg, s) && i < |s.redeems|
    ensures CallInv(cfg, s.shared, s.boot, s.redeems[i])
  {
    hide CallInv, LogInv, IssuesInv, CountInv;
  }

  lemma RaceTouches(s: State, t: State, cred: Credential, ls: seq<LookupRequest>)
    requires |t.redeems| == |Arrived(s, ls).redeems| && Untouched(Arrived(s, ls), t, |s.redeems|, |ls|, cred)
    ensures OnlyTouches(s.shared, t.shared, cred, ls)
  {
    hide Hash, NewCall;
    forall h | h in s.shared.tables.resource && (forall j :: 0 <= j < |ls| ==> h != Hash(ls[j]))
      ensures h in t.shared.tables.resource && t.shared.tables.resource[h] == s.shared.tables.resource[h]
    {
      NotRaced(s, ls, h);
    }
  }

  /** A challenge none of the lookups names is named by none of the arrived calls. */
  lemma NotRaced(s: State, ls: seq<LookupRequest>, h: Term)
    requires forall j :: 0 <= j < |ls| ==> h != Hash(ls[j])
    ensures forall i :: InRace(i, |s.redeems|, |ls|) ==> h != Hash(Arrived(s, ls).redeems[i].request)
  {
    hide Hash;
    forall i | InRace(i, |s.redeems|, |ls|)
      ensures h != Hash(Arrived(s, ls).redeems[i].request)
    {
      assert Arrived(s, ls).redeems[i].request == ls[i - |s.redeems|];
    }
  }

  // ---- The refusal ----

  lemma RefusalSubmitted(cfg: Config, w: Window, s: State, cred: Credential, r: LookupRequest, reason: Reason, labels: seq<Label>)
    requires Inv(cfg, s) && cfg.NonEmptyStrings() && 0 <= w.lo
    requires WillRefuse(cfg, w, s.shared, cred, r, reason, TokenShown(r))
    requires HonestSchedule(labels, |s.redeems|, 1, w) && Steps(labels, |s.redeems|) >= 8
    ensures var t := Exec(cfg, s, [BeginRedeem(r)] + labels);
            && Settled(cfg, w, s, t, cred, [r], [reason])
            && t.shared.count == s.shared.count
            && t.shared.tables == s.shared.tables
  {
    hide Inv, Exec, HonestSchedule, WillRefuse, Settled, Refusing, TokenShown, AnsweredFor;
    var ls, i := [r], |s.redeems|;
    RefusedFacts(cfg, w, s.shared, cred, r, reason, TokenShown(r));
    assert Begins(ls) == [BeginRedeem(r)];
    ExecBegins(cfg, s, ls);
    ExecConcat(cfg, s, Begins(ls), labels);
    var a := Arrived(s, ls);
    assert a.redeems == s.redeems + [NewCall(r, s.boot)];
    assert a.shared == s.shared && a.redeems[i] == NewCall(r, s.boot);
    RefusalRun(cfg, w, a, i, cred, reason, TokenShown(r), labels);
    var t := Exec(cfg, a, labels);
    RefusalAnswered(cfg, w, a, t, i, cred, reason, TokenShown(r));
    assert t.redeems[..i] == s.redeems;
    RefusalSettled(cfg, w, s, t, cred, r, reason);
  }

  lemma RefusedFacts(cfg: Config, w: Window, sh: Shared, cred: Credential, r: LookupRequest, reason: Reason, tok: Option<Term>)
    requires WillRefuse(cfg, w, sh, cred, r, reason, tok)
    ensures WellFormedRequest(r) && reason != ALLOW
  {
    hide ProofCovers, BoundsAccepted, RowMatches;
  }

  lemma RefusalSettled(cfg: Config, w: Window, s: State, t: State, cred: Credential, r: LookupRequest, reason: Reason)
    requires Inv(cfg, t) && |t.redeems| == |s.redeems| + 1 && t.redeems[..|s.redeems|] == s.redeems
    requires t.shared == s.shared.(nonce := t.shared.nonce)
    requires t.redeems[|s.redeems|].pc.Answered? && t.redeems[|s.redeems|].pc.receipt.snapshot == t.shared.count
    requires AnsweredFor(cfg, w, cred, r, reason, t.shared.count, t.redeems[|s.redeems|].pc.receipt)
    ensures Settled(cfg, w, s, t, cred, [r], [reason])
  {
    hide Inv, AnsweredFor;
  }

  lemma RefusalAnswered(cfg: Config, w: Window, a: State, t: State, i: nat, cred: Credential, reason: Reason, tok: Option<Term>)
    requires Refusing(cfg, w, a, t, i, cred, reason, tok) && Rank(t.redeems[i].pc) == 0
    requires tok == TokenShown(a.redeems[i].request) && reason != ALLOW
    ensures t.redeems[i].pc.Answered? && t.redeems[i].pc.receipt.snapshot == t.shared.count
    ensures Inv(cfg, t) && t.shared == a.shared.(nonce := t.shared.nonce) && t.redeems == a.redeems[i := t.redeems[i]]
    ensures AnsweredFor(cfg, w, cred, a.redeems[i].request, reason, t.shared.count, t.redeems[i].pc.receipt)
  {
    hide Inv, WillRefuse;
    CallOf(cfg, t, i);
    hide Owner, Covered, InWindow;
  }

  // ---- One submission after another ----

  /** Two consecutive answers in the order of their clock and counter readings. */
  predicate InOrder(calls: seq<RedeemCall>, n: nat) {
    && n + 1 < |calls| && calls[n].pc.Answered? && calls[n + 1].pc.Answered?
    && calls[n].pc.receipt.decidedAt <= calls[n + 1].pc.receipt.decidedAt
    && calls[n].pc.receipt.snapshot <= calls[n + 1].pc.receipt.snapshot
  }

  /** A later submission that executes nothing extends an earlier one. */
  lemma SettledTwice(
    cfg: Config, v: Window, w: Window, s: State, t: State, u: State, cred: Credential, r: LookupRequest, a: Reason, b: Reason)
    requires Settled(cfg, v, s, t, cred, [r], [a]) && Settled(cfg, w, t, u, cred, [r], [b])
    requires v.hi <= w.lo && u.shared.count == t.shared.count && v.lo <= v.hi && w.lo <= w.hi
    ensures Settled(cfg, Window(v.lo, w.hi), s, u, cred, [r, r], [a, b])
    ensures InOrder(u.redeems, |s.redeems|)
  {
    hide Settled, SettledCall, OnlyTouches;
    var n, x, y, z := |s.redeems|, s.shared.count, t.shared.count, Window(v.lo, w.hi);
    SettledOne(cfg, v, s, t, cred, r, a);
    SettledOne(cfg, w, t, u, cred, r, b);
    assert u.redeems[n] == u.redeems[..n + 1][n] == t.redeems[n];
    assert u.redeems[..n] == u.redeems[..n + 1][..n] == s.redeems;
    Widen(cfg, v, z, x, x, y, cred, r, a, t.redeems[n]);
    Widen(cfg, w, z, x, y, y, cred, r, b, u.redeems[n + 1]);
    TouchesTwice(s.shared, t.shared, u.shared, cred, r);
    SettledBoth(cfg, z, s, u, cred, r, a, b);
  }

  lemma SettledOne(cfg: Config, w: Window, s: State, t: State, cred: Credential, r: LookupRequest, a: Reason)
    requires Settled(cfg, w, s, t, cred, [r], [a])
    ensures Inv(cfg, t) && |t.redeems| == |s.redeems| + 1 && t.redeems[..|s.redeems|] == s.redeems
    ensures OnlyTouches(s.shared, t.shared, cred, [r]) && s.shared.count <= t.shared.count
    ensures SettledCall(cfg, w, s.shared.count, t.shared.count, cred, r, a, t.redeems[|s.redeems|])
  {
    hide Inv, SettledCall, OnlyTouches;
    assert [r][0] == r && [a][0] == a && t.redeems[|s.redeems| + 0] == t.redeems[|s.redeems|];
  }

  lemma SettledBoth(cfg: Config, w: Window, s: State, u: State, cred: Credential, r: LookupRequest, a: Reason, b: Reason)
    requires Inv(cfg, u) && |u.redeems| == |s.redeems| + 2 && u.redeems[..|s.redeems|] == s.redeems
    requires OnlyTouches(s.shared, u.shared, cred, [r, r]) && s.shared.count <= u.shared.count
    requires SettledCall(cfg, w, s.shared.count, u.shared.count, cred, r, a, u.redeems[|s.redeems|])
    requires SettledCall(cfg, w, s.shared.count, u.shared.count, cred, r, b, u.redeems[|s.redeems| + 1])
    ensures Settled(cfg, w, s, u, cred, [r, r], [a, b])
  {
    hide Inv, SettledCall, OnlyTouches;
  }

  lemma Widen(
    cfg: Config, v: Window, w: Window, low: int, mid: int, high: int, cred: Credential, r: LookupRequest, reason: Reason, c: RedeemCall)
    requires SettledCall(cfg, v, mid, high, cred, r, reason, c) && w.lo <= v.lo && v.hi <= w.hi && low <= mid
    ensures SettledCall(cfg, w, low, high, cred, r, reason, c) && c.pc.Answered?
    ensures v.lo <= c.pc.receipt.decidedAt <= v.hi && mid <= c.pc.receipt.snapshot <= high
  {
    hide ValidPayload, InventoryPayload;
  }

  lemma TouchesTwice(sh: Shared, si: Shared, sk: Shared, cred: Credential, r: LookupRequest)
    requires OnlyTouches(sh, si, cred, [r]) && OnlyTouches(si, sk, cred, [r])
    ensures OnlyTouches(sh, sk, cred, [r, r])
  {
    var rs := [r, r];
    forall h | h in sh.tables.resource && (forall j :: 0 <= j < |rs| ==> h != Hash(rs[j]))
      ensures h in sk.tables.resource && sk.tables.resource[h] == sh.tables.resource[h]
    {
      assert h != Hash(rs[0]);
    }
  }
}
