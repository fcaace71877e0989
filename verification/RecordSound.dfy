/** What an accepted experiment record implies. */
module RecordSound {
  import opened Symbols
  import opened Worker
  import opened Images
  import opened Wire
  import opened RecordVerifier

  // ---- Sums over the case matrix, whatever its order ----

  /** What one case of a variant contributes to a count, n being the size of the race. */
  datatype Quantity = Attempts | AllowedAttempts | Executions

  function Weight(q: Quantity, v: Variant, n: nat): nat {
    match q
    case Attempts => if v == Concurrent then n else if v == Replay then 2 else 1
    case AllowedAttempts => if AllowVariant(v) then 1 else 0
    case Executions => if AllowVariant(v) then 1 else 0
  }

  function Total(q: Quantity, cases: seq<CaseObservation>, n: nat): nat {
    if cases == [] then 0 else Total(q, cases[..|cases| - 1], n) + Weight(q, cases[|cases| - 1].variant, n)
  }

  lemma {:induction false} TotalWithout(q: Quantity, cases: seq<CaseObservation>, n: nat, i: nat)
    requires i < |cases|
    ensures Total(q, cases, n) == Weight(q, cases[i].variant, n) + Total(q, cases[..i] + cases[i + 1..], n)
    decreases |cases|
  {
    hide Weight;
    var m := |cases| - 1;
    var rest := cases[..i] + cases[i + 1..];
    if i == m {
      assert rest == cases[..m];
    } else {
      TotalWithout(q, cases[..m], n, i);
      assert rest[..m - 1] == cases[..m][..i] + cases[..m][i + 1..];
      assert rest[m - 1] == cases[m];
    }
  }

  ghost predicate Different(cases: seq<CaseObservation>) {
    forall i, j :: 0 <= i < j < |cases| ==> cases[i].variant != cases[j].variant
  }

  /** Take one variant's case out of the matrix. */
  lemma TakeOut(q: Quantity, cases: seq<CaseObservation>, n: nat, v: Variant, left: set<Variant>) returns (rest: seq<CaseObservation>)
    requires Different(cases) && v in left && Image(VariantOf, cases) == left
    ensures Different(rest) && Image(VariantOf, rest) == left - {v}
    ensures Total(q, cases, n) == Weight(q, v, n) + Total(q, rest, n)
  {
    hide Total, Weight;
    var i :| 0 <= i < |cases| && VariantOf(cases[i]) == v;
    TotalWithout(q, cases, n, i);
    rest := cases[..i] + cases[i + 1..];
    ImageWithout(cases, i);
  }

  lemma ImageWithout(cases: seq<CaseObservation>, i: nat)
    requires Different(cases) && i < |cases|
    ensures var rest := cases[..i] + cases[i + 1..];
            Different(rest) && Image(VariantOf, rest) == Image(VariantOf, cases) - {cases[i].variant}
  {
    var rest := cases[..i] + cases[i + 1..];
    assert forall k :: 0 <= k < |rest| ==> rest[k] == cases[if k < i then k else k + 1];
    forall u | u in Image(VariantOf, cases) && u != cases[i].variant
      ensures u in Image(VariantOf, rest)
    {
      var k :| 0 <= k < |cases| && VariantOf(cases[k]) == u;
      InImage(VariantOf, rest, if k < i then k else k - 1);
    }
  }

  lemma MatrixTotal(q: Quantity, cases: seq<CaseObservation>, n: nat)
    requires FullMatrix(cases)
    ensures Different(cases)
    ensures Total(q, cases, n) ==
              Weight(q, Valid, n) + Weight(q, Replay, n) + Weight(q, Concurrent, n) + Weight(q, ArgumentSubstitution, n)
              + Weight(q, RecordSubstitution, n) + Weight(q, WrongHolder, n) + Weight(q, Malformed, n)
  {
    hide Total, Weight;
    MatrixDifferent(cases);
    hide Image;
    var c1 := TakeOut(q, cases, n, Valid, AllVariants);
    var c2 := TakeOut(q, c1, n, Replay, AllVariants - {Valid});
    var c3 := TakeOut(q, c2, n, Concurrent, AllVariants - {Valid} - {Replay});
    var c4 := TakeOut(q, c3, n, ArgumentSubstitution, AllVariants - {Valid} - {Replay} - {Concurrent});
    var c5 := TakeOut(q, c4, n, RecordSubstitution, AllVariants - {Valid} - {Replay} - {Concurrent} - {ArgumentSubstitution});
    var c6 := TakeOut(q, c5, n, WrongHolder,
      AllVariants - {Valid} - {Replay} - {Concurrent} - {ArgumentSubstitution} - {RecordSubstitution});
    var c7 := TakeOut(q, c6, n, Malformed,
      AllVariants - {Valid} - {Replay} - {Concurrent} - {ArgumentSubstitution} - {RecordSubstitution} - {WrongHolder});
    NothingLeft(q, c7, n);
  }

  lemma MatrixDifferent(cases: seq<CaseObservation>)
    requires FullMatrix(cases)
    ensures Different(cases)
  {
    assert |AllVariants| == 7;
    forall i, j | 0 <= i < j < |cases|
      ensures cases[i].variant != cases[j].variant
    {
      FullImage(VariantOf, cases, i, j);
    }
  }

  lemma NothingLeft(q: Quantity, rest: seq<CaseObservation>, n: nat)
    requires Image(VariantOf, rest) == {}
    ensures Total(q, rest, n) == 0
  {
    if rest != [] {
      InImage(VariantOf, rest, 0);
    }
  }

  // ---- One case's contribution ----

  /** The size of the race in the record. */
  ghost predicate RaceSize(cases: seq<CaseObservation>, n: nat) {
    forall k :: 0 <= k < |cases| && cases[k].variant == Concurrent ==> |cases[k].attempts| == n
  }

  lemma {:induction false} AllowedIsCount(attempts: seq<Attempt>)
    requires forall k :: 0 <= k < |attempts| ==> AttemptSemantics(attempts[k])
    ensures Allowed(attempts) == multiset(Verdicts(attempts))[(true, ALLOW)]
  {
    if attempts != [] {
      var m := |attempts| - 1;
      AllowedIsCount(attempts[..m]);
      assert Verdicts(attempts) == Verdicts(attempts[..m]) + [(attempts[m].allowed, attempts[m].reason)];
    }
  }

  lemma {:induction false} SpentCount(n: nat)
    ensures multiset(seq(n, _ => (false, CREDENTIAL_SPENT)))[(true, ALLOW)] == 0
  {
    if n > 0 {
      SpentCount(n - 1);
      assert seq(n, _ => (false, CREDENTIAL_SPENT)) == seq(n - 1, _ => (false, CREDENTIAL_SPENT)) + [(false, CREDENTIAL_SPENT)];
    }
  }

  lemma ExpectedAllowed(v: Variant, n: nat)
    requires v == Concurrent ==> n >= 1
    ensures multiset(ExpectedVerdicts(v, n))[(true, ALLOW)] == Weight(AllowedAttempts, v, n)
  {
    if v == Concurrent {
      SpentCount(n - 1);
    }
  }

  lemma CaseCounts(c: CaseObservation)
    requires CaseSemantics(c)
    ensures |c.attempts| == Weight(Attempts, c.variant, |c.attempts|)
    ensures Allowed(c.attempts) == Weight(AllowedAttempts, c.variant, |c.attempts|)
  {
    AllowedIsCount(c.attempts);
    ExpectedAllowed(c.variant, |c.attempts|);
    assert |Verdicts(c.attempts)| == |c.attempts|;
    hide AttemptSemantics, SameCall, DifferentCall;
  }

  lemma AllowedConcat(a: seq<Attempt>, b: seq<Attempt>)
    ensures Allowed(a + b) == Allowed(a) + Allowed(b)
    decreases |b|
  {
    if b == [] {
      assert a + b == a;
    } else {
      assert (a + b)[..|a + b| - 1] == a + b[..|b| - 1];
      AllowedConcat(a, b[..|b| - 1]);
    }
  }

  lemma {:induction false} RecordTotals(cases: seq<CaseObservation>, n: nat)
    requires forall k :: 0 <= k < |cases| ==> CaseSemantics(cases[k])
    requires RaceSize(cases, n)
    ensures |Flat(cases)| == Total(Attempts, cases, n)
    ensures Allowed(Flat(cases)) == Total(AllowedAttempts, cases, n)
    ensures SumDeltas(cases) == SumRedemptions(cases) == Total(Executions, cases, n)
  {
    hide CaseSemantics, Allowed, Weight;
    if cases == [] {
      NothingAllowed();
    } else {
      var m := |cases| - 1;
      RecordTotals(cases[..m], n);
      CaseWeighs(cases[m], n);
      AllowedConcat(Flat(cases[..m]), cases[m].attempts);
    }
  }

  lemma NothingAllowed()
    ensures Allowed([]) == 0
  {
  }

  lemma CaseWeighs(c: CaseObservation, n: nat)
    requires CaseSemantics(c) && (c.variant == Concurrent ==> |c.attempts| == n)
    ensures |c.attempts| == Weight(Attempts, c.variant, n) && Allowed(c.attempts) == Weight(AllowedAttempts, c.variant, n)
    ensures c.invocationDelta == c.redemptionCount == Weight(Executions, c.variant, n)
  {
    CaseCounts(c);
    hide Allowed, VerdictsMatch, SameCall, DifferentCall, AttemptSemantics;
  }

  /** Any accepted record whose race has n attempts counts exactly 7 issuances, n + 7 attempts,
      3 allowed, n + 4 denied, 3 executions and 3 redemptions. */
  lemma AcceptedCounts(r: Record, n: nat)
    requires RecordSemantics(r) && RaceSize(r.cases, n)
    ensures r.brokerCount == 7 && r.resourceCount == n + 7
    ensures r.allowedCount == 3 && r.deniedCount == n + 4
    ensures r.invocationCount == 3 && r.redemptionCount == 3
  {
    hide CaseSemantics, Total, Flat, Allowed, SumDeltas, SumRedemptions, InvocationIds, Image;
    RecordTotals(r.cases, n);
    MatrixTotal(Attempts, r.cases, n);
    MatrixTotal(AllowedAttempts, r.cases, n);
    MatrixTotal(Executions, r.cases, n);
  }

  // ---- Which values repeat ----

  lemma AllowedListed(attempts: seq<Attempt>, j: nat)
    requires j < |attempts| && attempts[j].allowed
    ensures attempts[j].invocationId in AllowedIds(attempts)
    decreases |attempts|
  {
    if j < |attempts| - 1 {
      AllowedListed(attempts[..|attempts| - 1], j);
    }
  }

  lemma {:induction false} AllowedExists(attempts: seq<Attempt>) returns (j: nat)
    requires AllowedIds(attempts) != []
    ensures j < |attempts| && attempts[j].allowed
  {
    var m := |attempts| - 1;
    if attempts[m].allowed {
      j := m;
    } else {
      j := AllowedExists(attempts[..m]);
    }
  }

  lemma AllowedTwice(attempts: seq<Attempt>, i: nat, j: nat)
    requires i < j < |attempts| && attempts[i].allowed && attempts[j].allowed
    ensures |AllowedIds(attempts)| >= 2
    decreases |attempts|
  {
    var m := |attempts| - 1;
    if j < m {
      AllowedTwice(attempts[..m], i, j);
    } else {
      AllowedListed(attempts[..m], i);
    }
  }

  /** How often the list carries a challenge. */
  function Occurrences(all: seq<Attempt>, x: Term): nat {
    if all == [] then 0
    else Occurrences(all[..|all| - 1], x) + (if ChallengeOf(all[|all| - 1]) == Some(x) then 1 else 0)
  }

  lemma {:induction false} OccurrencesCount(all: seq<Attempt>, x: Term)
    ensures multiset(Challenges(all))[x] == Occurrences(all, x)
  {
    hide ChallengeOf;
    if all != [] {
      OccurrencesCount(all[..|all| - 1], x);
    }
  }

  lemma {:induction false} OccursOnceMore(all: seq<Attempt>, p: nat, x: Term)
    requires p < |all| && ChallengeOf(all[p]) == Some(x)
    ensures Occurrences(all, x) >= Occurrences(all[..p], x) + 1
  {
    hide ChallengeOf;
    var m := |all| - 1;
    if p < m {
      OccursOnceMore(all[..m], p, x);
      assert all[..m][..p] == all[..p];
    }
  }

  lemma CountGrows(all: seq<Attempt>, p: nat, x: Term)
    requires p < |all| && ChallengeOf(all[p]) == Some(x)
    ensures multiset(Challenges(all))[x] >= multiset(Challenges(all[..p]))[x] + 1
  {
    hide Challenges, ChallengeOf, Occurrences;
    OccursOnceMore(all, p, x);
    OccurrencesCount(all, x);
    OccurrencesCount(all[..p], x);
  }

  lemma CountTwice(all: seq<Attempt>, p: nat, q: nat, x: Term)
    requires p < q < |all| && ChallengeOf(all[p]) == Some(x) && ChallengeOf(all[q]) == Some(x)
    ensures multiset(Challenges(all))[x] >= 2
  {
    hide Challenges;
    CountGrows(all, q, x);
    CountGrows(all[..q], p, x);
  }

  lemma CountThrice(all: seq<Attempt>, p: nat, q: nat, s: nat, x: Term)
    requires p < q < s < |all|
    requires ChallengeOf(all[p]) == Some(x) && ChallengeOf(all[q]) == Some(x) && ChallengeOf(all[s]) == Some(x)
    ensures multiset(Challenges(all))[x] >= 3
  {
    hide Challenges;
    CountGrows(all, s, x);
    CountTwice(all[..s], p, q, x);
  }

  /** Where an attempt stands in the flattened list. */
  function Position(cases: seq<CaseObservation>, i: nat, j: nat): nat
    requires i < |cases|
  {
    |Flat(cases[..i])| + j
  }

  lemma {:induction false} FlatAt(cases: seq<CaseObservation>, i: nat, j: nat)
    requires i < |cases| && j < |cases[i].attempts|
    ensures Position(cases, i, j) < |Flat(cases)| && Flat(cases)[Position(cases, i, j)] == cases[i].attempts[j]
  {
    var m := |cases| - 1;
    if i < m {
      assert cases[..m][..i] == cases[..i];
      FlatAt(cases[..m], i, j);
    }
  }

  lemma {:induction false} Locate(cases: seq<CaseObservation>, p: nat) returns (i: nat, j: nat)
    requires p < |Flat(cases)|
    ensures i < |cases| && j < |cases[i].attempts| && Position(cases, i, j) == p && Flat(cases)[p] == cases[i].attempts[j]
  {
    var m := |cases| - 1;
    if p < |Flat(cases[..m])| {
      i, j := Locate(cases[..m], p);
      assert cases[..m][..i] == cases[..i];
    } else {
      i, j := m, p - |Flat(cases[..m])|;
    }
  }

  lemma {:induction false} PositionOrder(cases: seq<CaseObservation>, i: nat, j: nat, k: nat, l: nat)
    requires i < k < |cases| && j < |cases[i].attempts|
    ensures Position(cases, i, j) < Position(cases, k, l)
    decreases k
  {
    assert cases[..k][..k - 1] == cases[..k - 1];
    if i < k - 1 {
      PositionOrder(cases, i, j, k - 1, 0);
    }
  }

  lemma {:induction false} ReplayHashFound(cases: seq<CaseObservation>, i: nat)
    requires i < |cases| && cases[i].variant == Replay && cases[i].attempts != [] && Different(cases)
    ensures ReplayHash(cases) == ChallengeOf(cases[i].attempts[0])
  {
    var m := |cases| - 1;
    if i < m {
      ReplayHashFound(cases[..m], i);
    }
  }

  /** Two attempts of an accepted record share a challenge exactly when they are the replayed pair. */
  lemma SharedChallenge(r: Record, i: nat, j: nat, k: nat, l: nat)
    requires RecordSemantics(r) && EmbeddedOk(r)
    requires i < |r.cases| && j < |r.cases[i].attempts| && k < |r.cases| && l < |r.cases[k].attempts|
    requires i < k || (i == k && j < l)
    ensures ChallengeOf(r.cases[i].attempts[j]).Some? && ChallengeOf(r.cases[i].attempts[j]) == ChallengeOf(r.cases[k].attempts[l])
            <==> i == k && r.cases[i].variant == Replay
  {
    hide RecordSemantics, EmbeddedOk, ChallengeOf;
    var a, b := ChallengeOf(r.cases[i].attempts[j]), ChallengeOf(r.cases[k].attempts[l]);
    if a.Some? && a == b {
      OnlyReplayShares(r, i, j, k, l);
    }
    if i == k && r.cases[i].variant == Replay {
      ReplayShares(r, i, j, l);
    }
  }

  lemma ReplayShares(r: Record, i: nat, j: nat, l: nat)
    requires EmbeddedOk(r) && i < |r.cases| && r.cases[i].variant == Replay
    requires j < |r.cases[i].attempts| && l < |r.cases[i].attempts|
    ensures ChallengeOf(r.cases[i].attempts[j]).Some? && ChallengeOf(r.cases[i].attempts[j]) == ChallengeOf(r.cases[i].attempts[l])
  {
    hide GlobalOk, AttemptAccepted, BrokerAccepted, Image, AllowedIds;
    assert CaseAccepted(r, i);
    AllowedReceipt(r, i, j);
    SingletonImage(ChallengeOf, r.cases[i].attempts, j, l);
  }

  lemma OnlyReplayShares(r: Record, i: nat, j: nat, k: nat, l: nat)
    requires RecordSemantics(r) && EmbeddedOk(r)
    requires i < |r.cases| && j < |r.cases[i].attempts| && k < |r.cases| && l < |r.cases[k].attempts|
    requires i < k || (i == k && j < l)
    requires ChallengeOf(r.cases[i].attempts[j]).Some? && ChallengeOf(r.cases[i].attempts[j]) == ChallengeOf(r.cases[k].attempts[l])
    ensures i == k && r.cases[i].variant == Replay
  {
    hide RecordSemantics, EmbeddedOk, Flat, Challenges, ChallengeOf, Image, Position;
    var all, x := Flat(r.cases), ChallengeOf(r.cases[i].attempts[j]).value;
    var p := ReplayCounts(r);
    var u, v := Position(r.cases, i, j), Position(r.cases, k, l);
    InRecordOrder(r.cases, i, j, k, l);
    CountTwice(all, u, v, x);
    OnlyReplayTwice(r, p, x);
    ReplayShares(r, p, 0, 1);
    InRecordOrder(r.cases, p, 0, p, 1);
    var a, b := Position(r.cases, p, 0), Position(r.cases, p, 1);
    if i < p {
      InRecordOrder(r.cases, i, j, p, 0);
      CountThrice(all, u, a, b, x);
    } else if p < i {
      InRecordOrder(r.cases, p, 1, i, j);
      CountThrice(all, a, b, u, x);
    } else if k != p {
      InRecordOrder(r.cases, p, 1, k, l);
      CountThrice(all, a, b, v, x);
    }
  }

  /** Two attempts in record order, and where the flattened list has them. */
  lemma InRecordOrder(cases: seq<CaseObservation>, i: nat, j: nat, k: nat, l: nat)
    requires i < |cases| && j < |cases[i].attempts| && k < |cases| && l < |cases[k].attempts| && (i < k || (i == k && j < l))
    ensures Position(cases, i, j) < Position(cases, k, l) < |Flat(cases)|
    ensures Flat(cases)[Position(cases, i, j)] == cases[i].attempts[j] && Flat(cases)[Position(cases, k, l)] == cases[k].attempts[l]
  {
    FlatAt(cases, i, j);
    FlatAt(cases, k, l);
    if i < k { PositionOrder(cases, i, j, k, l); }
  }

  /** The replay case, its challenge, and how often the record carries it. */
  lemma ReplayCounts(r: Record) returns (p: nat)
    requires RecordSemantics(r) && EmbeddedOk(r)
    ensures p < |r.cases| && r.cases[p].variant == Replay && |r.cases[p].attempts| == 2
    ensures ChallengeOf(r.cases[p].attempts[0]) == ReplayHash(r.cases)
  {
    hide RecordSemantics, EmbeddedOk, ReplayHash, ChallengeOf, Image;
    p := ReplayCase(r);
    ReplayHashFound(r.cases, p);
  }

  /** A challenge counted twice is the replay's, and it is counted no more often. */
  lemma OnlyReplayTwice(r: Record, p: nat, x: Term)
    requires EmbeddedOk(r) && p < |r.cases| && r.cases[p].attempts != []
    requires ChallengeOf(r.cases[p].attempts[0]) == ReplayHash(r.cases)
    requires multiset(Challenges(Flat(r.cases)))[x] >= 2
    ensures ChallengeOf(r.cases[p].attempts[0]) == Some(x) && multiset(Challenges(Flat(r.cases)))[x] == 2
  {
    hide CaseAccepted, Image, Flat, Challenges, ReplayHash, ChallengeOf;
    var counts := multiset(Challenges(Flat(r.cases)));
    assert x in counts;
  }

  /** The record's replay case. */
  lemma ReplayCase(r: Record) returns (p: nat)
    requires RecordSemantics(r) && EmbeddedOk(r)
    ensures p < |r.cases| && r.cases[p].variant == Replay && |r.cases[p].attempts| == 2
    ensures |Image(ChallengeOf, r.cases[p].attempts)| == 1
    ensures Different(r.cases)
  {
    MatrixDifferent(r.cases);
    assert Replay in Image(VariantOf, r.cases);
    var i :| 0 <= i < |r.cases| && VariantOf(r.cases[i]) == Replay;
    assert CaseSemantics(r.cases[i]) && CaseAccepted(r, i);
    p := i;
  }

  /** Two allowed attempts of an accepted record are in different cases, and their receipts name
      different credentials, invocations and challenges. */
  lemma AllowedAreDistinct(r: Record, i: nat, j: nat, k: nat, l: nat)
    requires RecordSemantics(r) && EmbeddedOk(r)
    requires i < |r.cases| && j < |r.cases[i].attempts| && k < |r.cases| && l < |r.cases[k].attempts|
    requires i < k || (i == k && j < l)
    requires r.cases[i].attempts[j].allowed && r.cases[k].attempts[l].allowed
    ensures i < k
    ensures
      var p, q := Claims(r.cases[i].attempts[j].receipt), Claims(r.cases[k].attempts[l].receipt);
      && p.credentialId != q.credentialId
      && p.invocationId != q.invocationId
      && p.tokenHash.Some? && q.tokenHash.Some? && p.tokenHash != q.tokenHash
  {
    AllowedCase(r, i, j);
    AllowedCase(r, k, l);
    if i == k {
      AllowedTwice(r.cases[i].attempts, j, l);
      assert false;
    }
    MatrixDifferent(r.cases);
    assert BrokerFresh(r.cases, k) by { assert CaseAccepted(r, k); }
    hide CaseSemantics, EmbeddedOk, RecordSemantics, AllowedIds;
    assert r.cases[..k][i] == r.cases[i];
    InImage(CredentialOf, r.cases[..k], i);
    hide Image;
    if ChallengeOf(r.cases[i].attempts[j]) == ChallengeOf(r.cases[k].attempts[l]) {
      OnlyReplayShares(r, i, j, k, l);
    }
  }

  /** An allowed attempt sits in an allow-variant case and carries that variant's fixed number. */
  lemma AllowedCase(r: Record, i: nat, j: nat)
    requires RecordSemantics(r) && EmbeddedOk(r) && i < |r.cases| && j < |r.cases[i].attempts| && r.cases[i].attempts[j].allowed
    ensures AllowVariant(r.cases[i].variant) && |AllowedIds(r.cases[i].attempts)| == 1
    ensures
      var p := Claims(r.cases[i].attempts[j].receipt);
      && p.credentialId == CredentialOf(r.cases[i])
      && p.tokenHash.Some?
      && p.invocationId == Some(if r.cases[i].variant == Valid then 1 else if r.cases[i].variant == Replay then 2 else 3)
  {
    hide CaseSemantics, GlobalOk, BrokerAccepted, StoryOk, AttemptAccepted, AllowedIds;
    assert CaseAccepted(r, i);
    AllowedVariantOnly(r.cases[i], j);
    AllowedNumber(r.cases[i], j);
    AllowedReceipt(r, i, j);
  }

  lemma AllowedReceipt(r: Record, i: nat, j: nat)
    requires i < |r.cases| && j < |r.cases[i].attempts| && AttemptAccepted(r, i, j) && r.cases[i].variant != Malformed
    ensures
      var p := Claims(r.cases[i].attempts[j].receipt);
      p.credentialId == CredentialOf(r.cases[i]) && p.tokenHash.Some? && p.invocationId == r.cases[i].attempts[j].invocationId
  {
    hide Image;
  }

  lemma AllowedNumber(c: CaseObservation, j: nat)
    requires StoryOk(c) && AllowVariant(c.variant) && j < |c.attempts| && c.attempts[j].allowed
    ensures |AllowedIds(c.attempts)| == 1
    ensures c.attempts[j].invocationId == Some(if c.variant == Valid then 1 else if c.variant == Replay then 2 else 3)
  {
    hide Image;
    AllowedListed(c.attempts, j);
    hide AllowedIds;
  }

  lemma AllowedVariantOnly(c: CaseObservation, j: nat)
    requires CaseSemantics(c) && j < |c.attempts| && c.attempts[j].allowed
    ensures AllowVariant(c.variant)
  {
    assert Verdicts(c.attempts)[j] == (true, c.attempts[j].reason);
  }
}
