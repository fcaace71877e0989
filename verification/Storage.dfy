/** The SQLite store: three tables, each transaction as a function on their contents, and the
    class whose methods perform the statements one by one with commit and rollback. */
module Storage {
  import opened Symbols

  datatype BrokerRow = BrokerRow(issuedAt: int, expiresAt: int, consumedAt: Option<int>)

  datatype ResourceRow = ResourceRow(
    credentialId: Term, tool: Term, argumentsDigest: Term, recordId: Term, audience: Term,
    issuedAt: int, expiresAt: int, consumedAt: Option<int>)

  datatype Redemption = Redemption(tokenHash: Term, recordId: Term, redeemedAt: int)

  datatype Tables = Tables(
    broker: map<Term, BrokerRow>,
    resource: map<Term, ResourceRow>,
    redemptions: map<Term, Redemption>)

  datatype Result<+T> = Ok(value: T) | Err(reason: Reason)

  /** What a redemption transaction is asked to do. */
  datatype SpendArgs = SpendArgs(
    tokenHash: Term, credentialId: Term, tool: Term, argumentsDigest: Term,
    recordId: Term, audience: Term, notBefore: int, notAfter: int)

  datatype SpendResult = SpendResult(firstSpend: bool, committedAt: int, challengeExpiresAt: int)

  /** A row carries the call context the transaction expects. */
  predicate ContextMatches(row: ResourceRow, a: SpendArgs) {
    && row.credentialId == a.credentialId && row.tool == a.tool
    && row.argumentsDigest == a.argumentsDigest && row.recordId == a.recordId
    && row.audience == a.audience
  }

  /** Why the redemption transaction is refused under the write lock, in order of checking. */
  function SpendRefusal(t: Tables, a: SpendArgs, now: int): Option<Reason> {
    if a.tokenHash !in t.resource then Some(CHALLENGE_INVALID)
    else
      var row := t.resource[a.tokenHash];
      if row.consumedAt.Some? then Some(CHALLENGE_CONSUMED)
      else if now >= row.expiresAt then Some(CHALLENGE_STALE)
      else if now < a.notBefore || now > a.notAfter then Some(CREDENTIAL_EXPIRED)
      else if !ContextMatches(row, a) then Some(HOLDER_PROOF_INVALID)
      else None
  }

  /** The tables after a redemption transaction that is not refused. */
  function Spent(t: Tables, a: SpendArgs, now: int): Tables
    requires SpendRefusal(t, a, now).None?
  {
    Tables(
      t.broker,
      t.resource[a.tokenHash := t.resource[a.tokenHash].(consumedAt := Some(now))],
      if a.credentialId in t.redemptions then t.redemptions
      else t.redemptions[a.credentialId := Redemption(a.tokenHash, a.recordId, now)])
  }

  function SpendOutcome(t: Tables, a: SpendArgs, now: int): Result<SpendResult> {
    match SpendRefusal(t, a, now)
    case Some(reason) => Err(reason)
    case None => Ok(SpendResult(a.credentialId !in t.redemptions, now, t.resource[a.tokenHash].expiresAt))
  }

  function AfterSpend(t: Tables, a: SpendArgs, now: int): Tables {
    if SpendRefusal(t, a, now).None? then Spent(t, a, now) else t
  }

  function ConsumeRefusal(t: Tables, tokenHash: Term, now: int): Option<Reason> {
    if tokenHash !in t.broker then Some(CHALLENGE_INVALID)
    else if t.broker[tokenHash].consumedAt.Some? then Some(CHALLENGE_CONSUMED)
    else if now >= t.broker[tokenHash].expiresAt then Some(CHALLENGE_STALE)
    else None
  }

  function AfterConsume(t: Tables, tokenHash: Term, now: int): Tables {
    if ConsumeRefusal(t, tokenHash, now).Some? then t
    else t.(broker := t.broker[tokenHash := t.broker[tokenHash].(consumedAt := Some(now))])
  }

  function AfterStoreBroker(t: Tables, tokenHash: Term, issuedAt: int, expiresAt: int): Tables {
    if tokenHash in t.broker then t
    else t.(broker := t.broker[tokenHash := BrokerRow(issuedAt, expiresAt, None)])
  }

  function AfterStoreResource(t: Tables, tokenHash: Term, row: ResourceRow): Tables {
    if tokenHash in t.resource then t
    else t.(resource := t.resource[tokenHash := row.(consumedAt := None)])
  }

  // ---- Which refusal belongs to which row ----

  /** A stored challenge that nothing has consumed, at a reading before its expiry. */
  predicate Live(t: Tables, h: Term, now: int) {
    h in t.resource && t.resource[h].consumedAt == None && now < t.resource[h].expiresAt
  }

  /** The reading lies in the credential's window. */
  predicate Within(a: SpendArgs, now: int) {
    a.notBefore <= now <= a.notAfter
  }

  /** The row was stored for exactly this credential, tool, argument, record and audience. */
  predicate StoredFor(row: ResourceRow, a: SpendArgs) {
    (row.credentialId, row.tool, row.argumentsDigest, row.recordId, row.audience)
    == (a.credentialId, a.tool, a.argumentsDigest, a.recordId, a.audience)
  }

  /** Each refusal of the redemption transaction, against the row it found and its reading. */
  lemma SpendRefusalMeans(t: Tables, a: SpendArgs, now: int)
    ensures SpendRefusal(t, a, now) == Some(CHALLENGE_INVALID) <==> a.tokenHash !in t.resource
    ensures SpendRefusal(t, a, now) == Some(CHALLENGE_CONSUMED) <==> a.tokenHash in t.resource && t.resource[a.tokenHash].consumedAt.Some?
    ensures SpendRefusal(t, a, now) == Some(CHALLENGE_STALE) <==>
            a.tokenHash in t.resource && t.resource[a.tokenHash].consumedAt.None? && t.resource[a.tokenHash].expiresAt <= now
    ensures SpendRefusal(t, a, now) == Some(CREDENTIAL_EXPIRED) <==> Live(t, a.tokenHash, now) && !Within(a, now)
    ensures SpendRefusal(t, a, now) == Some(HOLDER_PROOF_INVALID) <==>
            Live(t, a.tokenHash, now) && Within(a, now) && !StoredFor(t.resource[a.tokenHash], a)
    ensures SpendRefusal(t, a, now) == None <==> Live(t, a.tokenHash, now) && Within(a, now) && StoredFor(t.resource[a.tokenHash], a)
    ensures SpendRefusal(t, a, now).Some? ==>
            SpendRefusal(t, a, now).value in {CHALLENGE_INVALID, CHALLENGE_CONSUMED, CHALLENGE_STALE, CREDENTIAL_EXPIRED, HOLDER_PROOF_INVALID}
  {
  }

  /** And each refusal to consume a broker challenge. */
  lemma ConsumeRefusalMeans(t: Tables, h: Term, now: int)
    ensures ConsumeRefusal(t, h, now) == Some(CHALLENGE_INVALID) <==> h !in t.broker
    ensures ConsumeRefusal(t, h, now) == Some(CHALLENGE_CONSUMED) <==> h in t.broker && t.broker[h].consumedAt.Some?
    ensures ConsumeRefusal(t, h, now) == Some(CHALLENGE_STALE) <==>
            h in t.broker && t.broker[h].consumedAt.None? && t.broker[h].expiresAt <= now
    ensures ConsumeRefusal(t, h, now) == None <==> h in t.broker && t.broker[h].consumedAt.None? && now < t.broker[h].expiresAt
    ensures ConsumeRefusal(t, h, now).Some? ==> ConsumeRefusal(t, h, now).value in {CHALLENGE_INVALID, CHALLENGE_CONSUMED, CHALLENGE_STALE}
  {
  }

  // ---- What every state of the tables satisfies, and what every transaction keeps ----

  /** Redemption rows and consumed resource challenges account for each other. */
  ghost predicate Accounted(t: Tables) {
    && (forall id :: id in t.redemptions ==>
          var r := t.redemptions[id];
          && r.tokenHash in t.resource
          && t.resource[r.tokenHash].credentialId == id
          && t.resource[r.tokenHash].recordId == r.recordId
          && t.resource[r.tokenHash].consumedAt == Some(r.redeemedAt))
    && (forall h :: h in t.resource && t.resource[h].consumedAt.Some? ==>
          t.resource[h].credentialId in t.redemptions)
  }

  /** Rows are never dropped, and a row changes at most by consumed_at going from NULL to a time. */
  ghost predicate Advances(t: Tables, u: Tables) {
    && (forall h :: h in t.broker ==>
          h in u.broker && (t.broker[h].consumedAt.Some? ==> u.broker[h] == t.broker[h])
          && u.broker[h].(consumedAt := None) == t.broker[h].(consumedAt := None))
    && (forall h :: h in t.resource ==>
          h in u.resource && (t.resource[h].consumedAt.Some? ==> u.resource[h] == t.resource[h])
          && u.resource[h].(consumedAt := None) == t.resource[h].(consumedAt := None))
    && (forall id :: id in t.redemptions ==> id in u.redemptions && u.redemptions[id] == t.redemptions[id])
  }

  lemma AdvancesTransitive(t: Tables, u: Tables, v: Tables)
    requires Advances(t, u) && Advances(u, v)
    ensures Advances(t, v)
  {
  }

  /** One cell of the store. */
  datatype Cell = BrokerCell(hash: Term) | ResourceCell(hash: Term) | RedemptionCell(id: Term)

  function Look<K, V>(m: map<K, V>, k: K): Option<V> {
    if k in m then Some(m[k]) else None
  }

  /** The cells on which two table states differ. */
  function Diff(t: Tables, u: Tables): set<Cell> {
    (set h | h in t.broker.Keys + u.broker.Keys && Look(t.broker, h) != Look(u.broker, h) :: BrokerCell(h))
    + (set h | h in t.resource.Keys + u.resource.Keys && Look(t.resource, h) != Look(u.resource, h) :: ResourceCell(h))
    + (set id | id in t.redemptions.Keys + u.redemptions.Keys && Look(t.redemptions, id) != Look(u.redemptions, id) :: RedemptionCell(id))
  }

  lemma DiffEmpty(t: Tables, u: Tables)
    ensures Diff(t, u) == {} <==> t == u
  {
    if Diff(t, u) == {} {
      forall h | h in t.broker.Keys + u.broker.Keys ensures Look(t.broker, h) == Look(u.broker, h) {
        assert BrokerCell(h) !in Diff(t, u);
      }
      forall h | h in t.resource.Keys + u.resource.Keys ensures Look(t.resource, h) == Look(u.resource, h) {
        assert ResourceCell(h) !in Diff(t, u);
      }
      forall id | id in t.redemptions.Keys + u.redemptions.Keys ensures Look(t.redemptions, id) == Look(u.redemptions, id) {
        assert RedemptionCell(id) !in Diff(t, u);
      }
      assert forall h :: h in t.broker ==> h in u.broker && Look(t.broker, h) == Look(u.broker, h);
      assert t.broker == u.broker;
      assert forall h :: h in t.resource ==> h in u.resource && Look(t.resource, h) == Look(u.resource, h);
      assert t.resource == u.resource;
      assert forall h :: h in t.redemptions ==> h in u.redemptions && Look(t.redemptions, h) == Look(u.redemptions, h);
      assert t.redemptions == u.redemptions;
    }
  }

  lemma InDiff(t: Tables, u: Tables, c: Cell)
    ensures c in Diff(t, u) <==>
              match c
              case BrokerCell(h) => Look(t.broker, h) != Look(u.broker, h)
              case ResourceCell(h) => Look(t.resource, h) != Look(u.resource, h)
              case RedemptionCell(id) => Look(t.redemptions, id) != Look(u.redemptions, id)
  {
  }

  /** The cells a redemption transaction writes. */
  function SpendCells(t: Tables, a: SpendArgs, now: int): set<Cell> {
    match SpendOutcome(t, a, now)
    case Err(_) => {}
    case Ok(r) => if r.firstSpend then {ResourceCell(a.tokenHash), RedemptionCell(a.credentialId)}
                  else {ResourceCell(a.tokenHash)}
  }

  /** The redemption transaction writes exactly the consumed challenge and, on the first spend
      alone, the redemption row; a refused one writes nothing. */
  lemma SpendWrites(t: Tables, a: SpendArgs, now: int)
    ensures Diff(t, AfterSpend(t, a, now)) == SpendCells(t, a, now)
  {
    var u := AfterSpend(t, a, now);
    forall c
      ensures c in Diff(t, u) <==> c in SpendCells(t, a, now)
    {
      InDiff(t, u, c);
    }
  }

  /** The redemption transaction keeps the accounting and only advances rows. */
  lemma SpendKeeps(t: Tables, a: SpendArgs, now: int)
    requires Accounted(t)
    ensures Accounted(AfterSpend(t, a, now))
    ensures Advances(t, AfterSpend(t, a, now))
  {
    if SpendRefusal(t, a, now).None? {
      SpentKeeps(t, a, now);
    }
  }

  lemma SpentKeeps(t: Tables, a: SpendArgs, now: int)
    requires Accounted(t) && SpendRefusal(t, a, now).None?
    ensures Accounted(Spent(t, a, now))
    ensures Advances(t, Spent(t, a, now))
  {
    var u := Spent(t, a, now);
    var row := t.resource[a.tokenHash];
    assert u.resource == t.resource[a.tokenHash := row.(consumedAt := Some(now))];
    forall id | id in u.redemptions
      ensures var r := u.redemptions[id];
              && r.tokenHash in u.resource
              && u.resource[r.tokenHash].credentialId == id
              && u.resource[r.tokenHash].recordId == r.recordId
              && u.resource[r.tokenHash].consumedAt == Some(r.redeemedAt)
    {
      if id in t.redemptions {
        assert t.redemptions[id].tokenHash != a.tokenHash;
      }
    }
    forall h | h in u.resource && u.resource[h].consumedAt.Some?
      ensures u.resource[h].credentialId in u.redemptions
    {
      if h != a.tokenHash {
        assert t.resource[h].credentialId in t.redemptions;
      }
    }
  }

  lemma ConsumeKeeps(t: Tables, tokenHash: Term, now: int)
    requires Accounted(t)
    ensures Accounted(AfterConsume(t, tokenHash, now))
    ensures Advances(t, AfterConsume(t, tokenHash, now))
    ensures Diff(t, AfterConsume(t, tokenHash, now)) ==
              if ConsumeRefusal(t, tokenHash, now).Some? then {} else {BrokerCell(tokenHash)}
  {
    var u := AfterConsume(t, tokenHash, now);
    if ConsumeRefusal(t, tokenHash, now).Some? {
      DiffEmpty(t, u);
    } else {
      assert Look(t.broker, tokenHash) != Look(u.broker, tokenHash);
      assert BrokerCell(tokenHash) in Diff(t, u);
      assert Diff(t, u) <= {BrokerCell(tokenHash)};
    }
  }

  /** Storing a broker challenge keeps the accounting and every row. */
  lemma StoreBrokerKeeps(t: Tables, tokenHash: Term, issuedAt: int, expiresAt: int)
    requires Accounted(t)
    ensures Accounted(AfterStoreBroker(t, tokenHash, issuedAt, expiresAt))
    ensures Advances(t, AfterStoreBroker(t, tokenHash, issuedAt, expiresAt))
  {
    var u := AfterStoreBroker(t, tokenHash, issuedAt, expiresAt);
    assert u.resource == t.resource && u.redemptions == t.redemptions;
    assert Accounted(u) by { hide AfterStoreBroker, Advances; }
  }

  /** And so does storing a resource challenge. */
  lemma StoreResourceKeeps(t: Tables, tokenHash: Term, row: ResourceRow)
    requires Accounted(t)
    ensures Accounted(AfterStoreResource(t, tokenHash, row))
    ensures Advances(t, AfterStoreResource(t, tokenHash, row))
  {
    hide Accounted;
    StoredAccounted(t, tokenHash, row);
  }

  lemma StoredAccounted(t: Tables, tokenHash: Term, row: ResourceRow)
    requires Accounted(t)
    ensures Accounted(AfterStoreResource(t, tokenHash, row))
  {
    var u := AfterStoreResource(t, tokenHash, row);
    assert forall h :: h in u.resource ==> h == tokenHash || (h in t.resource && u.resource[h] == t.resource[h]);
  }

  /** One database file. Every method is one connection: statements run against the live tables
      and a failure restores the tables found when the write lock was taken. */
  class SQLiteStore {
    var broker: map<Term, BrokerRow>
    var resource: map<Term, ResourceRow>
    var redemptions: map<Term, Redemption>

    ghost function Contents(): Tables
      reads this
    {
      Tables(broker, resource, redemptions)
    }

    constructor ()
      ensures Contents() == Tables(map[], map[], map[])
      ensures Accounted(Contents())
    {
      broker, resource, redemptions := map[], map[], map[];
    }

    /** Add a broker challenge; a token already stored raises and changes nothing. */
    method StoreBrokerChallenge(tokenHash: Term, issuedAt: int, expiresAt: int) returns (inserted: bool)
      requires Accounted(Contents())
      modifies this`broker
      ensures inserted == (tokenHash !in old(broker))
      ensures Contents() == AfterStoreBroker(old(Contents()), tokenHash, issuedAt, expiresAt)
      ensures Accounted(Contents())
    {
      inserted := tokenHash !in broker;
      if inserted {
        broker := broker[tokenHash := BrokerRow(issuedAt, expiresAt, None)];
      }
    }

    /** Add a resource challenge; a token already stored raises and changes nothing. */
    method StoreResourceChallenge(
      tokenHash: Term, credentialId: Term, tool: Term, argumentsDigest: Term, recordId: Term,
      audience: Term, issuedAt: int, expiresAt: int) returns (inserted: bool)
      requires Accounted(Contents())
      modifies this`resource
      ensures inserted == (tokenHash !in old(resource))
      ensures Contents() == AfterStoreResource(old(Contents()), tokenHash,
        ResourceRow(credentialId, tool, argumentsDigest, recordId, audience, issuedAt, expiresAt, None))
      ensures Accounted(Contents())
    {
      var row := ResourceRow(credentialId, tool, argumentsDigest, recordId, audience, issuedAt, expiresAt, None);
      StoreResourceKeeps(Contents(), tokenHash, row);
      inserted := tokenHash !in resource;
      if inserted {
        resource := resource[tokenHash := row];
      }
    }

    method GetResourceChallenge(tokenHash: Term) returns (row: Option<ResourceRow>)
      ensures row == Look(Contents().resource, tokenHash)
    {
      row := if tokenHash in resource then Some(resource[tokenHash]) else None;
    }

    /** Stamp a challenge that is stored and not yet consumed; otherwise touch no row. */
    method MarkConsumed(tokenHash: Term, now: int) returns (rowcount: nat)
      modifies this`resource
      ensures rowcount == if tokenHash in old(resource) && old(resource)[tokenHash].consumedAt.None? then 1 else 0
      ensures resource == if rowcount == 1
                          then old(resource)[tokenHash := old(resource)[tokenHash].(consumedAt := Some(now))]
                          else old(resource)
    {
      rowcount := 0;
      if tokenHash in resource && resource[tokenHash].consumedAt.None? {
        resource := resource[tokenHash := resource[tokenHash].(consumedAt := Some(now))];
        rowcount := 1;
      }
    }

    /** Add the redemption row unless the credential already has one. */
    method InsertOrIgnore(credentialId: Term, row: Redemption) returns (rowcount: nat)
      modifies this`redemptions
      ensures rowcount == if credentialId in old(redemptions) then 0 else 1
      ensures redemptions == if rowcount == 1 then old(redemptions)[credentialId := row] else old(redemptions)
    {
      rowcount := 0;
      if credentialId !in redemptions {
        redemptions := redemptions[credentialId := row];
        rowcount := 1;
      }
    }

    /** The redemption transaction. The clock reading is taken under the write lock, and the branch
        in which the guarded stamp touches no row is never taken. */
    method ConsumeChallengeAndSpendCredential(a: SpendArgs, lockedNow: int)
      returns (result: Result<SpendResult>, lostRace: bool)
      requires Accounted(Contents())
      modifies this`resource, this`redemptions
      ensures result == SpendOutcome(old(Contents()), a, lockedNow)
      ensures Contents() == AfterSpend(old(Contents()), a, lockedNow)
      ensures result == Err(CHALLENGE_INVALID) <==> a.tokenHash !in old(resource)
      ensures result == Err(CHALLENGE_CONSUMED) <==> a.tokenHash in old(resource) && old(resource)[a.tokenHash].consumedAt.Some?
      ensures result == Err(CHALLENGE_STALE) <==>
              a.tokenHash in old(resource) && old(resource)[a.tokenHash].consumedAt.None? && old(resource)[a.tokenHash].expiresAt <= lockedNow
      ensures result == Err(CREDENTIAL_EXPIRED) <==>
              Live(old(Contents()), a.tokenHash, lockedNow) && (lockedNow < a.notBefore || a.notAfter < lockedNow)
      ensures result == Err(HOLDER_PROOF_INVALID) <==>
              && Live(old(Contents()), a.tokenHash, lockedNow) && a.notBefore <= lockedNow <= a.notAfter
              && !StoredFor(old(resource)[a.tokenHash], a)
      ensures result.Ok? <==>
              && Live(old(Contents()), a.tokenHash, lockedNow) && a.notBefore <= lockedNow <= a.notAfter
              && StoredFor(old(resource)[a.tokenHash], a)
      ensures result.Ok? ==>
              && (result.value.firstSpend <==> a.credentialId !in old(redemptions))
              && result.value.committedAt == lockedNow && result.value.challengeExpiresAt == old(resource)[a.tokenHash].expiresAt
              && resource == old(resource)[a.tokenHash := old(resource)[a.tokenHash].(consumedAt := Some(lockedNow))]
              && redemptions == (if a.credentialId in old(redemptions) then old(redemptions)
                                 else old(redemptions)[a.credentialId := Redemption(a.tokenHash, a.recordId, lockedNow)])
      ensures result.Err? ==> resource == old(resource) && redemptions == old(redemptions)
      ensures !lostRace
      ensures Accounted(Contents())
    {
      hide Accounted, SpendRefusal;
      SpendRefusalMeans(Contents(), a, lockedNow);
      SpendKeeps(Contents(), a, lockedNow);
      var savedResource, savedRedemptions := resource, redemptions;
      lostRace := false;
      var row := GetResourceChallenge(a.tokenHash);
      if row.None? {
        result := Err(CHALLENGE_INVALID);
      } else if row.value.consumedAt.Some? {
        result := Err(CHALLENGE_CONSUMED);
      } else if lockedNow >= row.value.expiresAt {
        result := Err(CHALLENGE_STALE);
      } else if lockedNow < a.notBefore || lockedNow > a.notAfter {
        result := Err(CREDENTIAL_EXPIRED);
      } else if !ContextMatches(row.value, a) {
        result := Err(HOLDER_PROOF_INVALID);
      } else {
        var inserted := InsertOrIgnore(a.credentialId, Redemption(a.tokenHash, a.recordId, lockedNow));
        var updated := MarkConsumed(a.tokenHash, lockedNow);
        if updated != 1 {
          lostRace := true;
          result := Err(CHALLENGE_CONSUMED);
        } else {
          result := Ok(SpendResult(inserted == 1, lockedNow, row.value.expiresAt));
        }
      }
      if result.Err? {
        resource, redemptions := savedResource, savedRedemptions;
      }
    }

    /** The transaction that consumes a broker challenge. */
    method ConsumeBrokerChallenge(tokenHash: Term, lockedNow: int) returns (refusal: Option<Reason>, lostRace: bool)
      requires Accounted(Contents())
      modifies this`broker
      ensures refusal == ConsumeRefusal(old(Contents()), tokenHash, lockedNow)
      ensures Contents() == AfterConsume(old(Contents()), tokenHash, lockedNow)
      ensures refusal == Some(CHALLENGE_INVALID) <==> tokenHash !in old(broker)
      ensures refusal == Some(CHALLENGE_CONSUMED) <==> tokenHash in old(broker) && old(broker)[tokenHash].consumedAt.Some?
      ensures refusal == Some(CHALLENGE_STALE) <==>
              tokenHash in old(broker) && old(broker)[tokenHash].consumedAt.None? && old(broker)[tokenHash].expiresAt <= lockedNow
      ensures refusal == None <==>
              tokenHash in old(broker) && old(broker)[tokenHash].consumedAt.None? && lockedNow < old(broker)[tokenHash].expiresAt
      ensures refusal.Some? ==> broker == old(broker)
      ensures refusal.None? ==> broker == old(broker)[tokenHash := old(broker)[tokenHash].(consumedAt := Some(lockedNow))]
      ensures !lostRace
      ensures Accounted(Contents())
    {
      hide Accounted;
      ConsumeKeeps(Contents(), tokenHash, lockedNow);
      var saved := broker;
      lostRace := false;
      if tokenHash !in broker {
        refusal := Some(CHALLENGE_INVALID);
      } else if broker[tokenHash].consumedAt.Some? {
        refusal := Some(CHALLENGE_CONSUMED);
      } else if lockedNow >= broker[tokenHash].expiresAt {
        refusal := Some(CHALLENGE_STALE);
      } else {
        refusal := None;
        var updated := 0;
        if broker[tokenHash].consumedAt.None? {
          broker := broker[tokenHash := broker[tokenHash].(consumedAt := Some(lockedNow))];
          updated := 1;
        }
        if updated != 1 {
          lostRace := true;
          refusal := Some(CHALLENGE_CONSUMED);
        }
      }
      if refusal.Some? {
        broker := saved;
      }
    }

    /** SELECT COUNT(*): the primary key makes it 0 or 1. */
    method RedemptionCount(credentialId: Term) returns (count: nat)
      ensures count <= 1
      ensures count == 1 <==> credentialId in redemptions
    {
      count := if credentialId in redemptions then 1 else 0;
    }
  }
}
