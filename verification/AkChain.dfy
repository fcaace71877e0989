/** The synthetic AK certificate profile. Certificates are already parsed; an extension that is
    missing, duplicated or malformed is None. */
module AkChain {
  import opened Symbols

  datatype BasicConstraints = BasicConstraints(ca: bool, pathLength: Option<nat>)
  datatype KeyUsage = KeyUsage(digitalSignature: bool, keyCertSign: bool)

  datatype Certificate = Certificate(
    notBefore: int, notAfter: int, constraints: Option<BasicConstraints>, usage: Option<KeyUsage>)

  predicate Current(c: Certificate, now: int) {
    c.notBefore <= now < c.notAfter
  }

  predicate Leaf(c: Certificate) {
    && c.constraints.Some? && !c.constraints.value.ca
    && c.usage.Some? && c.usage.value.digitalSignature && !c.usage.value.keyCertSign
  }

  predicate Authority(c: Certificate) {
    && c.constraints.Some? && c.constraints.value.ca
    && c.usage.Some? && c.usage.value.keyCertSign
  }

  /** The path length a certificate allows, if it says. */
  function Limit(c: Certificate): Option<nat> {
    if c.constraints.Some? then c.constraints.value.pathLength else None
  }

  /** At most `below` authorities may stand below this one. */
  predicate Admits(c: Certificate, below: int) {
    Limit(c).Some? ==> below <= Limit(c).value
  }

  /** The whole profile: a current leaf, current intermediates, authorities throughout, and every
      path-length constraint kept; neither a chain's root nor a configured root need be current. */
  predicate ProfileOk(chain: seq<Certificate>, roots: seq<Certificate>, now: int) {
    && |chain| >= 2 && roots != []
    && Current(chain[0], now) && Leaf(chain[0])
    && (forall i :: 1 <= i < |chain| - 1 ==> Current(chain[i], now))
    && (forall i :: 1 <= i < |chain| ==> Authority(chain[i]))
    && PathLengthsOk(chain)
    && (forall i :: 0 <= i < |roots| ==> Authority(roots[i]))
  }

  predicate PathLengthsOk(chain: seq<Certificate>) {
    forall i :: 1 <= i < |chain| ==> Admits(chain[i], i - 1)
  }

  /** A bundle of certificates as it arrives: missing or not bytes, not parseable, or parsed. */
  datatype Pem = Missing | Malformed | Certificates(list: seq<Certificate>)

  /** The time of evaluation: not a time, a time without an offset, or an instant. */
  datatype Evaluation = NotATime | Naive | Instant(now: int)

  /** The profile on the inputs as they arrive. */
  predicate PolicyMet(chain: Pem, roots: Pem, at: Evaluation) {
    && at.Instant? && chain.Certificates? && roots.Certificates?
    && ProfileOk(chain.list, roots.list, at.now)
  }

  /** The profile clause by clause: every certificate but the last is current; the first is an end
      entity that signs and issues nothing; every other one, and every configured root, is an
      authority; and an authority at position i with a path length has at most that many below it. */
  lemma PolicyMeans(chain: Pem, roots: Pem, at: Evaluation)
    ensures PolicyMet(chain, roots, at) <==>
      && at.Instant? && chain.Certificates? && roots.Certificates? && |chain.list| >= 2 && |roots.list| >= 1
      && (forall i :: 0 <= i < |chain.list| - 1 ==> chain.list[i].notBefore <= at.now && at.now < chain.list[i].notAfter)
      && (forall i :: 0 <= i < |chain.list| ==> chain.list[i].constraints.Some? && chain.list[i].usage.Some?)
      && (forall i :: 0 <= i < |chain.list| ==> (chain.list[i].constraints.value.ca <==> i > 0))
      && (forall i :: 0 <= i < |chain.list| ==> (chain.list[i].usage.value.keyCertSign <==> i > 0))
      && chain.list[0].usage.value.digitalSignature
      && (forall i :: 1 <= i < |chain.list| && chain.list[i].constraints.value.pathLength.Some? ==>
            i <= chain.list[i].constraints.value.pathLength.value + 1)
      && (forall i :: 0 <= i < |roots.list| ==> RootClause(roots.list[i]))
  {
    if PolicyMet(chain, roots, at) {
      forall i | 0 <= i < |chain.list|
        ensures chain.list[i].constraints.Some? && chain.list[i].usage.Some?
        ensures chain.list[i].constraints.value.ca <==> i > 0
        ensures chain.list[i].usage.value.keyCertSign <==> i > 0
      {
        if i > 0 { assert Authority(chain.list[i]); }
      }
      forall i | 1 <= i < |chain.list| && chain.list[i].constraints.value.pathLength.Some?
        ensures i <= chain.list[i].constraints.value.pathLength.value + 1
      {
        assert Admits(chain.list[i], i - 1);
      }
      forall i | 0 <= i < |roots.list|
        ensures RootClause(roots.list[i])
      {
        assert Authority(roots.list[i]);
      }
    }
  }

  predicate RootClause(c: Certificate) {
    c.constraints.Some? && c.constraints.value.ca && c.usage.Some? && c.usage.value.keyCertSign
  }

  method LoadCertificates(pem: Pem) returns (loaded: Option<seq<Certificate>>)
    ensures loaded == if pem.Certificates? && pem.list != [] then Some(pem.list) else None
  {
    if pem.Missing? || pem.Malformed? || pem.list == [] { return None; }
    loaded := Some(pem.list);
  }

  /** The checks in the order the profile makes them. */
  method EnforcePolicy(chainPem: Pem, rootsPem: Pem, at: Evaluation) returns (ok: bool)
    ensures ok <==> PolicyMet(chainPem, rootsPem, at)
  {
    if at.NotATime? || at.Naive? { return false; }
    var now := at.now;
    var loadedChain := LoadCertificates(chainPem);
    if loadedChain.None? { return false; }
    var loadedRoots := LoadCertificates(rootsPem);
    if loadedRoots.None? { return false; }
    var chain, roots := loadedChain.value, loadedRoots.value;
    if |chain| < 2 { return false; }
    var leaf := chain[0];
    if !Current(leaf, now) || leaf.constraints.None? || leaf.constraints.value.ca || leaf.usage.None?
       || !leaf.usage.value.digitalSignature || leaf.usage.value.keyCertSign {
      return false;
    }
    for index := 1 to |chain|
      invariant forall i :: 1 <= i < index && i < |chain| - 1 ==> Current(chain[i], now)
      invariant forall i :: 1 <= i < index ==> Authority(chain[i]) && Admits(chain[i], i - 1)
    {
      var issuer := chain[index];
      if index < |chain| - 1 && !Current(issuer, now) { return false; }
      if issuer.constraints.None? || !issuer.constraints.value.ca { return false; }
      if issuer.usage.None? || !issuer.usage.value.keyCertSign { return false; }
      var subordinates := index - 1;
      if issuer.constraints.value.pathLength.Some? && subordinates > issuer.constraints.value.pathLength.value {
        assert !Admits(issuer, index - 1);
        return false;
      }
    }
    for index := 0 to |roots|
      invariant forall i :: 0 <= i < index ==> Authority(roots[i])
    {
      var root := roots[index];
      if root.constraints.None? || !root.constraints.value.ca { return false; }
      if root.usage.None? || !root.usage.value.keyCertSign { return false; }
    }
    ok := true;
  }

  // ---- The running maximum of section 6.1.4 of RFC 5280 ----

  /** Step (m): a smaller constraint lowers the maximum. */
  function Lowered(max: int, c: Certificate): int {
    if Limit(c).Some? && Limit(c).value < max then Limit(c).value else max
  }

  /** The maximum after the authorities from the anchor down to position i, or None once step (l)
      has found it exhausted. The anchor is the chain's last certificate: it sets the maximum and
      uses none of it. Every other authority uses one, self-issued or not. The leaf is not
      prepared for. */
  function RunningMax(chain: seq<Certificate>, i: nat): Option<int>
    requires 1 <= i < |chain|
    decreases |chain| - i
  {
    if i == |chain| - 1 then Some(Lowered(|chain| - 1, chain[i]))
    else
      match RunningMax(chain, i + 1)
      case None => None
      case Some(max) => if max <= 0 then None else Some(Lowered(max - 1, chain[i]))
  }

  /** Certificates from position i up leave room for m more authorities below position i. */
  predicate Room(chain: seq<Certificate>, i: int, m: int) {
    m <= i && forall k :: i <= k < |chain| && 0 <= k ==> Admits(chain[k], k - i + m)
  }

  /** The running maximum at position i is exactly the room left by the certificates above. */
  lemma {:induction false} RunningMaxIsRoom(chain: seq<Certificate>, i: nat, m: int)
    requires 1 <= i < |chain|
    ensures RunningMax(chain, i).Some? <==> forall k :: i < k < |chain| ==> Admits(chain[k], k - i)
    ensures RunningMax(chain, i).Some? ==> (m <= RunningMax(chain, i).value <==> Room(chain, i, m))
    decreases |chain| - i
  {
    if i < |chain| - 1 {
      RunningMaxIsRoom(chain, i + 1, m + 1);
      RunningMaxIsRoom(chain, i + 1, 1);
      if RunningMax(chain, i).Some? {
        assert Room(chain, i, m) <==> Room(chain, i + 1, m + 1) && Admits(chain[i], m);
      }
      assert Room(chain, i + 1, 1) <==> forall k :: i < k < |chain| ==> Admits(chain[k], k - i);
      if Room(chain, i + 1, 1) {
        forall k | i + 1 < k < |chain|
          ensures Admits(chain[k], k - (i + 1))
        {
          assert Admits(chain[k], k - i);
        }
      }
    }
  }

  /** The per-position test accepts exactly the chains the running maximum accepts. */
  lemma PathLengthIsRunningMax(chain: seq<Certificate>)
    requires |chain| >= 2
    ensures PathLengthsOk(chain) <==> RunningMax(chain, 1).Some?
  {
    RunningMaxIsRoom(chain, 1, 0);
  }
}
