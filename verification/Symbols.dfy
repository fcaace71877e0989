/** Vocabulary shared by every module: symbolic text values, decision reasons, policies,
    credentials and holder proofs.

    Cryptography is symbolic. A digest is a free constructor over the terms it hashes, so equal
    digests have equal preimages. A random token is named by the nonce that drew it, so two
    draws differ. A signature is the key together with the statement it covers. */
module Symbols {

  datatype Option<+T> = None | Some(value: T)

  /** A text value: a literal string, a freshly drawn identifier, the SHA-256 digest of a tagged
      tuple, or a digest carrying the "sha256:" label. */
  datatype Term =
    | Plain(chars: string)
    | Random(nonce: nat)
    | Sha256(tag: string, parts: seq<Term>)
    | Labelled(digest: Term)

  /** Python truthiness of a string. */
  predicate NonEmpty(t: Term) {
    t.Plain? ==> t.chars != ""
  }

  predicate Present(t: Option<Term>) {
    t.Some? && NonEmpty(t.value)
  }

  predicate HexChar(c: char) {
    '0' <= c <= '9' || 'a' <= c <= 'f'
  }

  /** 64 lowercase hexadecimal characters; digests and drawn identifiers have that shape. */
  predicate LowerHex(t: Term) {
    match t
    case Plain(s) => |s| == 64 && forall i :: 0 <= i < |s| ==> HexChar(s[i])
    case Random(_) => true
    case Sha256(_, _) => true
    case Labelled(_) => false
  }

  /** "sha256:" followed by 64 lowercase hexadecimal characters. */
  predicate LabelledHex(t: Term) {
    t.Labelled? && LowerHex(t.digest)
  }

  function TokenHash(token: Term): Term {
    Sha256("challenge-token", [token])
  }

  function ArgumentsDigest(sku: string): Term {
    Sha256("arguments", [Plain(sku)])
  }

  datatype Reason =
    | ALLOW | UNAUTHENTICATED | CHALLENGE_INVALID | CHALLENGE_STALE | CHALLENGE_CONSUMED
    | TPM_INVALID | TPM_UNTRUSTED | PCR_POLICY | MANIFEST_INVALID | MANIFEST_POLICY
    | IDENTITY_UNAUTHORIZED | IDENTITY_SIGNATURE | REQUEST_BINDING | CREDENTIAL_INVALID
    | CREDENTIAL_EXPIRED | SCOPE_DENIED | HOLDER_PROOF_INVALID | CREDENTIAL_SPENT
    | RECEIPT_INVALID | HANDLER_FAILED | INTERNAL_ERROR

  /** A delegation credential. Whether its signature verifies is decided by membership in the
      set of credentials the broker has signed. */
  datatype Credential = Credential(
    id: Term,
    issuer: Term,
    subject: Term,
    scope: set<Term>,
    notBefore: Option<int>,
    notAfter: Option<int>)

  /** What a holder signs over one resource challenge. */
  datatype Statement = Statement(
    challenge: Term,
    credentialId: Term,
    subject: Term,
    audience: Term,
    scope: Term,
    recordId: Term,
    sku: string)

  /** A proof signature, or the one malformed value the wire format admits. */
  datatype Signature = Signed(key: Term, statement: Statement) | NotASignature

  datatype HolderProof = HolderProof(challenge: Term, signature: Signature)

  datatype ResourcePolicy = ResourcePolicy(
    audience: Term,
    tool: Term,
    scope: Term,
    trustedBroker: Term,
    challengeTtl: int,
    maxLifetime: int)
  {
    /** What the application constructor demands of its policy. */
    predicate Valid() {
      challengeTtl > 0 && maxLifetime > 0
    }

    predicate NonEmptyStrings() {
      NonEmpty(audience) && NonEmpty(tool) && NonEmpty(scope)
    }

    function Digest(): Term {
      Sha256("resource-policy", [audience, tool, scope, trustedBroker])
    }
  }

  datatype BrokerPolicy = BrokerPolicy(
    scope: Term,
    issuerKey: Term,
    manifestDigest: Term,
    challengeTtl: int,
    credentialTtl: int)
  {
    predicate Valid() {
      challengeTtl > 0 && credentialTtl > 0
    }

    predicate NonEmptyStrings() {
      NonEmpty(scope) && NonEmpty(manifestDigest)
    }

    function Digest(): Term {
      Sha256("broker-policy", [scope, issuerKey, manifestDigest])
    }
  }

  /** The signature check of a holder proof: it covers exactly this credential and call. */
  predicate ProofCovers(
    proof: HolderProof, cred: Credential, audience: Term, scope: Term, recordId: Term, sku: string)
  {
    proof.signature ==
    Signed(cred.subject, Statement(proof.challenge, cred.id, cred.subject, audience, scope, recordId, sku))
  }

  predicate Distinct<T(==)>(s: seq<T>) {
    forall i, j :: 0 <= i < j < |s| ==> s[i] != s[j]
  }
}
