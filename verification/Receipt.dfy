/** Decision receipts: the payload, its cross-field validator, and the two services' builders. */
module Receipt {
  import opened Symbols

  datatype Service = Broker | Inventory
  datatype Verdict = Allow | Deny
  datatype BusinessResult = NotApplicable | NotInvoked | Completed | Failed

  datatype Payload = Payload(
    receiptId: Term,
    service: Service,
    decision: Verdict,
    reason: Reason,
    decidedAt: int,
    credentialId: Option<Term>,
    scope: Option<Term>,
    tokenHash: Option<Term>,
    manifestDigest: Option<Term>,
    tool: Option<Term>,
    audience: Option<Term>,
    argumentsDigest: Option<Term>,
    recordId: Option<Term>,
    invocationId: Option<int>,
    snapshot: int,
    handlerInvoked: bool,
    businessResult: BusinessResult,
    artifacts: map<string, Term>)

  predicate HasArtifact(p: Payload, name: string) {
    name in p.artifacts && NonEmpty(p.artifacts[name])
  }

  predicate ConsistentBroker(p: Payload) {
    && !p.handlerInvoked && p.businessResult == NotApplicable
    && p.snapshot == 0
    && p.reason != HANDLER_FAILED
    && (p.decision == Allow <==> p.reason == ALLOW)
    && (p.decision == Allow ==> p.credentialId.Some?)
    && (p.decision == Deny ==> p.credentialId.None?)
    && (p.decision == Allow ==>
          && Present(p.manifestDigest) && Present(p.tokenHash) && Present(p.scope)
          && HasArtifact(p, "broker_policy_sha256"))
  }

  predicate ConsistentInventory(p: Payload) {
    && Present(p.scope) && Present(p.tool) && Present(p.audience) && Present(p.argumentsDigest)
    && (p.decision == Deny ==>
          && p.reason != ALLOW && p.reason != HANDLER_FAILED
          && !p.handlerInvoked && p.businessResult == NotInvoked)
    && (p.decision == Allow ==>
          && p.credentialId.Some? && p.handlerInvoked
          && Present(p.tokenHash) && Present(p.recordId)
          && HasArtifact(p, "resource_policy_sha256")
          && ((p.reason == ALLOW && p.businessResult == Completed)
              || (p.reason == HANDLER_FAILED && p.businessResult == Failed)))
  }

  /** The cross-field validator every signed payload must pass. */
  predicate Consistent(p: Payload) {
    && p.handlerInvoked == p.invocationId.Some?
    && (p.invocationId.Some? ==> p.invocationId.value <= p.snapshot)
    && (if p.service == Broker then ConsistentBroker(p) else ConsistentInventory(p))
  }

  /** Field ranges and the cross-field validator together: the model's acceptance test. */
  predicate ValidPayload(p: Payload) {
    && p.decidedAt >= 0
    && p.snapshot >= 0
    && (p.invocationId.Some? ==> p.invocationId.value >= 1)
    && Consistent(p)
  }

  /** The payload inventoryd signs. */
  function InventoryPayload(
    policy: ResourcePolicy, nonce: nat, now: int, snapshot: int,
    decision: Verdict, reason: Reason, credentialId: Option<Term>, tokenHash: Option<Term>,
    argumentsDigest: Term, recordId: Option<Term>, invocation: Option<int>, business: BusinessResult): Payload
  {
    Payload(
      Random(nonce), Inventory, decision, reason, now, credentialId, Some(policy.scope), tokenHash,
      None, Some(policy.tool), Some(policy.audience), Some(argumentsDigest), recordId,
      invocation, snapshot, invocation.Some?, business,
      map["resource_policy_sha256" := policy.Digest()])
  }

  /** The payload the broker signs. */
  function BrokerPayload(
    policy: BrokerPolicy, nonce: nat, now: int, decision: Verdict, reason: Reason,
    credentialId: Option<Term>, tokenHash: Option<Term>, manifestDigest: Option<Term>,
    artifacts: map<string, Term>): Payload
  {
    Payload(
      Random(nonce), Broker, decision, reason, now, credentialId, Some(policy.scope), tokenHash,
      manifestDigest, None, None, None, None, None, 0, false, NotApplicable, artifacts)
  }

  /** An accepted receipt names an execution exactly when it is an inventory allow, and its
      decision and reason determine each other up to a failed handler. */
  lemma ReceiptMeaning(p: Payload)
    requires Consistent(p)
    ensures p.handlerInvoked <==> p.service == Inventory && p.decision == Allow
    ensures p.decision == Allow <==> p.reason in {ALLOW, HANDLER_FAILED}
    ensures p.businessResult in {Completed, Failed} <==> p.handlerInvoked
    ensures p.handlerInvoked ==> p.invocationId.Some? && p.snapshot >= p.invocationId.value
  {
  }

  /** The five kinds of receipt the validator admits, each by its own fields. */
  datatype Kind = IssuanceGranted | IssuanceRefused | Execution | FailedExecution | RedemptionRefused

  function KindOf(p: Payload): Kind {
    if p.service == Broker then (if p.decision == Allow then IssuanceGranted else IssuanceRefused)
    else if p.decision == Deny then RedemptionRefused
    else if p.reason == ALLOW then Execution else FailedExecution
  }

  predicate Filled(t: Option<Term>) {
    t != None && t != Some(Plain(""))
  }

  predicate FilledArtifact(p: Payload, name: string) {
    name in p.artifacts && p.artifacts[name] != Plain("")
  }

  /** A broker receipt never speaks of an execution or of the counter. */
  predicate NoExecution(p: Payload) {
    !p.handlerInvoked && p.invocationId == None && p.businessResult == NotApplicable && p.snapshot == 0
  }

  /** A resource receipt names the protected call. */
  predicate NamesCall(p: Payload) {
    Filled(p.scope) && Filled(p.tool) && Filled(p.audience) && Filled(p.argumentsDigest)
  }

  /** An execution names its credential, challenge, record, number and policy. */
  predicate NamesExecution(p: Payload) {
    && NamesCall(p) && p.handlerInvoked && p.credentialId != None && Filled(p.tokenHash) && Filled(p.recordId)
    && p.invocationId.Some? && p.invocationId.value <= p.snapshot && FilledArtifact(p, "resource_policy_sha256")
  }

  /** The validator admits a payload exactly when it has the shape of its kind. */
  lemma ReceiptKinds(p: Payload)
    ensures Consistent(p) <==>
      match KindOf(p)
      case IssuanceGranted =>
        && NoExecution(p) && p.reason == ALLOW && p.credentialId != None && Filled(p.manifestDigest) && Filled(p.tokenHash)
        && Filled(p.scope) && FilledArtifact(p, "broker_policy_sha256")
      case IssuanceRefused => NoExecution(p) && p.reason != ALLOW && p.reason != HANDLER_FAILED && p.credentialId == None
      case Execution => NamesExecution(p) && p.businessResult == Completed
      case FailedExecution => NamesExecution(p) && p.reason == HANDLER_FAILED && p.businessResult == Failed
      case RedemptionRefused =>
        && NamesCall(p) && p.reason != ALLOW && p.reason != HANDLER_FAILED
        && !p.handlerInvoked && p.invocationId == None && p.businessResult == NotInvoked
  {
  }

  /** An unauthenticated direct call yields a denial that names no credential. */
  function DirectLookupPayload(policy: ResourcePolicy, nonce: nat, now: int, count: nat, argumentsDigest: Term): Payload
  {
    InventoryPayload(policy, nonce, now, count, Deny, UNAUTHENTICATED, None, None, argumentsDigest, None, None, NotInvoked)
  }

  lemma DirectLookupReceiptValid(policy: ResourcePolicy, nonce: nat, now: int, count: nat, argumentsDigest: Term)
    requires policy.NonEmptyStrings() && NonEmpty(argumentsDigest)
    ensures now >= 0 <==> ValidPayload(DirectLookupPayload(policy, nonce, now, count, argumentsDigest))
    ensures var p := DirectLookupPayload(policy, nonce, now, count, argumentsDigest);
            && KindOf(p) == RedemptionRefused && p.reason == UNAUTHENTICATED && p.snapshot == count && p.decidedAt == now
            && p.credentialId == None && p.tokenHash == None && p.recordId == None && p.argumentsDigest == Some(argumentsDigest)
  {
  }
}
