/** The values the core and its session transport exchange: deliveries, receipts, markers,
    proofs and bindings. */
module CoreTypes {

  datatype Option<+T> = None | Some(value: T)

  /** A call's outcome: the error it raises, or its result. */
  datatype Either<+E, +T> = Left(error: E) | Right(result: T)

  datatype DeliveryMode = SessionBound | ChannelNative
  datatype DeliveryState = Queued | Dispatching | TransportSubmitted | InSession | Processed
  datatype Disposition = Completed | Answered | Acknowledged | Held | Declined

  datatype EvidenceClass =
    | TransportSubmitAck
    | HarnessPromptAccepted
    | HarnessTurnStarted
    | HarnessTurnCompleted
    | SessionReplyAuthored
    | SessionReactionAuthored
    | SessionDispositionAuthored
    | ParticipantReplyAuthored
    | ParticipantReactionAuthored

  datatype ProviderKind = SessionTransport | CommsView
  datatype SourceKind = DirectHook | EventBus
  datatype CorrelationRule = CmuxHarnessChain
  datatype BindingState = Active | Revoked | Superseded

  /** A host event name. `OtherHook` stands for any further name beginning with "agent.hook.",
      `OtherEvent` for every remaining name. */
  datatype EventName =
    | InputSent
    | PromptSubmitted
    | HookPromptSubmit
    | HookStop
    | OtherHook(suffix: string)
    | OtherEvent(name: string)
  {
    predicate IsHook() {
      HookPromptSubmit? || HookStop? || OtherHook?
    }
  }

  datatype ProofMethodRegistration = ProofMethodRegistration(
    proofMethod: string,
    sourceKind: SourceKind,
    sourceInstanceId: string,
    correlationRule: CorrelationRule,
    evidenceClasses: set<EvidenceClass>)

  datatype SessionBinding = SessionBinding(
    bindingId: string,
    recipientId: string,
    providerId: string,
    adapterInstanceId: string,
    harness: string,
    sessionId: string,
    establishedAt: string,
    expiresAt: string,
    proofMethods: seq<ProofMethodRegistration>,
    state: BindingState)

  /** Everything a marker signature covers. */
  datatype MarkerClaims = MarkerClaims(
    schemaVersion: int,
    eventId: string,
    deliveryId: string,
    attemptId: string,
    bindingId: string,
    authorityScope: string,
    issuedAt: string,
    expiresAt: string)

  datatype DeliveryMarker = DeliveryMarker(claims: MarkerClaims, signature: string)

  datatype SourceEventRef = SourceEventRef(
    sourceInstanceId: string,
    bootId: string,
    seqNo: int,
    sourceEventId: string,
    eventName: EventName,
    sessionId: Option<string>,
    bindingId: Option<string>,
    markerSignature: Option<string>)

  datatype SessionProof = SessionProof(
    sessionId: string,
    marker: DeliveryMarker,
    sourceEvents: seq<SourceEventRef>,
    turnId: Option<string>)

  datatype Delivery = Delivery(
    eventId: string,
    deliveryId: string,
    attemptId: string,
    bindingId: Option<string>,
    recipientId: string,
    mode: DeliveryMode,
    state: DeliveryState,
    disposition: Option<Disposition>)

  datatype Receipt = Receipt(
    receiptId: string,
    eventId: string,
    deliveryId: string,
    attemptId: string,
    bindingId: Option<string>,
    providerId: string,
    evidenceClass: EvidenceClass,
    proofMethod: string,
    observedAt: string,
    sourceEventId: Option<string>,
    platformPrincipalId: Option<string>,
    platformMessageId: Option<string>,
    disposition: Option<Disposition>,
    authoredByProvider: bool,
    infrastructureEvent: bool,
    proof: Option<SessionProof>)

  /** All but the last element. */
  function Front<T>(xs: seq<T>): seq<T> {
    if xs == [] then [] else xs[..|xs| - 1]
  }

  /** A Python string argument that is absent or empty. */
  predicate Blank(text: Option<string>) {
    text.None? || text.value == ""
  }

  /** Evidence that must carry a session proof. */
  predicate IsSessionProofEvidence(c: EvidenceClass) {
    c.HarnessPromptAccepted? || c.HarnessTurnStarted? || c.HarnessTurnCompleted?
  }

  /** Session-proof evidence of entry rather than of completion. */
  predicate IsEntryEvidence(c: EvidenceClass) {
    c.HarnessPromptAccepted? || c.HarnessTurnStarted?
  }

  predicate IsParticipantEvidence(c: EvidenceClass) {
    c.ParticipantReplyAuthored? || c.ParticipantReactionAuthored?
  }
}
