/** Binding-scoped delivery markers and session-proof correlation. */
module Proofs {
  import opened CoreTypes

  const AUTHORITY_SCOPE := "conversation"
  const MARKER_SCHEMA_VERSION := 1
  const PROMPT_CHAIN := [InputSent, PromptSubmitted, HookPromptSubmit]
  const COMPLETED_CHAIN := PROMPT_CHAIN + [HookStop]

  /** The keyed hash and the timestamp parser are arbitrary deterministic functions. */
  datatype MarkerAuthority = MarkerAuthority(
    sign: MarkerClaims -> string,
    parse: string -> Option<int>,
    maxLifetime: int)

  datatype ProofError =
    | EvidenceClassNotDeclaredForProofMethod
    | ProofCorrelationRuleUnsupported
    | ProofSourceKindMismatch
    | MarkerFieldsMismatch
    | MarkerSignatureInvalid
    | MarkerTimestampInvalid
    | MarkerLifetimeExceedsLimit
    | MarkerExpiredOrNotYetValid
    | EvidenceClassNotSessionProof
    | SourceEventChainWrongShape
    | SourceInstanceMismatch
    | SourceEventIdentityInvalid
    | SourceBootChangedWithinChain
    | SourceEventRepeatedWithinChain
    | SourceEventChainOutOfOrder
    | PromptMarkerBindingMismatch
    | HookSessionMismatch

  /** Mints a marker, or gives `None` where the source raises. */
  function Mint(a: MarkerAuthority, d: Delivery, issuedAt: string, expiresAt: string): (m: Option<DeliveryMarker>)
  {
    if d.bindingId.None? then None
    else if a.parse(expiresAt).None? || a.parse(issuedAt).None? then None
    else
      var lifetime := a.parse(expiresAt).value - a.parse(issuedAt).value;
      if lifetime <= 0 || lifetime > a.maxLifetime then None
      else
        var claims := MarkerClaims(MARKER_SCHEMA_VERSION, d.eventId, d.deliveryId, d.attemptId,
                                   d.bindingId.value, AUTHORITY_SCOPE, issuedAt, expiresAt);
        Some(DeliveryMarker(claims, a.sign(claims)))
  }

  function ValidateMarker(a: MarkerAuthority, m: DeliveryMarker, d: Delivery, observedAt: string): (e: Option<ProofError>)
  {
    var c := m.claims;
    if !(c.schemaVersion == MARKER_SCHEMA_VERSION && c.eventId == d.eventId && c.deliveryId == d.deliveryId
         && c.attemptId == d.attemptId && Some(c.bindingId) == d.bindingId && c.authorityScope == AUTHORITY_SCOPE) then
      Some(MarkerFieldsMismatch)
    else if m.signature != a.sign(c) then Some(MarkerSignatureInvalid)
    else if a.parse(c.issuedAt).None? || a.parse(c.expiresAt).None? || a.parse(observedAt).None? then
      Some(MarkerTimestampInvalid)
    else
      var issued, expires, observed := a.parse(c.issuedAt).value, a.parse(c.expiresAt).value, a.parse(observedAt).value;
      if expires - issued > a.maxLifetime then Some(MarkerLifetimeExceedsLimit)
      else if expires <= issued || observed < issued || observed >= expires then Some(MarkerExpiredOrNotYetValid)
      else None
  }

  /** The observation falls in the marker's half-open window. */
  predicate ObservedWithin(a: MarkerAuthority, m: DeliveryMarker, observedAt: string) {
    && a.parse(m.claims.issuedAt).Some? && a.parse(m.claims.expiresAt).Some? && a.parse(observedAt).Some?
    && a.parse(m.claims.issuedAt).value <= a.parse(observedAt).value < a.parse(m.claims.expiresAt).value
  }

  /** A marker validates exactly when this authority would mint that very marker for that very
      delivery, and the observation falls in its window. */
  lemma {:induction false} ValidMarkerIsMintedMarker(a: MarkerAuthority, m: DeliveryMarker, d: Delivery, observedAt: string)
    ensures ValidateMarker(a, m, d, observedAt).None?
       <==> Mint(a, d, m.claims.issuedAt, m.claims.expiresAt) == Some(m) && ObservedWithin(a, m, observedAt)
  {
    var c := m.claims;
    if d.bindingId.Some? {
      var minted := MarkerClaims(MARKER_SCHEMA_VERSION, d.eventId, d.deliveryId, d.attemptId,
                                 d.bindingId.value, AUTHORITY_SCOPE, c.issuedAt, c.expiresAt);
      assert c == minted <==>
        && c.schemaVersion == MARKER_SCHEMA_VERSION && c.eventId == d.eventId
        && c.deliveryId == d.deliveryId && c.attemptId == d.attemptId
        && Some(c.bindingId) == d.bindingId && c.authorityScope == AUTHORITY_SCOPE
        && c.issuedAt == minted.issuedAt && c.expiresAt == minted.expiresAt;
    }
  }

  function ExpectedNames(c: EvidenceClass): seq<EventName>
    requires IsSessionProofEvidence(c)
  {
    if IsEntryEvidence(c) then PROMPT_CHAIN else COMPLETED_CHAIN
  }

  function NamesOf(events: seq<SourceEventRef>): seq<EventName> {
    seq(|events|, i requires 0 <= i < |events| => events[i].eventName)
  }

  /** Name, source, identity, boot, distinctness and order checks on an assembled chain. */
  function ChainError(events: seq<SourceEventRef>, expected: seq<EventName>, source: string): (e: Option<ProofError>)
    requires |expected| > 0
  {
    if NamesOf(events) != expected then Some(SourceEventChainWrongShape)
    else if exists i | 0 <= i < |events| :: events[i].sourceInstanceId != source then Some(SourceInstanceMismatch)
    else if exists i | 0 <= i < |events| :: events[i].bootId == "" || events[i].sourceEventId == "" || events[i].seqNo < 0 then
      Some(SourceEventIdentityInvalid)
    else if (assert |NamesOf(events)| == |events| > 0; exists i | 0 <= i < |events| :: events[i].bootId != events[0].bootId) then
      Some(SourceBootChangedWithinChain)
    else if exists i, j | 0 <= i < j < |events| :: events[i].sourceEventId == events[j].sourceEventId then
      Some(SourceEventRepeatedWithinChain)
    else if exists i | 0 < i < |events| :: events[i - 1].seqNo >= events[i].seqNo then Some(SourceEventChainOutOfOrder)
    else None
  }

  function ValidateSessionProof(
    a: MarkerAuthority, proof: SessionProof, d: Delivery, c: EvidenceClass,
    registration: ProofMethodRegistration, observedAt: string): (e: Option<ProofError>)
  {
    if c !in registration.evidenceClasses then Some(EvidenceClassNotDeclaredForProofMethod)
    else if registration.correlationRule != CmuxHarnessChain then Some(ProofCorrelationRuleUnsupported)
    else if registration.sourceKind != EventBus then Some(ProofSourceKindMismatch)
    else
      var markerError := ValidateMarker(a, proof.marker, d, observedAt);
      if markerError.Some? then markerError
      else if !IsSessionProofEvidence(c) then Some(EvidenceClassNotSessionProof)
      else
        var events := proof.sourceEvents;
        var chainError := ChainError(events, ExpectedNames(c), registration.sourceInstanceId);
        if chainError.Some? then chainError
        else
          ChainOkMeaning(events, ExpectedNames(c), registration.sourceInstanceId);
          if events[1].bindingId != d.bindingId || events[1].markerSignature != Some(proof.marker.signature) then
            Some(PromptMarkerBindingMismatch)
          else if exists i | 2 <= i < |events| :: events[i].sessionId != Some(proof.sessionId) then Some(HookSessionMismatch)
          else None
  }

  /** What an accepted chain is, stated without the order of the checks. */
  ghost predicate ChainSound(events: seq<SourceEventRef>, expected: seq<EventName>, source: string) {
    && |events| == |expected|
    && (forall i | 0 <= i < |events| :: events[i].eventName == expected[i])
    && (forall i | 0 <= i < |events| :: events[i].sourceInstanceId == source)
    && (forall i | 0 <= i < |events| :: events[i].bootId != "" && events[i].sourceEventId != "" && events[i].seqNo >= 0)
    && (forall i, j | 0 <= i < j < |events| :: events[i].bootId == events[j].bootId)
    && (forall i, j | 0 <= i < j < |events| :: events[i].sourceEventId != events[j].sourceEventId)
    && (forall i, j | 0 <= i < j < |events| :: events[i].seqNo < events[j].seqNo)
  }

  lemma ChainOkMeaning(events: seq<SourceEventRef>, expected: seq<EventName>, source: string)
    requires |expected| > 0
    ensures ChainError(events, expected, source).None? <==> ChainSound(events, expected, source)
  {
    assert NamesOf(events) == expected <==>
           |events| == |expected| && forall i | 0 <= i < |events| :: events[i].eventName == expected[i] by {
      if NamesOf(events) == expected {
        forall i | 0 <= i < |events| ensures events[i].eventName == expected[i] {
          assert NamesOf(events)[i] == events[i].eventName;
        }
      }
    }
    if ChainError(events, expected, source).None? {
      PairwiseOrderIsTotal(events);
    }
  }

  lemma {:induction false} PairwiseOrderIsTotal(events: seq<SourceEventRef>)
    requires forall i | 0 < i < |events| :: events[i - 1].seqNo < events[i].seqNo
    ensures forall i, j | 0 <= i < j < |events| :: events[i].seqNo < events[j].seqNo
  {
    if |events| > 1 {
      var front := events[..|events| - 1];
      assert forall i | 0 <= i < |front| :: front[i] == events[i];
      PairwiseOrderIsTotal(front);
      assert events[|front| - 1].seqNo < events[|front|].seqNo;
      forall i, j | 0 <= i < j < |events| ensures events[i].seqNo < events[j].seqNo {
        if j < |front| {
          assert front[i].seqNo < front[j].seqNo;
        } else if i < |front| - 1 {
          assert front[i].seqNo < front[|front| - 1].seqNo;
        }
      }
    }
  }

  /** A proof that ties one turn of one session to one delivery's authoritative marker. */
  ghost predicate SessionProofSound(
    a: MarkerAuthority, proof: SessionProof, d: Delivery, c: EvidenceClass, source: string, observedAt: string)
  {
    && IsSessionProofEvidence(c)
    && Mint(a, d, proof.marker.claims.issuedAt, proof.marker.claims.expiresAt) == Some(proof.marker)
    && ObservedWithin(a, proof.marker, observedAt)
    && ChainSound(proof.sourceEvents, ExpectedNames(c), source)
    && proof.sourceEvents[1].bindingId == d.bindingId
    && proof.sourceEvents[1].markerSignature == Some(proof.marker.signature)
    && (forall i | 2 <= i < |proof.sourceEvents| :: proof.sourceEvents[i].sessionId == Some(proof.sessionId))
  }

  /** The validator accepts exactly the sound proofs relayed under a declaring event-bus method. */
  lemma {:induction false} AcceptedProofIsSound(
    a: MarkerAuthority, proof: SessionProof, d: Delivery, c: EvidenceClass,
    registration: ProofMethodRegistration, observedAt: string)
    ensures ValidateSessionProof(a, proof, d, c, registration, observedAt).None?
       <==> c in registration.evidenceClasses && registration.sourceKind == EventBus
            && SessionProofSound(a, proof, d, c, registration.sourceInstanceId, observedAt)
  {
    ValidMarkerIsMintedMarker(a, proof.marker, d, observedAt);
    if IsSessionProofEvidence(c) {
      ChainOkMeaning(proof.sourceEvents, ExpectedNames(c), registration.sourceInstanceId);
    }
  }

  /** The marker signs this very delivery, for a lifetime that is positive and within the limit. */
  ghost predicate Minted(a: MarkerAuthority, m: DeliveryMarker, d: Delivery) {
    && d.bindingId.Some?
    && m.claims.schemaVersion == 1 && m.claims.authorityScope == "conversation"
    && m.claims.eventId == d.eventId && m.claims.deliveryId == d.deliveryId && m.claims.attemptId == d.attemptId
    && m.claims.bindingId == d.bindingId.value
    && m.signature == a.sign(m.claims)
    && a.parse(m.claims.issuedAt).Some? && a.parse(m.claims.expiresAt).Some?
    && 0 < a.parse(m.claims.expiresAt).value - a.parse(m.claims.issuedAt).value <= a.maxLifetime
  }

  /** Minting gives the one marker of that delivery and those times, exactly when its lifetime is allowed. */
  lemma {:induction false} MintsExactly(a: MarkerAuthority, d: Delivery, issuedAt: string, expiresAt: string, m: DeliveryMarker)
    ensures Mint(a, d, issuedAt, expiresAt) == Some(m)
       <==> Minted(a, m, d) && m.claims.issuedAt == issuedAt && m.claims.expiresAt == expiresAt
  {
    if d.bindingId.Some? {
      var claims := MarkerClaims(1, d.eventId, d.deliveryId, d.attemptId, d.bindingId.value, "conversation", issuedAt, expiresAt);
      assert m.claims == claims <==>
        && m.claims.schemaVersion == 1 && m.claims.authorityScope == "conversation" && m.claims.eventId == d.eventId
        && m.claims.deliveryId == d.deliveryId && m.claims.attemptId == d.attemptId && m.claims.bindingId == d.bindingId.value
        && m.claims.issuedAt == issuedAt && m.claims.expiresAt == expiresAt;
    }
  }

  /** The events are one turn: input, prompt and its hook, and for a completion its stop, of one source and
      boot, each later than the one before under an id of its own. */
  ghost predicate OneTurn(events: seq<SourceEventRef>, completed: bool, source: string) {
    && |events| == (if completed then 4 else 3)
    && events[0].eventName == InputSent && events[1].eventName == PromptSubmitted && events[2].eventName == HookPromptSubmit
    && (completed ==> events[3].eventName == HookStop)
    && (forall i | 0 <= i < |events| :: events[i].sourceInstanceId == source && events[i].sourceEventId != "" && events[i].seqNo >= 0)
    && (forall i | 0 <= i < |events| :: events[i].bootId != "" && events[i].bootId == events[0].bootId)
    && (forall i, j | 0 <= i < j < |events| :: events[i].sourceEventId != events[j].sourceEventId && events[i].seqNo < events[j].seqNo)
  }

  lemma ChainIsOneTurn(events: seq<SourceEventRef>, c: EvidenceClass, source: string)
    requires IsSessionProofEvidence(c)
    ensures ChainSound(events, ExpectedNames(c), source) <==> OneTurn(events, c == HarnessTurnCompleted, source)
  {
    var expected := ExpectedNames(c);
    assert |expected| == if c == HarnessTurnCompleted then 4 else 3;
    assert expected[0] == InputSent && expected[1] == PromptSubmitted && expected[2] == HookPromptSubmit;
    assert c == HarnessTurnCompleted ==> expected[3] == HookStop;
  }

  /** A session proof is accepted exactly when its method is an event bus that declares the class, its marker
      is this delivery's and the observation falls in its time, and its chain is one turn whose prompt shows
      that marker and whose hooks are of the proof's session. */
  lemma {:induction false} ProofAcceptedExactly(
    a: MarkerAuthority, proof: SessionProof, d: Delivery, c: EvidenceClass, registration: ProofMethodRegistration, observedAt: string)
    ensures ValidateSessionProof(a, proof, d, c, registration, observedAt).None?
       <==> && c in registration.evidenceClasses && registration.sourceKind == EventBus
            && (c == HarnessPromptAccepted || c == HarnessTurnStarted || c == HarnessTurnCompleted)
            && Minted(a, proof.marker, d)
            && a.parse(observedAt).Some?
            && a.parse(proof.marker.claims.issuedAt).value <= a.parse(observedAt).value < a.parse(proof.marker.claims.expiresAt).value
            && OneTurn(proof.sourceEvents, c == HarnessTurnCompleted, registration.sourceInstanceId)
            && proof.sourceEvents[1].bindingId == d.bindingId
            && proof.sourceEvents[1].markerSignature == Some(proof.marker.signature)
            && (forall i | 2 <= i < |proof.sourceEvents| :: proof.sourceEvents[i].sessionId == Some(proof.sessionId))
  {
    AcceptedProofIsSound(a, proof, d, c, registration, observedAt);
    MintsExactly(a, d, proof.marker.claims.issuedAt, proof.marker.claims.expiresAt, proof.marker);
    if IsSessionProofEvidence(c) {
      ChainIsOneTurn(proof.sourceEvents, c, registration.sourceInstanceId);
    }
  }
}
