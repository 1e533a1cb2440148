/** Why a receipt under an unused id is refused: the reason on record is that of the first check it fails, in
    one fixed order. */
module Refusals {
  import opened CoreTypes
  import opened Proofs
  import opened Tables
  import opened Reducer
  import opened Acceptance

  /** A write that the tables refuse: a replay if the source event was seen, and otherwise a storage error. */
  ghost function CommitReason(db: Db, r: Receipt): Option<Rejection> {
    if Insertable(db, r) then None
    else if !Blank(r.sourceEventId) && SourceSeen(db.receipts, r.providerId, r.sourceEventId.value) then Some(SourceEventReplayed)
    else Some(StorageIntegrityError)
  }

  ghost function AckReason(db: Db, r: Receipt, d: Delivery, kind: ProviderKind): Option<Rejection> {
    if d.state != Dispatching then Some(InvalidTransition)
    else if r.disposition != None then Some(DispositionNotAllowed)
    else if d.mode == ChannelNative && kind != CommsView then Some(ProviderKindNotCommsView)
    else if d.mode == ChannelNative && !NamesBoundMessage(db, r, d) then Some(PlatformMessageBindingMismatch)
    else if d.mode == SessionBound && kind != SessionTransport then Some(ProviderKindNotSessionTransport)
    else CommitReason(db, r)
  }

  ghost function ParticipantReason(db: Db, r: Receipt, d: Delivery, kind: ProviderKind): Option<Rejection> {
    if d.mode != ChannelNative then Some(EvidenceClassWrongDeliveryMode)
    else if kind != CommsView then Some(ProviderKindNotCommsView)
    else if d.state != TransportSubmitted then Some(InvalidTransition)
    else if r.authoredByProvider || r.infrastructureEvent then Some(SelfEchoOrInfrastructureEvent)
    else if Blank(r.sourceEventId) then Some(SourceEventIdRequired)
    else if SourceSeen(db.receipts, r.providerId, r.sourceEventId.value) then Some(SourceEventReplayed)
    else if Blank(r.platformPrincipalId) || !PrincipalMatches(db, r.providerId, r.platformPrincipalId.value, d.recipientId) then
      Some(PrincipalMismatch)
    else if !NamesBoundMessage(db, r, d) then Some(PlatformMessageBindingMismatch)
    else if r.evidenceClass == ParticipantReplyAuthored && r.disposition != None && r.disposition != Some(Answered) then
      Some(DispositionOverclaim)
    else if r.evidenceClass == ParticipantReactionAuthored && r.disposition != Some(Acknowledged) && r.disposition != Some(Held) then
      Some(ReactionDispositionInvalid)
    else CommitReason(db, r)
  }

  ghost function SessionReason(authority: Option<MarkerAuthority>, db: Db, r: Receipt, d: Delivery, kind: ProviderKind): Option<Rejection> {
    var completes := r.evidenceClass == HarnessTurnCompleted;
    if d.mode != SessionBound then Some(EvidenceClassWrongDeliveryMode)
    else if kind != SessionTransport then Some(ProviderKindNotSessionTransport)
    else if d.state != (if completes then InSession else TransportSubmitted) then Some(InvalidTransition)
    else if !completes && r.disposition != None then Some(DispositionNotAllowed)
    else if completes && r.disposition != None && r.disposition != Some(Completed) then Some(DispositionOverclaim)
    else if r.proof.None? then Some(SessionProofRequired)
    else if authority.None? then Some(MarkerAuthorityUnavailable)
    else if r.bindingId.None? || r.bindingId.value !in db.bindings then Some(BindingNotRegistered)
    else BindingReason(authority.value, db, r, r.proof.value, d, db.bindings[r.bindingId.value])
  }

  ghost function BindingReason(a: MarkerAuthority, db: Db, r: Receipt, proof: SessionProof, d: Delivery, b: BindingRow): Option<Rejection>
    requires r.bindingId.Some?
  {
    if b.state != Active then Some(BindingNotActive)
    else if b.providerId != r.providerId then Some(ProviderNotAuthorizedForBinding)
    else if b.recipientId != d.recipientId then Some(BindingDoesNotOwnRecipient)
    else if a.parse(r.observedAt) == None || a.parse(b.establishedAt) == None || a.parse(b.expiresAt) == None then Some(BindingTimestampInvalid)
    else if !(a.parse(b.establishedAt).value <= a.parse(r.observedAt).value < a.parse(b.expiresAt).value) then Some(BindingExpiredOrNotYetActive)
    else if b.sessionId != proof.sessionId then Some(AuthoritativeSessionMismatch)
    else ProofReason(a, db, r, proof, d)
  }

  ghost function ProofReason(a: MarkerAuthority, db: Db, r: Receipt, proof: SessionProof, d: Delivery): Option<Rejection>
    requires r.bindingId.Some?
  {
    var key, events := (r.bindingId.value, r.proofMethod), proof.sourceEvents;
    if key !in db.methods then Some(ProofMethodNotRegisteredForBinding)
    else
      var error := ValidateSessionProof(a, proof, d, r.evidenceClass, db.methods[key], r.observedAt);
      if error.Some? then Some(ProofRejected(error.value))
      else if r.evidenceClass == HarnessTurnCompleted && !LatestEntryIs(db.receipts, d.deliveryId, Front(events)) then
        Some(TurnEndDoesNotCloseAcceptedPrompt)
      else if Blank(r.sourceEventId) || events == [] || r.sourceEventId.value != events[|events| - 1].sourceEventId then
        Some(ReceiptSourceEventMismatch)
      else if SourceSeen(db.receipts, r.providerId, r.sourceEventId.value) then Some(SourceEventReplayed)
      else CommitReason(db, r)
  }

  ghost function Reason(authority: Option<MarkerAuthority>, db: Db, r: Receipt): Option<Rejection> {
    if r.proofMethod == "" || r.observedAt == "" then Some(AuditFieldsRequired)
    else if r.deliveryId !in db.deliveries then Some(DeliveryNotFound)
    else
      var d := db.deliveries[r.deliveryId];
      if r.eventId != d.eventId then Some(EventMismatch)
      else if r.attemptId != d.attemptId then Some(AttemptMismatch)
      else if r.bindingId != d.bindingId then Some(BindingMismatch)
      else if r.providerId !in db.providers then Some(ProviderNotRegistered)
      else if (r.providerId, r.evidenceClass) !in db.declared then Some(EvidenceClassNotDeclared)
      else ClassReason(authority, db, r, d, db.providers[r.providerId].kind)
  }

  ghost function ClassReason(authority: Option<MarkerAuthority>, db: Db, r: Receipt, d: Delivery, kind: ProviderKind): Option<Rejection> {
    match r.evidenceClass
    case TransportSubmitAck => AckReason(db, r, d, kind)
    case HarnessPromptAccepted | HarnessTurnStarted | HarnessTurnCompleted => SessionReason(authority, db, r, d, kind)
    case ParticipantReplyAuthored | ParticipantReactionAuthored => ParticipantReason(db, r, d, kind)
    case _ => Some(if d.mode == ChannelNative then EvidenceClassWrongDeliveryMode else UnsupportedEvidenceClass)
  }

  /** The end of a submission that is refused for a reason, or accepted. */
  ghost predicate EndsFor(db: Db, r: Receipt, reason: Option<Rejection>, end: (Db, ReceiptResult)) {
    match reason
    case None => end.1.AcceptedAs?
    case Some(why) =>
      && end.1 == Rejected(why)
      && end.0 == db.(rejections := db.rejections + [RejectionRow(
           r.receiptId, r.deliveryId, r.providerId, r.evidenceClass, r.proofMethod, r.observedAt, why)])
  }

  // ---------------------------------------------------------------- proofs

  lemma {:induction false} RefuseEnds(authority: Option<MarkerAuthority>, db: Db, r: Receipt, why: Rejection)
    ensures EndsFor(db, r, Some(why), Alone(authority, db, r, Refuse(why)))
  {
    RefuseAlone(authority, db, r, why);
  }

  lemma {:induction false} CommitEndsFor(
    authority: Option<MarkerAuthority>, db: Db, r: Receipt, next: DeliveryState, disposition: Option<Disposition>)
    requires Keyed(db) && Presented(db, r)
    ensures EndsFor(db, r, CommitReason(db, r), Alone(authority, db, r, Commit(db.deliveries[r.deliveryId], next, disposition)))
  {
    var d := db.deliveries[r.deliveryId];
    CommitEnds(authority, db, r, next, disposition);
    if !Insertable(db, r) {
      CommitAlone(authority, db, r, d, next, disposition);
      assert AcceptReceipt(db, r, d, next, disposition).IntegrityError?;
      RecoveryEndsFor(authority, db, r);
    }
  }

  lemma {:induction false} RecoveryEndsFor(authority: Option<MarkerAuthority>, db: Db, r: Receipt)
    requires Presented(db, r) && !Insertable(db, r)
    ensures EndsFor(db, r, CommitReason(db, r), Alone(authority, db, r, RecoverReceipt))
  {
    Skip(authority, db, r, RecoverReceipt);
    RecoverStepsAlone(authority, db, r);
    RefuseEnds(authority, db, r, RecoveredReason(db, r));
  }

  /** Where a stage refuses or commits, the submission ends so. */
  lemma {:induction false} StageEnds(authority: Option<MarkerAuthority>, db: Db, r: Receipt, stage: Stage, next: DeliveryState, disposition: Option<Disposition>)
    requires Keyed(db) && Presented(db, r)
    requires stage.Refuse? || stage == Commit(db.deliveries[r.deliveryId], next, disposition)
    ensures EndsFor(db, r, if stage.Refuse? then Some(stage.reason) else CommitReason(db, r), Alone(authority, db, r, stage))
  {
    if stage.Refuse? {
      RefuseEnds(authority, db, r, stage.reason);
    } else {
      CommitEndsFor(authority, db, r, next, disposition);
    }
  }

  lemma {:induction false} AckEnds(authority: Option<MarkerAuthority>, db: Db, r: Receipt, d: Delivery, kind: ProviderKind)
    requires Keyed(db) && Presented(db, r) && r.evidenceClass == TransportSubmitAck && d == db.deliveries[r.deliveryId]
    ensures EndsFor(db, r, AckReason(db, r, d, kind), Alone(authority, db, r, AfterDeclared(authority, r, d, kind)))
  {
    var stage := AckStageOf(authority, db, r, d, kind);
    if AfterDeclared(authority, r, d, kind).CheckAckMessage? {
      MessageCheck(authority, db, r, d);
    }
    AckStageReason(authority, db, r, d, kind);
    StageEnds(authority, db, r, stage, TransportSubmitted, None);
  }

  /** Where an acknowledgement's checks end. */
  ghost function AckStageOf(authority: Option<MarkerAuthority>, db: Db, r: Receipt, d: Delivery, kind: ProviderKind): Stage {
    var stage := AfterDeclared(authority, r, d, kind);
    if !stage.CheckAckMessage? then stage
    else if NamesBoundMessage(db, r, d) then Commit(d, TransportSubmitted, None)
    else Refuse(PlatformMessageBindingMismatch)
  }

  lemma {:induction false} AckStageReason(authority: Option<MarkerAuthority>, db: Db, r: Receipt, d: Delivery, kind: ProviderKind)
    requires r.evidenceClass == TransportSubmitAck
    ensures var stage := AckStageOf(authority, db, r, d, kind);
            if stage.Refuse? then AckReason(db, r, d, kind) == Some(stage.reason)
            else stage == Commit(d, TransportSubmitted, None) && AckReason(db, r, d, kind) == CommitReason(db, r)
  {}

  lemma {:induction false} ParticipantEnds(authority: Option<MarkerAuthority>, db: Db, r: Receipt, d: Delivery, kind: ProviderKind)
    requires Keyed(db) && Presented(db, r) && IsParticipantEvidence(r.evidenceClass) && d == db.deliveries[r.deliveryId]
    ensures EndsFor(db, r, ParticipantReason(db, r, d, kind), Alone(authority, db, r, AfterDeclared(authority, r, d, kind)))
  {
    var error := ParticipantPrecheck(r, d, kind);
    if error.Some? {
      RefuseEnds(authority, db, r, error.value);
    } else {
      SourceEnds(authority, db, r, d, kind);
    }
  }

  lemma {:induction false} SourceEnds(authority: Option<MarkerAuthority>, db: Db, r: Receipt, d: Delivery, kind: ProviderKind)
    requires Keyed(db) && Presented(db, r) && IsParticipantEvidence(r.evidenceClass) && d == db.deliveries[r.deliveryId]
    requires ParticipantPrecheck(r, d, kind).None?
    ensures EndsFor(db, r, ParticipantReason(db, r, d, kind), Alone(authority, db, r, CheckParticipantSource(d, kind)))
  {
    Skip(authority, db, r, CheckParticipantSource(d, kind));
    var stage := NextStage(authority, db, r, CheckParticipantSource(d, kind));
    if stage.Refuse? {
      RefuseEnds(authority, db, r, stage.reason);
    } else {
      PrincipalEnds(authority, db, r, d, kind);
    }
  }

  lemma {:induction false} PrincipalEnds(authority: Option<MarkerAuthority>, db: Db, r: Receipt, d: Delivery, kind: ProviderKind)
    requires Keyed(db) && Presented(db, r) && IsParticipantEvidence(r.evidenceClass) && d == db.deliveries[r.deliveryId]
    requires ParticipantPrecheck(r, d, kind).None? && !SourceSeen(db.receipts, r.providerId, r.sourceEventId.value) && !Blank(r.platformPrincipalId)
    ensures EndsFor(db, r, ParticipantReason(db, r, d, kind), Alone(authority, db, r, CheckPrincipal(d, kind)))
  {
    Skip(authority, db, r, CheckPrincipal(d, kind));
    var stage := NextStage(authority, db, r, CheckPrincipal(d, kind));
    if stage.Refuse? {
      RefuseEnds(authority, db, r, stage.reason);
    } else {
      MessageEnds(authority, db, r, d, kind);
    }
  }

  lemma {:induction false} MessageEnds(authority: Option<MarkerAuthority>, db: Db, r: Receipt, d: Delivery, kind: ProviderKind)
    requires Keyed(db) && Presented(db, r) && IsParticipantEvidence(r.evidenceClass) && d == db.deliveries[r.deliveryId]
    requires ParticipantPrecheck(r, d, kind).None? && !SourceSeen(db.receipts, r.providerId, r.sourceEventId.value)
    requires !Blank(r.platformPrincipalId) && PrincipalMatches(db, r.providerId, r.platformPrincipalId.value, d.recipientId)
    ensures EndsFor(db, r, ParticipantReason(db, r, d, kind), Alone(authority, db, r, CheckMessage(d, kind)))
  {
    var disposition := if r.evidenceClass == ParticipantReplyAuthored then Some(Answered) else r.disposition;
    Skip(authority, db, r, CheckMessage(d, kind));
    MessageReason(authority, db, r, d, kind);
    StageEnds(authority, db, r, NextStage(authority, db, r, CheckMessage(d, kind)), Processed, disposition);
  }

  lemma {:induction false} MessageReason(authority: Option<MarkerAuthority>, db: Db, r: Receipt, d: Delivery, kind: ProviderKind)
    requires IsParticipantEvidence(r.evidenceClass)
    requires ParticipantPrecheck(r, d, kind).None? && !SourceSeen(db.receipts, r.providerId, r.sourceEventId.value)
    requires !Blank(r.platformPrincipalId) && PrincipalMatches(db, r.providerId, r.platformPrincipalId.value, d.recipientId)
    ensures var stage := NextStage(authority, db, r, CheckMessage(d, kind));
            if stage.Refuse? then ParticipantReason(db, r, d, kind) == Some(stage.reason)
            else
              && stage == Commit(d, Processed, if r.evidenceClass == ParticipantReplyAuthored then Some(Answered) else r.disposition)
              && ParticipantReason(db, r, d, kind) == CommitReason(db, r)
  {}

  lemma {:induction false} SessionEnds(authority: Option<MarkerAuthority>, db: Db, r: Receipt, d: Delivery, kind: ProviderKind)
    requires Keyed(db) && Presented(db, r) && IsSessionProofEvidence(r.evidenceClass) && d == db.deliveries[r.deliveryId]
    ensures EndsFor(db, r, SessionReason(authority, db, r, d, kind), Alone(authority, db, r, AfterDeclared(authority, r, d, kind)))
  {
    var stage := AfterDeclared(authority, r, d, kind);
    var move := Transition(r, d, kind);
    if d.mode == ChannelNative {
      RefuseEnds(authority, db, r, EvidenceClassWrongDeliveryMode);
    } else if move.Refused? {
      RefuseEnds(authority, db, r, move.reason);
    } else {
      SessionStepsAlone(authority, db, r, d, move.next, move.disposition);
      VerdictReason(authority, db, r, d);
      var verdict := SessionVerdict(authority, db, r, d);
      StageEnds(authority, db, r, VerdictStage(verdict, d, move.next, move.disposition), move.next, move.disposition);
    }
  }

  lemma {:induction false} VerdictReason(authority: Option<MarkerAuthority>, db: Db, r: Receipt, d: Delivery)
    requires Presented(db, r) && IsSessionProofEvidence(r.evidenceClass) && d == db.deliveries[r.deliveryId]
    requires d.mode == SessionBound && Transition(r, d, SessionTransport).Moves?
    ensures SessionReason(authority, db, r, d, SessionTransport)
         == var verdict := SessionVerdict(authority, db, r, d); if verdict.Some? then verdict else CommitReason(db, r)
  {
    if r.proof.Some? {
      LatestEntry(db.receipts, d.deliveryId, Front(r.proof.value.sourceEvents));
    }
  }

  /** A receipt under an unused id is refused exactly for the first of the checks that it fails, and that
      reason is recorded; it is accepted exactly when it fails none. */
  lemma {:induction false} RefusedForFirstFailure(authority: Option<MarkerAuthority>, db: Db, r: Receipt)
    requires Keyed(db) && forall row | row in db.receipts :: row.receiptId != r.receiptId
    ensures EndsFor(db, r, Reason(authority, db, r), Alone(authority, db, r, Begin))
  {
    if Presented(db, r) {
      PresentedGoesOn(authority, db, r);
      ClassEnds(authority, db, r, db.deliveries[r.deliveryId], db.providers[r.providerId].kind);
    } else {
      UnpresentedEnds(authority, db, r);
    }
  }

  lemma {:induction false} ClassEnds(authority: Option<MarkerAuthority>, db: Db, r: Receipt, d: Delivery, kind: ProviderKind)
    requires Keyed(db) && Presented(db, r) && d == db.deliveries[r.deliveryId]
    ensures EndsFor(db, r, ClassReason(authority, db, r, d, kind), Alone(authority, db, r, AfterDeclared(authority, r, d, kind)))
  {
    match r.evidenceClass
    case TransportSubmitAck => AckEnds(authority, db, r, d, kind);
    case HarnessPromptAccepted | HarnessTurnStarted | HarnessTurnCompleted => SessionEnds(authority, db, r, d, kind);
    case ParticipantReplyAuthored | ParticipantReactionAuthored => ParticipantEnds(authority, db, r, d, kind);
    case _ => RefuseEnds(authority, db, r, if d.mode == ChannelNative then EvidenceClassWrongDeliveryMode else UnsupportedEvidenceClass);
  }

  lemma {:induction false} UnpresentedEnds(authority: Option<MarkerAuthority>, db: Db, r: Receipt)
    requires !Presented(db, r) && forall row | row in db.receipts :: row.receiptId != r.receiptId
    ensures EndsFor(db, r, Reason(authority, db, r), Alone(authority, db, r, Begin))
  {
    Skip(authority, db, r, Begin);
    if r.proofMethod == "" || r.observedAt == "" {
      RefuseEnds(authority, db, r, AuditFieldsRequired);
    } else {
      Skip(authority, db, r, FindReceipt);
      UnmatchedEnds(authority, db, r);
    }
  }

  lemma {:induction false} UnmatchedEnds(authority: Option<MarkerAuthority>, db: Db, r: Receipt)
    requires !Presented(db, r) && r.proofMethod != "" && r.observedAt != "" && forall row | row in db.receipts :: row.receiptId != r.receiptId
    ensures EndsFor(db, r, Reason(authority, db, r), Alone(authority, db, r, FindDelivery))
  {
    Skip(authority, db, r, FindDelivery);
    var stage := NextStage(authority, db, r, FindDelivery);
    if stage.Refuse? {
      RefuseEnds(authority, db, r, stage.reason);
    } else {
      var d := db.deliveries[r.deliveryId];
      Skip(authority, db, r, FindProvider(d));
      if r.providerId !in db.providers {
        RefuseEnds(authority, db, r, ProviderNotRegistered);
      } else {
        Skip(authority, db, r, CheckDeclared(d, db.providers[r.providerId].kind));
        RefuseEnds(authority, db, r, EvidenceClassNotDeclared);
      }
    }
  }
}
