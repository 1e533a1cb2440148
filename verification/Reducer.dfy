/** Evidence-bound receipt reduction. `Advance` is one database statement of a submission together
    with the checks up to the next one, so that submissions can interleave statement by statement;
    `ReceiptReducer.Submit` is the same submission run without interruption. */
module Reducer {
  import opened CoreTypes
  import opened Proofs
  import opened Tables
  import Store

  datatype ReceiptResult =
    | Rejected(reason: Rejection)
    | Duplicate(state: Option<DeliveryState>, disposition: Option<Disposition>)
    | AcceptedAs(next: DeliveryState, disposition: Option<Disposition>)

  datatype Stage =
    | Begin
    | FindReceipt
    | AnswerDuplicate
    | DegradeProvider
    | FindDelivery
    | FindProvider(d: Delivery)
    | CheckDeclared(d: Delivery, kind: ProviderKind)
    | CheckParticipantSource(d: Delivery, kind: ProviderKind)
    | CheckPrincipal(d: Delivery, kind: ProviderKind)
    | CheckMessage(d: Delivery, kind: ProviderKind)
    | CheckAckMessage(d: Delivery)
    | FindBinding(d: Delivery, next: DeliveryState, disposition: Option<Disposition>)
    | FindMethod(d: Delivery, next: DeliveryState, disposition: Option<Disposition>)
    | FindEntryChain(d: Delivery, next: DeliveryState, disposition: Option<Disposition>)
    | CheckSessionSource(d: Delivery, next: DeliveryState, disposition: Option<Disposition>)
    | Commit(d: Delivery, next: DeliveryState, disposition: Option<Disposition>)
    | RecoverReceipt
    | RecoverSource
    | RecoverDelivery
    | RecoverProvider
    | Refuse(reason: Rejection)
    | Finished(result: ReceiptResult)

  function CanonicalDisposition(r: Receipt): Option<Disposition> {
    if r.disposition.Some? then r.disposition
    else if r.evidenceClass.ParticipantReplyAuthored? then Some(Answered)
    else if r.evidenceClass.HarnessTurnCompleted? then Some(Completed)
    else None
  }

  /** A stored row makes the same claim as a receipt. */
  predicate SameReceipt(row: ReceiptRow, r: Receipt) {
    && row.providerId == r.providerId
    && row.sourceEventId == r.sourceEventId
    && row.eventId == r.eventId
    && row.deliveryId == r.deliveryId
    && row.attemptId == r.attemptId
    && Some(row.bindingId) == r.bindingId
    && row.evidenceClass == r.evidenceClass
    && row.proofMethod == r.proofMethod
    && row.observedAt == r.observedAt
    && row.disposition == CanonicalDisposition(r)
    && row.platformPrincipalId == r.platformPrincipalId
    && row.platformMessageId == r.platformMessageId
    && row.authoredByProvider == r.authoredByProvider
    && row.infrastructureEvent == r.infrastructureEvent
    && row.sessionId == (if r.proof.Some? then Some(r.proof.value.sessionId) else None)
    && row.markerSignature == (if r.proof.Some? then Some(r.proof.value.marker.signature) else None)
    && row.sourceEventChain == (if r.proof.Some? then r.proof.value.sourceEvents else [])
    && row.turnId == (if r.proof.Some? then r.proof.value.turnId else None)
  }

  function ValidateKeys(r: Receipt, d: Delivery): Option<Rejection> {
    if r.eventId != d.eventId then Some(EventMismatch)
    else if r.attemptId != d.attemptId then Some(AttemptMismatch)
    else if r.bindingId != d.bindingId then Some(BindingMismatch)
    else None
  }

  datatype Move = Refused(reason: Rejection) | NeedsMessageBinding | Moves(next: DeliveryState, disposition: Option<Disposition>)

  /** The most a class of evidence may advance a delivery in a given state. */
  function Transition(r: Receipt, d: Delivery, kind: ProviderKind): Move {
    match r.evidenceClass
    case TransportSubmitAck =>
      if !d.state.Dispatching? then Refused(InvalidTransition)
      else if r.disposition.Some? then Refused(DispositionNotAllowed)
      else if d.mode.ChannelNative? then
        if !kind.CommsView? then Refused(ProviderKindNotCommsView)
        else if Blank(r.platformMessageId) then Refused(PlatformMessageBindingMismatch)
        else NeedsMessageBinding
      else if !kind.SessionTransport? then Refused(ProviderKindNotSessionTransport)
      else Moves(TransportSubmitted, None)
    case HarnessPromptAccepted | HarnessTurnStarted =>
      if !d.mode.SessionBound? then Refused(EvidenceClassWrongDeliveryMode)
      else if !kind.SessionTransport? then Refused(ProviderKindNotSessionTransport)
      else if !d.state.TransportSubmitted? then Refused(InvalidTransition)
      else if r.disposition.Some? then Refused(DispositionNotAllowed)
      else Moves(InSession, None)
    case HarnessTurnCompleted =>
      if !d.mode.SessionBound? then Refused(EvidenceClassWrongDeliveryMode)
      else if !kind.SessionTransport? then Refused(ProviderKindNotSessionTransport)
      else if !d.state.InSession? then Refused(InvalidTransition)
      else if r.disposition.Some? && !r.disposition.value.Completed? then Refused(DispositionOverclaim)
      else Moves(Processed, Some(Completed))
    case ParticipantReplyAuthored =>
      if r.disposition.Some? && !r.disposition.value.Answered? then Refused(DispositionOverclaim)
      else Moves(Processed, Some(Answered))
    case ParticipantReactionAuthored =>
      if r.disposition.Some? && (r.disposition.value.Acknowledged? || r.disposition.value.Held?) then Moves(Processed, r.disposition)
      else Refused(ReactionDispositionInvalid)
    case _ => Refused(UnsupportedEvidenceClass)
  }

  /** The participant checks that read no table. */
  function ParticipantPrecheck(r: Receipt, d: Delivery, kind: ProviderKind): Option<Rejection> {
    if !d.mode.ChannelNative? then Some(EvidenceClassWrongDeliveryMode)
    else if !kind.CommsView? then Some(ProviderKindNotCommsView)
    else if !d.state.TransportSubmitted? then Some(InvalidTransition)
    else if r.authoredByProvider || r.infrastructureEvent then Some(SelfEchoOrInfrastructureEvent)
    else if Blank(r.sourceEventId) then Some(SourceEventIdRequired)
    else None
  }

  /** The checks a session receipt's binding row must pass. */
  function BindingError(a: MarkerAuthority, b: BindingRow, r: Receipt, proof: SessionProof, d: Delivery): Option<Rejection> {
    if !b.state.Active? then Some(BindingNotActive)
    else if b.providerId != r.providerId then Some(ProviderNotAuthorizedForBinding)
    else if b.recipientId != d.recipientId then Some(BindingDoesNotOwnRecipient)
    else if a.parse(r.observedAt).None? || a.parse(b.establishedAt).None? || a.parse(b.expiresAt).None? then Some(BindingTimestampInvalid)
    else if a.parse(r.observedAt).value < a.parse(b.establishedAt).value || a.parse(r.observedAt).value >= a.parse(b.expiresAt).value then
      Some(BindingExpiredOrNotYetActive)
    else if proof.sessionId != b.sessionId then Some(AuthoritativeSessionMismatch)
    else None
  }

  /** The receipt names the last event of its own chain. */
  predicate NamesLastEvent(r: Receipt, proof: SessionProof) {
    && !Blank(r.sourceEventId)
    && proof.sourceEvents != []
    && r.sourceEventId.value == proof.sourceEvents[|proof.sourceEvents| - 1].sourceEventId
  }

  /** Strictly falls with every step of an unfinished submission. */
  function Remaining(stage: Stage): nat {
    match stage
    case Begin => 20
    case FindReceipt => 19
    case FindDelivery => 18
    case FindProvider(_) => 17
    case CheckDeclared(_, _) => 16
    case CheckParticipantSource(_, _) => 15
    case CheckPrincipal(_, _) => 14
    case CheckMessage(_, _) => 13
    case CheckAckMessage(_) => 12
    case FindBinding(_, _, _) => 11
    case FindMethod(_, _, _) => 10
    case FindEntryChain(_, _, _) => 9
    case CheckSessionSource(_, _, _) => 8
    case Commit(_, _, _) => 7
    case RecoverReceipt => 6
    case RecoverSource => 5
    case RecoverDelivery => 4
    case RecoverProvider => 3
    case AnswerDuplicate => 2
    case DegradeProvider => 2
    case Refuse(_) => 1
    case Finished(_) => 0
  }

  function AfterTransition(
    authority: Option<MarkerAuthority>, r: Receipt, d: Delivery, next: DeliveryState, disposition: Option<Disposition>): Stage
  {
    if !IsSessionProofEvidence(r.evidenceClass) then Commit(d, next, disposition)
    else if r.proof.None? then Refuse(SessionProofRequired)
    else if authority.None? then Refuse(MarkerAuthorityUnavailable)
    else FindBinding(d, next, disposition)
  }

  function AfterPrecheck(authority: Option<MarkerAuthority>, r: Receipt, d: Delivery, kind: ProviderKind): Stage
  {
    match Transition(r, d, kind)
    case Refused(reason) => Refuse(reason)
    case NeedsMessageBinding => CheckAckMessage(d)
    case Moves(next, disposition) => AfterTransition(authority, r, d, next, disposition)
  }

  function AfterDeclared(authority: Option<MarkerAuthority>, r: Receipt, d: Delivery, kind: ProviderKind): Stage
  {
    if IsParticipantEvidence(r.evidenceClass) then
      var error := ParticipantPrecheck(r, d, kind);
      if error.Some? then Refuse(error.value) else CheckParticipantSource(d, kind)
    else if d.mode.ChannelNative? && !r.evidenceClass.TransportSubmitAck? then Refuse(EvidenceClassWrongDeliveryMode)
    else AfterPrecheck(authority, r, d, kind)
  }

  function AfterChain(r: Receipt, d: Delivery, next: DeliveryState, disposition: Option<Disposition>): Stage
  {
    if r.proof.Some? && NamesLastEvent(r, r.proof.value) then CheckSessionSource(d, next, disposition)
    else Refuse(ReceiptSourceEventMismatch)
  }

  function MethodStage(
    a: MarkerAuthority, db: Db, r: Receipt, proof: SessionProof, d: Delivery,
    next: DeliveryState, disposition: Option<Disposition>): Stage
  {
    var key := (if r.bindingId.Some? then r.bindingId.value else "", r.proofMethod);
    if r.bindingId.None? || key !in db.methods then Refuse(ProofMethodNotRegisteredForBinding)
    else
      var error := ValidateSessionProof(a, proof, d, r.evidenceClass, db.methods[key], r.observedAt);
      if error.Some? then Refuse(ProofRejected(error.value))
      else if r.evidenceClass.HarnessTurnCompleted? then FindEntryChain(d, next, disposition)
      else AfterChain(r, d, next, disposition)
  }

  function BindingStage(
    a: MarkerAuthority, db: Db, r: Receipt, proof: SessionProof, d: Delivery,
    next: DeliveryState, disposition: Option<Disposition>): Stage
  {
    if r.bindingId.None? || r.bindingId.value !in db.bindings then Refuse(BindingNotRegistered)
    else
      var error := BindingError(a, db.bindings[r.bindingId.value], r, proof, d);
      if error.Some? then Refuse(error.value) else FindMethod(d, next, disposition)
  }

  function ReceiptStage(db: Db, r: Receipt, absent: Stage): Stage {
    var existing := ReceiptRecord(db.receipts, r.receiptId);
    if existing.None? then absent
    else if SameReceipt(existing.value, r) then AnswerDuplicate
    else DegradeProvider
  }

  function DuplicateOf(db: Db, r: Receipt): ReceiptResult {
    if r.deliveryId in db.deliveries then
      Duplicate(Some(db.deliveries[r.deliveryId].state), db.deliveries[r.deliveryId].disposition)
    else Duplicate(None, None)
  }

  /** The stages that may write to the tables. */
  predicate Writes(stage: Stage) {
    stage.DegradeProvider? || stage.Commit? || stage.Refuse?
  }

  /** Where a stage that only reads goes next: its query, then every check up to the next statement. */
  function NextStage(authority: Option<MarkerAuthority>, db: Db, r: Receipt, stage: Stage): Stage
    requires !Writes(stage)
  {
    match stage
    case Begin => if r.proofMethod == "" || r.observedAt == "" then Refuse(AuditFieldsRequired) else FindReceipt
    case FindReceipt => ReceiptStage(db, r, FindDelivery)
    case AnswerDuplicate => Finished(DuplicateOf(db, r))
    case FindDelivery =>
      if r.deliveryId !in db.deliveries then Refuse(DeliveryNotFound)
      else
        var d := db.deliveries[r.deliveryId];
        var error := ValidateKeys(r, d);
        if error.Some? then Refuse(error.value) else FindProvider(d)
    case FindProvider(d) =>
      if r.providerId !in db.providers then Refuse(ProviderNotRegistered)
      else CheckDeclared(d, db.providers[r.providerId].kind)
    case CheckDeclared(d, kind) =>
      if (r.providerId, r.evidenceClass) !in db.declared then Refuse(EvidenceClassNotDeclared)
      else AfterDeclared(authority, r, d, kind)
    case CheckParticipantSource(d, kind) =>
      if r.sourceEventId.Some? && SourceSeen(db.receipts, r.providerId, r.sourceEventId.value) then Refuse(SourceEventReplayed)
      else if Blank(r.platformPrincipalId) then Refuse(PrincipalMismatch)
      else CheckPrincipal(d, kind)
    case CheckPrincipal(d, kind) =>
      if Blank(r.platformPrincipalId) || !PrincipalMatches(db, r.providerId, r.platformPrincipalId.value, d.recipientId) then
        Refuse(PrincipalMismatch)
      else if Blank(r.platformMessageId) then Refuse(PlatformMessageBindingMismatch)
      else CheckMessage(d, kind)
    case CheckMessage(d, kind) =>
      if Blank(r.platformMessageId) || !MessageMatches(db, r.providerId, r.platformMessageId.value, d) then
        Refuse(PlatformMessageBindingMismatch)
      else AfterPrecheck(authority, r, d, kind)
    case CheckAckMessage(d) =>
      if Blank(r.platformMessageId) || !MessageMatches(db, r.providerId, r.platformMessageId.value, d) then
        Refuse(PlatformMessageBindingMismatch)
      else Commit(d, TransportSubmitted, None)
    case FindBinding(d, next, disposition) =>
      if authority.None? || r.proof.None? then Refuse(MarkerAuthorityUnavailable)
      else BindingStage(authority.value, db, r, r.proof.value, d, next, disposition)
    case FindMethod(d, next, disposition) =>
      if authority.None? || r.proof.None? then Refuse(MarkerAuthorityUnavailable)
      else MethodStage(authority.value, db, r, r.proof.value, d, next, disposition)
    case FindEntryChain(d, next, disposition) =>
      if r.proof.None? || SessionEntryChain(db.receipts, d.deliveryId) != Some(Front(r.proof.value.sourceEvents)) then
        Refuse(TurnEndDoesNotCloseAcceptedPrompt)
      else AfterChain(r, d, next, disposition)
    case CheckSessionSource(d, next, disposition) =>
      if r.sourceEventId.Some? && SourceSeen(db.receipts, r.providerId, r.sourceEventId.value) then Refuse(SourceEventReplayed)
      else Commit(d, next, disposition)
    case RecoverReceipt => ReceiptStage(db, r, RecoverSource)
    case RecoverSource =>
      if !Blank(r.sourceEventId) && SourceSeen(db.receipts, r.providerId, r.sourceEventId.value) then Refuse(SourceEventReplayed)
      else RecoverDelivery
    case RecoverDelivery => if r.deliveryId !in db.deliveries then Refuse(DeliveryNotFound) else RecoverProvider
    case RecoverProvider => Refuse(if r.providerId !in db.providers then ProviderNotRegistered else StorageIntegrityError)
    case Finished(_) => stage
  }

  /** One statement of a submission. */
  function Advance(authority: Option<MarkerAuthority>, db: Db, r: Receipt, stage: Stage): (Db, Stage) {
    match stage
    case DegradeProvider => (MarkProviderDegraded(db, r.providerId), Refuse(ReceiptIdContradiction))
    case Commit(d, next, disposition) =>
      var outcome := AcceptReceipt(db, r, d, next, disposition);
      if outcome.Accepted? then (outcome.db, Finished(AcceptedAs(next, disposition)))
      else if outcome.StateChanged? then (db, Refuse(DeliveryStateChanged))
      else (db, RecoverReceipt)
    case Refuse(reason) => (RecordRejection(db, r, reason), Finished(Rejected(reason)))
    case _ => (db, NextStage(authority, db, r, stage))
  }

  lemma {:induction false} DeclaredDescends(authority: Option<MarkerAuthority>, r: Receipt, d: Delivery, kind: ProviderKind)
    ensures Remaining(AfterPrecheck(authority, r, d, kind)) <= 12
    ensures Remaining(AfterDeclared(authority, r, d, kind)) <= 15
  {}

  lemma {:induction false} ReadDescends(authority: Option<MarkerAuthority>, db: Db, r: Receipt, stage: Stage)
    requires !Writes(stage) && !stage.Finished?
    ensures Remaining(NextStage(authority, db, r, stage)) < Remaining(stage)
  {
    match stage
    case CheckDeclared(d, kind) => DeclaredDescends(authority, r, d, kind);
    case CheckMessage(d, kind) => DeclaredDescends(authority, r, d, kind);
    case _ =>
  }

  /** A submission that nobody interrupts, from the given stage to its result. */
  function Alone(authority: Option<MarkerAuthority>, db: Db, r: Receipt, stage: Stage): (Db, ReceiptResult)
    decreases Remaining(stage)
  {
    if stage.Finished? then (db, stage.result)
    else
      var step := Advance(authority, db, r, stage);
      assert Remaining(step.1) < Remaining(stage) by {
        if !Writes(stage) {
          ReadDescends(authority, db, r, stage);
        }
      }
      Alone(authority, step.0, r, step.1)
  }

  /** A reading step alone changes nothing. */
  lemma {:induction false} Skip(authority: Option<MarkerAuthority>, db: Db, r: Receipt, stage: Stage)
    requires !Writes(stage)
    ensures Alone(authority, db, r, stage) == Alone(authority, db, r, NextStage(authority, db, r, stage))
  {}

  lemma {:induction false} CommitAlone(
    authority: Option<MarkerAuthority>, db: Db, r: Receipt, d: Delivery, next: DeliveryState, disposition: Option<Disposition>)
    ensures Alone(authority, db, r, Commit(d, next, disposition)) ==
            (match AcceptReceipt(db, r, d, next, disposition)
             case Accepted(after) => (after, AcceptedAs(next, disposition))
             case StateChanged => Alone(authority, db, r, Refuse(DeliveryStateChanged))
             case IntegrityError => Alone(authority, db, r, RecoverReceipt))
  {}

  lemma {:induction false} RefuseAlone(authority: Option<MarkerAuthority>, db: Db, r: Receipt, reason: Rejection)
    ensures Alone(authority, db, r, Refuse(reason)) == (RecordRejection(db, r, reason), Rejected(reason))
  {
    assert Alone(authority, RecordRejection(db, r, reason), r, Finished(Rejected(reason))) == (RecordRejection(db, r, reason), Rejected(reason));
  }

  lemma {:induction false} DegradeAlone(authority: Option<MarkerAuthority>, db: Db, r: Receipt)
    ensures Alone(authority, db, r, DegradeProvider)
         == (RecordRejection(MarkProviderDegraded(db, r.providerId), r, ReceiptIdContradiction), Rejected(ReceiptIdContradiction))
  {
    RefuseAlone(authority, MarkProviderDegraded(db, r.providerId), r, ReceiptIdContradiction);
  }

  /** Why a write failed that no receipt of its id explains. */
  function RecoveredReason(db: Db, r: Receipt): Rejection {
    if !Blank(r.sourceEventId) && SourceSeen(db.receipts, r.providerId, r.sourceEventId.value) then SourceEventReplayed
    else if r.deliveryId !in db.deliveries then DeliveryNotFound
    else if r.providerId !in db.providers then ProviderNotRegistered
    else StorageIntegrityError
  }

  lemma {:induction false} RecoverStepsAlone(authority: Option<MarkerAuthority>, db: Db, r: Receipt)
    ensures Alone(authority, db, r, RecoverSource) == Alone(authority, db, r, Refuse(RecoveredReason(db, r)))
  {
    Skip(authority, db, r, RecoverSource);
    Skip(authority, db, r, RecoverDelivery);
    Skip(authority, db, r, RecoverProvider);
  }

  /** A submission under an id on file: the same claim is a duplicate, another one a contradiction. */
  lemma {:induction false} KnownIdAlone(authority: Option<MarkerAuthority>, db: Db, r: Receipt, row: ReceiptRow)
    requires r.proofMethod != "" && r.observedAt != "" && ReceiptRecord(db.receipts, r.receiptId) == Some(row)
    ensures Alone(authority, db, r, Begin)
         == if SameReceipt(row, r) then (db, DuplicateOf(db, r)) else Alone(authority, db, r, DegradeProvider)
  {
    Skip(authority, db, r, Begin);
    Skip(authority, db, r, FindReceipt);
    if SameReceipt(row, r) {
      Skip(authority, db, r, AnswerDuplicate);
    }
  }

  /** The verdict of the session checks when no table changes between them. */
  function SessionVerdict(authority: Option<MarkerAuthority>, db: Db, r: Receipt, d: Delivery): Option<Rejection> {
    if r.proof.None? then Some(SessionProofRequired)
    else if authority.None? then Some(MarkerAuthorityUnavailable)
    else if r.bindingId.None? || r.bindingId.value !in db.bindings then Some(BindingNotRegistered)
    else
      var error := BindingError(authority.value, db.bindings[r.bindingId.value], r, r.proof.value, d);
      if error.Some? then error
      else ChainVerdict(authority.value, db, r, r.proof.value, d)
  }

  function ChainVerdict(a: MarkerAuthority, db: Db, r: Receipt, proof: SessionProof, d: Delivery): Option<Rejection>
    requires r.bindingId.Some?
  {
    var key := (r.bindingId.value, r.proofMethod);
    if key !in db.methods then Some(ProofMethodNotRegisteredForBinding)
    else
      var error := ValidateSessionProof(a, proof, d, r.evidenceClass, db.methods[key], r.observedAt);
      if error.Some? then Some(ProofRejected(error.value))
      else if r.evidenceClass.HarnessTurnCompleted? && SessionEntryChain(db.receipts, d.deliveryId) != Some(Front(proof.sourceEvents)) then
        Some(TurnEndDoesNotCloseAcceptedPrompt)
      else SourceVerdict(db, r, proof)
  }

  function SourceVerdict(db: Db, r: Receipt, proof: SessionProof): Option<Rejection> {
    if !NamesLastEvent(r, proof) then Some(ReceiptSourceEventMismatch)
    else if SourceSeen(db.receipts, r.providerId, r.sourceEventId.value) then Some(SourceEventReplayed)
    else None
  }

  function VerdictStage(v: Option<Rejection>, d: Delivery, next: DeliveryState, disposition: Option<Disposition>): Stage {
    if v.Some? then Refuse(v.value) else Commit(d, next, disposition)
  }

  /** Run without interruption, the session stages end in exactly that verdict. */
  lemma {:induction false} SessionStepsAlone(
    authority: Option<MarkerAuthority>, db: Db, r: Receipt, d: Delivery, next: DeliveryState, disposition: Option<Disposition>)
    requires IsSessionProofEvidence(r.evidenceClass)
    ensures Alone(authority, db, r, AfterTransition(authority, r, d, next, disposition))
         == Alone(authority, db, r, VerdictStage(SessionVerdict(authority, db, r, d), d, next, disposition))
  {
    if r.proof.Some? && authority.Some? {
      Skip(authority, db, r, FindBinding(d, next, disposition));
      if r.bindingId.Some? && r.bindingId.value in db.bindings
         && BindingError(authority.value, db.bindings[r.bindingId.value], r, r.proof.value, d).None? {
        ChainStepsAlone(authority.value, db, r, r.proof.value, d, next, disposition);
      }
    }
  }

  lemma {:induction false} ChainStepsAlone(
    a: MarkerAuthority, db: Db, r: Receipt, proof: SessionProof, d: Delivery, next: DeliveryState, disposition: Option<Disposition>)
    requires r.bindingId.Some? && r.proof == Some(proof)
    ensures Alone(Some(a), db, r, FindMethod(d, next, disposition))
         == Alone(Some(a), db, r, VerdictStage(ChainVerdict(a, db, r, proof, d), d, next, disposition))
  {
    Skip(Some(a), db, r, FindMethod(d, next, disposition));
    var key := (r.bindingId.value, r.proofMethod);
    if key in db.methods && ValidateSessionProof(a, proof, d, r.evidenceClass, db.methods[key], r.observedAt).None? {
      EntryStepAlone(a, db, r, proof, d, next, disposition);
      SourceStepAlone(a, db, r, proof, d, next, disposition);
    }
  }

  lemma {:induction false} EntryStepAlone(
    a: MarkerAuthority, db: Db, r: Receipt, proof: SessionProof, d: Delivery, next: DeliveryState, disposition: Option<Disposition>)
    requires r.proof == Some(proof)
    ensures Alone(Some(a), db, r, FindEntryChain(d, next, disposition))
         == Alone(Some(a), db, r, if SessionEntryChain(db.receipts, d.deliveryId) != Some(Front(proof.sourceEvents))
                                  then Refuse(TurnEndDoesNotCloseAcceptedPrompt) else AfterChain(r, d, next, disposition))
  {
    Skip(Some(a), db, r, FindEntryChain(d, next, disposition));
  }

  lemma {:induction false} SourceStepAlone(
    a: MarkerAuthority, db: Db, r: Receipt, proof: SessionProof, d: Delivery, next: DeliveryState, disposition: Option<Disposition>)
    requires r.proof == Some(proof)
    ensures Alone(Some(a), db, r, AfterChain(r, d, next, disposition))
         == Alone(Some(a), db, r, VerdictStage(SourceVerdict(db, r, proof), d, next, disposition))
  {
    Skip(Some(a), db, r, CheckSessionSource(d, next, disposition));
  }

  class ReceiptReducer {
    const store: Store.CoreStore
    const authority: Option<MarkerAuthority>

    constructor (store: Store.CoreStore, authority: Option<MarkerAuthority>)
      ensures this.store == store && this.authority == authority
    {
      this.store := store;
      this.authority := authority;
    }

    /** Runs a whole submission: tables and result are exactly those of the uninterrupted steps. */
    method Submit(r: Receipt) returns (result: ReceiptResult)
      modifies store
      ensures (store.State(), result) == Alone(authority, old(store.State()), r, Begin)
    {
      ghost var db := store.State();
      if r.proofMethod == "" || r.observedAt == "" {
        assert Alone(authority, db, r, Begin) == Alone(authority, db, r, Refuse(AuditFieldsRequired));
        result := Reject(AuditFieldsRequired, r);
        return;
      }
      assert Alone(authority, db, r, Begin) == Alone(authority, db, r, FindReceipt);
      var existing := ExistingReceiptResult(r, FindReceipt, FindDelivery);
      if existing.Some? {
        return existing.value;
      }
      if r.deliveryId !in store.deliveries {
        assert Alone(authority, db, r, FindDelivery) == Alone(authority, db, r, Refuse(DeliveryNotFound));
        result := Reject(DeliveryNotFound, r);
        return;
      }
      var d := store.deliveries[r.deliveryId];
      var keyError := ValidateKeys(r, d);
      if keyError.Some? {
        assert Alone(authority, db, r, FindDelivery) == Alone(authority, db, r, Refuse(keyError.value));
        result := Reject(keyError.value, r);
        return;
      }
      assert Alone(authority, db, r, FindDelivery) == Alone(authority, db, r, FindProvider(d));
      result := SubmitForDelivery(r, d);
    }

    method SubmitForDelivery(r: Receipt, d: Delivery) returns (result: ReceiptResult)
      modifies store
      ensures (store.State(), result) == Alone(authority, old(store.State()), r, FindProvider(d))
    {
      ghost var db := store.State();
      if r.providerId !in store.providers {
        assert Alone(authority, db, r, FindProvider(d)) == Alone(authority, db, r, Refuse(ProviderNotRegistered));
        result := Reject(ProviderNotRegistered, r);
        return;
      }
      var kind := store.providers[r.providerId].kind;
      assert Alone(authority, db, r, FindProvider(d)) == Alone(authority, db, r, CheckDeclared(d, kind));
      if (r.providerId, r.evidenceClass) !in store.declared {
        assert Alone(authority, db, r, CheckDeclared(d, kind)) == Alone(authority, db, r, Refuse(EvidenceClassNotDeclared));
        result := Reject(EvidenceClassNotDeclared, r);
        return;
      }
      assert Alone(authority, db, r, CheckDeclared(d, kind)) == Alone(authority, db, r, AfterDeclared(authority, r, d, kind));
      if IsParticipantEvidence(r.evidenceClass) {
        var error := ValidateParticipant(r, d, kind);
        if error.Some? {
          result := Reject(error.value, r);
          return;
        }
      } else if d.mode.ChannelNative? && !r.evidenceClass.TransportSubmitAck? {
        result := Reject(EvidenceClassWrongDeliveryMode, r);
        return;
      }
      result := SubmitTransition(r, d, kind);
    }

    method SubmitTransition(r: Receipt, d: Delivery, kind: ProviderKind) returns (result: ReceiptResult)
      modifies store
      ensures (store.State(), result) == Alone(authority, old(store.State()), r, AfterPrecheck(authority, r, d, kind))
    {
      ghost var db := store.State();
      var move := Transition(r, d, kind);
      if move.Refused? {
        result := Reject(move.reason, r);
        return;
      }
      if move.NeedsMessageBinding? {
        if Blank(r.platformMessageId) || !MessageMatches(store.State(), r.providerId, r.platformMessageId.value, d) {
          assert Alone(authority, db, r, CheckAckMessage(d)) == Alone(authority, db, r, Refuse(PlatformMessageBindingMismatch));
          result := Reject(PlatformMessageBindingMismatch, r);
          return;
        }
        assert Alone(authority, db, r, CheckAckMessage(d)) == Alone(authority, db, r, Commit(d, TransportSubmitted, None));
        move := Moves(TransportSubmitted, None);
      } else if IsSessionProofEvidence(r.evidenceClass) {
        var error := ValidateSessionReceipt(r, d);
        SessionStepsAlone(authority, db, r, d, move.next, move.disposition);
        if error.Some? {
          result := Reject(error.value, r);
          return;
        }
      }
      result := CommitReceipt(r, d, move.next, move.disposition);
    }

    method CommitReceipt(r: Receipt, d: Delivery, next: DeliveryState, disposition: Option<Disposition>) returns (result: ReceiptResult)
      modifies store
      ensures (store.State(), result) == Alone(authority, old(store.State()), r, Commit(d, next, disposition))
    {
      CommitAlone(authority, store.State(), r, d, next, disposition);
      var outcome := store.AcceptReceipt(r, d, next, disposition);
      match outcome {
        case Accepted(_) => result := AcceptedAs(next, disposition);
        case StateChanged => result := Reject(DeliveryStateChanged, r);
        case IntegrityError => result := RecoverIntegrityCollision(r);
      }
    }

    /** `None` when no receipt has this id; then nothing changed and the submission continues at
        `absent`. */
    method ExistingReceiptResult(r: Receipt, ghost stage: Stage, ghost absent: Stage) returns (found: Option<ReceiptResult>)
      requires (stage.FindReceipt? && absent.FindDelivery?) || (stage.RecoverReceipt? && absent.RecoverSource?)
      modifies store
      ensures found.Some? ==> (store.State(), found.value) == Alone(authority, old(store.State()), r, stage)
      ensures found.None? ==> store.State() == old(store.State())
                              && Alone(authority, old(store.State()), r, stage) == Alone(authority, old(store.State()), r, absent)
    {
      ghost var db := store.State();
      var existing := ReceiptRecord(store.receipts, r.receiptId);
      if existing.None? {
        assert Advance(authority, db, r, stage) == (db, absent);
        return None;
      }
      if !SameReceipt(existing.value, r) {
        assert Alone(authority, db, r, stage) == Alone(authority, db, r, DegradeProvider);
        store.MarkProviderDegraded(r.providerId);
        assert Alone(authority, db, r, DegradeProvider) == Alone(authority, store.State(), r, Refuse(ReceiptIdContradiction));
        var rejected := Reject(ReceiptIdContradiction, r);
        return Some(rejected);
      }
      assert Alone(authority, db, r, stage) == Alone(authority, db, r, AnswerDuplicate);
      var answer := if r.deliveryId in store.deliveries
                    then Duplicate(Some(store.deliveries[r.deliveryId].state), store.deliveries[r.deliveryId].disposition)
                    else Duplicate(None, None);
      assert Advance(authority, db, r, AnswerDuplicate) == (db, Finished(answer));
      found := Some(answer);
    }

    method RecoverIntegrityCollision(r: Receipt) returns (result: ReceiptResult)
      modifies store
      ensures (store.State(), result) == Alone(authority, old(store.State()), r, RecoverReceipt)
    {
      ghost var db := store.State();
      var existing := ExistingReceiptResult(r, RecoverReceipt, RecoverSource);
      if existing.Some? {
        return existing.value;
      }
      var reason := RecoveredReason(store.State(), r);
      RecoverStepsAlone(authority, db, r);
      result := Reject(reason, r);
    }

    /** Reads only; `None` lets the submission go on to its transition. */
    method ValidateParticipant(r: Receipt, d: Delivery, kind: ProviderKind) returns (error: Option<Rejection>)
      requires IsParticipantEvidence(r.evidenceClass)
      ensures Alone(authority, store.State(), r, AfterDeclared(authority, r, d, kind))
           == Alone(authority, store.State(), r, if error.Some? then Refuse(error.value) else AfterPrecheck(authority, r, d, kind))
    {
      ghost var db := store.State();
      error := ParticipantPrecheck(r, d, kind);
      if error.Some? {
        return;
      }
      if SourceSeen(store.receipts, r.providerId, r.sourceEventId.value) {
        assert Alone(authority, db, r, CheckParticipantSource(d, kind)) == Alone(authority, db, r, Refuse(SourceEventReplayed));
        return Some(SourceEventReplayed);
      }
      if Blank(r.platformPrincipalId) {
        assert Alone(authority, db, r, CheckParticipantSource(d, kind)) == Alone(authority, db, r, Refuse(PrincipalMismatch));
        return Some(PrincipalMismatch);
      }
      assert Alone(authority, db, r, CheckParticipantSource(d, kind)) == Alone(authority, db, r, CheckPrincipal(d, kind));
      if !PrincipalMatches(store.State(), r.providerId, r.platformPrincipalId.value, d.recipientId) {
        assert Alone(authority, db, r, CheckPrincipal(d, kind)) == Alone(authority, db, r, Refuse(PrincipalMismatch));
        return Some(PrincipalMismatch);
      }
      if Blank(r.platformMessageId) {
        assert Alone(authority, db, r, CheckPrincipal(d, kind)) == Alone(authority, db, r, Refuse(PlatformMessageBindingMismatch));
        return Some(PlatformMessageBindingMismatch);
      }
      assert Alone(authority, db, r, CheckPrincipal(d, kind)) == Alone(authority, db, r, CheckMessage(d, kind));
      if !MessageMatches(store.State(), r.providerId, r.platformMessageId.value, d) {
        assert Alone(authority, db, r, CheckMessage(d, kind)) == Alone(authority, db, r, Refuse(PlatformMessageBindingMismatch));
        return Some(PlatformMessageBindingMismatch);
      }
      assert Alone(authority, db, r, CheckMessage(d, kind)) == Alone(authority, db, r, AfterPrecheck(authority, r, d, kind));
      error := None;
    }

    /** Reads only; `None` lets the submission go on to its commit. */
    method ValidateSessionReceipt(r: Receipt, d: Delivery) returns (error: Option<Rejection>)
      ensures error == SessionVerdict(authority, store.State(), r, d)
    {
      if r.proof.None? {
        return Some(SessionProofRequired);
      }
      if authority.None? {
        return Some(MarkerAuthorityUnavailable);
      }
      var a, proof := authority.value, r.proof.value;
      if r.bindingId.None? || r.bindingId.value !in store.bindings {
        return Some(BindingNotRegistered);
      }
      error := BindingError(a, store.bindings[r.bindingId.value], r, proof, d);
      if error.Some? {
        return;
      }
      if (r.bindingId.value, r.proofMethod) !in store.methods {
        return Some(ProofMethodNotRegisteredForBinding);
      }
      var proofError := ValidateSessionProof(a, proof, d, r.evidenceClass, store.methods[(r.bindingId.value, r.proofMethod)], r.observedAt);
      if proofError.Some? {
        return Some(ProofRejected(proofError.value));
      }
      if r.evidenceClass.HarnessTurnCompleted? {
        if SessionEntryChain(store.receipts, d.deliveryId) != Some(Front(proof.sourceEvents)) {
          return Some(TurnEndDoesNotCloseAcceptedPrompt);
        }
      }
      if !NamesLastEvent(r, proof) {
        return Some(ReceiptSourceEventMismatch);
      }
      if SourceSeen(store.receipts, r.providerId, r.sourceEventId.value) {
        return Some(SourceEventReplayed);
      }
      error := None;
    }

    method Reject(reason: Rejection, r: Receipt) returns (result: ReceiptResult)
      modifies store
      ensures (store.State(), result) == Alone(authority, old(store.State()), r, Refuse(reason))
    {
      ghost var db := store.State();
      store.RecordRejection(r, reason);
      result := Rejected(reason);
      assert Advance(authority, db, r, Refuse(reason)) == (store.State(), Finished(result));
    }
  }
}
