/** Exactly which receipts are accepted, class by class, and how far each moves its delivery: every guard
    is read off the receipt and the tables. */
module Acceptance {
  import opened CoreTypes
  import opened Proofs
  import opened Tables
  import opened Reducer

  /** The delivery id is the primary key of its row. */
  predicate Keyed(db: Db) {
    forall id | id in db.deliveries :: db.deliveries[id].deliveryId == id
  }

  /** The receipt's audit fields are there, its id is unused, its delivery exists with the same keys, and its
      provider is registered and declares its class. */
  ghost predicate Presented(db: Db, r: Receipt) {
    && r.proofMethod != "" && r.observedAt != ""
    && (forall row | row in db.receipts :: row.receiptId != r.receiptId)
    && r.deliveryId in db.deliveries
    && r.bindingId == db.deliveries[r.deliveryId].bindingId
    && r.eventId == db.deliveries[r.deliveryId].eventId && r.attemptId == db.deliveries[r.deliveryId].attemptId
    && r.providerId in db.providers && (r.providerId, r.evidenceClass) in db.declared
  }

  /** No constraint of the tables stands against its rows: the delivery is bound, and neither its id nor its
      provider's source event was used. */
  ghost predicate Insertable(db: Db, r: Receipt) {
    && r.bindingId.Some?
    && (forall row | row in db.receipts :: row.receiptId != r.receiptId)
    && (forall row | row in db.receipts :: r.sourceEventId.Some? && row.providerId == r.providerId ==> row.sourceEventId != r.sourceEventId)
    && (forall row | row in db.audit :: row.receiptId != r.receiptId)
  }

  /** What any accepted receipt needs. */
  ghost predicate Admissible(db: Db, r: Receipt) {
    Presented(db, r) && Insertable(db, r)
  }

  /** The receipt names a platform message that its provider bound to this very attempt. */
  predicate NamesBoundMessage(db: Db, r: Receipt, d: Delivery) {
    && r.platformMessageId.Some? && r.platformMessageId.value != ""
    && (r.providerId, r.platformMessageId.value) in db.messages
    && var m := db.messages[(r.providerId, r.platformMessageId.value)];
       m.eventId == d.eventId && m.deliveryId == d.deliveryId && m.attemptId == d.attemptId
  }

  /** The receipt was submitted alone and accepted: the delivery moved, one receipt and one audit row were
      added, and nothing else changed. */
  ghost predicate AcceptedTo(authority: Option<MarkerAuthority>, db: Db, r: Receipt, next: DeliveryState, disposition: Option<Disposition>)
    requires r.deliveryId in db.deliveries
  {
    var after, result := Alone(authority, db, r, Begin).0, Alone(authority, db, r, Begin).1;
    && result == AcceptedAs(next, disposition)
    && after.deliveries == db.deliveries[r.deliveryId := db.deliveries[r.deliveryId].(state := next, disposition := disposition)]
    && |after.receipts| == |db.receipts| + 1 && db.receipts <= after.receipts && after.receipts[|db.receipts|].receiptId == r.receiptId
    && |after.audit| == |db.audit| + 1 && db.audit <= after.audit
    && after.audit[|db.audit|].fromState == db.deliveries[r.deliveryId].state && after.audit[|db.audit|].toState == next
    && after == db.(deliveries := after.deliveries, receipts := after.receipts, audit := after.audit)
  }

  ghost predicate IsAccepted(authority: Option<MarkerAuthority>, db: Db, r: Receipt) {
    Alone(authority, db, r, Begin).1.AcceptedAs?
  }

  // ---------------------------------------------------------------- ends

  lemma {:induction false} RefusalEnds(authority: Option<MarkerAuthority>, db: Db, r: Receipt, reason: Rejection)
    ensures !Alone(authority, db, r, Refuse(reason)).1.AcceptedAs?
  {
    RefuseAlone(authority, db, r, reason);
  }

  lemma {:induction false} RecoveryEnds(authority: Option<MarkerAuthority>, db: Db, r: Receipt)
    ensures !Alone(authority, db, r, RecoverReceipt).1.AcceptedAs?
  {
    Skip(authority, db, r, RecoverReceipt);
    var existing := ReceiptRecord(db.receipts, r.receiptId);
    if existing.None? {
      RecoverStepsAlone(authority, db, r);
      RefusalEnds(authority, db, r, RecoveredReason(db, r));
    } else if SameReceipt(existing.value, r) {
      Skip(authority, db, r, AnswerDuplicate);
    } else {
      DegradeAlone(authority, db, r);
    }
  }

  /** A commit of the delivery as read succeeds exactly when no constraint stands against it. */
  lemma {:induction false} CommitEnds(
    authority: Option<MarkerAuthority>, db: Db, r: Receipt, next: DeliveryState, disposition: Option<Disposition>)
    requires Keyed(db) && r.deliveryId in db.deliveries && r.providerId in db.providers
    requires r.bindingId == db.deliveries[r.deliveryId].bindingId
    ensures var end := Alone(authority, db, r, Commit(db.deliveries[r.deliveryId], next, disposition));
            && (end.1.AcceptedAs? <==> Insertable(db, r))
            && (end.1.AcceptedAs? ==>
                  var outcome := AcceptReceipt(db, r, db.deliveries[r.deliveryId], next, disposition);
                  outcome.Accepted? && end == (outcome.db, AcceptedAs(next, disposition)))
  {
    var d := db.deliveries[r.deliveryId];
    CommitAlone(authority, db, r, d, next, disposition);
    match AcceptReceipt(db, r, d, next, disposition)
    case Accepted(after) =>
    case StateChanged => RefusalEnds(authority, db, r, DeliveryStateChanged);
    case IntegrityError => RecoveryEnds(authority, db, r);
  }

  // ---------------------------------------------------------------- the checks common to all classes

  lemma {:induction false} PresentedGoesOn(authority: Option<MarkerAuthority>, db: Db, r: Receipt)
    requires Presented(db, r)
    ensures Alone(authority, db, r, Begin)
         == Alone(authority, db, r, AfterDeclared(authority, r, db.deliveries[r.deliveryId], db.providers[r.providerId].kind))
  {
    Skip(authority, db, r, Begin);
    Skip(authority, db, r, FindReceipt);
    Skip(authority, db, r, FindDelivery);
    DeclaredGoesOn(authority, db, r, db.deliveries[r.deliveryId]);
  }

  lemma {:induction false} DeclaredGoesOn(authority: Option<MarkerAuthority>, db: Db, r: Receipt, d: Delivery)
    requires r.providerId in db.providers && (r.providerId, r.evidenceClass) in db.declared
    ensures Alone(authority, db, r, FindProvider(d)) == Alone(authority, db, r, AfterDeclared(authority, r, d, db.providers[r.providerId].kind))
  {
    Skip(authority, db, r, FindProvider(d));
    Skip(authority, db, r, CheckDeclared(d, db.providers[r.providerId].kind));
  }

  /** A receipt that is not presented stops at the first check it fails. */
  lemma {:induction false} UnpresentedStops(authority: Option<MarkerAuthority>, db: Db, r: Receipt)
    requires !Presented(db, r)
    ensures !IsAccepted(authority, db, r)
  {
    Skip(authority, db, r, Begin);
    if r.proofMethod == "" || r.observedAt == "" {
      RefusalEnds(authority, db, r, AuditFieldsRequired);
    } else if ReceiptRecord(db.receipts, r.receiptId).Some? {
      KnownIdAlone(authority, db, r, ReceiptRecord(db.receipts, r.receiptId).value);
      DegradeAlone(authority, db, r);
    } else {
      Skip(authority, db, r, FindReceipt);
      UnmatchedStops(authority, db, r);
    }
  }

  lemma {:induction false} UnmatchedStops(authority: Option<MarkerAuthority>, db: Db, r: Receipt)
    requires !Presented(db, r) && r.proofMethod != "" && r.observedAt != "" && ReceiptRecord(db.receipts, r.receiptId).None?
    ensures !Alone(authority, db, r, FindDelivery).1.AcceptedAs?
  {
    Skip(authority, db, r, FindDelivery);
    var stage := NextStage(authority, db, r, FindDelivery);
    if stage.Refuse? {
      RefusalEnds(authority, db, r, stage.reason);
    } else {
      var d := db.deliveries[r.deliveryId];
      Skip(authority, db, r, FindProvider(d));
      if r.providerId !in db.providers {
        RefusalEnds(authority, db, r, ProviderNotRegistered);
      } else {
        Skip(authority, db, r, CheckDeclared(d, db.providers[r.providerId].kind));
        RefusalEnds(authority, db, r, EvidenceClassNotDeclared);
      }
    }
  }

  /** A stage that is reached and refuses, or commits. */
  lemma {:induction false} CommitAccepts(
    authority: Option<MarkerAuthority>, db: Db, r: Receipt, next: DeliveryState, disposition: Option<Disposition>)
    requires Keyed(db) && Presented(db, r)
    requires Alone(authority, db, r, Begin) == Alone(authority, db, r, Commit(db.deliveries[r.deliveryId], next, disposition))
    ensures IsAccepted(authority, db, r) <==> Insertable(db, r)
    ensures Insertable(db, r) ==> AcceptedTo(authority, db, r, next, disposition)
  {
    CommitEnds(authority, db, r, next, disposition);
  }

  lemma {:induction false} RefusalRefuses(authority: Option<MarkerAuthority>, db: Db, r: Receipt, reason: Rejection)
    requires Alone(authority, db, r, Begin) == Alone(authority, db, r, Refuse(reason))
    ensures !IsAccepted(authority, db, r)
  {
    RefusalEnds(authority, db, r, reason);
  }

  /** A submission that reaches a stage which refuses or commits ends as that stage says. */
  lemma {:induction false} StageDecides(
    authority: Option<MarkerAuthority>, db: Db, r: Receipt, stage: Stage, next: DeliveryState, disposition: Option<Disposition>)
    requires Keyed(db) && Presented(db, r) && Alone(authority, db, r, Begin) == Alone(authority, db, r, stage)
    requires stage.Refuse? || stage == Commit(db.deliveries[r.deliveryId], next, disposition)
    ensures IsAccepted(authority, db, r) <==> stage.Commit? && Insertable(db, r)
    ensures IsAccepted(authority, db, r) ==> AcceptedTo(authority, db, r, next, disposition)
  {
    if stage.Refuse? {
      RefusalRefuses(authority, db, r, stage.reason);
    } else {
      CommitAccepts(authority, db, r, next, disposition);
    }
  }

  // ---------------------------------------------------------------- transport acknowledgements

  /** The delivery is dispatching, nothing is claimed beyond submission, and the acknowledgement comes from
      the kind of provider that serves the mode; in a channel it names the bound message. */
  ghost predicate AcknowledgesSubmission(db: Db, r: Receipt)
    requires Presented(db, r)
  {
    var d, kind := db.deliveries[r.deliveryId], db.providers[r.providerId].kind;
    && d.state == Dispatching && r.disposition == None
    && match d.mode
       case SessionBound => kind == SessionTransport
       case ChannelNative => kind == CommsView && NamesBoundMessage(db, r, d)
  }

  /** A transport acknowledgement is accepted exactly then, and moves the delivery to transport-submitted. */
  lemma {:induction false} AckAcceptedExactly(authority: Option<MarkerAuthority>, db: Db, r: Receipt)
    requires Keyed(db) && r.evidenceClass == TransportSubmitAck
    ensures IsAccepted(authority, db, r) <==> Admissible(db, r) && AcknowledgesSubmission(db, r)
    ensures IsAccepted(authority, db, r) ==> r.deliveryId in db.deliveries && AcceptedTo(authority, db, r, TransportSubmitted, None)
  {
    if !Presented(db, r) {
      UnpresentedStops(authority, db, r);
    } else {
      PresentedGoesOn(authority, db, r);
      if db.deliveries[r.deliveryId].mode.ChannelNative? {
        ChannelAck(authority, db, r);
      } else {
        SessionAck(authority, db, r);
      }
    }
  }

  lemma {:induction false} AckStage(authority: Option<MarkerAuthority>, r: Receipt, d: Delivery, kind: ProviderKind)
    requires r.evidenceClass == TransportSubmitAck
    ensures var stage := AfterDeclared(authority, r, d, kind);
            if d.state == Dispatching && r.disposition == None && d.mode == SessionBound && kind == SessionTransport
            then stage == Commit(d, TransportSubmitted, None)
            else if d.state == Dispatching && r.disposition == None && d.mode == ChannelNative && kind == CommsView && !Blank(r.platformMessageId)
            then stage == CheckAckMessage(d)
            else stage.Refuse?
  {}

  lemma {:induction false} SessionAck(authority: Option<MarkerAuthority>, db: Db, r: Receipt)
    requires Keyed(db) && r.evidenceClass == TransportSubmitAck && Presented(db, r) && db.deliveries[r.deliveryId].mode.SessionBound?
    ensures IsAccepted(authority, db, r) <==> Insertable(db, r) && AcknowledgesSubmission(db, r)
    ensures IsAccepted(authority, db, r) ==> AcceptedTo(authority, db, r, TransportSubmitted, None)
  {
    var d, kind := db.deliveries[r.deliveryId], db.providers[r.providerId].kind;
    PresentedGoesOn(authority, db, r);
    AckStage(authority, r, d, kind);
    StageDecides(authority, db, r, AfterDeclared(authority, r, d, kind), TransportSubmitted, None);
  }

  lemma {:induction false} ChannelAck(authority: Option<MarkerAuthority>, db: Db, r: Receipt)
    requires Keyed(db) && r.evidenceClass == TransportSubmitAck && Presented(db, r) && db.deliveries[r.deliveryId].mode.ChannelNative?
    ensures IsAccepted(authority, db, r) <==> Insertable(db, r) && AcknowledgesSubmission(db, r)
    ensures IsAccepted(authority, db, r) ==> AcceptedTo(authority, db, r, TransportSubmitted, None)
  {
    var d, kind := db.deliveries[r.deliveryId], db.providers[r.providerId].kind;
    PresentedGoesOn(authority, db, r);
    AckStage(authority, r, d, kind);
    var stage := AfterDeclared(authority, r, d, kind);
    if stage.CheckAckMessage? {
      MessageCheck(authority, db, r, d);
      stage := if NamesBoundMessage(db, r, d) then Commit(d, TransportSubmitted, None) else Refuse(PlatformMessageBindingMismatch);
    }
    StageDecides(authority, db, r, stage, TransportSubmitted, None);
  }

  lemma {:induction false} MessageCheck(authority: Option<MarkerAuthority>, db: Db, r: Receipt, d: Delivery)
    ensures Alone(authority, db, r, CheckAckMessage(d))
         == Alone(authority, db, r, if NamesBoundMessage(db, r, d) then Commit(d, TransportSubmitted, None) else Refuse(PlatformMessageBindingMismatch))
  {
    Skip(authority, db, r, CheckAckMessage(d));
  }

  // ---------------------------------------------------------------- participants

  /** A participant of the channel, not the provider itself, answers the submitted message under its own
      platform identity. */
  ghost predicate SpeaksForRecipient(db: Db, r: Receipt)
    requires Presented(db, r)
  {
    var d := db.deliveries[r.deliveryId];
    && d.mode == ChannelNative && db.providers[r.providerId].kind == CommsView && d.state == TransportSubmitted
    && !r.authoredByProvider && !r.infrastructureEvent
    && r.sourceEventId.Some? && r.sourceEventId.value != ""
    && r.platformPrincipalId.Some? && r.platformPrincipalId.value != ""
    && (r.providerId, r.platformPrincipalId.value) in db.principals
    && db.principals[(r.providerId, r.platformPrincipalId.value)] == d.recipientId
    && NamesBoundMessage(db, r, d)
  }

  /** The participant checks let a receipt through to its transition exactly when it does, and its source
      event was not seen. */
  lemma {:induction false} ParticipantGoesOn(authority: Option<MarkerAuthority>, db: Db, r: Receipt)
    requires Presented(db, r) && IsParticipantEvidence(r.evidenceClass)
    ensures var d, kind := db.deliveries[r.deliveryId], db.providers[r.providerId].kind;
            if SpeaksForRecipient(db, r) && !SourceSeen(db.receipts, r.providerId, r.sourceEventId.value)
            then Alone(authority, db, r, Begin) == Alone(authority, db, r, AfterPrecheck(authority, r, d, kind))
            else !IsAccepted(authority, db, r)
  {
    var d, kind := db.deliveries[r.deliveryId], db.providers[r.providerId].kind;
    PresentedGoesOn(authority, db, r);
    var error := ParticipantPrecheck(r, d, kind);
    if error.Some? {
      RefusalRefuses(authority, db, r, error.value);
    } else {
      ParticipantReads(authority, db, r, d, kind);
    }
  }

  lemma {:induction false} ParticipantReads(authority: Option<MarkerAuthority>, db: Db, r: Receipt, d: Delivery, kind: ProviderKind)
    requires !Blank(r.sourceEventId)
    ensures var end := Alone(authority, db, r, CheckParticipantSource(d, kind));
            if !SourceSeen(db.receipts, r.providerId, r.sourceEventId.value)
               && !Blank(r.platformPrincipalId) && PrincipalMatches(db, r.providerId, r.platformPrincipalId.value, d.recipientId)
               && NamesBoundMessage(db, r, d)
            then end == Alone(authority, db, r, AfterPrecheck(authority, r, d, kind))
            else !end.1.AcceptedAs?
  {
    Skip(authority, db, r, CheckParticipantSource(d, kind));
    var stage := NextStage(authority, db, r, CheckParticipantSource(d, kind));
    if stage.Refuse? {
      RefusalEnds(authority, db, r, stage.reason);
    } else {
      IdentityReads(authority, db, r, d, kind);
    }
  }

  lemma {:induction false} IdentityReads(authority: Option<MarkerAuthority>, db: Db, r: Receipt, d: Delivery, kind: ProviderKind)
    requires !Blank(r.platformPrincipalId)
    ensures var end := Alone(authority, db, r, CheckPrincipal(d, kind));
            if PrincipalMatches(db, r.providerId, r.platformPrincipalId.value, d.recipientId) && NamesBoundMessage(db, r, d)
            then end == Alone(authority, db, r, AfterPrecheck(authority, r, d, kind))
            else !end.1.AcceptedAs?
  {
    Skip(authority, db, r, CheckPrincipal(d, kind));
    var stage := NextStage(authority, db, r, CheckPrincipal(d, kind));
    if stage.Refuse? {
      RefusalEnds(authority, db, r, stage.reason);
    } else {
      MessageRead(authority, db, r, d, kind);
    }
  }

  lemma {:induction false} MessageRead(authority: Option<MarkerAuthority>, db: Db, r: Receipt, d: Delivery, kind: ProviderKind)
    ensures var end := Alone(authority, db, r, CheckMessage(d, kind));
            if NamesBoundMessage(db, r, d) then end == Alone(authority, db, r, AfterPrecheck(authority, r, d, kind))
            else !end.1.AcceptedAs?
  {
    Skip(authority, db, r, CheckMessage(d, kind));
    RefusalEnds(authority, db, r, PlatformMessageBindingMismatch);
  }

  lemma {:induction false} ParticipantStage(authority: Option<MarkerAuthority>, r: Receipt, d: Delivery, kind: ProviderKind)
    ensures r.evidenceClass == ParticipantReplyAuthored ==>
              if r.disposition == None || r.disposition == Some(Answered)
              then AfterPrecheck(authority, r, d, kind) == Commit(d, Processed, Some(Answered)) else AfterPrecheck(authority, r, d, kind).Refuse?
    ensures r.evidenceClass == ParticipantReactionAuthored ==>
              if r.disposition == Some(Acknowledged) || r.disposition == Some(Held)
              then AfterPrecheck(authority, r, d, kind) == Commit(d, Processed, r.disposition) else AfterPrecheck(authority, r, d, kind).Refuse?
  {}

  /** A participant's reply is accepted exactly when it speaks for the recipient and claims no other
      disposition, and answers the delivery. */
  lemma {:induction false} ReplyAcceptedExactly(authority: Option<MarkerAuthority>, db: Db, r: Receipt)
    requires Keyed(db) && r.evidenceClass == ParticipantReplyAuthored
    ensures IsAccepted(authority, db, r)
       <==> Admissible(db, r) && SpeaksForRecipient(db, r) && (r.disposition == None || r.disposition == Some(Answered))
    ensures IsAccepted(authority, db, r) ==> r.deliveryId in db.deliveries && AcceptedTo(authority, db, r, Processed, Some(Answered))
  {
    if !Presented(db, r) {
      UnpresentedStops(authority, db, r);
    } else {
      ParticipantGoesOn(authority, db, r);
      if SpeaksForRecipient(db, r) && !SourceSeen(db.receipts, r.providerId, r.sourceEventId.value) {
        var d, kind := db.deliveries[r.deliveryId], db.providers[r.providerId].kind;
        ParticipantStage(authority, r, d, kind);
        StageDecides(authority, db, r, AfterPrecheck(authority, r, d, kind), Processed, Some(Answered));
      }
    }
  }

  /** A participant's reaction is accepted exactly when it speaks for the recipient and acknowledges or holds,
      and the delivery ends as it says. */
  lemma {:induction false} ReactionAcceptedExactly(authority: Option<MarkerAuthority>, db: Db, r: Receipt)
    requires Keyed(db) && r.evidenceClass == ParticipantReactionAuthored
    ensures IsAccepted(authority, db, r)
       <==> Admissible(db, r) && SpeaksForRecipient(db, r) && (r.disposition == Some(Acknowledged) || r.disposition == Some(Held))
    ensures IsAccepted(authority, db, r) ==> r.deliveryId in db.deliveries && AcceptedTo(authority, db, r, Processed, r.disposition)
  {
    if !Presented(db, r) {
      UnpresentedStops(authority, db, r);
    } else {
      ParticipantGoesOn(authority, db, r);
      if SpeaksForRecipient(db, r) && !SourceSeen(db.receipts, r.providerId, r.sourceEventId.value) {
        var d, kind := db.deliveries[r.deliveryId], db.providers[r.providerId].kind;
        ParticipantStage(authority, r, d, kind);
        StageDecides(authority, db, r, AfterPrecheck(authority, r, d, kind), Processed, r.disposition);
      }
    }
  }

  // ---------------------------------------------------------------- session proofs

  /** A session transport proves, under the delivery's own active binding and a method registered for it, a
      turn of the binding's session; the receipt names the last event of its chain. */
  ghost predicate ProvesTurn(authority: Option<MarkerAuthority>, db: Db, r: Receipt)
    requires Presented(db, r)
  {
    var d := db.deliveries[r.deliveryId];
    && d.mode == SessionBound && db.providers[r.providerId].kind == SessionTransport
    && authority.Some? && r.proof.Some?
    && r.bindingId.Some? && r.bindingId.value in db.bindings
    && (var a, b := authority.value, db.bindings[r.bindingId.value];
        && b.state == Active && b.providerId == r.providerId && b.recipientId == d.recipientId
        && a.parse(r.observedAt).Some? && a.parse(b.establishedAt).Some? && a.parse(b.expiresAt).Some?
        && a.parse(b.establishedAt).value <= a.parse(r.observedAt).value < a.parse(b.expiresAt).value
        && r.proof.value.sessionId == b.sessionId)
    && (r.bindingId.value, r.proofMethod) in db.methods
    && (var m := db.methods[(r.bindingId.value, r.proofMethod)];
        && m.sourceKind == EventBus && r.evidenceClass in m.evidenceClasses
        && SessionProofSound(authority.value, r.proof.value, d, r.evidenceClass, m.sourceInstanceId, r.observedAt))
    && (var events := r.proof.value.sourceEvents;
        events != [] && r.sourceEventId == Some(events[|events| - 1].sourceEventId))
  }

  predicate EntryOf(row: ReceiptRow, deliveryId: string) {
    row.deliveryId == deliveryId && (row.evidenceClass == HarnessPromptAccepted || row.evidenceClass == HarnessTurnStarted)
  }

  /** The delivery's latest entry receipt carries this chain. */
  ghost predicate LatestEntryIs(rows: seq<ReceiptRow>, deliveryId: string, chain: seq<SourceEventRef>) {
    exists i :: IsLatest(rows, deliveryId, i) && rows[i].sourceEventChain == chain
  }

  ghost predicate IsLatest(rows: seq<ReceiptRow>, deliveryId: string, i: int) {
    0 <= i < |rows| && EntryOf(rows[i], deliveryId) && forall j | i < j < |rows| :: !EntryOf(rows[j], deliveryId)
  }

  lemma LatestOfFront(rows: seq<ReceiptRow>, deliveryId: string, i: int)
    requires rows != [] && !EntryOf(rows[|rows| - 1], deliveryId)
    ensures IsLatest(rows[..|rows| - 1], deliveryId, i) <==> IsLatest(rows, deliveryId, i)
  {
    var front := rows[..|rows| - 1];
    assert forall j | 0 <= j < |front| :: front[j] == rows[j];
  }

  lemma {:induction false} LatestEntry(rows: seq<ReceiptRow>, deliveryId: string, chain: seq<SourceEventRef>)
    ensures SessionEntryChain(rows, deliveryId) == Some(chain) <==> LatestEntryIs(rows, deliveryId, chain)
  {
    if rows != [] {
      var front := rows[..|rows| - 1];
      if EntryOf(rows[|rows| - 1], deliveryId) {
        assert IsLatest(rows, deliveryId, |rows| - 1);
      } else {
        LatestEntry(front, deliveryId, chain);
        forall i ensures IsLatest(front, deliveryId, i) <==> IsLatest(rows, deliveryId, i) {
          LatestOfFront(rows, deliveryId, i);
        }
      }
    }
  }

  /** The session checks pass exactly when the turn is proved, the completion closes the latest entry, and the
      source event is new. */
  lemma {:induction false} SessionChecksExactly(authority: Option<MarkerAuthority>, db: Db, r: Receipt)
    requires Keyed(db) && Presented(db, r) && IsSessionProofEvidence(r.evidenceClass)
    requires db.deliveries[r.deliveryId].mode == SessionBound && db.providers[r.providerId].kind == SessionTransport
    ensures SessionVerdict(authority, db, r, db.deliveries[r.deliveryId]).None?
       <==> && ProvesTurn(authority, db, r)
            && (r.evidenceClass == HarnessTurnCompleted ==> LatestEntryIs(db.receipts, r.deliveryId, Front(r.proof.value.sourceEvents)))
            && !SourceSeen(db.receipts, r.providerId, r.sourceEventId.value)
  {
    var d := db.deliveries[r.deliveryId];
    if r.proof.Some? && authority.Some? && r.bindingId.Some? {
      ChainChecksExactly(authority.value, db, r, r.proof.value, d);
    }
  }

  /** The chain's part of a proved turn. */
  ghost predicate ChainStands(a: MarkerAuthority, db: Db, r: Receipt, proof: SessionProof, d: Delivery)
    requires r.bindingId.Some?
  {
    var key, events := (r.bindingId.value, r.proofMethod), proof.sourceEvents;
    && key in db.methods
    && db.methods[key].sourceKind == EventBus && r.evidenceClass in db.methods[key].evidenceClasses
    && SessionProofSound(a, proof, d, r.evidenceClass, db.methods[key].sourceInstanceId, r.observedAt)
    && events != [] && r.sourceEventId == Some(events[|events| - 1].sourceEventId)
    && (r.evidenceClass == HarnessTurnCompleted ==> LatestEntryIs(db.receipts, d.deliveryId, Front(events)))
    && !SourceSeen(db.receipts, r.providerId, r.sourceEventId.value)
  }

  lemma {:induction false} ChainChecksExactly(a: MarkerAuthority, db: Db, r: Receipt, proof: SessionProof, d: Delivery)
    requires r.bindingId.Some? && IsSessionProofEvidence(r.evidenceClass)
    ensures ChainVerdict(a, db, r, proof, d).None? <==> ChainStands(a, db, r, proof, d)
  {
    var key := (r.bindingId.value, r.proofMethod);
    if key in db.methods {
      AcceptedProofIsSound(a, proof, d, r.evidenceClass, db.methods[key], r.observedAt);
      LatestEntry(db.receipts, d.deliveryId, Front(proof.sourceEvents));
    }
  }

  /** A session receipt that its class allows to move the delivery is accepted exactly when those hold. */
  lemma {:induction false} SessionGoesOn(authority: Option<MarkerAuthority>, db: Db, r: Receipt, next: DeliveryState, disposition: Option<Disposition>)
    requires Keyed(db) && Presented(db, r) && IsSessionProofEvidence(r.evidenceClass)
    requires db.deliveries[r.deliveryId].mode == SessionBound && db.providers[r.providerId].kind == SessionTransport
    requires Transition(r, db.deliveries[r.deliveryId], SessionTransport) == Moves(next, disposition)
    ensures IsAccepted(authority, db, r)
       <==> && Insertable(db, r) && ProvesTurn(authority, db, r)
            && (r.evidenceClass == HarnessTurnCompleted ==> LatestEntryIs(db.receipts, r.deliveryId, Front(r.proof.value.sourceEvents)))
    ensures IsAccepted(authority, db, r) ==> AcceptedTo(authority, db, r, next, disposition)
  {
    var d := db.deliveries[r.deliveryId];
    PresentedGoesOn(authority, db, r);
    SessionStepsAlone(authority, db, r, d, next, disposition);
    SessionChecksExactly(authority, db, r);
    var verdict := SessionVerdict(authority, db, r, d);
    if verdict.Some? {
      RefusalRefuses(authority, db, r, verdict.value);
    } else {
      CommitAccepts(authority, db, r, next, disposition);
    }
  }

  /** Where the class does not allow the move, the receipt is refused. */
  lemma {:induction false} SessionRefused(authority: Option<MarkerAuthority>, db: Db, r: Receipt)
    requires Presented(db, r) && IsSessionProofEvidence(r.evidenceClass)
    requires var d := db.deliveries[r.deliveryId];
             d.mode == ChannelNative || Transition(r, d, db.providers[r.providerId].kind).Refused?
    ensures !IsAccepted(authority, db, r)
  {
    PresentedGoesOn(authority, db, r);
    var d := db.deliveries[r.deliveryId];
    if d.mode == ChannelNative {
      RefusalRefuses(authority, db, r, EvidenceClassWrongDeliveryMode);
    } else {
      RefusalRefuses(authority, db, r, Transition(r, d, db.providers[r.providerId].kind).reason);
    }
  }

  /** A session's entry is accepted exactly when a transport-submitted delivery's turn is proved and no
      disposition is claimed, and moves it into the session. */
  lemma {:induction false} EntryAcceptedExactly(authority: Option<MarkerAuthority>, db: Db, r: Receipt)
    requires Keyed(db) && (r.evidenceClass == HarnessPromptAccepted || r.evidenceClass == HarnessTurnStarted)
    ensures IsAccepted(authority, db, r)
       <==> && Admissible(db, r) && ProvesTurn(authority, db, r)
            && db.deliveries[r.deliveryId].state == TransportSubmitted && r.disposition == None
    ensures IsAccepted(authority, db, r) ==> r.deliveryId in db.deliveries && AcceptedTo(authority, db, r, InSession, None)
  {
    if !Presented(db, r) {
      UnpresentedStops(authority, db, r);
    } else {
      var d, kind := db.deliveries[r.deliveryId], db.providers[r.providerId].kind;
      if d.mode == SessionBound && kind == SessionTransport && d.state == TransportSubmitted && r.disposition == None {
        SessionGoesOn(authority, db, r, InSession, None);
      } else {
        SessionRefused(authority, db, r);
      }
    }
  }

  /** A turn's end is accepted exactly when it is proved for a delivery in session, closes the latest entry on
      file and claims nothing but completion, and completes the delivery. */
  lemma {:induction false} CompletionAcceptedExactly(authority: Option<MarkerAuthority>, db: Db, r: Receipt)
    requires Keyed(db) && r.evidenceClass == HarnessTurnCompleted
    ensures IsAccepted(authority, db, r)
       <==> && Admissible(db, r) && ProvesTurn(authority, db, r)
            && db.deliveries[r.deliveryId].state == InSession && (r.disposition == None || r.disposition == Some(Completed))
            && LatestEntryIs(db.receipts, r.deliveryId, Front(r.proof.value.sourceEvents))
    ensures IsAccepted(authority, db, r) ==> r.deliveryId in db.deliveries && AcceptedTo(authority, db, r, Processed, Some(Completed))
  {
    if !Presented(db, r) {
      UnpresentedStops(authority, db, r);
    } else {
      var d, kind := db.deliveries[r.deliveryId], db.providers[r.providerId].kind;
      if d.mode == SessionBound && kind == SessionTransport && d.state == InSession
         && (r.disposition == None || r.disposition == Some(Completed)) {
        SessionGoesOn(authority, db, r, Processed, Some(Completed));
      } else {
        SessionRefused(authority, db, r);
      }
    }
  }

  /** No other class of evidence is ever accepted. */
  lemma {:induction false} OtherClassesNeverAccepted(authority: Option<MarkerAuthority>, db: Db, r: Receipt)
    requires r.evidenceClass == SessionReplyAuthored || r.evidenceClass == SessionReactionAuthored || r.evidenceClass == SessionDispositionAuthored
    ensures !IsAccepted(authority, db, r)
  {
    if !Presented(db, r) {
      UnpresentedStops(authority, db, r);
    } else {
      PresentedGoesOn(authority, db, r);
      if db.deliveries[r.deliveryId].mode == ChannelNative {
        RefusalRefuses(authority, db, r, EvidenceClassWrongDeliveryMode);
      } else {
        RefusalRefuses(authority, db, r, UnsupportedEvidenceClass);
      }
    }
  }
}
