/** From a typed marker to a processed delivery: the stream side and the core side put together. */
module EndToEnd {
  import opened CoreTypes
  import opened Proofs
  import opened Tables
  import opened Reducer
  import opened Emitter
  import opened Producer
  import opened Correlation
  import opened Soundness
  import Marker
  import Resident

  // ---------------------------------------------------------------- markers on the wire

  function WireOf(m: Marker.ObservedMarker): WireMarker {
    match m
    case Short(d, b, s) => WireMarker(d, b, s)
    case Long(marker) => WireMarker(marker.claims.deliveryId, marker.claims.bindingId, marker.signature)
  }

  function WireExtract(long: Marker.LongForm): string -> Option<WireMarker> {
    text => var m := Marker.Extract(long, text); if m.Some? then Some(WireOf(m.value)) else None
  }

  /** What the projection keeps of a preview: the printed token of the marker it holds. */
  function TokenOf(long: Marker.LongForm, text: string): Option<string> {
    var m := Marker.Extract(long, text);
    if m.None? then None
    else
      Marker.ExtractedIsWellFormed(long, text);
      Some(Marker.MarkerText(long, m.value))
  }

  /** With this repository's own markers, minimizing an event for storage loses nothing: the stored event
      translates to the observation of the original frame. */
  lemma {:induction false} StoredEventKeepsItsMarker(
    long: Marker.LongForm, plant: Plant, p: Resident.Projector, f: Resident.Frame, bootId: string)
    requires Marker.LongOk(long) && plant.wiring.extract == WireExtract(long) && p.redact == (text => TokenOf(long, text))
    requires forall j, rest :: plant.parseJson(p.render(j, rest)) == Some(j)
    requires Resident.Project(p, f, bootId).Some? && !Blank(f.body.occurredAt)
    ensures Translate(plant, Resident.Project(p, f, bootId).value) == Some(Resident.DirectObservation(plant.wiring, p, f))
  {
    forall text: string
      ensures if p.redact(text).Some? then plant.wiring.extract(p.redact(text).value) == plant.wiring.extract(text)
              else plant.wiring.extract(text) == None
    {
      if Marker.Extract(long, text).Some? {
        Marker.ExtractAgain(long, text);
      }
    }
    Resident.ProjectionKeepsEvidence(plant, p, f, bootId);
  }

  /** What the injector types is what the producer observes: the prompt of a delivery carries exactly its
      delivery, binding and signature, however its preview was cut behind the token. */
  lemma {:induction false} TypedMarkerIsObserved(long: Marker.LongForm, m: DeliveryMarker, prefix: string, body: string, n: nat)
    requires Marker.EncodeShort(m).Some? && 'y' !in prefix
    requires |prefix| + |Marker.EncodeShort(m).value| <= n <= |Marker.Typed(prefix, Marker.EncodeShort(m).value, body)|
    ensures WireExtract(long)(Marker.Typed(prefix, Marker.EncodeShort(m).value, body)[..n])
         == Some(WireMarker(m.claims.deliveryId, m.claims.bindingId, m.signature))
  {
    Marker.PreviewRoundTrip(long, prefix, m, body, n);
  }

  // ---------------------------------------------------------------- one session receipt accepted

  function Accepting(db: Db, r: Receipt, d: Delivery, next: DeliveryState, disposition: Option<Disposition>): Db
    requires d.bindingId.Some?
  {
    db.(receipts := db.receipts + [RowFor(r, d, d.bindingId.value, disposition)],
        deliveries := db.deliveries[d.deliveryId := d.(state := next, disposition := disposition)],
        audit := db.audit + [AuditFor(r, d, next, disposition)])
  }

  /** The receipt is new: neither its id nor its source event was used. */
  ghost predicate Fresh(db: Db, r: Receipt) {
    && ReceiptRecord(db.receipts, r.receiptId).None?
    && r.sourceEventId.Some? && !SourceSeen(db.receipts, r.providerId, r.sourceEventId.value)
    && forall row | row in db.audit :: row.receiptId != r.receiptId
  }

  /** The receipt addresses this delivery, through a provider that may make such claims. */
  ghost predicate Addressed(db: Db, r: Receipt, d: Delivery) {
    && r.proofMethod != "" && r.observedAt != ""
    && r.deliveryId == d.deliveryId && d.deliveryId in db.deliveries && db.deliveries[d.deliveryId] == d
    && ValidateKeys(r, d).None? && d.bindingId.Some? && d.mode.SessionBound?
    && r.providerId in db.providers && db.providers[r.providerId].kind.SessionTransport?
    && (r.providerId, r.evidenceClass) in db.declared
  }

  lemma {:induction false} ReadsUpToProvider(a: MarkerAuthority, db: Db, r: Receipt, d: Delivery)
    requires Fresh(db, r) && Addressed(db, r, d)
    ensures Alone(Some(a), db, r, Begin) == Alone(Some(a), db, r, FindProvider(d))
  {
    Skip(Some(a), db, r, Begin);
    Skip(Some(a), db, r, FindReceipt);
    Skip(Some(a), db, r, FindDelivery);
  }

  lemma {:induction false} ReadsUpToTransition(a: MarkerAuthority, db: Db, r: Receipt, d: Delivery)
    requires Fresh(db, r) && Addressed(db, r, d) && IsSessionProofEvidence(r.evidenceClass)
    ensures Alone(Some(a), db, r, Begin) == Alone(Some(a), db, r, AfterPrecheck(Some(a), r, d, SessionTransport))
  {
    ReadsUpToProvider(a, db, r, d);
    Skip(Some(a), db, r, FindProvider(d));
    Skip(Some(a), db, r, CheckDeclared(d, SessionTransport));
  }

  lemma {:induction false} CommitSucceeds(db: Db, r: Receipt, d: Delivery, next: DeliveryState, disposition: Option<Disposition>)
    requires Fresh(db, r) && Addressed(db, r, d)
    ensures AcceptReceipt(db, r, d, next, disposition) == Accepted(Accepting(db, r, d, next, disposition))
  {}

  /** A fresh, addressed receipt whose session checks pass moves the delivery as its class allows. */
  lemma {:induction false} SessionReceiptAccepted(
    a: MarkerAuthority, db: Db, r: Receipt, d: Delivery, next: DeliveryState, disposition: Option<Disposition>)
    requires Fresh(db, r) && Addressed(db, r, d) && IsSessionProofEvidence(r.evidenceClass)
    requires Transition(r, d, SessionTransport) == Moves(next, disposition)
    requires SessionVerdict(Some(a), db, r, d) == None
    ensures Alone(Some(a), db, r, Begin) == (Accepting(db, r, d, next, disposition), AcceptedAs(next, disposition))
  {
    ReadsUpToTransition(a, db, r, d);
    SessionStepsAlone(Some(a), db, r, d, next, disposition);
    CommitAlone(Some(a), db, r, d, next, disposition);
    CommitSucceeds(db, r, d, next, disposition);
  }

  predicate Registers(registration: ProofMethodRegistration, c: EvidenceClass, source: string) {
    registration.sourceKind == EventBus && registration.sourceInstanceId == source && c in registration.evidenceClasses
  }

  /** The binding and the proof method stand behind a session's receipts. */
  ghost predicate Authorized(a: MarkerAuthority, db: Db, r: Receipt, d: Delivery, source: string) {
    && r.bindingId.Some? && r.bindingId.value in db.bindings && r.proof.Some?
    && BindingError(a, db.bindings[r.bindingId.value], r, r.proof.value, d).None?
    && (r.bindingId.value, r.proofMethod) in db.methods
    && Registers(db.methods[(r.bindingId.value, r.proofMethod)], r.evidenceClass, source)
  }

  lemma {:induction false} SessionChecksPass(a: MarkerAuthority, db: Db, r: Receipt, d: Delivery, source: string)
    requires Fresh(db, r) && Authorized(a, db, r, d, source) && NamesLastEvent(r, r.proof.value)
    requires SessionProofSound(a, r.proof.value, d, r.evidenceClass, source, r.observedAt)
    requires r.evidenceClass.HarnessTurnCompleted? ==>
               SessionEntryChain(db.receipts, d.deliveryId) == Some(CoreTypes.Front(r.proof.value.sourceEvents))
    ensures SessionVerdict(Some(a), db, r, d) == None
  {
    AcceptedProofIsSound(a, r.proof.value, d, r.evidenceClass, db.methods[(r.bindingId.value, r.proofMethod)], r.observedAt);
  }

  // ---------------------------------------------------------------- a whole turn

  /** The core as a turn needs it: the delivery's binding active for the session, the method registered,
      the provider declared, and the marker minted for it. */
  ghost predicate CoreReady(
    a: MarkerAuthority, w: Wiring, db: Db, d: Delivery, marker: DeliveryMarker, session: string, source: string)
  {
    && d.deliveryId in db.deliveries && db.deliveries[d.deliveryId] == d
    && d.mode.SessionBound? && d.bindingId.Some? && d.bindingId.value in db.bindings
    && w.providerId in db.providers && db.providers[w.providerId].kind.SessionTransport?
    && (w.providerId, HarnessPromptAccepted) in db.declared && (w.providerId, HarnessTurnCompleted) in db.declared
    && (var b := db.bindings[d.bindingId.value];
        b.state.Active? && b.providerId == w.providerId && b.recipientId == d.recipientId && b.sessionId == session)
    && (d.bindingId.value, PROOF_METHOD) in db.methods
    && Registers(db.methods[(d.bindingId.value, PROOF_METHOD)], HarnessPromptAccepted, source)
    && Registers(db.methods[(d.bindingId.value, PROOF_METHOD)], HarnessTurnCompleted, source)
    && Mint(a, d, marker.claims.issuedAt, marker.claims.expiresAt) == Some(marker)
  }

  /** A moment inside the binding's window and inside the marker's. */
  ghost predicate InBothWindows(a: MarkerAuthority, db: Db, d: Delivery, marker: DeliveryMarker, observedAt: string) {
    && d.bindingId.Some? && d.bindingId.value in db.bindings
    && observedAt != "" && ObservedWithin(a, marker, observedAt)
    && var b := db.bindings[d.bindingId.value];
       && a.parse(b.establishedAt).Some? && a.parse(b.expiresAt).Some?
       && a.parse(b.establishedAt).value <= a.parse(observedAt).value < a.parse(b.expiresAt).value
  }

  /** The four events of a turn, in stream order. */
  function TurnEvents(t: TurnShape): seq<SourceEventRef> {
    [t.input.event, t.prompt.event, t.hook.event, t.stop.event]
  }

  /** The stream side of a turn: one boot of the registered source, in order, and the prompt says what the
      delivery's marker says. */
  ghost predicate TurnInOrder(t: TurnShape, d: Delivery, marker: DeliveryMarker, source: string) {
    && ChainSound(TurnEvents(t), COMPLETED_CHAIN, source)
    && t.prompt.event.bindingId == d.bindingId && t.prompt.event.markerSignature == Some(marker.signature)
  }

  /** The delivery that the producer's lookup holds names what the core's does. */
  predicate SameKeys(held: Delivery, d: Delivery) {
    held.eventId == d.eventId && held.deliveryId == d.deliveryId && held.attemptId == d.attemptId && held.bindingId == d.bindingId
  }

  lemma {:induction false} EntryProofSound(
    a: MarkerAuthority, d: Delivery, t: TurnShape, marker: DeliveryMarker, session: string, source: string)
    requires Mint(a, d, marker.claims.issuedAt, marker.claims.expiresAt) == Some(marker)
    requires TurnInOrder(t, d, marker, source) && t.hook.event.sessionId == Some(session)
    requires ObservedWithin(a, marker, t.hook.observedAt)
    ensures SessionProofSound(a, SessionProof(session, marker, [t.input.event, t.prompt.event, t.hook.event], None), d,
                              HarnessPromptAccepted, source, t.hook.observedAt)
  {
    var chain, all := [t.input.event, t.prompt.event, t.hook.event], TurnEvents(t);
    assert forall i | 0 <= i < 3 :: chain[i] == all[i];
    assert ChainSound(chain, PROMPT_CHAIN, source);
  }

  lemma {:induction false} CompletionProofSound(
    a: MarkerAuthority, d: Delivery, t: TurnShape, marker: DeliveryMarker, session: string, source: string)
    requires Mint(a, d, marker.claims.issuedAt, marker.claims.expiresAt) == Some(marker)
    requires TurnInOrder(t, d, marker, source) && t.hook.event.sessionId == Some(session) && t.stop.event.sessionId == Some(session)
    requires ObservedWithin(a, marker, t.stop.observedAt)
    ensures SessionProofSound(a, SessionProof(session, marker, [t.input.event, t.prompt.event, t.hook.event] + [t.stop.event], None), d,
                              HarnessTurnCompleted, source, t.stop.observedAt)
  {
    assert [t.input.event, t.prompt.event, t.hook.event] + [t.stop.event] == TurnEvents(t);
  }

  lemma {:induction false} EntryAccepted(
    a: MarkerAuthority, w: Wiring, db: Db, d: Delivery, t: TurnShape, held: Delivery, marker: DeliveryMarker, session: string, source: string)
    requires CoreReady(a, w, db, d, marker, session, source) && d.state.TransportSubmitted?
    requires TurnInOrder(t, d, marker, source) && SameKeys(held, d)
    requires t.hook.event.sessionId == Some(session) && InBothWindows(a, db, d, marker, t.hook.observedAt)
    requires Fresh(db, EntryReceipt(w, t, (held, marker), session))
    ensures Alone(Some(a), db, EntryReceipt(w, t, (held, marker), session), Begin)
         == (Accepting(db, EntryReceipt(w, t, (held, marker), session), d, InSession, None), AcceptedAs(InSession, None))
  {
    var r := EntryReceipt(w, t, (held, marker), session);
    EntryProofSound(a, d, t, marker, session, source);
    assert TurnEvents(t)[2].sourceEventId != "";
    SessionChecksPass(a, db, r, d, source);
    SessionReceiptAccepted(a, db, r, d, InSession, None);
  }

  lemma {:induction false} CompletionAccepted(
    a: MarkerAuthority, w: Wiring, db: Db, d: Delivery, t: TurnShape, held: Delivery, marker: DeliveryMarker, session: string, source: string)
    requires CoreReady(a, w, db, d, marker, session, source) && d.state.InSession?
    requires TurnInOrder(t, d, marker, source) && SameKeys(held, d)
    requires t.hook.event.sessionId == Some(session) && t.stop.event.sessionId == Some(session)
    requires InBothWindows(a, db, d, marker, t.stop.observedAt)
    requires Fresh(db, CompletionReceipt(w, t, (held, marker), session))
    requires SessionEntryChain(db.receipts, d.deliveryId) == Some([t.input.event, t.prompt.event, t.hook.event])
    ensures Alone(Some(a), db, CompletionReceipt(w, t, (held, marker), session), Begin)
         == (Accepting(db, CompletionReceipt(w, t, (held, marker), session), d, Processed, Some(Completed)),
             AcceptedAs(Processed, Some(Completed)))
  {
    var r := CompletionReceipt(w, t, (held, marker), session);
    CompletionProofSound(a, d, t, marker, session, source);
    assert TurnEvents(t)[3].sourceEventId != "";
    assert CoreTypes.Front(r.proof.value.sourceEvents) == [t.input.event, t.prompt.event, t.hook.event];
    SessionChecksPass(a, db, r, d, source);
    SessionReceiptAccepted(a, db, r, d, Processed, Some(Completed));
  }

  /** Between the two receipts only the delivery and the two receipt tables have changed. */
  lemma {:induction false} StillReady(
    a: MarkerAuthority, w: Wiring, db: Db, d: Delivery, r: Receipt, marker: DeliveryMarker, session: string, source: string)
    requires CoreReady(a, w, db, d, marker, session, source)
    ensures CoreReady(a, w, Accepting(db, r, d, InSession, None), d.(state := InSession, disposition := None), marker, session, source)
  {}

  lemma {:induction false} StillFresh(db: Db, entry: Receipt, r: Receipt, d: Delivery)
    requires d.bindingId.Some? && Fresh(db, r) && entry.receiptId != r.receiptId && entry.sourceEventId != r.sourceEventId
    ensures Fresh(Accepting(db, entry, d, InSession, None), r)
  {
    var rows := db.receipts + [RowFor(entry, d, d.bindingId.value, None)];
    assert forall row | row in rows :: row.receiptId != r.receiptId;
  }

  lemma {:induction false} ReceiptsDiffer(
    w: Wiring, t: TurnShape, held: Delivery, marker: DeliveryMarker, session: string, d: Delivery, source: string)
    requires TurnInOrder(t, d, marker, source)
    ensures var entry, completion := EntryReceipt(w, t, (held, marker), session), CompletionReceipt(w, t, (held, marker), session);
            entry.receiptId != completion.receiptId && entry.sourceEventId != completion.sourceEventId
  {
    assert TurnEvents(t)[2].sourceEventId != TurnEvents(t)[3].sourceEventId;
    ReceiptIdsDiffer(t.hook.event.sourceEventId, t.stop.event.sourceEventId);
  }

  /** The completion is accepted on the tables that the entry left. */
  lemma {:induction false} CompletionFollows(
    a: MarkerAuthority, w: Wiring, t: TurnShape, session: string, source: string, db: Db, d: Delivery, held: Delivery, marker: DeliveryMarker)
    returns (processed: Db)
    requires SameKeys(held, d) && TurnInOrder(t, d, marker, source)
    requires t.hook.event.sessionId == Some(session) && t.stop.event.sessionId == Some(session)
    requires CoreReady(a, w, db, d, marker, session, source) && InBothWindows(a, db, d, marker, t.stop.observedAt)
    requires Fresh(db, CompletionReceipt(w, t, (held, marker), session))
    ensures Alone(Some(a), Accepting(db, EntryReceipt(w, t, (held, marker), session), d, InSession, None),
                  CompletionReceipt(w, t, (held, marker), session), Begin)
         == (processed, AcceptedAs(Processed, Some(Completed)))
    ensures processed.deliveries == db.deliveries[d.deliveryId := d.(state := Processed, disposition := Some(Completed))]
  {
    var entry, completion := EntryReceipt(w, t, (held, marker), session), CompletionReceipt(w, t, (held, marker), session);
    var inSession, d1 := Accepting(db, entry, d, InSession, None), d.(state := InSession, disposition := None);
    StillReady(a, w, db, d, entry, marker, session, source);
    ReceiptsDiffer(w, t, held, marker, session, d, source);
    StillFresh(db, entry, completion, d);
    CompletionAccepted(a, w, inSession, d1, t, held, marker, session, source);
    processed := Accepting(inSession, completion, d1, Processed, Some(Completed));
  }

  /** The two receipts of such a turn, submitted in order, take the delivery to processed. */
  lemma {:induction false} BothAccepted(
    a: MarkerAuthority, w: Wiring, t: TurnShape, session: string, source: string, db: Db, d: Delivery, held: Delivery, marker: DeliveryMarker)
    returns (inSession: Db, processed: Db)
    requires SameKeys(held, d) && TurnInOrder(t, d, marker, source)
    requires t.hook.event.sessionId == Some(session) && t.stop.event.sessionId == Some(session)
    requires CoreReady(a, w, db, d, marker, session, source) && d.state.TransportSubmitted?
    requires InBothWindows(a, db, d, marker, t.hook.observedAt) && InBothWindows(a, db, d, marker, t.stop.observedAt)
    requires Fresh(db, EntryReceipt(w, t, (held, marker), session)) && Fresh(db, CompletionReceipt(w, t, (held, marker), session))
    ensures Alone(Some(a), db, EntryReceipt(w, t, (held, marker), session), Begin) == (inSession, AcceptedAs(InSession, None))
    ensures Alone(Some(a), inSession, CompletionReceipt(w, t, (held, marker), session), Begin)
         == (processed, AcceptedAs(Processed, Some(Completed)))
    ensures processed.deliveries == db.deliveries[d.deliveryId := d.(state := Processed, disposition := Some(Completed))]
  {
    EntryAccepted(a, w, db, d, t, held, marker, session, source);
    inSession := Accepting(db, EntryReceipt(w, t, (held, marker), session), d, InSession, None);
    processed := CompletionFollows(a, w, t, session, source, db, d, held, marker);
  }

  /** A well-formed turn whose prompt carries the authoritative marker takes a submitted delivery to
      processed: the stream emits two receipts, the first is accepted as in-session, the second as
      completed. */
  lemma {:induction false} TurnIsProcessed(
    a: MarkerAuthority, w: Wiring, m: Memory, t: TurnShape, key: string, session: string, source: string,
    db: Db, d: Delivery, held: Delivery, marker: DeliveryMarker) returns (inSession: Db, processed: Db)
    requires IsTurn(w, t, key, WireMarker(d.deliveryId, marker.claims.bindingId, marker.signature), session)
    requires w.lookup(d.deliveryId) == Some((held, marker)) && SameKeys(held, d) && !Blank(d.bindingId)
    requires TurnInOrder(t, d, marker, source)
    requires CoreReady(a, w, db, d, marker, session, source) && d.state.TransportSubmitted?
    requires InBothWindows(a, db, d, marker, t.hook.observedAt) && InBothWindows(a, db, d, marker, t.stop.observedAt)
    requires Fresh(db, EntryReceipt(w, t, (held, marker), session)) && Fresh(db, CompletionReceipt(w, t, (held, marker), session))
    ensures var sent := Receipts(w, m, t.Stream());
            && |sent| == 2
            && Alone(Some(a), db, sent[0], Begin) == (inSession, AcceptedAs(InSession, None))
            && Alone(Some(a), inSession, sent[1], Begin) == (processed, AcceptedAs(Processed, Some(Completed)))
    ensures processed.deliveries == db.deliveries[d.deliveryId := d.(state := Processed, disposition := Some(Completed))]
  {
    TurnEmitsTwo(w, m, t, key, WireMarker(d.deliveryId, marker.claims.bindingId, marker.signature), session, (held, marker));
    inSession, processed := BothAccepted(a, w, t, session, source, db, d, held, marker);
  }

  // ---------------------------------------------------------------- a forged signature

  /** The prompt of the receipt's chain shows another signature than the receipt's own marker. */
  predicate Forged(r: Receipt) {
    && IsSessionProofEvidence(r.evidenceClass) && r.proof.Some?
    && |r.proof.value.sourceEvents| > 1
    && r.proof.value.sourceEvents[1].markerSignature != Some(r.proof.value.marker.signature)
  }

  /** The stages a submission passes before its chain is validated, and those of a refusal. */
  predicate BeforeTheChain(stage: Stage) {
    && !stage.Commit? && !stage.FindEntryChain? && !stage.CheckSessionSource? && !stage.CheckAckMessage?
    && !stage.CheckParticipantSource? && !stage.CheckPrincipal? && !stage.CheckMessage?
  }

  lemma {:induction false} ForgedChainIsRejected(a: MarkerAuthority, r: Receipt, d: Delivery, registration: ProofMethodRegistration)
    requires Forged(r)
    ensures ValidateSessionProof(a, r.proof.value, d, r.evidenceClass, registration, r.observedAt).Some?
  {
    AcceptedProofIsSound(a, r.proof.value, d, r.evidenceClass, registration, r.observedAt);
  }

  lemma {:induction false} ForgedMethodStage(
    a: MarkerAuthority, db: Db, r: Receipt, d: Delivery, next: DeliveryState, disposition: Option<Disposition>)
    requires Forged(r)
    ensures MethodStage(a, db, r, r.proof.value, d, next, disposition).Refuse?
  {
    var key := (if r.bindingId.Some? then r.bindingId.value else "", r.proofMethod);
    if key in db.methods {
      ForgedChainIsRejected(a, r, d, db.methods[key]);
    }
  }

  lemma {:induction false} ForgedDeclaredStage(authority: Option<MarkerAuthority>, r: Receipt, d: Delivery, kind: ProviderKind)
    requires Forged(r)
    ensures BeforeTheChain(AfterDeclared(authority, r, d, kind))
  {
    assert !Transition(r, d, kind).NeedsMessageBinding?;
  }

  lemma {:induction false} ForgedRead(authority: Option<MarkerAuthority>, db: Db, r: Receipt, stage: Stage)
    requires Forged(r) && BeforeTheChain(stage) && !Writes(stage)
    ensures BeforeTheChain(NextStage(authority, db, r, stage))
  {
    match stage
    case FindMethod(d, next, disposition) =>
      if authority.Some? {
        ForgedMethodStage(authority.value, db, r, d, next, disposition);
      }
    case CheckDeclared(d, kind) => ForgedDeclaredStage(authority, r, d, kind);
    case _ =>
  }

  lemma {:induction false} ForgedStaysOut(authority: Option<MarkerAuthority>, db: Db, r: Receipt, stage: Stage)
    requires Forged(r) && BeforeTheChain(stage)
    ensures var step := Advance(authority, db, r, stage);
            && BeforeTheChain(step.1)
            && step.0.deliveries == db.deliveries && step.0.receipts == db.receipts && step.0.audit == db.audit
  {
    match stage
    case DegradeProvider =>
      assert Advance(authority, db, r, stage) == (MarkProviderDegraded(db, r.providerId), Refuse(ReceiptIdContradiction));
    case Refuse(reason) =>
      assert Advance(authority, db, r, stage) == (RecordRejection(db, r, reason), Finished(Rejected(reason)));
    case _ =>
      if !Writes(stage) {
        ForgedRead(authority, db, r, stage);
      }
  }

  /** From any tables whatever, submitting a forged receipt moves no delivery and adds no receipt. */
  lemma {:induction false} ForgedChangesNothing(authority: Option<MarkerAuthority>, db: Db, r: Receipt, stage: Stage)
    requires Forged(r) && BeforeTheChain(stage)
    ensures var after := Alone(authority, db, r, stage).0;
            after.deliveries == db.deliveries && after.receipts == db.receipts && after.audit == db.audit
    decreases Remaining(stage)
  {
    if !stage.Finished? {
      var step := Advance(authority, db, r, stage);
      ForgedStaysOut(authority, db, r, stage);
      if !Writes(stage) {
        ReadDescends(authority, db, r, stage);
      }
      ForgedChangesNothing(authority, step.0, r, step.1);
    }
  }

  /** A turn whose prompt shows a signature that is not the authoritative one still emits its two receipts,
      and neither, submitted to any tables, changes a delivery. */
  lemma {:induction false} ForgedTurnMovesNothing(
    w: Wiring, m: Memory, t: TurnShape, key: string, wire: WireMarker, session: string, context: (Delivery, DeliveryMarker),
    authority: Option<MarkerAuthority>, db: Db)
    requires IsTurn(w, t, key, wire, session) && w.lookup(wire.deliveryId) == Some(context) && !Blank(context.0.bindingId)
    requires wire.signature != context.1.signature
    ensures forall r | r in Receipts(w, m, t.Stream()) :: Alone(authority, db, r, Begin).0.deliveries == db.deliveries
  {
    TurnEmitsTwo(w, m, t, key, wire, session, context);
    forall r | r in Receipts(w, m, t.Stream()) ensures Alone(authority, db, r, Begin).0.deliveries == db.deliveries {
      assert Forged(r);
      ForgedChangesNothing(authority, db, r, Begin);
    }
  }
}
