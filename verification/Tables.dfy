/** The store's tables as values, with every read and every transaction on them as a function. A
    transaction that the database refuses gives no new tables. */
module Tables {
  import opened CoreTypes
  import opened Proofs

  datatype Health = Healthy | Degraded
  datatype Provider = Provider(kind: ProviderKind, health: Health)
  datatype MessageBinding = MessageBinding(eventId: string, deliveryId: string, attemptId: string)

  datatype ReceiptRow = ReceiptRow(
    receiptId: string,
    providerId: string,
    sourceEventId: Option<string>,
    eventId: string,
    deliveryId: string,
    attemptId: string,
    bindingId: string,
    evidenceClass: EvidenceClass,
    proofMethod: string,
    observedAt: string,
    disposition: Option<Disposition>,
    platformPrincipalId: Option<string>,
    platformMessageId: Option<string>,
    authoredByProvider: bool,
    infrastructureEvent: bool,
    sessionId: Option<string>,
    markerSignature: Option<string>,
    sourceEventChain: seq<SourceEventRef>,
    turnId: Option<string>)

  datatype AuditRow = AuditRow(
    receiptId: string,
    deliveryId: string,
    fromState: DeliveryState,
    toState: DeliveryState,
    disposition: Option<Disposition>,
    mode: DeliveryMode,
    sessionEntryApplicable: bool,
    evidenceClass: EvidenceClass,
    proofMethod: string)

  datatype BindingRow = BindingRow(
    recipientId: string,
    providerId: string,
    adapterInstanceId: string,
    harness: string,
    sessionId: string,
    establishedAt: string,
    expiresAt: string,
    state: BindingState)

  datatype RejectionRow<R> = RejectionRow(
    receiptId: string, deliveryId: string, providerId: string, evidenceClass: EvidenceClass,
    proofMethod: string, observedAt: string, reason: R)

  datatype CanonicalEvent = CanonicalEvent(actorId: string, roomId: string, content: string, acceptedAt: string)
  datatype BroadcastRow = BroadcastRow(eventId: string, roomId: string, rosterSize: nat)
  datatype RecipientRow = RecipientRow(
    broadcastId: string, recipientId: string, ordinal: nat, bindingId: Option<string>, deliveryId: string)
  datatype BroadcastAudit = BroadcastAudit(eventId: string, rosterSize: nat)

  datatype Rejection =
    | AuditFieldsRequired
    | ReceiptIdContradiction
    | DeliveryNotFound
    | EventMismatch
    | AttemptMismatch
    | BindingMismatch
    | ProviderNotRegistered
    | EvidenceClassNotDeclared
    | EvidenceClassWrongDeliveryMode
    | ProviderKindNotCommsView
    | ProviderKindNotSessionTransport
    | InvalidTransition
    | SelfEchoOrInfrastructureEvent
    | SourceEventIdRequired
    | SourceEventReplayed
    | PrincipalMismatch
    | PlatformMessageBindingMismatch
    | DispositionNotAllowed
    | DispositionOverclaim
    | ReactionDispositionInvalid
    | UnsupportedEvidenceClass
    | SessionProofRequired
    | MarkerAuthorityUnavailable
    | BindingNotRegistered
    | BindingNotActive
    | ProviderNotAuthorizedForBinding
    | BindingDoesNotOwnRecipient
    | BindingTimestampInvalid
    | BindingExpiredOrNotYetActive
    | AuthoritativeSessionMismatch
    | ProofMethodNotRegisteredForBinding
    | ProofRejected(error: ProofError)
    | TurnEndDoesNotCloseAcceptedPrompt
    | ReceiptSourceEventMismatch
    | DeliveryStateChanged
    | StorageIntegrityError

  /** All tables. Sequences are kept in row order; a map's keys are the table's primary key. */
  datatype Db = Db(
    deliveries: map<string, Delivery>,
    providers: map<string, Provider>,
    declared: set<(string, EvidenceClass)>,
    principals: map<(string, string), string>,
    messages: map<(string, string), MessageBinding>,
    receipts: seq<ReceiptRow>,
    audit: seq<AuditRow>,
    rejections: seq<RejectionRow<Rejection>>,
    bindings: map<string, BindingRow>,
    methods: map<(string, string), ProofMethodRegistration>,
    rosters: map<string, seq<string>>,
    events: map<string, CanonicalEvent>,
    broadcasts: map<string, BroadcastRow>,
    recipients: seq<RecipientRow>,
    broadcastAudits: map<string, BroadcastAudit>)

  const EMPTY_DB := Db(map[], map[], {}, map[], map[], [], [], [], map[], map[], map[], map[], map[], [], map[])

  // ---------------------------------------------------------------- reads

  function ReceiptRecord(rows: seq<ReceiptRow>, receiptId: string): (r: Option<ReceiptRow>)
    ensures r.Some? ==> r.value in rows && r.value.receiptId == receiptId
    ensures r.None? ==> forall row | row in rows :: row.receiptId != receiptId
  {
    if rows == [] then None
    else if rows[0].receiptId == receiptId then Some(rows[0])
    else ReceiptRecord(rows[1..], receiptId)
  }

  predicate SourceSeen(rows: seq<ReceiptRow>, providerId: string, sourceEventId: string) {
    exists row | row in rows :: row.providerId == providerId && row.sourceEventId == Some(sourceEventId)
  }

  /** The chain of the delivery's most recent entry receipt. */
  function SessionEntryChain(rows: seq<ReceiptRow>, deliveryId: string): Option<seq<SourceEventRef>> {
    if rows == [] then None
    else
      var last := rows[|rows| - 1];
      if last.deliveryId == deliveryId && IsEntryEvidence(last.evidenceClass) then Some(last.sourceEventChain)
      else SessionEntryChain(rows[..|rows| - 1], deliveryId)
  }

  predicate PrincipalMatches(db: Db, providerId: string, principalId: string, recipientId: string) {
    (providerId, principalId) in db.principals && db.principals[(providerId, principalId)] == recipientId
  }

  predicate MessageMatches(db: Db, providerId: string, messageId: string, d: Delivery) {
    && (providerId, messageId) in db.messages
    && db.messages[(providerId, messageId)] == MessageBinding(d.eventId, d.deliveryId, d.attemptId)
  }

  // ---------------------------------------------------------------- deliveries and receipts

  /** `None` is the uniqueness error on the delivery id. */
  function AddDelivery(db: Db, d: Delivery): Option<Db> {
    if d.deliveryId in db.deliveries then None
    else Some(db.(deliveries := db.deliveries[d.deliveryId := d]))
  }

  /** `None` is the "delivery_not_queued" error. */
  function SetDispatching(db: Db, deliveryId: string): Option<Db> {
    if deliveryId in db.deliveries && db.deliveries[deliveryId].state.Queued? then
      Some(db.(deliveries := db.deliveries[deliveryId := db.deliveries[deliveryId].(state := Dispatching)]))
    else None
  }

  function RowFor(r: Receipt, d: Delivery, bindingId: string, disposition: Option<Disposition>): ReceiptRow {
    var proof := r.proof;
    ReceiptRow(
      r.receiptId, r.providerId, r.sourceEventId, d.eventId, d.deliveryId, d.attemptId, bindingId,
      r.evidenceClass, r.proofMethod, r.observedAt, disposition, r.platformPrincipalId, r.platformMessageId,
      r.authoredByProvider, r.infrastructureEvent,
      if proof.Some? then Some(proof.value.sessionId) else None,
      if proof.Some? then Some(proof.value.marker.signature) else None,
      if proof.Some? then proof.value.sourceEvents else [],
      if proof.Some? then proof.value.turnId else None)
  }

  function AuditFor(r: Receipt, d: Delivery, next: DeliveryState, disposition: Option<Disposition>): AuditRow {
    AuditRow(r.receiptId, d.deliveryId, d.state, next, disposition, d.mode, !d.mode.ChannelNative?,
             r.evidenceClass, r.proofMethod)
  }

  /** Inserting this row would break a primary key, the (provider, source event) uniqueness, or a
      foreign key. An absent source event never collides. */
  predicate ReceiptRowConflicts(db: Db, row: ReceiptRow) {
    || ReceiptRecord(db.receipts, row.receiptId).Some?
    || (row.sourceEventId.Some? && SourceSeen(db.receipts, row.providerId, row.sourceEventId.value))
    || row.providerId !in db.providers
    || row.deliveryId !in db.deliveries
  }

  datatype AcceptOutcome = Accepted(db: Db) | StateChanged | IntegrityError

  /** One transaction: insert the receipt, compare-and-swap the delivery, insert the audit row. */
  function AcceptReceipt(db: Db, r: Receipt, d: Delivery, next: DeliveryState, disposition: Option<Disposition>): AcceptOutcome {
    if d.bindingId.None? then IntegrityError
    else
      var row := RowFor(r, d, d.bindingId.value, disposition);
      if ReceiptRowConflicts(db, row) then IntegrityError
      else if db.deliveries[d.deliveryId].state != d.state then StateChanged
      else if exists a | a in db.audit :: a.receiptId == r.receiptId then IntegrityError
      else Accepted(db.(
                    receipts := db.receipts + [row],
                    deliveries := db.deliveries[d.deliveryId := db.deliveries[d.deliveryId].(state := next, disposition := disposition)],
                    audit := db.audit + [AuditFor(r, d, next, disposition)]))
  }

  function RecordRejection(db: Db, r: Receipt, reason: Rejection): Db {
    db.(rejections := db.rejections + [RejectionRow(
      r.receiptId, r.deliveryId, r.providerId, r.evidenceClass, r.proofMethod, r.observedAt, reason)])
  }

  function MarkProviderDegraded(db: Db, providerId: string): Db {
    if providerId in db.providers then
      db.(providers := db.providers[providerId := db.providers[providerId].(health := Degraded)])
    else db
  }

  // ---------------------------------------------------------------- providers and bindings

  predicate Distinct<T(==)>(xs: seq<T>) {
    forall i, j | 0 <= i < j < |xs| :: xs[i] != xs[j]
  }

  /** `None` is a uniqueness error, which rolls the whole registration back. */
  function RegisterProvider(db: Db, providerId: string, kind: ProviderKind, classes: seq<EvidenceClass>): Option<Db> {
    if providerId in db.providers || !Distinct(classes) || (exists c | c in classes :: (providerId, c) in db.declared) then None
    else Some(db.(
              providers := db.providers[providerId := Provider(kind, Healthy)],
              declared := db.declared + (set c | c in classes :: (providerId, c))))
  }

  function BindPrincipal(db: Db, providerId: string, principalId: string, recipientId: string): Option<Db> {
    if (providerId, principalId) in db.principals || providerId !in db.providers then None
    else Some(db.(principals := db.principals[(providerId, principalId) := recipientId]))
  }

  function BindMessage(db: Db, providerId: string, messageId: string, m: MessageBinding): Option<Db> {
    if (providerId, messageId) in db.messages || providerId !in db.providers || m.deliveryId !in db.deliveries then None
    else Some(db.(messages := db.messages[(providerId, messageId) := m]))
  }

  predicate MethodsValid(db: Db, b: SessionBinding) {
    && (forall m | m in b.proofMethods :: m.proofMethod != "" && m.sourceInstanceId != "" && m.evidenceClasses != {})
    && (forall m | m in b.proofMethods :: forall c | c in m.evidenceClasses :: (b.providerId, c) in db.declared)
    && (forall i, j | 0 <= i < j < |b.proofMethods| :: b.proofMethods[i].proofMethod != b.proofMethods[j].proofMethod)
  }

  /** Every check made before a binding is written; any failure raises. */
  predicate BindingValid(db: Db, parse: string -> Option<int>, b: SessionBinding) {
    && b.state.Active?
    && b.bindingId != "" && b.recipientId != "" && b.providerId != ""
    && b.adapterInstanceId != "" && b.harness != "" && b.sessionId != ""
    && parse(b.establishedAt).Some? && parse(b.expiresAt).Some?
    && parse(b.establishedAt).value < parse(b.expiresAt).value
    && b.providerId in db.providers && db.providers[b.providerId].kind.SessionTransport?
    && b.proofMethods != []
    && MethodsValid(db, b)
  }

  function BindingRowOf(b: SessionBinding): BindingRow {
    BindingRow(b.recipientId, b.providerId, b.adapterInstanceId, b.harness, b.sessionId, b.establishedAt, b.expiresAt, b.state)
  }

  predicate ActiveFor(db: Db, id: string, recipientId: string) {
    id in db.bindings && db.bindings[id].recipientId == recipientId && db.bindings[id].state.Active?
  }

  /** Primary key, one active binding per recipient, and the provider foreign key. */
  predicate BindingConflicts(db: Db, b: SessionBinding) {
    || b.bindingId in db.bindings
    || (b.state.Active? && exists id | id in db.bindings :: ActiveFor(db, id, b.recipientId))
    || b.providerId !in db.providers
  }

  /** The method rows in order; `None` when one repeats an existing key. */
  function InsertMethods(
    methods: map<(string, string), ProofMethodRegistration>, bindingId: string, ms: seq<ProofMethodRegistration>)
    : Option<map<(string, string), ProofMethodRegistration>>
    decreases |ms|
  {
    if ms == [] then Some(methods)
    else if (bindingId, ms[0].proofMethod) in methods then None
    else InsertMethods(methods[(bindingId, ms[0].proofMethod) := ms[0]], bindingId, ms[1..])
  }

  function InsertBinding(db: Db, b: SessionBinding): Option<Db> {
    if BindingConflicts(db, b) then None
    else
      var methods := InsertMethods(db.methods, b.bindingId, b.proofMethods);
      if methods.None? then None
      else Some(db.(bindings := db.bindings[b.bindingId := BindingRowOf(b)], methods := methods.value))
  }

  /** The read half of superseding: the old binding is active, owns the same recipient, and the
      replacement passes validation. */
  predicate SupersedeAllowed(db: Db, parse: string -> Option<int>, oldId: string, b: SessionBinding) {
    && oldId in db.bindings && db.bindings[oldId].state.Active?
    && db.bindings[oldId].recipientId == b.recipientId
    && BindingValid(db, parse, b)
  }

  /** The write half: an unconditional update of the old row, then the insert, as one transaction. */
  function SupersedeCommit(db: Db, oldId: string, b: SessionBinding): Option<Db> {
    var retired := if oldId in db.bindings then db.(bindings := db.bindings[oldId := db.bindings[oldId].(state := Superseded)]) else db;
    InsertBinding(retired, b)
  }

  /** `None` is the "binding_not_active" error. */
  function RevokeBinding(db: Db, id: string): Option<Db> {
    if id in db.bindings && db.bindings[id].state.Active? then
      Some(db.(bindings := db.bindings[id := db.bindings[id].(state := Revoked)]))
    else None
  }

  /** `None` is a rejected roster: an empty name, an empty roster, or a duplicate member. */
  function ReplaceRoster(db: Db, roomId: string, recipients: seq<string>): Option<Db> {
    if roomId == "" || recipients == [] || "" in recipients || !Distinct(recipients) then None
    else Some(db.(rosters := db.rosters[roomId := recipients]))
  }
}
