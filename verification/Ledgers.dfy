/** What the receipt, audit and delivery tables say about each other, and how they may change. */
module Ledgers {
  import opened CoreTypes
  import opened Proofs
  import opened Tables
  import opened Reducer

  /** A receipt and its audit row. */
  datatype Entry = Entry(receipt: ReceiptRow, audit: AuditRow)

  /** The entries of one delivery, in row order. */
  function LedgerOf(receipts: seq<ReceiptRow>, audit: seq<AuditRow>, id: string): seq<Entry>
    requires |receipts| == |audit|
  {
    if receipts == [] then []
    else
      var n := |receipts| - 1;
      LedgerOf(receipts[..n], audit[..n], id) + if receipts[n].deliveryId == id then [Entry(receipts[n], audit[n])] else []
  }

  lemma LedgerAppend(receipts: seq<ReceiptRow>, audit: seq<AuditRow>, row: ReceiptRow, a: AuditRow, id: string)
    requires |receipts| == |audit|
    ensures LedgerOf(receipts + [row], audit + [a], id)
         == LedgerOf(receipts, audit, id) + if row.deliveryId == id then [Entry(row, a)] else []
  {
    assert (receipts + [row])[..|receipts|] == receipts && (audit + [a])[..|receipts|] == audit;
  }

  /** Each entry is one position of the two tables. */
  lemma {:induction false} LedgerMember(receipts: seq<ReceiptRow>, audit: seq<AuditRow>, id: string, j: nat) returns (i: nat)
    requires |receipts| == |audit| && j < |LedgerOf(receipts, audit, id)|
    ensures i < |receipts| && receipts[i].deliveryId == id && LedgerOf(receipts, audit, id)[j] == Entry(receipts[i], audit[i])
  {
    var n := |receipts| - 1;
    var front := LedgerOf(receipts[..n], audit[..n], id);
    if j < |front| {
      i := LedgerMember(receipts[..n], audit[..n], id, j);
    } else {
      i := n;
    }
  }

  /** And each position of the delivery is an entry. */
  lemma {:induction false} LedgerHas(receipts: seq<ReceiptRow>, audit: seq<AuditRow>, id: string, i: nat) returns (j: nat)
    requires |receipts| == |audit| && i < |receipts| && receipts[i].deliveryId == id
    ensures j < |LedgerOf(receipts, audit, id)| && LedgerOf(receipts, audit, id)[j] == Entry(receipts[i], audit[i])
  {
    var n := |receipts| - 1;
    if i == n {
      j := |LedgerOf(receipts[..n], audit[..n], id)|;
    } else {
      j := LedgerHas(receipts[..n], audit[..n], id, i);
    }
  }

  lemma {:induction false} LedgerPrefix(receipts: seq<ReceiptRow>, audit: seq<AuditRow>, receipts': seq<ReceiptRow>, audit': seq<AuditRow>, id: string)
    requires |receipts| == |audit| && |receipts'| == |audit'| && receipts <= receipts' && audit <= audit'
    ensures LedgerOf(receipts, audit, id) <= LedgerOf(receipts', audit', id)
    decreases |receipts'|
  {
    if |receipts| == |receipts'| {
      assert receipts == receipts' && audit == audit';
    } else {
      var n := |receipts'| - 1;
      LedgerPrefix(receipts, audit, receipts'[..n], audit'[..n], id);
    }
  }

  function LastEntryChain(ledger: seq<Entry>): Option<seq<SourceEventRef>> {
    if ledger == [] then None
    else
      var last := ledger[|ledger| - 1].receipt;
      if IsEntryEvidence(last.evidenceClass) then Some(last.sourceEventChain) else LastEntryChain(ledger[..|ledger| - 1])
  }

  lemma {:induction false} EntryChainIsOfLedger(receipts: seq<ReceiptRow>, audit: seq<AuditRow>, id: string)
    requires |receipts| == |audit|
    ensures SessionEntryChain(receipts, id) == LastEntryChain(LedgerOf(receipts, audit, id))
  {
    if receipts != [] {
      var n := |receipts| - 1;
      var front := LedgerOf(receipts[..n], audit[..n], id);
      EntryChainIsOfLedger(receipts[..n], audit[..n], id);
      if receipts[n].deliveryId == id {
        assert LedgerOf(receipts, audit, id) == front + [Entry(receipts[n], audit[n])];
        assert LedgerOf(receipts, audit, id)[..|front|] == front;
      } else {
        assert LedgerOf(receipts, audit, id) == front + [] == front;
      }
    }
  }

  // ---------------------------------------------------------------- rows

  /** The steps each class of evidence may justify. */
  predicate EdgeOk(c: EvidenceClass, mode: DeliveryMode, from: DeliveryState, to: DeliveryState, disposition: Option<Disposition>) {
    match c
    case TransportSubmitAck => from.Dispatching? && to.TransportSubmitted? && disposition.None?
    case HarnessPromptAccepted | HarnessTurnStarted => mode.SessionBound? && from.TransportSubmitted? && to.InSession? && disposition.None?
    case HarnessTurnCompleted => mode.SessionBound? && from.InSession? && to.Processed? && disposition == Some(Completed)
    case ParticipantReplyAuthored => mode.ChannelNative? && from.TransportSubmitted? && to.Processed? && disposition == Some(Answered)
    case ParticipantReactionAuthored =>
      mode.ChannelNative? && from.TransportSubmitted? && to.Processed? && (disposition == Some(Acknowledged) || disposition == Some(Held))
    case _ => false
  }

  /** The delivery a row was accepted for, as far as a marker covers it. */
  function ClaimedBy(row: ReceiptRow): Delivery {
    Delivery(row.eventId, row.deliveryId, row.attemptId, Some(row.bindingId), "", SessionBound, Queued, None)
  }

  ghost predicate BackedBy(a: MarkerAuthority, row: ReceiptRow, m: DeliveryMarker) {
    && row.sessionId.Some? && row.sourceEventChain != []
    && row.markerSignature == Some(m.signature)
    && row.sourceEventId == Some(row.sourceEventChain[|row.sourceEventChain| - 1].sourceEventId)
    && SessionProofSound(a, SessionProof(row.sessionId.value, m, row.sourceEventChain, row.turnId), ClaimedBy(row),
                         row.evidenceClass, row.sourceEventChain[0].sourceInstanceId, row.observedAt)
  }

  /** Session evidence is on file only with a sound proof under an authoritative marker. */
  ghost predicate RowBacked(authority: Option<MarkerAuthority>, row: ReceiptRow) {
    IsSessionProofEvidence(row.evidenceClass) ==> authority.Some? && exists m :: BackedBy(authority.value, row, m)
  }

  ghost predicate RowOk(authority: Option<MarkerAuthority>, row: ReceiptRow, a: AuditRow) {
    && a.receiptId == row.receiptId && a.deliveryId == row.deliveryId
    && a.evidenceClass == row.evidenceClass && a.proofMethod == row.proofMethod
    && a.disposition == row.disposition
    && a.sessionEntryApplicable == a.mode.SessionBound?
    && EdgeOk(row.evidenceClass, a.mode, a.fromState, a.toState, a.disposition)
    && RowBacked(authority, row)
  }

  predicate RowFits(row: ReceiptRow, a: AuditRow, d: Delivery) {
    && row.deliveryId == d.deliveryId && row.eventId == d.eventId && row.attemptId == d.attemptId
    && Some(row.bindingId) == d.bindingId && a.mode == d.mode
  }

  predicate SameSource(x: ReceiptRow, y: ReceiptRow) {
    x.providerId == y.providerId && x.sourceEventId.Some? && x.sourceEventId == y.sourceEventId
  }

  /** Receipts and audit rows correspond one to one, each to a step its evidence justifies. */
  ghost predicate RowsOk(authority: Option<MarkerAuthority>, db: Db) {
    && |db.receipts| == |db.audit|
    && forall i | 0 <= i < |db.receipts| :: RowOk(authority, db.receipts[i], db.audit[i])
  }

  ghost predicate ReferencesOk(db: Db) {
    && |db.receipts| == |db.audit|
    && (forall i | 0 <= i < |db.receipts| ::
          db.receipts[i].deliveryId in db.deliveries && RowFits(db.receipts[i], db.audit[i], db.deliveries[db.receipts[i].deliveryId]))
    && (forall i | 0 <= i < |db.receipts| :: db.receipts[i].providerId in db.providers)
    && (forall id | id in db.deliveries :: db.deliveries[id].deliveryId == id)
  }

  ghost predicate UniqueOk(db: Db) {
    && (forall i, j | 0 <= i < j < |db.receipts| :: db.receipts[i].receiptId != db.receipts[j].receiptId)
    && (forall i, j | 0 <= i < j < |db.receipts| :: !SameSource(db.receipts[i], db.receipts[j]))
  }

  // ---------------------------------------------------------------- paths

  /** The only path a delivery of this mode takes from dispatching on. */
  function Path(mode: DeliveryMode): seq<DeliveryState> {
    if mode.SessionBound? then [Dispatching, TransportSubmitted, InSession, Processed]
    else [Dispatching, TransportSubmitted, Processed]
  }

  /** How many steps past dispatching a state is. */
  function Distance(mode: DeliveryMode, s: DeliveryState): nat {
    match s
    case Queued => 0
    case Dispatching => 0
    case TransportSubmitted => 1
    case InSession => 2
    case Processed => if mode.SessionBound? then 3 else 2
  }

  /** The audit rows of a delivery run along its path up to its present state. */
  predicate OnPath(d: Delivery, ledger: seq<Entry>) {
    && |ledger| == Distance(d.mode, d.state)
    && (d.state.InSession? ==> d.mode.SessionBound?)
    && (forall j | 0 <= j < |ledger| ::
          ledger[j].audit.fromState == Path(d.mode)[j] && ledger[j].audit.toState == Path(d.mode)[j + 1])
    && (d.disposition.Some? <==> d.state.Processed?)
    && (ledger != [] ==> d.disposition == ledger[|ledger| - 1].audit.disposition)
  }

  /** A completion's chain is the entry's chain and one more event. */
  predicate Closed(d: Delivery, ledger: seq<Entry>) {
    d.mode.SessionBound? && |ledger| == 3 ==> Front(ledger[2].receipt.sourceEventChain) == ledger[1].receipt.sourceEventChain
  }

  ghost predicate PathsOk(db: Db, queued: set<string>) {
    && |db.receipts| == |db.audit|
    && forall id | id in queued ::
         && id in db.deliveries
         && OnPath(db.deliveries[id], LedgerOf(db.receipts, db.audit, id))
         && Closed(db.deliveries[id], LedgerOf(db.receipts, db.audit, id))
  }

  /** Deliveries not added as queued may only ever meet their own rows' keys; the tables as a whole. */
  ghost predicate ReceiptsInv(authority: Option<MarkerAuthority>, db: Db, queued: set<string>) {
    RowsOk(authority, db) && ReferencesOk(db) && UniqueOk(db) && PathsOk(db, queued)
  }

  // ---------------------------------------------------------------- evolution

  function Rank(s: DeliveryState): nat {
    match s
    case Queued => 0
    case Dispatching => 1
    case TransportSubmitted => 2
    case InSession => 3
    case Processed => 4
  }

  predicate SameIdentity(d: Delivery, e: Delivery) {
    && d.deliveryId == e.deliveryId && d.eventId == e.eventId && d.attemptId == e.attemptId
    && d.bindingId == e.bindingId && d.recipientId == e.recipientId && d.mode == e.mode
  }

  /** `e` is `d`, or `d` further along. */
  predicate Later(d: Delivery, e: Delivery) {
    SameIdentity(d, e) && Rank(d.state) <= Rank(e.state) && (d.state == e.state ==> d == e)
  }

  ghost predicate DeliveriesEvolve(a: Db, b: Db) {
    forall id | id in a.deliveries :: id in b.deliveries && Later(a.deliveries[id], b.deliveries[id])
  }

  ghost predicate RowsEvolve(a: Db, b: Db) {
    a.receipts <= b.receipts && a.audit <= b.audit
  }

  ghost predicate ProvidersEvolve(a: Db, b: Db) {
    && (forall p | p in a.providers :: p in b.providers && b.providers[p].kind == a.providers[p].kind)
    && a.declared <= b.declared
  }

  /** Bindings are never removed, and one that is no longer active stays so. */
  ghost predicate BindingsEvolve(a: Db, b: Db) {
    forall id | id in a.bindings ::
      && id in b.bindings
      && b.bindings[id].(state := a.bindings[id].state) == a.bindings[id]
      && (!a.bindings[id].state.Active? ==> !b.bindings[id].state.Active?)
  }

  /** The delivery as read at some moment is an earlier version of the stored one. */
  predicate Known(db: Db, d: Delivery) {
    d.deliveryId in db.deliveries && Later(d, db.deliveries[d.deliveryId])
  }

  lemma KnownStays(a: Db, b: Db, d: Delivery)
    requires Known(a, d) && DeliveriesEvolve(a, b)
    ensures Known(b, d)
  {
    assert Later(a.deliveries[d.deliveryId], b.deliveries[d.deliveryId]);
  }

  /** While a delivery is past entry, the stored entry chain is that of its only entry receipt. */
  lemma {:induction false} EntryChainOnPath(authority: Option<MarkerAuthority>, db: Db, queued: set<string>, id: string)
    requires RowsOk(authority, db) && ReferencesOk(db) && PathsOk(db, queued) && id in queued
    requires db.deliveries[id].mode.SessionBound? && Rank(db.deliveries[id].state) >= 3
    ensures |LedgerOf(db.receipts, db.audit, id)| >= 2
    ensures SessionEntryChain(db.receipts, id) == Some(LedgerOf(db.receipts, db.audit, id)[1].receipt.sourceEventChain)
  {
    var ledger := LedgerOf(db.receipts, db.audit, id);
    EntryChainIsOfLedger(db.receipts, db.audit, id);
    EntryEdge(authority, db, id, 1);
    if |ledger| == 3 {
      EntryEdge(authority, db, id, 2);
      assert LastEntryChain(ledger) == LastEntryChain(ledger[..2]);
    } else {
      assert ledger[..2] == ledger;
    }
  }

  lemma {:induction false} EntryEdge(authority: Option<MarkerAuthority>, db: Db, id: string, j: nat)
    requires RowsOk(authority, db) && ReferencesOk(db) && j < |LedgerOf(db.receipts, db.audit, id)|
    ensures var e := LedgerOf(db.receipts, db.audit, id)[j];
            RowOk(authority, e.receipt, e.audit) && id in db.deliveries && RowFits(e.receipt, e.audit, db.deliveries[id])
  {
    var i := LedgerMember(db.receipts, db.audit, id, j);
  }

  lemma {:induction false} EntryChainStays(authority: Option<MarkerAuthority>, a: Db, b: Db, queued: set<string>, queued': set<string>, id: string)
    requires ReceiptsInv(authority, a, queued) && ReceiptsInv(authority, b, queued')
    requires DeliveriesEvolve(a, b) && RowsEvolve(a, b) && id in queued && id in queued'
    requires a.deliveries[id].mode.SessionBound? && Rank(a.deliveries[id].state) >= 3
    ensures SessionEntryChain(b.receipts, id) == SessionEntryChain(a.receipts, id)
  {
    assert Later(a.deliveries[id], b.deliveries[id]);
    EntryChainOnPath(authority, a, queued, id);
    EntryChainOnPath(authority, b, queued', id);
    LedgerPrefix(a.receipts, a.audit, b.receipts, b.audit, id);
  }
}
