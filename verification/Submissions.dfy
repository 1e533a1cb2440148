/** What a submission in flight may rely on, however its statements interleave with other writers. */
module Submissions {
  import opened CoreTypes
  import opened Proofs
  import opened Tables
  import opened Reducer
  import opened Ledgers

  /** The receipt names its proof method and observation time. */
  predicate Audited(r: Receipt) {
    r.proofMethod != "" && r.observedAt != ""
  }

  predicate KeysOk(r: Receipt, d: Delivery) {
    Audited(r) && r.deliveryId == d.deliveryId && ValidateKeys(r, d).None?
  }

  /** The receipt's claim has been accepted. */
  ghost predicate OnFile(db: Db, r: Receipt) {
    exists row :: row in db.receipts && row.receiptId == r.receiptId && SameReceipt(row, r)
  }

  /** The step a submission means to take, with the disposition its receipt claims. */
  predicate Moved(r: Receipt, d: Delivery, next: DeliveryState, disposition: Option<Disposition>) {
    EdgeOk(r.evidenceClass, d.mode, d.state, next, disposition) && disposition == CanonicalDisposition(r)
  }

  ghost predicate ProofFits(authority: Option<MarkerAuthority>, r: Receipt, d: Delivery) {
    && authority.Some? && r.proof.Some? && r.proof.value.sourceEvents != []
    && SessionProofSound(authority.value, r.proof.value, d, r.evidenceClass, r.proof.value.sourceEvents[0].sourceInstanceId, r.observedAt)
  }

  /** A completion extends the entry chain that is still on file. */
  ghost predicate Closes(db: Db, queued: set<string>, r: Receipt, d: Delivery) {
    r.evidenceClass.HarnessTurnCompleted? && d.deliveryId in queued ==>
      r.proof.Some? && SessionEntryChain(db.receipts, d.deliveryId) == Some(Front(r.proof.value.sourceEvents))
  }

  ghost predicate SessionReady(authority: Option<MarkerAuthority>, db: Db, queued: set<string>, r: Receipt, d: Delivery) {
    && ProofFits(authority, r, d) && Closes(db, queued, r, d) && NamesLastEvent(r, r.proof.value)
  }

  /** What holds at each stage about the values the submission read earlier. */
  ghost predicate StageOk(authority: Option<MarkerAuthority>, db: Db, queued: set<string>, r: Receipt, stage: Stage) {
    match stage
    case FindReceipt => Audited(r)
    case FindDelivery => Audited(r)
    case FindProvider(d) => Known(db, d) && KeysOk(r, d)
    case CheckDeclared(d, _) => Known(db, d) && KeysOk(r, d)
    case CheckParticipantSource(d, _) => Known(db, d) && KeysOk(r, d) && ParticipantReady(r, d)
    case CheckPrincipal(d, _) => Known(db, d) && KeysOk(r, d) && ParticipantReady(r, d)
    case CheckMessage(d, _) => Known(db, d) && KeysOk(r, d) && ParticipantReady(r, d)
    case CheckAckMessage(d) => Known(db, d) && KeysOk(r, d) && Moved(r, d, TransportSubmitted, None) && r.evidenceClass.TransportSubmitAck?
    case FindBinding(d, next, disposition) =>
      Known(db, d) && KeysOk(r, d) && IsSessionProofEvidence(r.evidenceClass) && Moved(r, d, next, disposition)
    case FindMethod(d, next, disposition) =>
      Known(db, d) && KeysOk(r, d) && IsSessionProofEvidence(r.evidenceClass) && Moved(r, d, next, disposition)
    case FindEntryChain(d, next, disposition) =>
      Known(db, d) && KeysOk(r, d) && Moved(r, d, next, disposition) && r.evidenceClass.HarnessTurnCompleted? && ProofFits(authority, r, d)
    case CheckSessionSource(d, next, disposition) =>
      Known(db, d) && KeysOk(r, d) && Moved(r, d, next, disposition) && SessionReady(authority, db, queued, r, d)
    case Commit(d, next, disposition) =>
      && Known(db, d) && KeysOk(r, d) && Moved(r, d, next, disposition)
      && (IsSessionProofEvidence(r.evidenceClass) ==> SessionReady(authority, db, queued, r, d))
    case Finished(result) => result.AcceptedAs? ==> Audited(r) && OnFile(db, r)
    case _ => true
  }

  predicate ParticipantReady(r: Receipt, d: Delivery) {
    IsParticipantEvidence(r.evidenceClass) && d.mode.ChannelNative? && d.state.TransportSubmitted?
  }

  /** The delivery a stage has read, if any. */
  function ReadBy(stage: Stage): Option<Delivery> {
    match stage
    case FindProvider(d) => Some(d)
    case CheckDeclared(d, _) => Some(d)
    case CheckParticipantSource(d, _) => Some(d)
    case CheckPrincipal(d, _) => Some(d)
    case CheckMessage(d, _) => Some(d)
    case CheckAckMessage(d) => Some(d)
    case FindBinding(d, _, _) => Some(d)
    case FindMethod(d, _, _) => Some(d)
    case FindEntryChain(d, _, _) => Some(d)
    case CheckSessionSource(d, _, _) => Some(d)
    case Commit(d, _, _) => Some(d)
    case _ => None
  }

  // ---------------------------------------------------------------- reading steps

  lemma {:induction false} AfterPrecheckOk(authority: Option<MarkerAuthority>, db: Db, queued: set<string>, r: Receipt, d: Delivery, kind: ProviderKind)
    requires Known(db, d) && KeysOk(r, d)
    requires IsParticipantEvidence(r.evidenceClass) ==> ParticipantReady(r, d)
    requires d.mode.ChannelNative? ==> IsParticipantEvidence(r.evidenceClass) || r.evidenceClass.TransportSubmitAck?
    ensures StageOk(authority, db, queued, r, AfterPrecheck(authority, r, d, kind))
  {
    match Transition(r, d, kind)
    case Moves(next, disposition) => assert Moved(r, d, next, disposition);
    case _ =>
  }

  lemma {:induction false} AfterDeclaredOk(authority: Option<MarkerAuthority>, db: Db, queued: set<string>, r: Receipt, d: Delivery, kind: ProviderKind)
    requires Known(db, d) && KeysOk(r, d)
    ensures StageOk(authority, db, queued, r, AfterDeclared(authority, r, d, kind))
  {
    if !IsParticipantEvidence(r.evidenceClass) && !(d.mode.ChannelNative? && !r.evidenceClass.TransportSubmitAck?) {
      AfterPrecheckOk(authority, db, queued, r, d, kind);
    }
  }

  lemma {:induction false} MethodStageOk(
    a: MarkerAuthority, db: Db, queued: set<string>, r: Receipt, proof: SessionProof, d: Delivery,
    next: DeliveryState, disposition: Option<Disposition>)
    requires StageOk(Some(a), db, queued, r, FindMethod(d, next, disposition)) && r.proof == Some(proof)
    ensures StageOk(Some(a), db, queued, r, MethodStage(a, db, r, proof, d, next, disposition))
  {
    var key := (if r.bindingId.Some? then r.bindingId.value else "", r.proofMethod);
    if r.bindingId.Some? && key in db.methods {
      AcceptedProofIsSound(a, proof, d, r.evidenceClass, db.methods[key], r.observedAt);
      if ValidateSessionProof(a, proof, d, r.evidenceClass, db.methods[key], r.observedAt).None? {
        assert ProofFits(Some(a), r, d);
      }
    }
  }

  lemma {:induction false} EntryStageOk(
    authority: Option<MarkerAuthority>, db: Db, queued: set<string>, r: Receipt, d: Delivery,
    next: DeliveryState, disposition: Option<Disposition>)
    requires StageOk(authority, db, queued, r, FindEntryChain(d, next, disposition))
    ensures StageOk(authority, db, queued, r, NextStage(authority, db, r, FindEntryChain(d, next, disposition)))
  {
    var stage := NextStage(authority, db, r, FindEntryChain(d, next, disposition));
    if !stage.Refuse? {
      assert Closes(db, queued, r, d);
    }
  }

  lemma {:induction false} DeliveryReadOk(authority: Option<MarkerAuthority>, db: Db, queued: set<string>, r: Receipt)
    requires Audited(r) && forall id | id in db.deliveries :: db.deliveries[id].deliveryId == id
    ensures StageOk(authority, db, queued, r, NextStage(authority, db, r, FindDelivery))
  {}

  lemma {:induction false} ParticipantReadOk(authority: Option<MarkerAuthority>, db: Db, queued: set<string>, r: Receipt, d: Delivery, kind: ProviderKind)
    requires Known(db, d) && KeysOk(r, d) && ParticipantReady(r, d)
    ensures StageOk(authority, db, queued, r, NextStage(authority, db, r, CheckParticipantSource(d, kind)))
    ensures StageOk(authority, db, queued, r, NextStage(authority, db, r, CheckPrincipal(d, kind)))
  {}

  lemma {:induction false} MessageReadOk(authority: Option<MarkerAuthority>, db: Db, queued: set<string>, r: Receipt, d: Delivery, kind: ProviderKind)
    requires Known(db, d) && KeysOk(r, d) && ParticipantReady(r, d)
    ensures StageOk(authority, db, queued, r, NextStage(authority, db, r, CheckMessage(d, kind)))
  {
    AfterPrecheckOk(authority, db, queued, r, d, kind);
  }

  lemma {:induction false} EarlyReadOk(authority: Option<MarkerAuthority>, db: Db, queued: set<string>, r: Receipt, stage: Stage)
    requires !Writes(stage) && Remaining(stage) >= 13 && StageOk(authority, db, queued, r, stage)
    requires forall id | id in db.deliveries :: db.deliveries[id].deliveryId == id
    ensures StageOk(authority, db, queued, r, NextStage(authority, db, r, stage))
  {
    match stage
    case FindDelivery => DeliveryReadOk(authority, db, queued, r);
    case CheckDeclared(d, kind) => AfterDeclaredOk(authority, db, queued, r, d, kind);
    case CheckParticipantSource(d, kind) => ParticipantReadOk(authority, db, queued, r, d, kind);
    case CheckPrincipal(d, kind) => ParticipantReadOk(authority, db, queued, r, d, kind);
    case CheckMessage(d, kind) => MessageReadOk(authority, db, queued, r, d, kind);
    case _ =>
  }

  lemma {:induction false} MethodReadOk(
    authority: Option<MarkerAuthority>, db: Db, queued: set<string>, r: Receipt, d: Delivery, next: DeliveryState, disposition: Option<Disposition>)
    requires StageOk(authority, db, queued, r, FindMethod(d, next, disposition))
    ensures StageOk(authority, db, queued, r, NextStage(authority, db, r, FindMethod(d, next, disposition)))
  {
    if authority.Some? && r.proof.Some? {
      MethodStageOk(authority.value, db, queued, r, r.proof.value, d, next, disposition);
    }
  }

  lemma {:induction false} BindingReadOk(
    authority: Option<MarkerAuthority>, db: Db, queued: set<string>, r: Receipt, d: Delivery, next: DeliveryState, disposition: Option<Disposition>)
    requires StageOk(authority, db, queued, r, FindBinding(d, next, disposition))
    ensures StageOk(authority, db, queued, r, NextStage(authority, db, r, FindBinding(d, next, disposition)))
  {}

  lemma {:induction false} LateReadOk(authority: Option<MarkerAuthority>, db: Db, queued: set<string>, r: Receipt, stage: Stage)
    requires !Writes(stage) && 7 <= Remaining(stage) < 13 && StageOk(authority, db, queued, r, stage)
    ensures StageOk(authority, db, queued, r, NextStage(authority, db, r, stage))
  {
    match stage
    case FindBinding(d, next, disposition) => BindingReadOk(authority, db, queued, r, d, next, disposition);
    case FindMethod(d, next, disposition) => MethodReadOk(authority, db, queued, r, d, next, disposition);
    case FindEntryChain(d, next, disposition) => EntryStageOk(authority, db, queued, r, d, next, disposition);
    case _ =>
  }

  lemma {:induction false} LastReadOk(authority: Option<MarkerAuthority>, db: Db, queued: set<string>, r: Receipt, stage: Stage)
    requires !Writes(stage) && Remaining(stage) < 7 && StageOk(authority, db, queued, r, stage)
    ensures StageOk(authority, db, queued, r, NextStage(authority, db, r, stage))
  {}

  /** Every reading step passes the facts on. */
  lemma {:induction false} ReadKeepsStageOk(authority: Option<MarkerAuthority>, db: Db, queued: set<string>, r: Receipt, stage: Stage)
    requires !Writes(stage) && StageOk(authority, db, queued, r, stage)
    requires forall id | id in db.deliveries :: db.deliveries[id].deliveryId == id
    ensures StageOk(authority, db, queued, r, NextStage(authority, db, r, stage))
  {
    if Remaining(stage) >= 13 {
      EarlyReadOk(authority, db, queued, r, stage);
    } else if Remaining(stage) >= 7 {
      LateReadOk(authority, db, queued, r, stage);
    } else {
      LastReadOk(authority, db, queued, r, stage);
    }
  }

  // ---------------------------------------------------------------- other writers

  /** The facts survive whatever other writers do. */
  lemma {:induction false} StageOkStays(authority: Option<MarkerAuthority>, a: Db, b: Db, queued: set<string>, queued': set<string>, r: Receipt, stage: Stage)
    requires StageOk(authority, a, queued, r, stage)
    requires ReceiptsInv(authority, a, queued) && ReceiptsInv(authority, b, queued')
    requires DeliveriesEvolve(a, b) && RowsEvolve(a, b)
    requires queued <= queued' && forall id | id in queued' && id in a.deliveries :: id in queued
    ensures StageOk(authority, b, queued', r, stage)
  {
    var read := ReadBy(stage);
    if read.Some? {
      KnownStays(a, b, read.value);
    }
    if (stage.CheckSessionSource? || (stage.Commit? && IsSessionProofEvidence(r.evidenceClass))) {
      ClosesStays(authority, a, b, queued, queued', r, stage.d, stage.next, stage.disposition);
    }
  }

  lemma {:induction false} ClosesStays(
    authority: Option<MarkerAuthority>, a: Db, b: Db, queued: set<string>, queued': set<string>,
    r: Receipt, d: Delivery, next: DeliveryState, disposition: Option<Disposition>)
    requires Known(a, d) && Moved(r, d, next, disposition) && Closes(a, queued, r, d)
    requires ReceiptsInv(authority, a, queued) && ReceiptsInv(authority, b, queued')
    requires DeliveriesEvolve(a, b) && RowsEvolve(a, b)
    requires queued <= queued' && forall id | id in queued' && id in a.deliveries :: id in queued
    ensures Closes(b, queued', r, d)
  {
    if r.evidenceClass.HarnessTurnCompleted? && d.deliveryId in queued' {
      assert Later(d, a.deliveries[d.deliveryId]);
      EntryChainStays(authority, a, b, queued, queued', d.deliveryId);
    }
  }

  // ---------------------------------------------------------------- the commit

  lemma {:induction false} CommitFiles(db: Db, r: Receipt, d: Delivery, next: DeliveryState, disposition: Option<Disposition>)
    requires KeysOk(r, d) && Moved(r, d, next, disposition) && AcceptReceipt(db, r, d, next, disposition).Accepted?
    ensures OnFile(AcceptReceipt(db, r, d, next, disposition).db, r)
  {
    var row := RowFor(r, d, d.bindingId.value, disposition);
    var rows := db.receipts + [row];
    assert rows[|db.receipts|] == row && row in rows;
  }

  lemma {:induction false} CommittedRowOk(
    authority: Option<MarkerAuthority>, db: Db, queued: set<string>, r: Receipt, d: Delivery,
    next: DeliveryState, disposition: Option<Disposition>)
    requires StageOk(authority, db, queued, r, Commit(d, next, disposition)) && d.bindingId.Some?
    ensures RowOk(authority, RowFor(r, d, d.bindingId.value, disposition), AuditFor(r, d, next, disposition))
  {
    var row := RowFor(r, d, d.bindingId.value, disposition);
    if IsSessionProofEvidence(r.evidenceClass) {
      var proof := r.proof.value;
      assert SessionProof(row.sessionId.value, proof.marker, row.sourceEventChain, row.turnId) == proof;
      assert BackedBy(authority.value, row, proof.marker);
    }
  }

  /** One more step along the path. */
  lemma {:induction false} PathGrows(d: Delivery, ledger: seq<Entry>, row: ReceiptRow, a: AuditRow, next: DeliveryState, disposition: Option<Disposition>)
    requires OnPath(d, ledger)
    requires a.fromState == d.state && a.toState == next && a.disposition == disposition && a.mode == d.mode
    requires EdgeOk(a.evidenceClass, d.mode, d.state, next, disposition)
    ensures OnPath(d.(state := next, disposition := disposition), ledger + [Entry(row, a)])
  {
    var grown := ledger + [Entry(row, a)];
    forall j | 0 <= j < |grown|
      ensures grown[j].audit.fromState == Path(d.mode)[j] && grown[j].audit.toState == Path(d.mode)[j + 1]
    {
      if j < |ledger| {
        assert grown[j] == ledger[j];
      }
    }
  }

  /** What an accepted commit adds. */
  lemma {:induction false} CommitAdds(
    authority: Option<MarkerAuthority>, db: Db, queued: set<string>, r: Receipt, d: Delivery,
    next: DeliveryState, disposition: Option<Disposition>)
    requires StageOk(authority, db, queued, r, Commit(d, next, disposition))
    requires AcceptReceipt(db, r, d, next, disposition).Accepted?
    ensures d.bindingId.Some? && d.deliveryId in db.deliveries && db.deliveries[d.deliveryId].state == d.state
    ensures AcceptReceipt(db, r, d, next, disposition).db
         == db.(receipts := db.receipts + [RowFor(r, d, d.bindingId.value, disposition)],
                audit := db.audit + [AuditFor(r, d, next, disposition)],
                deliveries := db.deliveries[d.deliveryId := db.deliveries[d.deliveryId].(state := next, disposition := disposition)])
  {
    assert Later(d, db.deliveries[d.deliveryId]);
  }

  lemma RowsExtend(authority: Option<MarkerAuthority>, db: Db, after: Db, row: ReceiptRow, a: AuditRow)
    requires RowsOk(authority, db) && RowOk(authority, row, a)
    requires after.receipts == db.receipts + [row] && after.audit == db.audit + [a]
    ensures RowsOk(authority, after)
  {}

  lemma ReferencesExtend(db: Db, after: Db, row: ReceiptRow, a: AuditRow, id: string, next: DeliveryState, disposition: Option<Disposition>)
    requires ReferencesOk(db) && id in db.deliveries && row.deliveryId == id && row.providerId in db.providers
    requires RowFits(row, a, db.deliveries[id])
    requires after == db.(receipts := db.receipts + [row], audit := db.audit + [a],
                          deliveries := db.deliveries[id := db.deliveries[id].(state := next, disposition := disposition)])
    ensures ReferencesOk(after)
  {}

  /** An accepted commit keeps the tables in order. */
  lemma {:induction false} CommitKeepsRows(
    authority: Option<MarkerAuthority>, db: Db, queued: set<string>, r: Receipt, d: Delivery,
    next: DeliveryState, disposition: Option<Disposition>)
    requires StageOk(authority, db, queued, r, Commit(d, next, disposition))
    requires RowsOk(authority, db) && ReferencesOk(db)
    requires AcceptReceipt(db, r, d, next, disposition).Accepted?
    ensures var after := AcceptReceipt(db, r, d, next, disposition).db;
            RowsOk(authority, after) && ReferencesOk(after)
  {
    CommitAdds(authority, db, queued, r, d, next, disposition);
    CommittedRowOk(authority, db, queued, r, d, next, disposition);
    var row, a := RowFor(r, d, d.bindingId.value, disposition), AuditFor(r, d, next, disposition);
    RowsExtend(authority, db, AcceptReceipt(db, r, d, next, disposition).db, row, a);
    ReferencesExtend(db, AcceptReceipt(db, r, d, next, disposition).db, row, a, d.deliveryId, next, disposition);
  }

  lemma {:induction false} CommitKeepsUnique(db: Db, r: Receipt, d: Delivery, next: DeliveryState, disposition: Option<Disposition>)
    requires UniqueOk(db)
    requires AcceptReceipt(db, r, d, next, disposition).Accepted?
    ensures UniqueOk(AcceptReceipt(db, r, d, next, disposition).db)
  {
    var row := RowFor(r, d, d.bindingId.value, disposition);
    forall i | 0 <= i < |db.receipts|
      ensures db.receipts[i].receiptId != row.receiptId && !SameSource(db.receipts[i], row)
    {
      assert db.receipts[i] in db.receipts;
    }
  }

  lemma {:induction false} CommitKeepsPaths(
    authority: Option<MarkerAuthority>, db: Db, queued: set<string>, r: Receipt, d: Delivery,
    next: DeliveryState, disposition: Option<Disposition>)
    requires StageOk(authority, db, queued, r, Commit(d, next, disposition))
    requires ReceiptsInv(authority, db, queued)
    requires AcceptReceipt(db, r, d, next, disposition).Accepted?
    ensures PathsOk(AcceptReceipt(db, r, d, next, disposition).db, queued)
  {
    var after := AcceptReceipt(db, r, d, next, disposition).db;
    var row, a := RowFor(r, d, d.bindingId.value, disposition), AuditFor(r, d, next, disposition);
    forall id | id in queued
      ensures id in after.deliveries
           && OnPath(after.deliveries[id], LedgerOf(after.receipts, after.audit, id))
           && Closed(after.deliveries[id], LedgerOf(after.receipts, after.audit, id))
    {
      var ledger := LedgerOf(db.receipts, db.audit, id);
      LedgerAppend(db.receipts, db.audit, row, a, id);
      if id == d.deliveryId {
        assert Later(d, db.deliveries[id]);
        PathGrows(db.deliveries[id], ledger, row, a, next, disposition);
        ClosedGrows(authority, db, queued, r, d, next, disposition);
      } else {
        assert ledger + [] == ledger;
      }
    }
  }

  lemma {:induction false} ClosedGrows(
    authority: Option<MarkerAuthority>, db: Db, queued: set<string>, r: Receipt, d: Delivery,
    next: DeliveryState, disposition: Option<Disposition>)
    requires StageOk(authority, db, queued, r, Commit(d, next, disposition))
    requires ReceiptsInv(authority, db, queued) && d.deliveryId in queued
    requires d.bindingId.Some? && db.deliveries[d.deliveryId].state == d.state
    ensures Closed(d, LedgerOf(db.receipts, db.audit, d.deliveryId)
                      + [Entry(RowFor(r, d, d.bindingId.value, disposition), AuditFor(r, d, next, disposition))])
  {
    var ledger := LedgerOf(db.receipts, db.audit, d.deliveryId);
    assert Later(d, db.deliveries[d.deliveryId]);
    if d.mode.SessionBound? && |ledger| == 2 {
      assert d.state.InSession? && r.evidenceClass.HarnessTurnCompleted?;
      EntryChainOnPath(authority, db, queued, d.deliveryId);
    }
  }
}
