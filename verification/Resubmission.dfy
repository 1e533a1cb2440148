/** What an accepted receipt leaves on file, and what a second submission under its id is answered. */
module Resubmission {
  import opened CoreTypes
  import opened Tables
  import opened Reducer
  import opened Submissions
  import opened Machine
  import opened StoreTheorems
  import opened Reachable

  /** The two rows that an acceptance adds. */
  lemma {:induction false} AcceptedWrites(db: Db, r: Receipt, d: Delivery, next: DeliveryState, disposition: Option<Disposition>)
    requires AcceptReceipt(db, r, d, next, disposition).Accepted?
    ensures var after := AcceptReceipt(db, r, d, next, disposition).db;
            && d.bindingId.Some?
            && after.receipts == db.receipts + [ReceiptRow(
                 r.receiptId, r.providerId, r.sourceEventId, d.eventId, d.deliveryId, d.attemptId, d.bindingId.value,
                 r.evidenceClass, r.proofMethod, r.observedAt, disposition, r.platformPrincipalId, r.platformMessageId,
                 r.authoredByProvider, r.infrastructureEvent,
                 match r.proof case None => None case Some(p) => Some(p.sessionId),
                 match r.proof case None => None case Some(p) => Some(p.marker.signature),
                 match r.proof case None => [] case Some(p) => p.sourceEvents,
                 match r.proof case None => None case Some(p) => p.turnId)]
            && after.audit == db.audit + [AuditRow(
                 r.receiptId, d.deliveryId, d.state, next, disposition, d.mode, d.mode == SessionBound, r.evidenceClass, r.proofMethod)]
  {}

  /** Two receipts claim the same: they agree on every member but the marker's claims, and on the
      disposition, which a reply and a completion may leave out. */
  predicate SameClaim(q: Receipt, r: Receipt) {
    && q.providerId == r.providerId && q.sourceEventId == r.sourceEventId
    && q.eventId == r.eventId && q.deliveryId == r.deliveryId && q.attemptId == r.attemptId && q.bindingId == r.bindingId
    && q.evidenceClass == r.evidenceClass && q.proofMethod == r.proofMethod && q.observedAt == r.observedAt
    && q.platformPrincipalId == r.platformPrincipalId && q.platformMessageId == r.platformMessageId
    && q.authoredByProvider == r.authoredByProvider && q.infrastructureEvent == r.infrastructureEvent
    && (q.disposition == r.disposition
        || (q.evidenceClass == ParticipantReplyAuthored && {q.disposition, r.disposition} == {None, Some(Answered)})
        || (q.evidenceClass == HarnessTurnCompleted && {q.disposition, r.disposition} == {None, Some(Completed)}))
    && (q.proof.Some? <==> r.proof.Some?)
    && (q.proof.Some? && r.proof.Some? ==>
          && q.proof.value.sessionId == r.proof.value.sessionId && q.proof.value.marker.signature == r.proof.value.marker.signature
          && q.proof.value.sourceEvents == r.proof.value.sourceEvents && q.proof.value.turnId == r.proof.value.turnId)
  }

  lemma SameClaimExactly(row: ReceiptRow, q: Receipt, r: Receipt)
    requires SameReceipt(row, q)
    ensures SameReceipt(row, r) <==> SameClaim(q, r)
  {
    if q.evidenceClass == r.evidenceClass {
      DispositionsAgree(q, r);
    }
  }

  lemma DispositionsAgree(q: Receipt, r: Receipt)
    requires q.evidenceClass == r.evidenceClass
    ensures CanonicalDisposition(q) == CanonicalDisposition(r)
       <==> || q.disposition == r.disposition
            || (q.evidenceClass == ParticipantReplyAuthored && {q.disposition, r.disposition} == {None, Some(Answered)})
            || (q.evidenceClass == HarnessTurnCompleted && {q.disposition, r.disposition} == {None, Some(Completed)})
  {
    assert {q.disposition, r.disposition} == {None, Some(Answered)} ==>
             q.disposition in {None, Some(Answered)} && r.disposition in {None, Some(Answered)};
    assert {q.disposition, r.disposition} == {None, Some(Completed)} ==>
             q.disposition in {None, Some(Completed)} && r.disposition in {None, Some(Completed)};
  }

  /** The answer to a receipt whose id is on file for the claim of another. */
  ghost predicate AnsweredAgain(db: Db, q: Receipt, r: Receipt, after: Db, answer: ReceiptResult) {
    if SameClaim(q, r) then
      r.deliveryId in db.deliveries && after == db
      && answer == Duplicate(Some(db.deliveries[r.deliveryId].state), db.deliveries[r.deliveryId].disposition)
    else
      && answer == Rejected(ReceiptIdContradiction)
      && after == db.(providers := after.providers, rejections := after.rejections)
      && (r.providerId in db.providers ==>
            after.providers == db.providers[r.providerId := db.providers[r.providerId].(health := Degraded)])
  }

  lemma {:induction false} FiledThenAnswered(w: World, db: Db, queued: set<string>, q: Receipt, r: Receipt)
    requires DbInv(w, db, queued) && OnFile(db, q) && r.receiptId == q.receiptId && Audited(r)
    ensures AnsweredAgain(db, q, r, Alone(w.authority, db, r, Begin).0, Alone(w.authority, db, r, Begin).1)
  {
    var row :| row in db.receipts && row.receiptId == q.receiptId && SameReceipt(row, q);
    SameClaimExactly(row, q, r);
    if SameClaim(q, r) {
      OnFileIsDuplicate(w, db, queued, r);
    } else {
      RecordFinds(db.receipts, row);
      KnownIdAlone(w.authority, db, r, row);
      DegradeAlone(w.authority, db, r);
    }
  }

  /** Once a receipt was accepted, then after any further run another one under its id is a duplicate exactly
      when it makes the same claim, and nothing changes; otherwise it is refused as a contradiction, and its
      provider, if there is one, is marked degraded. */
  lemma {:induction false} ResubmittedExactly(
    w: World, actions: seq<Action>, more: seq<Action>, pid: nat, q: Receipt, result: ReceiptResult, r: Receipt)
    requires pid in After(w, actions).workers && After(w, actions).workers[pid] == Submitting(q, Finished(result)) && result.AcceptedAs?
    requires r.receiptId == q.receiptId && r.proofMethod != "" && r.observedAt != ""
    ensures var db := Run(w, After(w, actions), more).db;
            AnsweredAgain(db, q, r, Alone(w.authority, db, r, Begin).0, Alone(w.authority, db, r, Begin).1)
  {
    var s := After(w, actions);
    AfterInv(w, actions);
    RunKeepsInv(w, s, more);
    var s' := Run(w, s, more);
    assert WorkerOk(w, s.db, s.queued, s.workers[pid]);
    FileStays(s.db, s'.db, q);
    FiledThenAnswered(w, s'.db, s'.queued, q, r);
  }
}
