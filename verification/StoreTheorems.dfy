/** The store's promises, over every run of any number of interleaved processes. */
module StoreTheorems {
  import opened CoreTypes
  import opened Proofs
  import opened Tables
  import opened Reducer
  import opened Ledgers
  import opened Submissions
  import opened Broadcasts
  import opened Machine
  import opened Reachable
  import Sorting

  ghost function After(w: World, actions: seq<Action>): State {
    Run(w, INITIAL, actions)
  }

  lemma {:induction false} AfterInv(w: World, actions: seq<Action>)
    ensures Inv(w, After(w, actions))
  {
    InitialInv(w);
    RunKeepsInv(w, INITIAL, actions);
  }

  // ---------------------------------------------------------------- one evidenced step at a time

  /** A delivery added as queued has walked its mode's only path, one audited and evidenced step
      per receipt, exactly as far as its state; its disposition is set exactly at the end. */
  lemma {:induction false} AuditFollowsPath(w: World, actions: seq<Action>, id: string)
    requires id in After(w, actions).queued
    ensures var db := After(w, actions).db;
            && |db.receipts| == |db.audit| && id in db.deliveries
            && var d, ledger := db.deliveries[id], LedgerOf(db.receipts, db.audit, id);
               && |ledger| == Distance(d.mode, d.state)
               && (forall j | 0 <= j < |ledger| ::
                     && ledger[j].audit.fromState == Path(d.mode)[j] && ledger[j].audit.toState == Path(d.mode)[j + 1]
                     && ledger[j].audit.receiptId == ledger[j].receipt.receiptId
                     && EdgeOk(ledger[j].receipt.evidenceClass, d.mode, ledger[j].audit.fromState, ledger[j].audit.toState,
                               ledger[j].receipt.disposition))
               && (d.state != Queued ==> d.state == Path(d.mode)[|ledger|])
               && (d.disposition.Some? <==> d.state == Processed)
               && (d.state == Processed ==> d.disposition == ledger[|ledger| - 1].receipt.disposition)
  {
    AfterInv(w, actions);
    var db := After(w, actions).db;
    var ledger := LedgerOf(db.receipts, db.audit, id);
    forall j | 0 <= j < |ledger|
      ensures RowOk(w.authority, ledger[j].receipt, ledger[j].audit) && RowFits(ledger[j].receipt, ledger[j].audit, db.deliveries[id])
    {
      EntryEdge(w.authority, db, id, j);
    }
  }

  /** Receipts and audit rows correspond one to one, and neither a receipt id nor a provider's
      source event backs two of them. */
  lemma {:induction false} ReceiptsMatchAudit(w: World, actions: seq<Action>)
    ensures var db := After(w, actions).db;
            && |db.receipts| == |db.audit|
            && (forall i | 0 <= i < |db.receipts| ::
                  && db.audit[i].receiptId == db.receipts[i].receiptId && db.audit[i].deliveryId == db.receipts[i].deliveryId
                  && db.receipts[i].deliveryId in db.deliveries && db.receipts[i].providerId in db.providers)
            && (forall i, j | 0 <= i < j < |db.receipts| ::
                  && db.receipts[i].receiptId != db.receipts[j].receiptId
                  && !SameSource(db.receipts[i], db.receipts[j]))
  {
    AfterInv(w, actions);
    var db := After(w, actions).db;
    assert RowsOk(w.authority, db) && ReferencesOk(db) && UniqueOk(db);
    forall i | 0 <= i < |db.receipts| ensures RowOk(w.authority, db.receipts[i], db.audit[i]) {}
  }

  // ---------------------------------------------------------------- exact closure

  ghost predicate Injective(sign: MarkerClaims -> string) {
    forall x, y | sign(x) == sign(y) :: x == y
  }

  /** How a completion receipt relates to the entry receipt it closes. */
  ghost predicate ClosesExactly(a: MarkerAuthority, entry: ReceiptRow, completion: ReceiptRow) {
    && |entry.sourceEventChain| == 3 && |completion.sourceEventChain| == 4
    && completion.sourceEventChain[..3] == entry.sourceEventChain
    && var stop, hook := completion.sourceEventChain[3], entry.sourceEventChain[2];
    && stop.eventName == HookStop && stop.seqNo > hook.seqNo
    && stop.bootId == hook.bootId && stop.sourceInstanceId == hook.sourceInstanceId
    && stop.sessionId == hook.sessionId == entry.sessionId == completion.sessionId
    && entry.markerSignature == completion.markerSignature == entry.sourceEventChain[1].markerSignature
    && a.parse(entry.observedAt).Some? && a.parse(completion.observedAt).Some?
  }

  lemma {:induction false} BackedPairCloses(a: MarkerAuthority, entry: ReceiptRow, completion: ReceiptRow, m: DeliveryMarker, n: DeliveryMarker)
    requires IsEntryEvidence(entry.evidenceClass) && completion.evidenceClass.HarnessTurnCompleted?
    requires BackedBy(a, entry, m) && BackedBy(a, completion, n)
    requires Front(completion.sourceEventChain) == entry.sourceEventChain
    ensures ClosesExactly(a, entry, completion)
  {
    assert completion.sourceEventChain[..3] == entry.sourceEventChain;
    forall i | 0 <= i < 3 ensures completion.sourceEventChain[i] == entry.sourceEventChain[i] {
      assert completion.sourceEventChain[..3][i] == entry.sourceEventChain[i];
    }
    assert ExpectedNames(completion.evidenceClass)[3] == HookStop;
  }

  /** With signatures that never collide, both observations fall in the one marker's window. */
  lemma {:induction false} BackedPairInWindow(a: MarkerAuthority, entry: ReceiptRow, completion: ReceiptRow, m: DeliveryMarker, n: DeliveryMarker)
    requires BackedBy(a, entry, m) && BackedBy(a, completion, n) && Injective(a.sign)
    requires entry.markerSignature == completion.markerSignature
    ensures var x, y := a.parse(entry.observedAt).value, a.parse(completion.observedAt).value;
            -a.maxLifetime < x - y < a.maxLifetime
  {
    assert a.sign(m.claims) == a.sign(n.claims);
    assert m.claims == n.claims;
  }

  /** Every processed session-bound delivery has exactly one entry and one completion receipt. The
      completion's chain is the entry's and one later Stop of the same boot and session under the same
      marker; if signatures do not collide, the two observations lie less than a marker lifetime apart. */
  lemma {:induction false} ExactClosure(w: World, actions: seq<Action>, id: string) returns (authority: MarkerAuthority, entry: nat, completion: nat)
    requires id in After(w, actions).queued
    requires id in After(w, actions).db.deliveries
    requires After(w, actions).db.deliveries[id].mode.SessionBound? && After(w, actions).db.deliveries[id].state.Processed?
    ensures w.authority == Some(authority)
    ensures var rows := After(w, actions).db.receipts;
            && entry < completion < |rows|
            && (forall i | 0 <= i < |rows| :: rows[i].deliveryId == id && IsEntryEvidence(rows[i].evidenceClass) <==> i == entry)
            && (forall i | 0 <= i < |rows| :: rows[i].deliveryId == id && rows[i].evidenceClass.HarnessTurnCompleted? <==> i == completion)
            && ClosesExactly(authority, rows[entry], rows[completion])
            && (Injective(authority.sign) ==>
                  var x, y := authority.parse(rows[entry].observedAt).value, authority.parse(rows[completion].observedAt).value;
                  -authority.maxLifetime < x - y < authority.maxLifetime)
  {
    AfterInv(w, actions);
    var db := After(w, actions).db;
    var ledger := LedgerOf(db.receipts, db.audit, id);
    entry, completion := PairOnPath(w.authority, db, After(w, actions).queued, id);
    var e, c := db.receipts[entry], db.receipts[completion];
    authority := w.authority.value;
    var m: DeliveryMarker :| BackedBy(authority, e, m);
    var n: DeliveryMarker :| BackedBy(authority, c, n);
    BackedPairCloses(authority, e, c, m, n);
    if Injective(authority.sign) {
      BackedPairInWindow(authority, e, c, m, n);
    }
  }

  /** The rows of the two harness steps of a processed session-bound delivery. */
  lemma {:induction false} PairOnPath(authority: Option<MarkerAuthority>, db: Db, queued: set<string>, id: string) returns (entry: nat, completion: nat)
    requires ReceiptsInv(authority, db, queued) && id in queued
    requires db.deliveries[id].mode.SessionBound? && db.deliveries[id].state.Processed?
    ensures entry < completion < |db.receipts|
    ensures forall i | 0 <= i < |db.receipts| :: db.receipts[i].deliveryId == id && IsEntryEvidence(db.receipts[i].evidenceClass) <==> i == entry
    ensures forall i | 0 <= i < |db.receipts| :: db.receipts[i].deliveryId == id && db.receipts[i].evidenceClass.HarnessTurnCompleted? <==> i == completion
    ensures RowBacked(authority, db.receipts[entry]) && RowBacked(authority, db.receipts[completion])
    ensures Front(db.receipts[completion].sourceEventChain) == db.receipts[entry].sourceEventChain
  {
    var ledger := LedgerOf(db.receipts, db.audit, id);
    assert Closed(db.deliveries[id], ledger);
    entry := LedgerMember(db.receipts, db.audit, id, 1);
    completion := LedgerMember(db.receipts, db.audit, id, 2);
    assert RowOk(authority, db.receipts[entry], db.audit[entry]) && RowOk(authority, db.receipts[completion], db.audit[completion]);
    forall i | 0 <= i < |db.receipts| && db.receipts[i].deliveryId == id
      ensures IsEntryEvidence(db.receipts[i].evidenceClass) <==> i == entry
      ensures db.receipts[i].evidenceClass.HarnessTurnCompleted? <==> i == completion
    {
      OnlyThree(authority, db, queued, id, i, entry, completion);
    }
    LedgerOrder(db.receipts, db.audit, id, 1, 2, entry, completion);
  }

  lemma {:induction false} OnlyThree(authority: Option<MarkerAuthority>, db: Db, queued: set<string>, id: string, i: nat, entry: nat, completion: nat)
    requires ReceiptsInv(authority, db, queued) && id in queued
    requires db.deliveries[id].mode.SessionBound? && db.deliveries[id].state.Processed?
    requires i < |db.receipts| && db.receipts[i].deliveryId == id && entry < |db.receipts| && completion < |db.receipts|
    requires LedgerOf(db.receipts, db.audit, id)[1] == Entry(db.receipts[entry], db.audit[entry])
    requires LedgerOf(db.receipts, db.audit, id)[2] == Entry(db.receipts[completion], db.audit[completion])
    ensures IsEntryEvidence(db.receipts[i].evidenceClass) <==> i == entry
    ensures db.receipts[i].evidenceClass.HarnessTurnCompleted? <==> i == completion
  {
    var j := LedgerHas(db.receipts, db.audit, id, i);
    ClassByPlace(authority, db, queued, id, j);
    assert i != entry ==> db.receipts[i].receiptId != db.receipts[entry].receiptId;
    assert i != completion ==> db.receipts[i].receiptId != db.receipts[completion].receiptId;
    assert LedgerOf(db.receipts, db.audit, id)[j].receipt == db.receipts[i];
  }

  /** A processed session-bound delivery took its three steps in this order. */
  lemma {:induction false} ClassByPlace(authority: Option<MarkerAuthority>, db: Db, queued: set<string>, id: string, j: nat)
    requires ReceiptsInv(authority, db, queued) && id in queued
    requires db.deliveries[id].mode.SessionBound? && db.deliveries[id].state.Processed?
    requires j < |LedgerOf(db.receipts, db.audit, id)|
    ensures var c := LedgerOf(db.receipts, db.audit, id)[j].receipt.evidenceClass;
            j < 3 && (IsEntryEvidence(c) <==> j == 1) && (c.HarnessTurnCompleted? <==> j == 2)
  {
    EntryEdge(authority, db, id, j);
  }

  /** Entries keep row order; two positions with distinct receipt ids are told apart by it. */
  lemma {:induction false} LedgerOrder(receipts: seq<ReceiptRow>, audit: seq<AuditRow>, id: string, j: nat, k: nat, x: nat, y: nat)
    requires |receipts| == |audit| && j < k < |LedgerOf(receipts, audit, id)|
    requires x < |receipts| && LedgerOf(receipts, audit, id)[j] == Entry(receipts[x], audit[x])
    requires y < |receipts| && LedgerOf(receipts, audit, id)[k] == Entry(receipts[y], audit[y])
    requires forall p, q | 0 <= p < q < |receipts| :: receipts[p].receiptId != receipts[q].receiptId
    ensures x < y
  {
    var n := |receipts| - 1;
    var front := LedgerOf(receipts[..n], audit[..n], id);
    var i := LedgerMember(receipts, audit, id, j);
    assert i == x;
    if k == |front| {
      assert y == n;
      var i' := LedgerMember(receipts[..n], audit[..n], id, j);
      assert i' == x;
    } else {
      var k' := LedgerMember(receipts[..n], audit[..n], id, k);
      var j' := LedgerMember(receipts[..n], audit[..n], id, j);
      LedgerOrder(receipts[..n], audit[..n], id, j, k, x, y);
    }
  }

  // ---------------------------------------------------------------- idempotence

  lemma RecordFinds(rows: seq<ReceiptRow>, row: ReceiptRow)
    requires row in rows && forall i, j | 0 <= i < j < |rows| :: rows[i].receiptId != rows[j].receiptId
    ensures ReceiptRecord(rows, row.receiptId) == Some(row)
  {
    var found := ReceiptRecord(rows, row.receiptId);
    assert found.Some?;
    var i :| 0 <= i < |rows| && rows[i] == row;
    var j :| 0 <= j < |rows| && rows[j] == found.value;
  }

  /** A claim on file is answered "duplicate" without touching any table. */
  lemma {:induction false} OnFileIsDuplicate(w: World, db: Db, queued: set<string>, r: Receipt)
    requires DbInv(w, db, queued) && Audited(r) && OnFile(db, r)
    ensures r.deliveryId in db.deliveries
    ensures Alone(w.authority, db, r, Begin)
         == (db, Duplicate(Some(db.deliveries[r.deliveryId].state), db.deliveries[r.deliveryId].disposition))
  {
    var row :| row in db.receipts && row.receiptId == r.receiptId && SameReceipt(row, r);
    RecordFinds(db.receipts, row);
    var i :| 0 <= i < |db.receipts| && db.receipts[i] == row;
    KnownIdAlone(w.authority, db, r, row);
  }

  lemma FileStays(a: Db, b: Db, r: Receipt)
    requires OnFile(a, r) && RowsEvolve(a, b)
    ensures OnFile(b, r)
  {
    var row :| row in a.receipts && row.receiptId == r.receiptId && SameReceipt(row, r);
    assert row in b.receipts;
  }

  /** Once any process has seen its receipt accepted, then after any further run the same receipt is
      answered "duplicate" and changes nothing. */
  lemma {:induction false} AcceptedStaysDuplicate(w: World, actions: seq<Action>, more: seq<Action>, pid: nat, r: Receipt, result: ReceiptResult)
    requires pid in After(w, actions).workers && After(w, actions).workers[pid] == Submitting(r, Finished(result)) && result.AcceptedAs?
    ensures var db := Run(w, After(w, actions), more).db;
            && r.deliveryId in db.deliveries
            && Alone(w.authority, db, r, Begin) == (db, Duplicate(Some(db.deliveries[r.deliveryId].state), db.deliveries[r.deliveryId].disposition))
  {
    var s := After(w, actions);
    AfterInv(w, actions);
    RunKeepsInv(w, s, more);
    var s' := Run(w, s, more);
    assert WorkerOk(w, s.db, s.queued, s.workers[pid]);
    FileStays(s.db, s'.db, r);
    OnFileIsDuplicate(w, s'.db, s'.queued, r);
  }

  /** A step of any submission whose receipt id is already on file moves no delivery and adds no
      receipt and no audit row, whatever the submission read before. */
  lemma {:induction false} UsedIdNeverAdvances(w: World, actions: seq<Action>, pid: nat, r: Receipt, stage: Stage)
    requires pid in After(w, actions).workers && After(w, actions).workers[pid] == Submitting(r, stage)
    requires exists row :: row in After(w, actions).db.receipts && row.receiptId == r.receiptId
    ensures var db, after := After(w, actions).db, Step(w, After(w, actions), Proceed(pid)).db;
            after.deliveries == db.deliveries && after.receipts == db.receipts && after.audit == db.audit
  {
    var db := After(w, actions).db;
    assert ReceiptRecord(db.receipts, r.receiptId).Some?;
  }

  /** Reusing an accepted id for another claim is refused as a contradiction, marks the provider
      degraded, and leaves deliveries, receipts and audit as they were. */
  lemma {:induction false} ContradictionIsRefused(w: World, actions: seq<Action>, r: Receipt, row: ReceiptRow)
    requires row in After(w, actions).db.receipts && row.receiptId == r.receiptId && !SameReceipt(row, r) && Audited(r)
    ensures Alone(w.authority, After(w, actions).db, r, Begin)
         == (RecordRejection(MarkProviderDegraded(After(w, actions).db, r.providerId), r, ReceiptIdContradiction),
             Rejected(ReceiptIdContradiction))
  {
    AfterInv(w, actions);
    var db := After(w, actions).db;
    RecordFinds(db.receipts, row);
    KnownIdAlone(w.authority, db, r, row);
    DegradeAlone(w.authority, db, r);
  }

  // ---------------------------------------------------------------- bindings

  /** A recipient never has two active bindings, and every binding's session-transport provider
      declares all the evidence its proof methods may carry. */
  lemma {:induction false} BindingAuthority(w: World, actions: seq<Action>)
    ensures var db := After(w, actions).db;
            && (forall i, j, r | ActiveFor(db, i, r) && ActiveFor(db, j, r) :: i == j)
            && (forall id | id in db.bindings ::
                  db.bindings[id].providerId in db.providers && db.providers[db.bindings[id].providerId].kind.SessionTransport?)
            && (forall key, c | key in db.methods && c in db.methods[key].evidenceClasses ::
                  key.0 in db.bindings && (db.bindings[key.0].providerId, c) in db.declared)
  {
    AfterInv(w, actions);
  }

  /** A revoked or superseded binding never becomes active again, and its identity never changes. */
  lemma {:induction false} RetiredForever(w: World, actions: seq<Action>, more: seq<Action>, id: string)
    requires id in After(w, actions).db.bindings && !After(w, actions).db.bindings[id].state.Active?
    ensures var a, b := After(w, actions).db, Run(w, After(w, actions), more).db;
            id in b.bindings && !b.bindings[id].state.Active? && b.bindings[id].(state := a.bindings[id].state) == a.bindings[id]
  {
    AfterInv(w, actions);
    RunKeepsInv(w, After(w, actions), more);
  }

  // ---------------------------------------------------------------- broadcasts

  lemma {:induction false} JoinIsWhole(rows: seq<RecipientRow>, deliveries: map<string, Delivery>)
    requires forall row | row in rows :: row.deliveryId in deliveries
    ensures JoinDeliveries(rows, deliveries) == rows
  {
    if rows != [] {
      assert rows[0] in rows;
      JoinIsWhole(rows[1..], deliveries);
      assert [rows[0]] + rows[1..] == rows;
    }
  }

  lemma JoinedRowsAreRows(db: Db, queued: set<string>, b: string)
    requires b in db.broadcasts && SnapshotOk(db, queued, b)
    ensures JoinedRows(db, b) == RowsOf(db.recipients, b)
  {
    var rows := RowsOf(db.recipients, b);
    JoinIsWhole(rows, db.deliveries);
    Sorting.SortedIsFixed(rows, (x: RecipientRow, y: RecipientRow) => x.ordinal <= y.ordinal);
  }

  /** A snapshot is always readable, and lists its rows seat by seat. */
  lemma SnapshotReads(db: Db, queued: set<string>, b: string)
    requires b in db.broadcasts && SnapshotOk(db, queued, b)
    ensures ResultOf(db, b).Snapshot?
    ensures var outcomes, rows := ResultOf(db, b).result.outcomes, RowsOf(db.recipients, b);
            |outcomes| == |rows| > 0 && forall i | 0 <= i < |rows| ::
              rows[i].deliveryId in db.deliveries && outcomes[i] == OutcomeOf(db, rows[i])
  {
    JoinedRowsAreRows(db, queued, b);
    var rows := RowsOf(db.recipients, b);
    forall i | 0 <= i < |rows| ensures rows[i].deliveryId in db.deliveries && ResultOf(db, b).result.outcomes[i] == OutcomeOf(db, rows[i]) {
      assert SeatRowOk(db, queued, rows[i]);
    }
  }

  /** The outcomes are those of the given seats, all queued. */
  ghost predicate ReportsSeats(result: BroadcastResult, seats: seq<Seat>) {
    && |result.outcomes| == |seats| > 0 && !result.allDelivered
    && forall i | 0 <= i < |seats| ::
         && result.outcomes[i].recipientId == seats[i].recipientId && result.outcomes[i].bindingId == seats[i].bindingId
         && result.outcomes[i].deliveryId == seats[i].deliveryId && result.outcomes[i].state == Queued
  }

  lemma FreshReads(db: Db, queued: set<string>, own: string, eventId: string, seats: seq<Seat>)
    requires own in db.broadcasts && SnapshotOk(db, queued, own) && RowsOf(db.recipients, own) == SeatRows(own, seats, 0)
    requires forall i | 0 <= i < |seats| :: seats[i].deliveryId in db.deliveries
                                            && db.deliveries[seats[i].deliveryId] == DeliveryFor(eventId, seats[i])
    ensures ResultOf(db, own).Snapshot? && ReportsSeats(ResultOf(db, own).result, seats)
  {
    SnapshotReads(db, queued, own);
    var outcomes := ResultOf(db, own).result.outcomes;
    forall i | 0 <= i < |seats|
      ensures outcomes[i] == OutcomeOf(db, RecipientFor(own, seats[i], i)) && outcomes[i].state == Queued
    {
      assert RowsOf(db.recipients, own)[i] == RecipientFor(own, seats[i], i);
    }
    assert outcomes[0].state == Queued;
  }

  lemma {:induction false} ExpansionReads(w: World, db: Db, queued: set<string>, q: Request)
    requires DbInv(w, db, queued) && Expand(db, w.parse, q).Expanded?
    ensures ResultOf(Expand(db, w.parse, q).db, q.freshId(0)).Snapshot?
    ensures ReportsSeats(ResultOf(Expand(db, w.parse, q).db, q.freshId(0)).result, SeatsFor(db, w.parse, q))
    ensures forall s | s in SeatsFor(db, w.parse, q) :: s.deliveryId !in db.deliveries
  {
    var after, seats := Expand(db, w.parse, q).db, SeatsFor(db, w.parse, q);
    var queued' := queued + NewlyQueued(w, db, Announce(q));
    assert forall s | s in seats :: s.deliveryId in queued';
    ExpansionOwnSnapshot(w, db, queued, queued', q);
    ExpansionEffect(w, db, q);
    ExpansionRows(w, db, queued, q, q.freshId(0));
    FreshReads(after, queued', q.freshId(0), q.freshId(1), seats);
  }

  lemma {:induction false} ExpansionHeader(db: Db, parse: string -> Option<int>, q: Request)
    requires Expand(db, parse, q).Expanded? && ResultOf(Expand(db, parse, q).db, q.freshId(0)).Snapshot?
    ensures var result := ResultOf(Expand(db, parse, q).db, q.freshId(0)).result;
            result.eventId == q.freshId(1) && result.roomId == q.roomId && result.rosterSize == |result.outcomes|
  {}

  /** A successful broadcast reports the accepted roster without the actor, in order, each seat with
      its own queued delivery and the binding that was live at acceptance; nothing is delivered yet. */
  lemma {:induction false} BroadcastReportsRoster(w: World, actions: seq<Action>, q: Request)
    requires Expand(After(w, actions).db, w.parse, q).Expanded?
    ensures ResultOf(Step(w, After(w, actions), Announce(q)).db, q.freshId(0)).Snapshot?
    ensures var result := ResultOf(Step(w, After(w, actions), Announce(q)).db, q.freshId(0)).result;
            result.eventId == q.freshId(1) && result.roomId == q.roomId && !result.allDelivered && result.rosterSize == |result.outcomes|
    ensures var before, result := After(w, actions).db, ResultOf(Step(w, After(w, actions), Announce(q)).db, q.freshId(0)).result;
            var roster := Others(RosterOf(before, q.roomId), q.actorId);
            |result.outcomes| == |roster| && forall i | 0 <= i < |roster| ::
              && result.outcomes[i].recipientId == roster[i]
              && result.outcomes[i].bindingId == LiveBinding(before, w.parse, roster[i], q.acceptedAt)
              && result.outcomes[i].state == Queued
              && result.outcomes[i].deliveryId !in before.deliveries
  {
    var db := After(w, actions).db;
    AfterInv(w, actions);
    var after := Expand(db, w.parse, q).db;
    assert Step(w, After(w, actions), Announce(q)).db == after;
    ExpansionReads(w, db, After(w, actions).queued, q);
    ExpansionHeader(db, w.parse, q);
    SeatsAreRoster(db, w.parse, q, ResultOf(after, q.freshId(0)).result);
  }

  lemma {:induction false} SeatsAreRoster(db: Db, parse: string -> Option<int>, q: Request, result: BroadcastResult)
    requires ReportsSeats(result, SeatsFor(db, parse, q))
    requires forall s | s in SeatsFor(db, parse, q) :: s.deliveryId !in db.deliveries
    ensures var roster := Others(RosterOf(db, q.roomId), q.actorId);
            |result.outcomes| == |roster| && forall i | 0 <= i < |roster| ::
              && result.outcomes[i].recipientId == roster[i]
              && result.outcomes[i].bindingId == LiveBinding(db, parse, roster[i], q.acceptedAt)
              && result.outcomes[i].state == Queued
              && result.outcomes[i].deliveryId !in db.deliveries
  {
    var seats := SeatsFor(db, parse, q);
    assert forall i | 0 <= i < |seats| :: seats[i] in seats;
  }

  /** Whatever happens to rosters and bindings later, a broadcast stays readable, keeps the same seats
      in the same order, and once all delivered stays so. */
  lemma {:induction false} BroadcastIntegrity(w: World, actions: seq<Action>, more: seq<Action>, b: string)
    requires b in After(w, actions).db.broadcasts
    ensures var x, y := ResultOf(After(w, actions).db, b), ResultOf(Run(w, After(w, actions), more).db, b);
            && x.Snapshot? && y.Snapshot?
            && |x.result.outcomes| == |y.result.outcomes|
            && (forall i | 0 <= i < |x.result.outcomes| ::
                  && y.result.outcomes[i].recipientId == x.result.outcomes[i].recipientId
                  && y.result.outcomes[i].deliveryId == x.result.outcomes[i].deliveryId
                  && y.result.outcomes[i].bindingId == x.result.outcomes[i].bindingId
                  && Rank(x.result.outcomes[i].state) <= Rank(y.result.outcomes[i].state))
            && (x.result.allDelivered ==> y.result.allDelivered)
  {
    var s := After(w, actions);
    AfterInv(w, actions);
    RunKeepsInv(w, s, more);
    SnapshotsCompare(s.db, Run(w, s, more).db, s.queued, Run(w, s, more).queued, b);
  }

  lemma SnapshotsCompare(a: Db, b: Db, queued: set<string>, queued': set<string>, x: string)
    requires x in a.broadcasts && x in b.broadcasts && SnapshotOk(a, queued, x) && SnapshotOk(b, queued', x)
    requires DeliveriesEvolve(a, b) && RowsOf(a.recipients, x) == RowsOf(b.recipients, x)
    ensures ResultOf(a, x).Snapshot? && ResultOf(b, x).Snapshot?
    ensures var u, v := ResultOf(a, x).result, ResultOf(b, x).result;
            && |u.outcomes| == |v.outcomes|
            && (forall i | 0 <= i < |u.outcomes| ::
                  && v.outcomes[i].recipientId == u.outcomes[i].recipientId
                  && v.outcomes[i].deliveryId == u.outcomes[i].deliveryId
                  && v.outcomes[i].bindingId == u.outcomes[i].bindingId
                  && Rank(u.outcomes[i].state) <= Rank(v.outcomes[i].state))
            && (u.allDelivered ==> v.allDelivered)
  {
    SnapshotReads(a, queued, x);
    SnapshotReads(b, queued', x);
    var u, v := ResultOf(a, x).result, ResultOf(b, x).result;
    forall i | 0 <= i < |u.outcomes| ensures OutcomeMoves(u.outcomes[i], v.outcomes[i]) {
      OutcomeAges(a, b, RowsOf(a.recipients, x)[i]);
    }
    if u.allDelivered {
      forall i | 0 <= i < |v.outcomes| ensures Delivered(v.outcomes[i].state) {
        assert Delivered(u.outcomes[i].state) && OutcomeMoves(u.outcomes[i], v.outcomes[i]);
      }
    }
  }

  lemma OutcomeAges(a: Db, b: Db, row: RecipientRow)
    requires row.deliveryId in a.deliveries && row.deliveryId in b.deliveries && DeliveriesEvolve(a, b)
    ensures OutcomeMoves(OutcomeOf(a, row), OutcomeOf(b, row))
  {
    assert Later(a.deliveries[row.deliveryId], b.deliveries[row.deliveryId]);
  }

  /** The same seat, no earlier in its lifecycle. */
  predicate OutcomeMoves(u: BroadcastOutcome, v: BroadcastOutcome) {
    && v.recipientId == u.recipientId && v.deliveryId == u.deliveryId && v.bindingId == u.bindingId
    && Rank(u.state) <= Rank(v.state) && (Delivered(u.state) ==> Delivered(v.state))
  }

  /** A seat without a live binding at acceptance is never delivered, so its broadcast is never all
      delivered. */
  lemma {:induction false} UnboundSeatNeverDelivered(w: World, actions: seq<Action>, b: string, i: nat)
    requires b in After(w, actions).db.broadcasts
    ensures var x := ResultOf(After(w, actions).db, b);
            && x.Snapshot?
            && (i < |x.result.outcomes| && x.result.outcomes[i].bindingId.None? ==>
                  && (x.result.outcomes[i].state.Queued? || x.result.outcomes[i].state.Dispatching?)
                  && x.result.outcomes[i].unavailable == Some(BindingAbsent)
                  && !x.result.allDelivered)
  {
    var s := After(w, actions);
    AfterInv(w, actions);
    SnapshotReads(s.db, s.queued, b);
    var outcomes := ResultOf(s.db, b).result.outcomes;
    if i < |outcomes| && outcomes[i].bindingId.None? {
      var row := RowsOf(s.db.recipients, b)[i];
      assert SeatRowOk(s.db, s.queued, row);
      UnboundStays(w, s.db, s.queued, row.deliveryId);
      assert !Delivered(outcomes[i].state);
    }
  }

  lemma {:induction false} UnboundStays(w: World, db: Db, queued: set<string>, id: string)
    requires DbInv(w, db, queued) && id in queued && id in db.deliveries && db.deliveries[id].bindingId.None?
    ensures db.deliveries[id].state.Queued? || db.deliveries[id].state.Dispatching?
  {
    if Distance(db.deliveries[id].mode, db.deliveries[id].state) > 0 {
      EntryEdge(w.authority, db, id, 0);
    }
  }
}
