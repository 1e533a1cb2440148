/** What a broadcast's answer says of the tables, seat by seat, and exactly when and how a room's roster is
    expanded. */
module Outcomes {
  import opened CoreTypes
  import opened Tables
  import opened Ledgers
  import opened Broadcasts
  import opened Machine
  import opened StoreTheorems

  // ---------------------------------------------------------------- results

  lemma {:induction false} RowsOfExactly(rows: seq<RecipientRow>, broadcastId: string)
    ensures forall row :: row in RowsOf(rows, broadcastId) <==> row in rows && row.broadcastId == broadcastId
  {
    if rows != [] {
      RowsOfExactly(rows[..|rows| - 1], broadcastId);
      assert rows == rows[..|rows| - 1] + [rows[|rows| - 1]];
    }
  }

  /** One outcome tells the stored state and disposition of the row's delivery; and the seat is unavailable
      only while the delivery still waits for it: absent without a binding, revoked or superseded when its
      binding is not active. */
  ghost predicate Tells(db: Db, row: RecipientRow, outcome: BroadcastOutcome) {
    && outcome.recipientId == row.recipientId && outcome.deliveryId == row.deliveryId && outcome.bindingId == row.bindingId
    && row.deliveryId in db.deliveries
    && outcome.state == db.deliveries[row.deliveryId].state && outcome.disposition == db.deliveries[row.deliveryId].disposition
    && var waits := outcome.state == Queued || outcome.state == Dispatching;
    && (outcome.unavailable == Some(BindingAbsent) <==> waits && row.bindingId == None)
    && (outcome.unavailable == Some(BindingRevokedOrSuperseded) <==>
          waits && row.bindingId.Some? && !(row.bindingId.value in db.bindings && db.bindings[row.bindingId.value].state == Active))
  }

  lemma OutcomeTells(db: Db, row: RecipientRow)
    requires row.deliveryId in db.deliveries
    ensures Tells(db, row, OutcomeOf(db, row))
  {}

  /** In every reachable state a broadcast answers with one outcome per recipient row, in seat order, each
      telling the tables; and it is all delivered exactly when every recipient row names a delivery that is
      transport-submitted, in session or processed. */
  lemma {:induction false} AllDeliveredExactly(w: World, actions: seq<Action>, b: string)
    requires b in After(w, actions).db.broadcasts
    ensures var db := After(w, actions).db;
            && ResultOf(db, b).Snapshot?
            && var result := ResultOf(db, b).result;
               && |result.outcomes| == |RowsOf(db.recipients, b)| == db.broadcasts[b].rosterSize
               && (forall i | 0 <= i < |result.outcomes| ::
                     RowsOf(db.recipients, b)[i].ordinal == i && Tells(db, RowsOf(db.recipients, b)[i], result.outcomes[i]))
               && (result.allDelivered <==>
                     forall row | row in db.recipients && row.broadcastId == b ::
                       && row.deliveryId in db.deliveries
                       && var s := db.deliveries[row.deliveryId].state;
                          s == TransportSubmitted || s == InSession || s == Processed)
  {
    var s := After(w, actions);
    AfterInv(w, actions);
    SnapshotReads(s.db, s.queued, b);
    RowsOfExactly(s.db.recipients, b);
    ResultTells(s.db, s.queued, b);
  }

  predicate IsDelivered(db: Db, row: RecipientRow) {
    && row.deliveryId in db.deliveries
    && var s := db.deliveries[row.deliveryId].state;
       s == TransportSubmitted || s == InSession || s == Processed
  }

  lemma ResultTells(db: Db, queued: set<string>, b: string)
    requires b in db.broadcasts && SnapshotOk(db, queued, b)
    ensures ResultOf(db, b).Snapshot?
    ensures var rows, result := RowsOf(db.recipients, b), ResultOf(db, b).result;
            && |result.outcomes| == |rows|
            && (forall i | 0 <= i < |rows| :: rows[i].ordinal == i && Tells(db, rows[i], result.outcomes[i]))
            && (result.allDelivered <==> forall row | row in rows :: IsDelivered(db, row))
  {
    SnapshotReads(db, queued, b);
    var rows, result := RowsOf(db.recipients, b), ResultOf(db, b).result;
    forall i | 0 <= i < |rows| ensures Tells(db, rows[i], result.outcomes[i]) {
      OutcomeTells(db, rows[i]);
    }
    AllDeliveredMeans(db, rows, result.outcomes);
  }

  lemma AllDeliveredMeans(db: Db, rows: seq<RecipientRow>, outcomes: seq<BroadcastOutcome>)
    requires |outcomes| == |rows| && forall i | 0 <= i < |rows| :: Tells(db, rows[i], outcomes[i])
    ensures (forall i | 0 <= i < |outcomes| :: Delivered(outcomes[i].state)) <==> (forall row | row in rows :: IsDelivered(db, row))
  {
    forall i | 0 <= i < |rows| ensures Delivered(outcomes[i].state) <==> IsDelivered(db, rows[i]) {
      assert Tells(db, rows[i], outcomes[i]);
    }
    if forall row | row in rows :: IsDelivered(db, row) {
      assert forall i | 0 <= i < |rows| :: rows[i] in rows;
    }
  }

  // ---------------------------------------------------------------- expansion

  /** The roster without the actor: the same members, as often. */
  lemma {:induction false} OthersExactly(roster: seq<string>, actorId: string)
    ensures multiset(Others(roster, actorId)) == multiset(roster)[actorId := 0]
  {
    if roster != [] {
      OthersExactly(roster[1..], actorId);
      assert roster == [roster[0]] + roster[1..];
    }
  }

  /** Two members in this order. */
  ghost predicate InOrder(roster: seq<string>, a: string, b: string) {
    exists p, q :: 0 <= p < q < |roster| && roster[p] == a && roster[q] == b
  }

  /** And in the same order. */
  lemma {:induction false} OthersOrder(roster: seq<string>, actorId: string, i: nat, j: nat)
    requires i < j < |Others(roster, actorId)|
    ensures InOrder(roster, Others(roster, actorId)[i], Others(roster, actorId)[j])
  {
    var others, rest := Others(roster, actorId), Others(roster[1..], actorId);
    if roster[0] == actorId {
      OthersOrder(roster[1..], actorId, i, j);
      LaterInOrder(roster, others[i], others[j]);
    } else if i == 0 {
      assert rest[j - 1] in roster[1..];
      var q :| 0 <= q < |roster| - 1 && roster[1..][q] == rest[j - 1];
      assert roster[0] == others[i] && roster[q + 1] == others[j];
    } else {
      OthersOrder(roster[1..], actorId, i - 1, j - 1);
      LaterInOrder(roster, others[i], others[j]);
    }
  }

  lemma LaterInOrder(roster: seq<string>, a: string, b: string)
    requires roster != [] && InOrder(roster[1..], a, b)
    ensures InOrder(roster, a, b)
  {
    var p, q :| 0 <= p < q < |roster| - 1 && roster[1..][p] == a && roster[1..][q] == b;
    assert roster[p + 1] == a && roster[q + 1] == b;
  }

  /** The i-th seat's row meets no other row's key. */
  predicate RowFree(rows: seq<RecipientRow>, broadcastId: string, recipientId: string, deliveryId: string, i: nat) {
    forall row | row in rows ::
      row.deliveryId != deliveryId && (row.broadcastId == broadcastId ==> row.recipientId != recipientId && row.ordinal != i)
  }

  predicate SeatFree(deliveries: map<string, Delivery>, rows: seq<RecipientRow>, broadcastId: string, seats: seq<Seat>, i: nat)
    requires i < |seats|
  {
    seats[i].deliveryId !in deliveries && RowFree(rows, broadcastId, seats[i].recipientId, seats[i].deliveryId, i)
  }

  predicate SeatsApart(seats: seq<Seat>) {
    forall i, j | 0 <= i < j < |seats| :: seats[i].recipientId != seats[j].recipientId && seats[i].deliveryId != seats[j].deliveryId
  }

  predicate SeatsFree(deliveries: map<string, Delivery>, rows: seq<RecipientRow>, broadcastId: string, seats: seq<Seat>, k: nat) {
    forall i | k <= i < |seats| :: SeatFree(deliveries, rows, broadcastId, seats, i)
  }

  lemma SeatFreeNext(
    deliveries: map<string, Delivery>, rows: seq<RecipientRow>, broadcastId: string, eventId: string, seats: seq<Seat>, k: nat, i: nat)
    requires k < i < |seats|
    ensures SeatFree(deliveries[seats[k].deliveryId := DeliveryFor(eventId, seats[k])],
                     rows + [RecipientFor(broadcastId, seats[k], k)], broadcastId, seats, i)
       <==> SeatFree(deliveries, rows, broadcastId, seats, i)
            && seats[i].deliveryId != seats[k].deliveryId && seats[i].recipientId != seats[k].recipientId
  {
    var row := RecipientFor(broadcastId, seats[k], k);
    assert row in rows + [row];
    assert forall r | r in rows :: r in rows + [row];
    assert forall r | r in rows + [row] :: r in rows || r == row;
  }

  /** The seats from the k-th on can all be inserted exactly when each is free and they are apart. */
  lemma {:induction false} InsertableExactly(
    deliveries: map<string, Delivery>, rows: seq<RecipientRow>, broadcastId: string, eventId: string, seats: seq<Seat>, k: nat)
    requires k <= |seats|
    ensures InsertSeats(deliveries, rows, broadcastId, eventId, seats, k).Some?
       <==> SeatsFree(deliveries, rows, broadcastId, seats, k) && SeatsApart(seats[k..])
    decreases |seats| - k
  {
    if k < |seats| {
      var row := RecipientFor(broadcastId, seats[k], k);
      var deliveries', rows' := deliveries[seats[k].deliveryId := DeliveryFor(eventId, seats[k])], rows + [row];
      InsertableExactly(deliveries', rows', broadcastId, eventId, seats, k + 1);
      forall i | k < i < |seats|
        ensures SeatFree(deliveries', rows', broadcastId, seats, i)
           <==> SeatFree(deliveries, rows, broadcastId, seats, i)
                && seats[i].deliveryId != seats[k].deliveryId && seats[i].recipientId != seats[k].recipientId
      {
        SeatFreeNext(deliveries, rows, broadcastId, eventId, seats, k, i);
      }
      FirstApart(seats[k..]);
      assert seats[k..][1..] == seats[k + 1..];
      assert forall i | k < i < |seats| :: seats[k..][i - k] == seats[i];
      assert SeatsFree(deliveries', rows', broadcastId, seats, k + 1) && SeatsApart(seats[k + 1..])
        <==> SeatsFree(deliveries, rows, broadcastId, seats, k + 1) && SeatsApart(seats[k..]);
      assert SeatFree(deliveries, rows, broadcastId, seats, k)
        <==> seats[k].deliveryId !in deliveries && !RecipientConflicts(rows, row);
    }
  }

  lemma FirstApart(seats: seq<Seat>)
    requires seats != []
    ensures SeatsApart(seats)
       <==> && SeatsApart(seats[1..])
            && forall i | 0 < i < |seats| :: seats[i].recipientId != seats[0].recipientId && seats[i].deliveryId != seats[0].deliveryId
  {
    assert forall i | 0 < i < |seats| :: seats[1..][i - 1] == seats[i];
    if SeatsApart(seats[1..]) {
      forall i, j | 0 < i < j < |seats| ensures seats[i].recipientId != seats[j].recipientId && seats[i].deliveryId != seats[j].deliveryId {
        assert seats[1..][i - 1] == seats[i] && seats[1..][j - 1] == seats[j];
      }
    }
  }
  /** One seat of a request can be written: its delivery id is unused, and so are its keys in the new
      broadcast. */
  ghost predicate SeatWritable(db: Db, q: Request, others: seq<string>, k: nat)
    requires k < |others|
  {
    && q.freshId(2 * k + 2) !in db.deliveries
    && forall row | row in db.recipients ::
         && row.deliveryId != q.freshId(2 * k + 2)
         && (row.broadcastId == q.freshId(0) ==> row.recipientId != others[k] && row.ordinal != k)
  }

  ghost predicate TwoWritable(q: Request, others: seq<string>, i: nat, j: nat)
    requires i < |others| && j < |others|
  {
    others[i] != others[j] && q.freshId(2 * i + 2) != q.freshId(2 * j + 2)
  }

  /** A request is expanded exactly when it is complete, somebody else is on the roster, and every id the
      factory gives is unused. */
  lemma {:induction false} ExpandedExactly(db: Db, parse: string -> Option<int>, q: Request, others: seq<string>)
    requires others == Others(if q.roomId in db.rosters then db.rosters[q.roomId] else [], q.actorId)
    ensures Expand(db, parse, q).Expanded?
       <==> && q.actorId != "" && q.roomId != "" && q.content != "" && parse(q.acceptedAt).Some?
            && others != []
            && q.freshId(0) !in db.broadcasts && q.freshId(0) !in db.broadcastAudits
            && q.freshId(1) !in db.events && (forall b | b in db.broadcasts :: db.broadcasts[b].eventId != q.freshId(1))
            && (forall k | 0 <= k < |others| :: SeatWritable(db, q, others, k))
            && (forall i, j | 0 <= i < j < |others| :: TwoWritable(q, others, i, j))
  {
    var seats := SeatsFor(db, parse, q);
    InsertableExactly(db.deliveries, db.recipients, q.freshId(0), q.freshId(1), seats, 0);
    assert seats[0..] == seats;
    SeatsWritable(db, parse, q);
    assert |seats| == |others|;
    if SeatsApart(seats) {
      assert DeliveryIdsDistinct(seats);
    }
  }

  lemma {:induction false} SeatsWritable(db: Db, parse: string -> Option<int>, q: Request)
    ensures var others, seats := Others(RosterOf(db, q.roomId), q.actorId), SeatsFor(db, parse, q);
            && (SeatsFree(db.deliveries, db.recipients, q.freshId(0), seats, 0)
                <==> forall k | 0 <= k < |others| :: SeatWritable(db, q, others, k))
            && (SeatsApart(seats) <==> forall i, j | 0 <= i < j < |others| :: TwoWritable(q, others, i, j))
  {
    var others, seats := Others(RosterOf(db, q.roomId), q.actorId), SeatsFor(db, parse, q);
    forall k | 0 <= k < |others|
      ensures SeatFree(db.deliveries, db.recipients, q.freshId(0), seats, k) <==> SeatWritable(db, q, others, k)
    {
      assert seats[k].recipientId == others[k] && seats[k].deliveryId == q.freshId(2 * k + 2);
    }
    forall i, j | 0 <= i < j < |others|
      ensures TwoWritable(q, others, i, j) <==> seats[i].recipientId != seats[j].recipientId && seats[i].deliveryId != seats[j].deliveryId
    {
      assert seats[i].recipientId == others[i] && seats[i].deliveryId == q.freshId(2 * i + 2);
      assert seats[j].recipientId == others[j] && seats[j].deliveryId == q.freshId(2 * j + 2);
    }
  }

  /** The k-th seat's delivery and recipient row. */
  ghost predicate SeatWritten(before: Db, after: Db, parse: string -> Option<int>, q: Request, others: seq<string>, k: nat)
    requires k < |others|
  {
    var bindingId := LiveBinding(before, parse, others[k], q.acceptedAt);
    var at := |before.recipients| + k;
    && q.freshId(2 * k + 2) in after.deliveries
    && after.deliveries[q.freshId(2 * k + 2)]
       == Delivery(q.freshId(1), q.freshId(2 * k + 2), q.freshId(2 * k + 3), bindingId, others[k], SessionBound, Queued, None)
    && at < |after.recipients|
    && after.recipients[at] == RecipientRow(q.freshId(0), others[k], k, bindingId, q.freshId(2 * k + 2))
  }

  ghost predicate SeatHas(q: Request, others: seq<string>, k: int, deliveryId: string) {
    0 <= k < |others| && q.freshId(2 * k + 2) == deliveryId
  }

  /** What an expansion writes: one event, one broadcast with its audit row, and per seat one queued
      delivery, bound to its recipient's live binding, and one recipient row; nothing else changes. */
  lemma {:induction false} ExpansionWrites(w: World, db: Db, q: Request, others: seq<string>)
    requires Expand(db, w.parse, q).Expanded?
    requires others == Others(if q.roomId in db.rosters then db.rosters[q.roomId] else [], q.actorId)
    ensures var after := Expand(db, w.parse, q).db;
            && after == db.(events := after.events, broadcasts := after.broadcasts, deliveries := after.deliveries,
                            recipients := after.recipients, broadcastAudits := after.broadcastAudits)
            && after.events == db.events[q.freshId(1) := CanonicalEvent(q.actorId, q.roomId, q.content, q.acceptedAt)]
            && after.broadcasts == db.broadcasts[q.freshId(0) := BroadcastRow(q.freshId(1), q.roomId, |others|)]
            && after.broadcastAudits == db.broadcastAudits[q.freshId(0) := BroadcastAudit(q.freshId(1), |others|)]
            && db.recipients <= after.recipients && |after.recipients| == |db.recipients| + |others|
            && (forall id | id in db.deliveries :: id in after.deliveries && after.deliveries[id] == db.deliveries[id])
            && (forall id | id in after.deliveries && id !in db.deliveries :: exists k :: SeatHas(q, others, k, id))
            && (forall k | 0 <= k < |others| :: SeatWritten(db, after, w.parse, q, others, k))
  {
    ExpansionEffect(w, db, q);
    var after := Expand(db, w.parse, q).db;
    forall k | 0 <= k < |others| ensures SeatWritten(db, after, w.parse, q, others, k) {
      WritesSeat(w, db, q, others, k);
    }
    forall id | id in after.deliveries && id !in db.deliveries ensures exists k :: SeatHas(q, others, k, id) {
      NewIsSeats(w, db, q, others, id);
    }
  }

  lemma {:induction false} WritesSeat(w: World, db: Db, q: Request, others: seq<string>, k: nat)
    requires Expand(db, w.parse, q).Expanded? && others == Others(RosterOf(db, q.roomId), q.actorId) && k < |others|
    ensures SeatWritten(db, Expand(db, w.parse, q).db, w.parse, q, others, k)
  {
    var seats := SeatsFor(db, w.parse, q);
    ExpansionEffect(w, db, q);
    assert seats[k] == SeatFor(db, w.parse, q, others[k], k);
    assert SeatRows(q.freshId(0), seats, 0)[k] == RecipientFor(q.freshId(0), seats[k], k);
  }

  lemma {:induction false} NewIsSeats(w: World, db: Db, q: Request, others: seq<string>, id: string)
    requires Expand(db, w.parse, q).Expanded? && others == Others(RosterOf(db, q.roomId), q.actorId)
    requires id in Expand(db, w.parse, q).db.deliveries && id !in db.deliveries
    ensures exists k :: SeatHas(q, others, k, id)
  {
    var seats := SeatsFor(db, w.parse, q);
    ExpansionEffect(w, db, q);
    var k :| 0 <= k < |seats| && seats[k].deliveryId == id;
    assert SeatHas(q, others, k, id);
  }

  /** A binding serves a seat exactly when it is its recipient's active one and its window holds the moment. */
  lemma LiveBindingExactly(db: Db, parse: string -> Option<int>, recipientId: string, at: string, id: string)
    requires OneActiveEach(db)
    ensures LiveBinding(db, parse, recipientId, at) == Some(id)
       <==> && id in db.bindings && db.bindings[id].recipientId == recipientId && db.bindings[id].state == Active
            && parse(at).Some? && parse(db.bindings[id].establishedAt).Some? && parse(db.bindings[id].expiresAt).Some?
            && parse(db.bindings[id].establishedAt).value <= parse(at).value < parse(db.bindings[id].expiresAt).value
  {
    if id in db.bindings && db.bindings[id].recipientId == recipientId && db.bindings[id].state == Active {
      assert ActiveFor(db, id, recipientId);
    }
  }
}
