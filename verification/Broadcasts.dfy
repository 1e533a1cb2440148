/** Atomic room broadcast expansion and its durable per-seat outcomes. */
module Broadcasts {
  import opened CoreTypes
  import opened Tables
  import Sorting
  import Store

  datatype BroadcastOutcome = BroadcastOutcome(
    recipientId: string,
    deliveryId: string,
    bindingId: Option<string>,
    state: DeliveryState,
    disposition: Option<Disposition>,
    unavailable: Option<Unavailability>)

  datatype Unavailability = BindingAbsent | BindingRevokedOrSuperseded

  datatype BroadcastResult = BroadcastResult(
    broadcastId: string, eventId: string, roomId: string, rosterSize: nat,
    outcomes: seq<BroadcastOutcome>, allDelivered: bool)

  datatype Lookup = Missing | Inconsistent | Snapshot(result: BroadcastResult)

  datatype Seat = Seat(recipientId: string, deliveryId: string, attemptId: string, bindingId: Option<string>)

  datatype Request = Request(
    actorId: string, roomId: string, content: string, acceptedAt: string,
    /** What the identifier factory returns on its k-th call. */
    freshId: nat -> string)

  datatype Expansion = Invalid | Collision | Expanded(db: Db)

  // ---------------------------------------------------------------- expansion

  /** The store's partial unique index: a recipient has at most one active binding. */
  ghost predicate OneActiveEach(db: Db) {
    forall i, j, r | ActiveFor(db, i, r) && ActiveFor(db, j, r) :: i == j
  }

  ghost function ActiveBinding(db: Db, recipientId: string): Option<string> {
    if id :| ActiveFor(db, id, recipientId) then Some(id) else None
  }

  /** The active binding whose window covers the observation. */
  ghost function LiveBinding(db: Db, parse: string -> Option<int>, recipientId: string, observedAt: string): Option<string> {
    var id := ActiveBinding(db, recipientId);
    if id.None? then None
    else
      var row := db.bindings[id.value];
      if Covers(parse, row, observedAt) then id else None
  }

  predicate Covers(parse: string -> Option<int>, row: BindingRow, observedAt: string) {
    && parse(observedAt).Some? && parse(row.establishedAt).Some? && parse(row.expiresAt).Some?
    && parse(row.establishedAt).value <= parse(observedAt).value < parse(row.expiresAt).value
  }

  function Others(roster: seq<string>, actorId: string): (others: seq<string>)
    ensures actorId !in others
    ensures forall r | r in others :: r in roster
  {
    if roster == [] then []
    else if roster[0] == actorId then Others(roster[1..], actorId)
    else [roster[0]] + Others(roster[1..], actorId)
  }

  function RosterOf(db: Db, roomId: string): seq<string> {
    if roomId in db.rosters then db.rosters[roomId] else []
  }

  /** The k-th seat takes the factory's calls 2k + 2 and 2k + 3. */
  ghost function SeatFor(db: Db, parse: string -> Option<int>, q: Request, recipientId: string, k: nat): Seat {
    Seat(recipientId, q.freshId(2 * k + 2), q.freshId(2 * k + 3), LiveBinding(db, parse, recipientId, q.acceptedAt))
  }

  ghost function SeatsFor(db: Db, parse: string -> Option<int>, q: Request): (seats: seq<Seat>) {
    var roster := Others(RosterOf(db, q.roomId), q.actorId);
    seq(|roster|, k requires 0 <= k < |roster| => SeatFor(db, parse, q, roster[k], k))
  }

  function DeliveryFor(eventId: string, s: Seat): Delivery {
    Delivery(eventId, s.deliveryId, s.attemptId, s.bindingId, s.recipientId, SessionBound, Queued, None)
  }

  function RecipientFor(broadcastId: string, s: Seat, ordinal: nat): RecipientRow {
    RecipientRow(broadcastId, s.recipientId, ordinal, s.bindingId, s.deliveryId)
  }

  predicate RecipientConflicts(rows: seq<RecipientRow>, row: RecipientRow) {
    exists other | other in rows ::
      || other.deliveryId == row.deliveryId
      || (other.broadcastId == row.broadcastId && (other.recipientId == row.recipientId || other.ordinal == row.ordinal))
  }

  /** Inserts the seats from the k-th on, or `None` on the first uniqueness error. */
  function InsertSeats(
    deliveries: map<string, Delivery>, rows: seq<RecipientRow>, broadcastId: string, eventId: string, seats: seq<Seat>, k: nat)
    : Option<(map<string, Delivery>, seq<RecipientRow>)>
    requires k <= |seats|
    decreases |seats| - k
  {
    if k == |seats| then Some((deliveries, rows))
    else if seats[k].deliveryId in deliveries || RecipientConflicts(rows, RecipientFor(broadcastId, seats[k], k)) then None
    else InsertSeats(deliveries[seats[k].deliveryId := DeliveryFor(eventId, seats[k])],
                     rows + [RecipientFor(broadcastId, seats[k], k)], broadcastId, eventId, seats, k + 1)
  }

  predicate HeaderConflicts(db: Db, broadcastId: string, eventId: string) {
    || eventId in db.events
    || broadcastId in db.broadcasts
    || (exists b | b in db.broadcasts :: db.broadcasts[b].eventId == eventId)
    || broadcastId in db.broadcastAudits
  }

  predicate RequestMalformed(parse: string -> Option<int>, q: Request) {
    q.actorId == "" || q.roomId == "" || q.content == "" || parse(q.acceptedAt).None?
  }

  /** The whole expansion as one transaction. */
  ghost function Expand(db: Db, parse: string -> Option<int>, q: Request): Expansion {
    var seats := SeatsFor(db, parse, q);
    if RequestMalformed(parse, q) || seats == [] then Invalid
    else InsertExpansion(db, q, q.freshId(0), q.freshId(1), seats)
  }

  function InsertExpansion(db: Db, q: Request, broadcastId: string, eventId: string, seats: seq<Seat>): Expansion {
    if !DeliveryIdsDistinct(seats) || HeaderConflicts(db, broadcastId, eventId) then Collision
    else
      var inserted := InsertSeats(db.deliveries, db.recipients, broadcastId, eventId, seats, 0);
      if inserted.None? then Collision
      else Expanded(db.(
                    events := db.events[eventId := CanonicalEvent(q.actorId, q.roomId, q.content, q.acceptedAt)],
                    broadcasts := db.broadcasts[broadcastId := BroadcastRow(eventId, q.roomId, |seats|)],
                    deliveries := inserted.value.0,
                    recipients := inserted.value.1,
                    broadcastAudits := db.broadcastAudits[broadcastId := BroadcastAudit(eventId, |seats|)]))
  }

  predicate DeliveryIdsDistinct(seats: seq<Seat>) {
    forall i, j | 0 <= i < j < |seats| :: seats[i].deliveryId != seats[j].deliveryId
  }

  // ---------------------------------------------------------------- result

  /** The broadcast's recipient rows, in insertion order. */
  function RowsOf(rows: seq<RecipientRow>, broadcastId: string): (r: seq<RecipientRow>)
    ensures forall row | row in r :: row in rows && row.broadcastId == broadcastId
  {
    if rows == [] then []
    else
      var last := rows[|rows| - 1];
      RowsOf(rows[..|rows| - 1], broadcastId) + if last.broadcastId == broadcastId then [last] else []
  }

  function JoinDeliveries(rows: seq<RecipientRow>, deliveries: map<string, Delivery>): (r: seq<RecipientRow>)
    ensures forall row | row in r :: row in rows && row.deliveryId in deliveries
  {
    if rows == [] then []
    else (if rows[0].deliveryId in deliveries then [rows[0]] else []) + JoinDeliveries(rows[1..], deliveries)
  }

  function JoinedRows(db: Db, broadcastId: string): (r: seq<RecipientRow>)
    ensures forall row | row in r :: row.deliveryId in db.deliveries
  {
    var joined := JoinDeliveries(RowsOf(db.recipients, broadcastId), db.deliveries);
    var r := Sorting.Sort(joined, (a: RecipientRow, b: RecipientRow) => a.ordinal <= b.ordinal);
    assert forall row | row in r :: row in multiset(r);
    r
  }

  function OutcomeOf(db: Db, row: RecipientRow): BroadcastOutcome
    requires row.deliveryId in db.deliveries
  {
    var d := db.deliveries[row.deliveryId];
    var loadBearing := d.state.Queued? || d.state.Dispatching?;
    var unavailable :=
      if loadBearing && row.bindingId.None? then Some(BindingAbsent)
      else if loadBearing && !(row.bindingId.value in db.bindings && db.bindings[row.bindingId.value].state.Active?) then
        Some(BindingRevokedOrSuperseded)
      else None;
    BroadcastOutcome(row.recipientId, row.deliveryId, row.bindingId, d.state, d.disposition, unavailable)
  }

  predicate Delivered(s: DeliveryState) {
    s.TransportSubmitted? || s.InSession? || s.Processed?
  }

  function ResultOf(db: Db, broadcastId: string): Lookup {
    if broadcastId !in db.broadcasts then Missing
    else
      var header := db.broadcasts[broadcastId];
      var rows := JoinedRows(db, broadcastId);
      if |rows| != header.rosterSize || broadcastId !in db.broadcastAudits
         || db.broadcastAudits[broadcastId] != BroadcastAudit(header.eventId, header.rosterSize) then Inconsistent
      else
        var outcomes := seq(|rows|, i requires 0 <= i < |rows| =>
          assert rows[i] in rows; OutcomeOf(db, rows[i]));
        Snapshot(BroadcastResult(
          broadcastId, header.eventId, header.roomId, header.rosterSize, outcomes,
          outcomes != [] && forall i | 0 <= i < |outcomes| :: Delivered(outcomes[i].state)))
  }

  // ---------------------------------------------------------------- the kernel

  class BroadcastKernel {
    const store: Store.CoreStore

    constructor (store: Store.CoreStore)
      ensures this.store == store
    {
      this.store := store;
    }

    /** Expands one request; a failed expansion leaves every table as it was. */
    method Broadcast(q: Request) returns (reply: Option<Lookup>)
      requires OneActiveEach(store.State())
      modifies store
      ensures var expansion := Expand(old(store.State()), store.parse, q);
              if expansion.Expanded? then store.State() == expansion.db && reply == Some(ResultOf(expansion.db, q.freshId(0)))
              else store.State() == old(store.State()) && reply == None
    {
      if RequestMalformed(store.parse, q) {
        return None;
      }
      var broadcastId, eventId := q.freshId(0), q.freshId(1);
      var roster := Others(RosterOf(store.State(), q.roomId), q.actorId);
      if roster == [] {
        return None;
      }
      var seats := ResolveSeats(q, roster);
      if !DeliveryIdsDistinct(seats) || HeaderConflicts(store.State(), broadcastId, eventId) {
        return None;
      }
      var ok := WriteSeats(broadcastId, eventId, seats);
      if !ok {
        return None;
      }
      WriteHeader(q, broadcastId, eventId, |seats|);
      reply := Some(ResultOf(store.State(), broadcastId));
    }

    method ResolveSeats(q: Request, roster: seq<string>) returns (seats: seq<Seat>)
      requires OneActiveEach(store.State())
      requires roster == Others(RosterOf(store.State(), q.roomId), q.actorId)
      ensures seats == SeatsFor(store.State(), store.parse, q)
    {
      seats := [];
      while |seats| < |roster|
        invariant |seats| <= |roster|
        invariant forall k | 0 <= k < |seats| :: seats[k] == SeatFor(store.State(), store.parse, q, roster[k], k)
      {
        var k := |seats|;
        var binding := ActiveSessionBindingFor(roster[k], q.acceptedAt);
        seats := seats + [Seat(roster[k], q.freshId(2 * k + 2), q.freshId(2 * k + 3), binding)];
      }
    }

    method ActiveSessionBindingFor(recipientId: string, observedAt: string) returns (found: Option<string>)
      requires OneActiveEach(store.State())
      ensures found == LiveBinding(store.State(), store.parse, recipientId, observedAt)
    {
      ghost var db := store.State();
      if id :| id in store.bindings && store.bindings[id].recipientId == recipientId && store.bindings[id].state.Active? {
        assert ActiveFor(db, id, recipientId);
        found := if Covers(store.parse, store.bindings[id], observedAt) then Some(id) else None;
      } else {
        assert forall id :: !ActiveFor(db, id, recipientId);
        found := None;
      }
    }

    method WriteSeats(broadcastId: string, eventId: string, seats: seq<Seat>) returns (ok: bool)
      modifies store`deliveries, store`recipients
      ensures var inserted := InsertSeats(old(store.deliveries), old(store.recipients), broadcastId, eventId, seats, 0);
              && (ok <==> inserted.Some?)
              && store.State() == (if ok then old(store.State()).(deliveries := inserted.value.0, recipients := inserted.value.1)
                                   else old(store.State()))
    {
      var deliveries, recipients := store.deliveries, store.recipients;
      var k := 0;
      while k < |seats|
        modifies store`deliveries, store`recipients
        invariant 0 <= k <= |seats|
        invariant InsertSeats(deliveries, recipients, broadcastId, eventId, seats, 0)
               == InsertSeats(store.deliveries, store.recipients, broadcastId, eventId, seats, k)
      {
        var row := RecipientFor(broadcastId, seats[k], k);
        if seats[k].deliveryId in store.deliveries || RecipientConflicts(store.recipients, row) {
          store.deliveries, store.recipients := deliveries, recipients;
          return false;
        }
        store.deliveries := store.deliveries[seats[k].deliveryId := DeliveryFor(eventId, seats[k])];
        store.recipients := store.recipients + [row];
        k := k + 1;
      }
      ok := true;
    }

    method WriteHeader(q: Request, broadcastId: string, eventId: string, size: nat)
      modifies store`events, store`broadcasts, store`broadcastAudits
      ensures store.State() == old(store.State()).(
                events := old(store.events)[eventId := CanonicalEvent(q.actorId, q.roomId, q.content, q.acceptedAt)],
                broadcasts := old(store.broadcasts)[broadcastId := BroadcastRow(eventId, q.roomId, size)],
                broadcastAudits := old(store.broadcastAudits)[broadcastId := BroadcastAudit(eventId, size)])
    {
      store.events := store.events[eventId := CanonicalEvent(q.actorId, q.roomId, q.content, q.acceptedAt)];
      store.broadcasts := store.broadcasts[broadcastId := BroadcastRow(eventId, q.roomId, size)];
      store.broadcastAudits := store.broadcastAudits[broadcastId := BroadcastAudit(eventId, size)];
    }
  }
}
