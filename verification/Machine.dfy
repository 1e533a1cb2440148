/** Any number of processes on one store. Submissions advance statement by statement, binding
    registrations validate and write in separate steps, and every other writer is one transaction;
    the actions of a run pick the interleaving. */
module Machine {
  import opened CoreTypes
  import opened Proofs
  import opened Tables
  import opened Reducer
  import opened Ledgers
  import opened Submissions
  import opened Broadcasts

  datatype World = World(authority: Option<MarkerAuthority>, parse: string -> Option<int>)

  datatype Worker =
    | Submitting(receipt: Receipt, stage: Stage)
    | Registering(binding: SessionBinding, validated: bool)
    | Superseding(oldId: string, binding: SessionBinding, validated: bool)
    | Idle

  /** `queued` remembers which deliveries were added as queued. */
  datatype State = State(db: Db, workers: map<nat, Worker>, ghost queued: set<string>)

  datatype Action =
    | Submit(pid: nat, receipt: Receipt)
    | Register(pid: nat, binding: SessionBinding)
    | Supersede(pid: nat, oldId: string, binding: SessionBinding)
    | Proceed(pid: nat)
    | Add(d: Delivery)
    | Dispatch(deliveryId: string)
    | AddProvider(providerId: string, kind: ProviderKind, classes: seq<EvidenceClass>)
    | AddPrincipal(providerId: string, principalId: string, recipientId: string)
    | AddMessage(providerId: string, messageId: string, message: MessageBinding)
    | Revoke(bindingId: string)
    | SetRoster(roomId: string, members: seq<string>)
    | Announce(q: Request)

  const INITIAL := State(EMPTY_DB, map[], {})

  function Written(db: Db, outcome: Option<Db>): Db {
    if outcome.Some? then outcome.value else db
  }

  /** One step of a process; a failed write changes nothing. */
  function WorkerStep(w: World, db: Db, worker: Worker): (Db, Worker) {
    match worker
    case Submitting(r, stage) => var step := Advance(w.authority, db, r, stage); (step.0, Submitting(r, step.1))
    case Registering(b, false) => (db, if BindingValid(db, w.parse, b) then Registering(b, true) else Idle)
    case Registering(b, true) => (Written(db, InsertBinding(db, b)), Idle)
    case Superseding(oldId, b, false) => (db, if SupersedeAllowed(db, w.parse, oldId, b) then Superseding(oldId, b, true) else Idle)
    case Superseding(oldId, b, true) => (Written(db, SupersedeCommit(db, oldId, b)), Idle)
    case Idle => (db, Idle)
  }

  /** The transactions that no process splits. */
  ghost function Transact(w: World, db: Db, action: Action): Db {
    match action
    case Add(d) => Written(db, AddDelivery(db, d))
    case Dispatch(id) => Written(db, SetDispatching(db, id))
    case AddProvider(p, kind, classes) => Written(db, RegisterProvider(db, p, kind, classes))
    case AddPrincipal(p, principal, recipient) => Written(db, BindPrincipal(db, p, principal, recipient))
    case AddMessage(p, message, m) => Written(db, BindMessage(db, p, message, m))
    case Revoke(id) => Written(db, RevokeBinding(db, id))
    case SetRoster(room, members) => Written(db, ReplaceRoster(db, room, members))
    case Announce(q) => var e := Expand(db, w.parse, q); if e.Expanded? then e.db else db
    case _ => db
  }

  /** The deliveries an action adds as queued, without a disposition. */
  ghost function NewlyQueued(w: World, db: Db, action: Action): set<string> {
    if action.Add? && AddDelivery(db, action.d).Some? && action.d.state.Queued? && action.d.disposition.None? then {action.d.deliveryId}
    else if action.Announce? && Expand(db, w.parse, action.q).Expanded? then
      set s | s in SeatsFor(db, w.parse, action.q) :: s.deliveryId
    else {}
  }

  /** Starting a process under a used number abandons the old one, as a crash does. */
  ghost function Step(w: World, s: State, action: Action): State {
    match action
    case Submit(pid, r) => s.(workers := s.workers[pid := Submitting(r, Begin)])
    case Register(pid, b) => s.(workers := s.workers[pid := Registering(b, false)])
    case Supersede(pid, oldId, b) => s.(workers := s.workers[pid := Superseding(oldId, b, false)])
    case Proceed(pid) =>
      if pid !in s.workers then s
      else
        var step := WorkerStep(w, s.db, s.workers[pid]);
        s.(db := step.0, workers := s.workers[pid := step.1])
    case _ => s.(db := Transact(w, s.db, action), queued := s.queued + NewlyQueued(w, s.db, action))
  }

  ghost function Run(w: World, s: State, actions: seq<Action>): State
    decreases |actions|
  {
    if actions == [] then s else Run(w, Step(w, s, actions[0]), actions[1..])
  }

  // ---------------------------------------------------------------- bindings

  /** At most one active binding per recipient; every binding's provider is a session transport
      that declares all of its methods' evidence. */
  ghost predicate BindingsInv(db: Db) {
    && OneActiveEach(db)
    && (forall key | key in db.methods :: key.0 in db.bindings)
    && (forall id | id in db.bindings ::
          db.bindings[id].providerId in db.providers && db.providers[db.bindings[id].providerId].kind.SessionTransport?)
    && (forall key, c | key in db.methods && c in db.methods[key].evidenceClasses :: (db.bindings[key.0].providerId, c) in db.declared)
  }

  lemma {:induction false} InsertMethodsEffect(
    methods: map<(string, string), ProofMethodRegistration>, bindingId: string, ms: seq<ProofMethodRegistration>)
    requires InsertMethods(methods, bindingId, ms).Some?
    ensures var after := InsertMethods(methods, bindingId, ms).value;
            && (forall key | key in methods :: key in after && after[key] == methods[key])
            && (forall key | key in after && key !in methods :: key.0 == bindingId && after[key] in ms)
    decreases |ms|
  {
    if ms != [] {
      InsertMethodsEffect(methods[(bindingId, ms[0].proofMethod) := ms[0]], bindingId, ms[1..]);
    }
  }

  lemma {:induction false} InsertBindingKeeps(db: Db, parse: string -> Option<int>, b: SessionBinding)
    requires BindingsInv(db) && BindingValid(db, parse, b) && InsertBinding(db, b).Some?
    ensures BindingsInv(InsertBinding(db, b).value)
    ensures BindingsEvolve(db, InsertBinding(db, b).value)
  {
    var after := InsertBinding(db, b).value;
    InsertMethodsEffect(db.methods, b.bindingId, b.proofMethods);
    forall i, j, r | ActiveFor(after, i, r) && ActiveFor(after, j, r) ensures i == j {
      assert i != b.bindingId ==> ActiveFor(db, i, r);
      assert j != b.bindingId ==> ActiveFor(db, j, r);
    }
    forall key, c | key in after.methods && c in after.methods[key].evidenceClasses
      ensures (after.bindings[key.0].providerId, c) in after.declared
    {
      if key in db.methods {
        assert key.0 in db.bindings;
      } else {
        assert after.methods[key] in b.proofMethods;
      }
    }
  }

  function Retired(db: Db, oldId: string): Db
    requires oldId in db.bindings
  {
    db.(bindings := db.bindings[oldId := db.bindings[oldId].(state := Superseded)])
  }

  lemma RetireKeeps(db: Db, oldId: string)
    requires BindingsInv(db) && oldId in db.bindings
    ensures BindingsInv(Retired(db, oldId)) && BindingsEvolve(db, Retired(db, oldId))
  {
    var after := Retired(db, oldId);
    forall i, j, r | ActiveFor(after, i, r) && ActiveFor(after, j, r) ensures i == j {
      assert ActiveFor(db, i, r) && ActiveFor(db, j, r);
    }
  }

  lemma BindingsEvolveTransitive(a: Db, b: Db, c: Db)
    requires BindingsEvolve(a, b) && BindingsEvolve(b, c)
    ensures BindingsEvolve(a, c)
  {
    forall id | id in a.bindings
      ensures id in c.bindings && c.bindings[id].(state := a.bindings[id].state) == a.bindings[id]
           && (!a.bindings[id].state.Active? ==> !c.bindings[id].state.Active?)
    {
      assert id in b.bindings;
    }
  }

  lemma {:induction false} SupersedeKeeps(db: Db, parse: string -> Option<int>, oldId: string, b: SessionBinding)
    requires BindingsInv(db) && BindingValid(db, parse, b) && SupersedeCommit(db, oldId, b).Some?
    ensures BindingsInv(SupersedeCommit(db, oldId, b).value)
    ensures BindingsEvolve(db, SupersedeCommit(db, oldId, b).value)
  {
    if oldId in db.bindings {
      RetireKeeps(db, oldId);
      InsertBindingKeeps(Retired(db, oldId), parse, b);
      BindingsEvolveTransitive(db, Retired(db, oldId), SupersedeCommit(db, oldId, b).value);
    } else {
      InsertBindingKeeps(db, parse, b);
    }
  }

  lemma RevokeKeeps(db: Db, id: string)
    requires BindingsInv(db) && RevokeBinding(db, id).Some?
    ensures BindingsInv(RevokeBinding(db, id).value) && BindingsEvolve(db, RevokeBinding(db, id).value)
  {
    var after := RevokeBinding(db, id).value;
    forall i, j, r | ActiveFor(after, i, r) && ActiveFor(after, j, r) ensures i == j {
      assert ActiveFor(db, i, r) && ActiveFor(db, j, r);
    }
  }

  lemma {:induction false} BindingValidStays(a: Db, b: Db, parse: string -> Option<int>, binding: SessionBinding)
    requires BindingValid(a, parse, binding) && ProvidersEvolve(a, b)
    ensures BindingValid(b, parse, binding)
  {}

  /** Writers of other tables leave the binding tables' invariant alone. */
  lemma BindingsFrame(a: Db, b: Db)
    requires BindingsInv(a) && b.bindings == a.bindings && b.methods == a.methods && ProvidersEvolve(a, b)
    ensures BindingsInv(b) && BindingsEvolve(a, b)
  {
    forall i, j, r | ActiveFor(b, i, r) && ActiveFor(b, j, r) ensures i == j {
      assert ActiveFor(a, i, r) && ActiveFor(a, j, r);
    }
  }

  // ---------------------------------------------------------------- broadcasts

  /** A broadcast's snapshot: one numbered row per seat, each with its own queued delivery. */
  ghost predicate SnapshotOk(db: Db, queued: set<string>, b: string)
    requires b in db.broadcasts
  {
    var rows := RowsOf(db.recipients, b);
    && b in db.broadcastAudits
    && db.broadcastAudits[b] == BroadcastAudit(db.broadcasts[b].eventId, db.broadcasts[b].rosterSize)
    && |rows| == db.broadcasts[b].rosterSize > 0
    && (forall i | 0 <= i < |rows| :: rows[i].ordinal == i && SeatRowOk(db, queued, rows[i]))
  }

  ghost predicate SeatRowOk(db: Db, queued: set<string>, row: RecipientRow) {
    && row.deliveryId in queued && row.deliveryId in db.deliveries
    && db.deliveries[row.deliveryId].recipientId == row.recipientId
    && db.deliveries[row.deliveryId].bindingId == row.bindingId
    && db.deliveries[row.deliveryId].mode.SessionBound?
  }

  ghost predicate BroadcastsInv(db: Db, queued: set<string>) {
    && (forall row | row in db.recipients :: row.broadcastId in db.broadcasts)
    && (forall b | b in db.broadcasts :: SnapshotOk(db, queued, b))
  }

  ghost predicate BroadcastsEvolve(a: Db, b: Db) {
    forall x | x in a.broadcasts ::
      && x in b.broadcasts && b.broadcasts[x] == a.broadcasts[x]
      && RowsOf(b.recipients, x) == RowsOf(a.recipients, x)
  }

  function SeatRows(broadcastId: string, seats: seq<Seat>, k: nat): seq<RecipientRow>
    requires k <= |seats|
  {
    seq(|seats| - k, i requires 0 <= i < |seats| - k => RecipientFor(broadcastId, seats[k + i], k + i))
  }

  lemma {:induction false} InsertSeatsEffect(
    deliveries: map<string, Delivery>, rows: seq<RecipientRow>, broadcastId: string, eventId: string, seats: seq<Seat>, k: nat)
    requires k <= |seats| && InsertSeats(deliveries, rows, broadcastId, eventId, seats, k).Some?
    ensures var after := InsertSeats(deliveries, rows, broadcastId, eventId, seats, k).value;
            && after.1 == rows + SeatRows(broadcastId, seats, k)
            && (forall id | id in deliveries :: id in after.0 && after.0[id] == deliveries[id])
            && (forall id | id in after.0 && id !in deliveries :: exists i | k <= i < |seats| :: seats[i].deliveryId == id)
            && (forall i | k <= i < |seats| :: seats[i].deliveryId !in deliveries && seats[i].deliveryId in after.0
                                               && after.0[seats[i].deliveryId] == DeliveryFor(eventId, seats[i]))
    decreases |seats| - k
  {
    if k < |seats| {
      var row := RecipientFor(broadcastId, seats[k], k);
      InsertSeatsEffect(deliveries[seats[k].deliveryId := DeliveryFor(eventId, seats[k])], rows + [row], broadcastId, eventId, seats, k + 1);
      assert SeatRows(broadcastId, seats, k) == [row] + SeatRows(broadcastId, seats, k + 1);
    }
  }

  lemma {:induction false} RowsOfAppend(rows: seq<RecipientRow>, more: seq<RecipientRow>, b: string)
    ensures RowsOf(rows + more, b) == RowsOf(rows, b) + RowsOf(more, b)
  {
    if more == [] {
      assert rows + more == rows;
    } else {
      var n := |more| - 1;
      assert (rows + more)[..|rows + more| - 1] == rows + more[..n];
      RowsOfAppend(rows, more[..n], b);
    }
  }

  lemma {:induction false} RowsOfUniform(rows: seq<RecipientRow>, own: string, b: string)
    requires forall row | row in rows :: row.broadcastId == own
    ensures RowsOf(rows, b) == if own == b then rows else []
  {
    if rows != [] {
      RowsOfUniform(rows[..|rows| - 1], own, b);
      assert rows[..|rows| - 1] + [rows[|rows| - 1]] == rows;
    }
  }

  lemma {:induction false} NoRowsOf(rows: seq<RecipientRow>, b: string)
    requires forall row | row in rows :: row.broadcastId != b
    ensures RowsOf(rows, b) == []
  {
    if rows != [] {
      NoRowsOf(rows[..|rows| - 1], b);
    }
  }

  lemma SnapshotStays(a: Db, b: Db, queued: set<string>, queued': set<string>, x: string)
    requires x in a.broadcasts && SnapshotOk(a, queued, x) && DeliveriesEvolve(a, b) && queued <= queued'
    requires x in b.broadcasts && b.broadcasts[x] == a.broadcasts[x]
    requires x in b.broadcastAudits && b.broadcastAudits[x] == a.broadcastAudits[x]
    requires RowsOf(b.recipients, x) == RowsOf(a.recipients, x)
    ensures SnapshotOk(b, queued', x)
  {
    var rows := RowsOf(a.recipients, x);
    forall i | 0 <= i < |rows| ensures SeatRowOk(b, queued', rows[i]) {
      assert SeatRowOk(a, queued, rows[i]);
      assert Later(a.deliveries[rows[i].deliveryId], b.deliveries[rows[i].deliveryId]);
    }
  }

  lemma BroadcastsFrame(a: Db, b: Db, queued: set<string>, queued': set<string>)
    requires BroadcastsInv(a, queued) && DeliveriesEvolve(a, b) && queued <= queued'
    requires b.broadcasts == a.broadcasts && b.recipients == a.recipients && b.broadcastAudits == a.broadcastAudits
    ensures BroadcastsInv(b, queued') && BroadcastsEvolve(a, b)
  {
    forall x | x in b.broadcasts ensures SnapshotOk(b, queued', x) {
      SnapshotStays(a, b, queued, queued', x);
    }
  }

  /** What a successful expansion adds. */
  lemma {:induction false} ExpansionEffect(w: World, db: Db, q: Request)
    requires Expand(db, w.parse, q).Expanded?
    ensures var after, seats := Expand(db, w.parse, q).db, SeatsFor(db, w.parse, q);
            && seats != []
            && after.recipients == db.recipients + SeatRows(q.freshId(0), seats, 0)
            && (forall id | id in db.deliveries :: id in after.deliveries && after.deliveries[id] == db.deliveries[id])
            && (forall id | id in after.deliveries && id !in db.deliveries :: exists i | 0 <= i < |seats| :: seats[i].deliveryId == id)
            && (forall i | 0 <= i < |seats| :: seats[i].deliveryId !in db.deliveries && seats[i].deliveryId in after.deliveries
                                               && after.deliveries[seats[i].deliveryId] == DeliveryFor(q.freshId(1), seats[i]))
            && q.freshId(0) !in db.broadcasts
  {
    InsertSeatsEffect(db.deliveries, db.recipients, q.freshId(0), q.freshId(1), SeatsFor(db, w.parse, q), 0);
  }

  /** The new rows are the new broadcast's; no other broadcast's rows change. */
  lemma {:induction false} ExpansionRows(w: World, db: Db, queued: set<string>, q: Request, x: string)
    requires Expand(db, w.parse, q).Expanded? && BroadcastsInv(db, queued)
    ensures RowsOf(Expand(db, w.parse, q).db.recipients, x)
         == if x == q.freshId(0) then SeatRows(x, SeatsFor(db, w.parse, q), 0) else RowsOf(db.recipients, x)
  {
    var more := SeatRows(q.freshId(0), SeatsFor(db, w.parse, q), 0);
    ExpansionEffect(w, db, q);
    RowsOfAppend(db.recipients, more, x);
    RowsOfUniform(more, q.freshId(0), x);
    if x == q.freshId(0) {
      NoRowsOf(db.recipients, x);
      assert [] + more == more;
    } else {
      assert RowsOf(db.recipients, x) + [] == RowsOf(db.recipients, x);
    }
  }

  lemma FreshSnapshot(db: Db, queued: set<string>, own: string, eventId: string, seats: seq<Seat>)
    requires seats != [] && own in db.broadcasts && own in db.broadcastAudits
    requires db.broadcasts[own].rosterSize == |seats| && db.broadcasts[own].eventId == eventId
    requires db.broadcastAudits[own] == BroadcastAudit(eventId, |seats|)
    requires RowsOf(db.recipients, own) == SeatRows(own, seats, 0)
    requires forall i | 0 <= i < |seats| :: seats[i].deliveryId in queued && seats[i].deliveryId in db.deliveries
                                            && db.deliveries[seats[i].deliveryId] == DeliveryFor(eventId, seats[i])
    ensures SnapshotOk(db, queued, own)
  {
    var rows := RowsOf(db.recipients, own);
    forall i | 0 <= i < |rows| ensures rows[i].ordinal == i && SeatRowOk(db, queued, rows[i]) {
      assert rows[i] == RecipientFor(own, seats[i], i);
    }
  }

  lemma {:induction false} ExpansionEvolves(w: World, db: Db, queued: set<string>, q: Request)
    requires Expand(db, w.parse, q).Expanded? && BroadcastsInv(db, queued)
    ensures DeliveriesEvolve(db, Expand(db, w.parse, q).db) && BroadcastsEvolve(db, Expand(db, w.parse, q).db)
  {
    ExpansionEffect(w, db, q);
    forall x | x in db.broadcasts
      ensures RowsOf(Expand(db, w.parse, q).db.recipients, x) == RowsOf(db.recipients, x)
    {
      ExpansionRows(w, db, queued, q, x);
    }
  }

  lemma {:induction false} ExpansionOwnSnapshot(w: World, db: Db, queued: set<string>, queued': set<string>, q: Request)
    requires Expand(db, w.parse, q).Expanded? && BroadcastsInv(db, queued)
    requires forall s | s in SeatsFor(db, w.parse, q) :: s.deliveryId in queued'
    ensures SnapshotOk(Expand(db, w.parse, q).db, queued', q.freshId(0))
  {
    var seats := SeatsFor(db, w.parse, q);
    ExpansionEffect(w, db, q);
    ExpansionRows(w, db, queued, q, q.freshId(0));
    assert forall i | 0 <= i < |seats| :: seats[i] in seats;
    FreshSnapshot(Expand(db, w.parse, q).db, queued', q.freshId(0), q.freshId(1), seats);
  }

  lemma {:induction false} ExpansionKeepsSnapshots(w: World, db: Db, queued: set<string>, queued': set<string>, q: Request)
    requires Expand(db, w.parse, q).Expanded? && BroadcastsInv(db, queued) && queued <= queued'
    requires forall s | s in SeatsFor(db, w.parse, q) :: s.deliveryId in queued'
    ensures BroadcastsInv(Expand(db, w.parse, q).db, queued')
  {
    var after, own := Expand(db, w.parse, q).db, q.freshId(0);
    ExpansionOwnSnapshot(w, db, queued, queued', q);
    ExpansionEvolves(w, db, queued, q);
    OtherSnapshots(db, after, queued, queued', own);
    ExpansionEffect(w, db, q);
    assert forall row | row in SeatRows(own, SeatsFor(db, w.parse, q), 0) :: row.broadcastId == own;
  }

  lemma OtherSnapshots(a: Db, b: Db, queued: set<string>, queued': set<string>, own: string)
    requires BroadcastsInv(a, queued) && queued <= queued' && DeliveriesEvolve(a, b) && BroadcastsEvolve(a, b)
    requires b.broadcasts.Keys == a.broadcasts.Keys + {own}
    requires forall x | x in a.broadcasts :: x in b.broadcastAudits && b.broadcastAudits[x] == a.broadcastAudits[x]
    ensures forall x | x in b.broadcasts && x != own :: SnapshotOk(b, queued', x)
  {
    forall x | x in b.broadcasts && x != own ensures SnapshotOk(b, queued', x) {
      SnapshotStays(a, b, queued, queued', x);
    }
  }

  // ---------------------------------------------------------------- all tables

  ghost predicate DbInv(w: World, db: Db, queued: set<string>) {
    ReceiptsInv(w.authority, db, queued) && BindingsInv(db) && BroadcastsInv(db, queued)
  }

  ghost predicate Evolves(a: Db, b: Db) {
    DeliveriesEvolve(a, b) && RowsEvolve(a, b) && ProvidersEvolve(a, b) && BindingsEvolve(a, b) && BroadcastsEvolve(a, b)
  }

  ghost predicate WorkerOk(w: World, db: Db, queued: set<string>, worker: Worker) {
    match worker
    case Submitting(r, stage) => StageOk(w.authority, db, queued, r, stage)
    case Registering(b, validated) => validated ==> BindingValid(db, w.parse, b)
    case Superseding(_, b, validated) => validated ==> BindingValid(db, w.parse, b)
    case Idle => true
  }

  ghost predicate Inv(w: World, s: State) {
    && DbInv(w, s.db, s.queued)
    && forall pid | pid in s.workers :: WorkerOk(w, s.db, s.queued, s.workers[pid])
  }

  lemma EvolvesTransitive(a: Db, b: Db, c: Db)
    requires Evolves(a, b) && Evolves(b, c)
    ensures Evolves(a, c)
  {
    forall id | id in a.deliveries ensures id in c.deliveries && Later(a.deliveries[id], c.deliveries[id]) {
      assert Later(a.deliveries[id], b.deliveries[id]);
    }
    forall id | id in a.bindings
      ensures id in c.bindings && c.bindings[id].(state := a.bindings[id].state) == a.bindings[id]
           && (!a.bindings[id].state.Active? ==> !c.bindings[id].state.Active?)
    {
      assert id in b.bindings;
    }
  }

  lemma {:induction false} NoLedger(receipts: seq<ReceiptRow>, audit: seq<AuditRow>, id: string)
    requires |receipts| == |audit| && forall i | 0 <= i < |receipts| :: receipts[i].deliveryId != id
    ensures LedgerOf(receipts, audit, id) == []
  {
    if receipts != [] {
      NoLedger(receipts[..|receipts| - 1], audit[..|receipts| - 1], id);
    }
  }

  /** Writers that leave receipts and audit alone, and move a queued delivery to dispatching at most. */
  lemma {:induction false} ReceiptsFrame(authority: Option<MarkerAuthority>, a: Db, b: Db, queued: set<string>, queued': set<string>)
    requires ReceiptsInv(authority, a, queued) && DeliveriesEvolve(a, b) && ProvidersEvolve(a, b)
    requires b.receipts == a.receipts && b.audit == a.audit && queued <= queued'
    requires forall id | id in b.deliveries :: b.deliveries[id].deliveryId == id
    requires forall id | id in queued :: id in a.deliveries && id in b.deliveries
               && (b.deliveries[id] == a.deliveries[id]
                   || (a.deliveries[id].state.Queued? && b.deliveries[id] == a.deliveries[id].(state := Dispatching)))
    requires forall id | id in queued' && id !in queued :: id !in a.deliveries && id in b.deliveries
               && b.deliveries[id].state.Queued? && b.deliveries[id].disposition.None?
    ensures ReceiptsInv(authority, b, queued')
  {
    forall i | 0 <= i < |b.receipts|
      ensures b.receipts[i].deliveryId in b.deliveries && RowFits(b.receipts[i], b.audit[i], b.deliveries[b.receipts[i].deliveryId])
    {
      assert RowFits(a.receipts[i], a.audit[i], a.deliveries[a.receipts[i].deliveryId]);
      assert Later(a.deliveries[a.receipts[i].deliveryId], b.deliveries[b.receipts[i].deliveryId]);
    }
    forall id | id in queued'
      ensures id in b.deliveries && OnPath(b.deliveries[id], LedgerOf(b.receipts, b.audit, id))
           && Closed(b.deliveries[id], LedgerOf(b.receipts, b.audit, id))
    {
      if id in queued {
        assert OnPath(a.deliveries[id], LedgerOf(a.receipts, a.audit, id));
      } else {
        NoLedger(b.receipts, b.audit, id);
      }
    }
  }
}
