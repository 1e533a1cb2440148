/** What holds after every run of the store's processes, whatever the interleaving. */
module Reachable {
  import opened CoreTypes
  import opened Proofs
  import opened Tables
  import opened Reducer
  import opened Ledgers
  import opened Submissions
  import opened Broadcasts
  import opened Machine

  // ---------------------------------------------------------------- one step

  /** A step of the tables that keeps every invariant and only moves them forward. */
  ghost predicate GoodStep(w: World, a: Db, b: Db, queued: set<string>, queued': set<string>) {
    && DbInv(w, b, queued') && Evolves(a, b) && queued <= queued'
    && forall id | id in queued' && id in a.deliveries :: id in queued
  }

  lemma {:induction false} Unmoved(w: World, db: Db, queued: set<string>)
    requires DbInv(w, db, queued)
    ensures GoodStep(w, db, db, queued, queued)
  {}

  /** Rejections and provider health are in no invariant. */
  lemma {:induction false} SideTablesGood(w: World, a: Db, b: Db, queued: set<string>)
    requires DbInv(w, a, queued) && ProvidersEvolve(a, b)
    requires b.deliveries == a.deliveries && b.receipts == a.receipts && b.audit == a.audit
    requires b.bindings == a.bindings && b.methods == a.methods
    requires b.broadcasts == a.broadcasts && b.recipients == a.recipients && b.broadcastAudits == a.broadcastAudits
    ensures GoodStep(w, a, b, queued, queued)
  {
    ReceiptsFrame(w.authority, a, b, queued, queued);
    BindingsFrame(a, b);
    BroadcastsFrame(a, b, queued, queued);
  }

  lemma {:induction false} DeliveryTablesGood(w: World, a: Db, b: Db, queued: set<string>, queued': set<string>)
    requires DbInv(w, a, queued) && ReceiptsInv(w.authority, b, queued') && DeliveriesEvolve(a, b) && RowsEvolve(a, b)
    requires queued <= queued' && forall id | id in queued' && id in a.deliveries :: id in queued
    requires b.providers == a.providers && b.declared == a.declared
    requires b.bindings == a.bindings && b.methods == a.methods
    requires b.broadcasts == a.broadcasts && b.recipients == a.recipients && b.broadcastAudits == a.broadcastAudits
    ensures GoodStep(w, a, b, queued, queued')
  {
    BindingsFrame(a, b);
    BroadcastsFrame(a, b, queued, queued');
  }

  lemma {:induction false} BindingTablesGood(w: World, a: Db, b: Db, queued: set<string>)
    requires DbInv(w, a, queued) && BindingsInv(b) && BindingsEvolve(a, b)
    requires b == a.(bindings := b.bindings, methods := b.methods)
    ensures GoodStep(w, a, b, queued, queued)
  {
    ReceiptsFrame(w.authority, a, b, queued, queued);
    BroadcastsFrame(a, b, queued, queued);
  }

  lemma {:induction false} CommitGood(
    w: World, db: Db, queued: set<string>, r: Receipt, d: Delivery, next: DeliveryState, disposition: Option<Disposition>)
    requires DbInv(w, db, queued) && StageOk(w.authority, db, queued, r, Commit(d, next, disposition))
    requires AcceptReceipt(db, r, d, next, disposition).Accepted?
    ensures GoodStep(w, db, AcceptReceipt(db, r, d, next, disposition).db, queued, queued)
  {
    var after := AcceptReceipt(db, r, d, next, disposition).db;
    CommitKeepsRows(w.authority, db, queued, r, d, next, disposition);
    CommitKeepsUnique(db, r, d, next, disposition);
    CommitKeepsPaths(w.authority, db, queued, r, d, next, disposition);
    CommitEvolves(db, r, d, next, disposition);
    DeliveryTablesGood(w, db, after, queued, queued);
  }

  lemma {:induction false} CommitEvolves(db: Db, r: Receipt, d: Delivery, next: DeliveryState, disposition: Option<Disposition>)
    requires Known(db, d) && Moved(r, d, next, disposition)
    requires AcceptReceipt(db, r, d, next, disposition).Accepted?
    ensures DeliveriesEvolve(db, AcceptReceipt(db, r, d, next, disposition).db)
    ensures RowsEvolve(db, AcceptReceipt(db, r, d, next, disposition).db)
  {
    assert Rank(d.state) < Rank(next);
  }

  lemma {:induction false} DegradeGood(w: World, db: Db, queued: set<string>, providerId: string)
    requires DbInv(w, db, queued)
    ensures GoodStep(w, db, MarkProviderDegraded(db, providerId), queued, queued)
  {
    if providerId in db.providers {
      ProviderTablesGood(w, db, queued, db.providers[providerId := db.providers[providerId].(health := Degraded)], db.declared);
    } else {
      Unmoved(w, db, queued);
    }
  }

  lemma {:induction false} ProviderTablesGood(
    w: World, db: Db, queued: set<string>, providers: map<string, Provider>, declared: set<(string, EvidenceClass)>)
    requires DbInv(w, db, queued) && ProvidersEvolve(db, db.(providers := providers, declared := declared))
    ensures GoodStep(w, db, db.(providers := providers, declared := declared), queued, queued)
  {
    SideTablesGood(w, db, db.(providers := providers, declared := declared), queued);
  }

  lemma {:induction false} RejectGood(w: World, db: Db, queued: set<string>, r: Receipt, reason: Rejection)
    requires DbInv(w, db, queued)
    ensures GoodStep(w, db, RecordRejection(db, r, reason), queued, queued)
  {
    SideTablesGood(w, db, RecordRejection(db, r, reason), queued);
  }

  lemma {:induction false} AdvanceGood(w: World, db: Db, queued: set<string>, r: Receipt, stage: Stage)
    requires DbInv(w, db, queued) && StageOk(w.authority, db, queued, r, stage)
    ensures GoodStep(w, db, Advance(w.authority, db, r, stage).0, queued, queued)
  {
    if !Writes(stage) {
      assert Advance(w.authority, db, r, stage).0 == db;
      Unmoved(w, db, queued);
    } else {
      WriteGood(w, db, queued, r, stage);
    }
  }

  lemma {:induction false} WriteGood(w: World, db: Db, queued: set<string>, r: Receipt, stage: Stage)
    requires DbInv(w, db, queued) && StageOk(w.authority, db, queued, r, stage) && Writes(stage)
    ensures GoodStep(w, db, Advance(w.authority, db, r, stage).0, queued, queued)
  {
    match stage
    case Commit(d, next, disposition) =>
      if AcceptReceipt(db, r, d, next, disposition).Accepted? {
        CommitGood(w, db, queued, r, d, next, disposition);
      } else {
        Unmoved(w, db, queued);
      }
    case DegradeProvider => DegradeGood(w, db, queued, r.providerId);
    case Refuse(reason) => RejectGood(w, db, queued, r, reason);
  }

  lemma {:induction false} AdvanceKeepsStage(w: World, db: Db, queued: set<string>, r: Receipt, stage: Stage)
    requires DbInv(w, db, queued) && StageOk(w.authority, db, queued, r, stage)
    ensures StageOk(w.authority, Advance(w.authority, db, r, stage).0, queued, r, Advance(w.authority, db, r, stage).1)
  {
    if !Writes(stage) {
      ReadKeepsStageOk(w.authority, db, queued, r, stage);
    } else if stage.Commit? && AcceptReceipt(db, r, stage.d, stage.next, stage.disposition).Accepted? {
      CommitFiles(db, r, stage.d, stage.next, stage.disposition);
    }
  }

  lemma {:induction false} WorkerStepGood(w: World, db: Db, queued: set<string>, worker: Worker)
    requires DbInv(w, db, queued) && WorkerOk(w, db, queued, worker)
    ensures GoodStep(w, db, WorkerStep(w, db, worker).0, queued, queued)
    ensures WorkerOk(w, WorkerStep(w, db, worker).0, queued, WorkerStep(w, db, worker).1)
  {
    match worker
    case Submitting(r, stage) =>
      AdvanceGood(w, db, queued, r, stage);
      AdvanceKeepsStage(w, db, queued, r, stage);
    case Registering(b, validated) =>
      if validated && InsertBinding(db, b).Some? {
        InsertBindingKeeps(db, w.parse, b);
        BindingTablesGood(w, db, InsertBinding(db, b).value, queued);
      } else {
        Unmoved(w, db, queued);
      }
    case Superseding(oldId, b, validated) =>
      if validated && SupersedeCommit(db, oldId, b).Some? {
        SupersedeKeeps(db, w.parse, oldId, b);
        BindingTablesGood(w, db, SupersedeCommit(db, oldId, b).value, queued);
      } else {
        Unmoved(w, db, queued);
      }
    case Idle => Unmoved(w, db, queued);
  }

  lemma {:induction false} AddGood(w: World, db: Db, queued: set<string>, d: Delivery)
    requires DbInv(w, db, queued) && AddDelivery(db, d).Some?
    ensures GoodStep(w, db, AddDelivery(db, d).value, queued, queued + NewlyQueued(w, db, Add(d)))
  {
    var queued' := queued + NewlyQueued(w, db, Add(d));
    ReceiptsFrame(w.authority, db, AddDelivery(db, d).value, queued, queued');
    DeliveryTablesGood(w, db, AddDelivery(db, d).value, queued, queued');
  }

  lemma {:induction false} DispatchGood(w: World, db: Db, queued: set<string>, id: string)
    requires DbInv(w, db, queued) && SetDispatching(db, id).Some?
    ensures GoodStep(w, db, SetDispatching(db, id).value, queued, queued)
  {
    ReceiptsFrame(w.authority, db, SetDispatching(db, id).value, queued, queued);
    DeliveryTablesGood(w, db, SetDispatching(db, id).value, queued, queued);
  }

  lemma {:induction false} AnnounceReceipts(w: World, db: Db, queued: set<string>, queued': set<string>, q: Request)
    requires DbInv(w, db, queued) && Expand(db, w.parse, q).Expanded? && queued <= queued'
    requires forall id | id in queued' && id !in queued :: exists s :: s in SeatsFor(db, w.parse, q) && s.deliveryId == id
    ensures ReceiptsInv(w.authority, Expand(db, w.parse, q).db, queued')
    ensures forall id | id in queued' && id in db.deliveries :: id in queued
  {
    var after, seats := Expand(db, w.parse, q).db, SeatsFor(db, w.parse, q);
    ExpansionEffect(w, db, q);
    ExpansionEvolves(w, db, queued, q);
    forall id | id in queued' && id !in queued
      ensures id !in db.deliveries && id in after.deliveries && after.deliveries[id].state.Queued? && after.deliveries[id].disposition.None?
    {
      var s :| s in seats && s.deliveryId == id;
      var i :| 0 <= i < |seats| && seats[i] == s;
      assert after.deliveries[seats[i].deliveryId] == DeliveryFor(q.freshId(1), seats[i]);
    }
    forall id | id in after.deliveries ensures after.deliveries[id].deliveryId == id {
      if id !in db.deliveries {
        var i :| 0 <= i < |seats| && seats[i].deliveryId == id;
      }
    }
    ReceiptsFrame(w.authority, db, after, queued, queued');
  }

  lemma {:induction false} AnnounceEvolves(w: World, db: Db, queued: set<string>, q: Request)
    requires DbInv(w, db, queued) && Expand(db, w.parse, q).Expanded?
    ensures Evolves(db, Expand(db, w.parse, q).db) && BindingsInv(Expand(db, w.parse, q).db)
  {
    ExpansionEvolves(w, db, queued, q);
    BindingsFrame(db, Expand(db, w.parse, q).db);
  }

  /** The deliveries newly queued by an expansion are those of its seats. */
  lemma AnnouncedSeats(w: World, db: Db, queued: set<string>, q: Request)
    requires Expand(db, w.parse, q).Expanded?
    ensures var queued' := queued + NewlyQueued(w, db, Announce(q));
            && (forall s | s in SeatsFor(db, w.parse, q) :: s.deliveryId in queued')
            && forall id | id in queued' && id !in queued :: exists s :: s in SeatsFor(db, w.parse, q) && s.deliveryId == id
  {}

  lemma {:induction false} AnnounceGood(w: World, db: Db, queued: set<string>, q: Request)
    requires DbInv(w, db, queued) && Expand(db, w.parse, q).Expanded?
    ensures GoodStep(w, db, Expand(db, w.parse, q).db, queued, queued + NewlyQueued(w, db, Announce(q)))
  {
    var queued' := queued + NewlyQueued(w, db, Announce(q));
    AnnouncedSeats(w, db, queued, q);
    AnnounceEvolves(w, db, queued, q);
    ExpansionKeepsSnapshots(w, db, queued, queued', q);
    AnnounceReceipts(w, db, queued, queued', q);
  }

  lemma {:induction false} ProviderGood(w: World, db: Db, queued: set<string>, providerId: string, kind: ProviderKind, classes: seq<EvidenceClass>)
    requires DbInv(w, db, queued)
    ensures GoodStep(w, db, Written(db, RegisterProvider(db, providerId, kind, classes)), queued, queued)
  {
    if RegisterProvider(db, providerId, kind, classes).Some? {
      ProviderTablesGood(w, db, queued, db.providers[providerId := Provider(kind, Healthy)],
                         db.declared + set c | c in classes :: (providerId, c));
    } else {
      Unmoved(w, db, queued);
    }
  }

  lemma {:induction false} LookupTablesGood(w: World, db: Db, queued: set<string>, principals: map<(string, string), string>,
                         messages: map<(string, string), MessageBinding>, rosters: map<string, seq<string>>)
    requires DbInv(w, db, queued)
    ensures GoodStep(w, db, db.(principals := principals, messages := messages, rosters := rosters), queued, queued)
  {
    SideTablesGood(w, db, db.(principals := principals, messages := messages, rosters := rosters), queued);
  }

  lemma {:induction false} AddTransactGood(w: World, db: Db, queued: set<string>, d: Delivery)
    requires DbInv(w, db, queued)
    ensures GoodStep(w, db, Transact(w, db, Add(d)), queued, queued + NewlyQueued(w, db, Add(d)))
  {
    if AddDelivery(db, d).Some? {
      AddGood(w, db, queued, d);
    } else {
      assert queued + {} == queued;
      Unmoved(w, db, queued);
    }
  }

  lemma {:induction false} DispatchTransactGood(w: World, db: Db, queued: set<string>, id: string)
    requires DbInv(w, db, queued)
    ensures GoodStep(w, db, Transact(w, db, Dispatch(id)), queued, queued + NewlyQueued(w, db, Dispatch(id)))
  {
    assert queued + {} == queued;
    if SetDispatching(db, id).Some? {
      DispatchGood(w, db, queued, id);
    } else {
      Unmoved(w, db, queued);
    }
  }

  lemma {:induction false} AnnounceTransactGood(w: World, db: Db, queued: set<string>, q: Request)
    requires DbInv(w, db, queued)
    ensures GoodStep(w, db, Transact(w, db, Announce(q)), queued, queued + NewlyQueued(w, db, Announce(q)))
  {
    if Expand(db, w.parse, q).Expanded? {
      assert Transact(w, db, Announce(q)) == Expand(db, w.parse, q).db;
      AnnounceGood(w, db, queued, q);
    } else {
      assert Transact(w, db, Announce(q)) == db && queued + NewlyQueued(w, db, Announce(q)) == queued;
      Unmoved(w, db, queued);
    }
  }

  lemma {:induction false} OtherTransactGood(w: World, db: Db, queued: set<string>, action: Action)
    requires DbInv(w, db, queued) && !action.Add? && !action.Dispatch? && !action.Announce?
    ensures GoodStep(w, db, Transact(w, db, action), queued, queued)
  {
    match action
    case AddProvider(p, kind, classes) => ProviderGood(w, db, queued, p, kind, classes);
    case AddPrincipal(p, principal, recipient) =>
      LookupTablesGood(w, db, queued, Written(db, BindPrincipal(db, p, principal, recipient)).principals, db.messages, db.rosters);
    case AddMessage(p, message, m) =>
      LookupTablesGood(w, db, queued, db.principals, Written(db, BindMessage(db, p, message, m)).messages, db.rosters);
    case SetRoster(room, members) =>
      LookupTablesGood(w, db, queued, db.principals, db.messages, Written(db, ReplaceRoster(db, room, members)).rosters);
    case Revoke(id) => RevokeGood(w, db, queued, id);
    case _ => Unmoved(w, db, queued);
  }

  lemma {:induction false} RevokeGood(w: World, db: Db, queued: set<string>, id: string)
    requires DbInv(w, db, queued)
    ensures GoodStep(w, db, Written(db, RevokeBinding(db, id)), queued, queued)
  {
    if RevokeBinding(db, id).Some? {
      RevokeKeeps(db, id);
      BindingTablesGood(w, db, RevokeBinding(db, id).value, queued);
    } else {
      Unmoved(w, db, queued);
    }
  }

  lemma {:induction false} TransactGood(w: World, db: Db, queued: set<string>, action: Action)
    requires DbInv(w, db, queued)
    ensures GoodStep(w, db, Transact(w, db, action), queued, queued + NewlyQueued(w, db, action))
  {
    match action
    case Add(d) => AddTransactGood(w, db, queued, d);
    case Dispatch(id) => DispatchTransactGood(w, db, queued, id);
    case Announce(q) => AnnounceTransactGood(w, db, queued, q);
    case _ =>
      OtherTransactGood(w, db, queued, action);
      assert queued + {} == queued;
  }

  lemma {:induction false} WorkerStays(w: World, a: Db, b: Db, queued: set<string>, queued': set<string>, worker: Worker)
    requires DbInv(w, a, queued) && GoodStep(w, a, b, queued, queued') && WorkerOk(w, a, queued, worker)
    ensures WorkerOk(w, b, queued', worker)
  {
    match worker
    case Submitting(r, stage) => StageOkStays(w.authority, a, b, queued, queued', r, stage);
    case Registering(binding, validated) => if validated { BindingValidStays(a, b, w.parse, binding); }
    case Superseding(_, binding, validated) => if validated { BindingValidStays(a, b, w.parse, binding); }
    case Idle =>
  }

  /** Every action keeps every invariant and only moves the tables forward. */
  lemma {:induction false} StepKeepsInv(w: World, s: State, action: Action)
    requires Inv(w, s)
    ensures Inv(w, Step(w, s, action)) && Evolves(s.db, Step(w, s, action).db)
    ensures s.queued <= Step(w, s, action).queued
  {
    var s' := Step(w, s, action);
    if action.Proceed? && action.pid in s.workers {
      WorkerStepGood(w, s.db, s.queued, s.workers[action.pid]);
    } else if action.Submit? || action.Register? || action.Supersede? || action.Proceed? {
      Unmoved(w, s.db, s.queued);
    } else {
      TransactGood(w, s.db, s.queued, action);
    }
    assert GoodStep(w, s.db, s'.db, s.queued, s'.queued);
    forall pid | pid in s'.workers ensures WorkerOk(w, s'.db, s'.queued, s'.workers[pid]) {
      if pid in s.workers && s'.workers[pid] == s.workers[pid] {
        WorkerStays(w, s.db, s'.db, s.queued, s'.queued, s.workers[pid]);
      }
    }
  }

  lemma {:induction false} InitialInv(w: World)
    ensures Inv(w, INITIAL)
  {}

  lemma {:induction false} RunKeepsInv(w: World, s: State, actions: seq<Action>)
    requires Inv(w, s)
    ensures Inv(w, Run(w, s, actions)) && Evolves(s.db, Run(w, s, actions).db)
    ensures s.queued <= Run(w, s, actions).queued
    decreases |actions|
  {
    if actions == [] {
      Unmoved(w, s.db, s.queued);
    } else {
      var s' := Step(w, s, actions[0]);
      StepKeepsInv(w, s, actions[0]);
      RunKeepsInv(w, s', actions[1..]);
      EvolvesTransitive(s.db, s'.db, Run(w, s', actions[1..]).db);
    }
  }
}
