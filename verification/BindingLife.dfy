/** The life of a session binding: what lets it in, what retires it, and that nothing proved under a retired
    one is ever accepted again. */
module BindingLife {
  import opened CoreTypes
  import opened Proofs
  import opened Tables
  import opened Reducer
  import opened Ledgers
  import opened Submissions
  import opened Machine
  import opened Reachable
  import opened StoreTheorems
  import opened Acceptance
  import Store

  /** A binding that names everything, is in force for some time, and whose methods are named once each and
      carry nothing its session transport does not declare. */
  ghost predicate Complete(db: Db, parse: string -> Option<int>, b: SessionBinding) {
    && b.state == Active
    && b.bindingId != "" && b.recipientId != "" && b.providerId != "" && b.adapterInstanceId != "" && b.harness != "" && b.sessionId != ""
    && parse(b.establishedAt).Some? && parse(b.expiresAt).Some? && parse(b.establishedAt).value < parse(b.expiresAt).value
    && b.providerId in db.providers && db.providers[b.providerId].kind == SessionTransport
    && b.proofMethods != []
    && (forall i, j | 0 <= i < j < |b.proofMethods| :: b.proofMethods[i].proofMethod != b.proofMethods[j].proofMethod)
    && (forall m | m in b.proofMethods ::
          && m.proofMethod != "" && m.sourceInstanceId != "" && m.evidenceClasses != {}
          && forall c | c in m.evidenceClasses :: (b.providerId, c) in db.declared)
  }

  /** Its id and its method keys are free, and its recipient has no active binding. */
  ghost predicate Unopposed(db: Db, b: SessionBinding) {
    && b.bindingId !in db.bindings
    && (forall id | id in db.bindings && db.bindings[id].recipientId == b.recipientId :: db.bindings[id].state != Active)
    && (forall m | m in b.proofMethods :: (b.bindingId, m.proofMethod) !in db.methods)
  }

  lemma {:induction false} MethodsInsertable(
    methods: map<(string, string), ProofMethodRegistration>, bindingId: string, ms: seq<ProofMethodRegistration>)
    requires forall i, j | 0 <= i < j < |ms| :: ms[i].proofMethod != ms[j].proofMethod
    ensures InsertMethods(methods, bindingId, ms).Some? <==> forall m | m in ms :: (bindingId, m.proofMethod) !in methods
    decreases |ms|
  {
    if ms != [] {
      MethodsInsertable(methods[(bindingId, ms[0].proofMethod) := ms[0]], bindingId, ms[1..]);
      assert ms[0] in ms;
      forall i | 1 <= i < |ms| ensures ms[i] in ms && ms[i].proofMethod != ms[0].proofMethod {
      }
      assert forall m | m in ms[1..] :: m in ms && m.proofMethod != ms[0].proofMethod;
    }
  }

  /** A registration succeeds exactly when the binding is complete and unopposed. */
  lemma {:induction false} RegistersExactly(db: Db, parse: string -> Option<int>, b: SessionBinding)
    ensures BindingValid(db, parse, b) && InsertBinding(db, b).Some? <==> Complete(db, parse, b) && Unopposed(db, b)
  {
    if Complete(db, parse, b) || BindingValid(db, parse, b) {
      MethodsInsertable(db.methods, b.bindingId, b.proofMethods);
      forall id | id in db.bindings ensures ActiveFor(db, id, b.recipientId) <==> db.bindings[id].recipientId == b.recipientId && db.bindings[id].state == Active {
      }
    }
  }

  /** A supersession succeeds exactly when the old binding is active for the same recipient, and the
      replacement is complete and, the old one aside, unopposed. */
  lemma {:induction false} SupersedesExactly(db: Db, parse: string -> Option<int>, oldId: string, b: SessionBinding)
    ensures SupersedeAllowed(db, parse, oldId, b) && SupersedeCommit(db, oldId, b).Some?
       <==> && oldId in db.bindings && db.bindings[oldId].state == Active && db.bindings[oldId].recipientId == b.recipientId
            && Complete(db, parse, b)
            && Unopposed(db.(bindings := db.bindings[oldId := db.bindings[oldId].(state := Superseded)]), b)
  {
    if oldId in db.bindings {
      var retired := db.(bindings := db.bindings[oldId := db.bindings[oldId].(state := Superseded)]);
      RegistersExactly(retired, parse, b);
      assert Complete(retired, parse, b) <==> Complete(db, parse, b);
      assert BindingValid(retired, parse, b) <==> BindingValid(db, parse, b);
    }
  }

  // ---------------------------------------------------------------- retirement

  /** Under a binding that is not active no session receipt is accepted, now or after any further run. */
  lemma {:induction false} InactiveNeverAccepts(w: World, actions: seq<Action>, more: seq<Action>, id: string, r: Receipt)
    requires id in After(w, actions).db.bindings && After(w, actions).db.bindings[id].state != Active
    requires r.bindingId == Some(id) && IsSessionProofEvidence(r.evidenceClass)
    ensures !IsAccepted(w.authority, Run(w, After(w, actions), more).db, r)
  {
    RetiredForever(w, actions, more, id);
    InactiveRefuses(w.authority, Run(w, After(w, actions), more).db, id, r);
  }

  lemma {:induction false} InactiveRefuses(authority: Option<MarkerAuthority>, db: Db, id: string, r: Receipt)
    requires id in db.bindings && db.bindings[id].state != Active
    requires r.bindingId == Some(id) && IsSessionProofEvidence(r.evidenceClass)
    ensures !IsAccepted(authority, db, r)
  {
    if !Presented(db, r) {
      UnpresentedStops(authority, db, r);
    } else {
      var d, kind := db.deliveries[r.deliveryId], db.providers[r.providerId].kind;
      if d.mode == ChannelNative || Transition(r, d, kind).Refused? {
        SessionRefused(authority, db, r);
      } else {
        InactiveVerdict(authority, db, id, r, d, Transition(r, d, kind).next, Transition(r, d, kind).disposition);
        PresentedGoesOn(authority, db, r);
      }
    }
  }

  lemma {:induction false} InactiveVerdict(
    authority: Option<MarkerAuthority>, db: Db, id: string, r: Receipt, d: Delivery, next: DeliveryState, disposition: Option<Disposition>)
    requires id in db.bindings && db.bindings[id].state != Active
    requires r.bindingId == Some(id) && IsSessionProofEvidence(r.evidenceClass)
    ensures !Alone(authority, db, r, AfterTransition(authority, r, d, next, disposition)).1.AcceptedAs?
  {
    SessionStepsAlone(authority, db, r, d, next, disposition);
    RefusalEnds(authority, db, r, SessionVerdict(authority, db, r, d).value);
  }

  lemma {:induction false} OneMoreAction(w: World, actions: seq<Action>, a: Action, more: seq<Action>)
    ensures After(w, actions + [a]) == Step(w, After(w, actions), a)
    ensures Run(w, After(w, actions + [a]), more) == Run(w, Step(w, After(w, actions), a), more)
  {
    RunOn(w, INITIAL, actions, a);
  }

  lemma {:induction false} RunOn(w: World, s: State, actions: seq<Action>, a: Action)
    ensures Run(w, s, actions + [a]) == Step(w, Run(w, s, actions), a)
    decreases |actions|
  {
    if actions == [] {
      assert [] + [a] == [a] && [a][1..] == [];
      assert Run(w, s, [a]) == Run(w, Step(w, s, a), []);
    } else {
      assert (actions + [a])[0] == actions[0] && (actions + [a])[1..] == actions[1..] + [a];
      RunOn(w, Step(w, s, actions[0]), actions[1..], a);
    }
  }

  /** A revocation retires exactly that binding, and no session receipt under it is accepted from then on. */
  lemma {:induction false} RevocationEnds(w: World, actions: seq<Action>, more: seq<Action>, id: string, r: Receipt)
    requires id in After(w, actions).db.bindings && After(w, actions).db.bindings[id].state == Active
    requires r.bindingId == Some(id) && IsSessionProofEvidence(r.evidenceClass)
    ensures var before, after := After(w, actions).db, Step(w, After(w, actions), Revoke(id)).db;
            after == before.(bindings := before.bindings[id := before.bindings[id].(state := Revoked)])
    ensures !IsAccepted(w.authority, Run(w, Step(w, After(w, actions), Revoke(id)), more).db, r)
  {
    OneMoreAction(w, actions, Revoke(id), more);
    InactiveNeverAccepts(w, actions + [Revoke(id)], more, id, r);
  }

  lemma {:induction false} SupersessionStep(w: World, s: State, pid: nat, oldId: string, b: SessionBinding)
    requires pid in s.workers && s.workers[pid] == Superseding(oldId, b, true) && WorkerOk(w, s.db, s.queued, s.workers[pid])
    requires oldId in s.db.bindings && SupersedeCommit(s.db, oldId, b).Some?
    ensures var before, after := s.db, Step(w, s, Proceed(pid)).db;
            && Store.Installed(before.(bindings := before.bindings[oldId := before.bindings[oldId].(state := Superseded)]), after, b)
            && oldId != b.bindingId && after.bindings[oldId] == before.bindings[oldId].(state := Superseded)
  {
    assert BindingValid(s.db, w.parse, b);
    SupersessionInstalls(s.db, oldId, b);
    assert Step(w, s, Proceed(pid)).db == SupersedeCommit(s.db, oldId, b).value;
  }

  lemma SupersessionInstalls(db: Db, oldId: string, b: SessionBinding)
    requires oldId in db.bindings && b.state.Active? && SupersedeCommit(db, oldId, b).Some?
    ensures var after := SupersedeCommit(db, oldId, b).value;
            && Store.Installed(db.(bindings := db.bindings[oldId := db.bindings[oldId].(state := Superseded)]), after, b)
            && oldId != b.bindingId && after.bindings[oldId] == db.bindings[oldId].(state := Superseded)
  {
    Store.InsertionInstalls(db.(bindings := db.bindings[oldId := db.bindings[oldId].(state := Superseded)]), b);
  }

  /** The write of a supersession retires the old binding and leaves the replacement as its recipient's only
      active one, and no session receipt under the old one is accepted from then on. */
  lemma {:induction false} SupersessionEnds(
    w: World, actions: seq<Action>, more: seq<Action>, pid: nat, oldId: string, b: SessionBinding, r: Receipt)
    requires pid in After(w, actions).workers && After(w, actions).workers[pid] == Superseding(oldId, b, true)
    requires oldId in After(w, actions).db.bindings && SupersedeCommit(After(w, actions).db, oldId, b).Some?
    requires r.bindingId == Some(oldId) && IsSessionProofEvidence(r.evidenceClass)
    ensures var before, after := After(w, actions).db, Step(w, After(w, actions), Proceed(pid)).db;
            && Store.Installed(before.(bindings := before.bindings[oldId := before.bindings[oldId].(state := Superseded)]), after, b)
            && oldId != b.bindingId && after.bindings[oldId] == before.bindings[oldId].(state := Superseded)
    ensures !IsAccepted(w.authority, Run(w, Step(w, After(w, actions), Proceed(pid)), more).db, r)
  {
    AfterInv(w, actions);
    SupersessionStep(w, After(w, actions), pid, oldId, b);
    OneMoreAction(w, actions, Proceed(pid), more);
    InactiveNeverAccepts(w, actions + [Proceed(pid)], more, oldId, r);
  }

  // ---------------------------------------------------------------- what is on file

  /** A stored binding names everything and was in force for some time. */
  predicate RowComplete(parse: string -> Option<int>, b: BindingRow) {
    && b.recipientId != "" && b.providerId != "" && b.adapterInstanceId != "" && b.harness != "" && b.sessionId != ""
    && parse(b.establishedAt).Some? && parse(b.expiresAt).Some? && parse(b.establishedAt).value < parse(b.expiresAt).value
  }

  ghost predicate RowsComplete(w: World, db: Db) {
    && (forall id | id in db.bindings :: id != "" && RowComplete(w.parse, db.bindings[id]))
    && (forall key | key in db.methods ::
          key.1 != "" && db.methods[key].proofMethod == key.1 && db.methods[key].sourceInstanceId != "" && db.methods[key].evidenceClasses != {})
  }

  lemma {:induction false} InsertionComplete(w: World, db: Db, other: Db, b: SessionBinding)
    requires RowsComplete(w, db) && BindingValid(other, w.parse, b) && InsertBinding(db, b).Some?
    ensures RowsComplete(w, InsertBinding(db, b).value)
  {
    Store.MethodsInstalled(db.methods, b.bindingId, b.proofMethods);
  }

  lemma {:induction false} SubmissionKeepsBindings(authority: Option<MarkerAuthority>, db: Db, r: Receipt, stage: Stage)
    ensures SameBindings(db, Advance(authority, db, r, stage).0)
  {
    if stage.Commit? {
      CommitKeepsBindings(authority, db, r, stage.d, stage.next, stage.disposition);
    } else if !Writes(stage) {
      ReadChangesNothing(authority, db, r, stage);
    } else {
      RefusalKeepsBindings(authority, db, r, stage);
    }
  }

  lemma {:induction false} RefusalKeepsBindings(authority: Option<MarkerAuthority>, db: Db, r: Receipt, stage: Stage)
    requires stage.DegradeProvider? || stage.Refuse?
    ensures SameBindings(db, Advance(authority, db, r, stage).0)
  {
    if stage.Refuse? {
      RefuseStep(authority, db, r, stage.reason);
    } else {
      assert Advance(authority, db, r, DegradeProvider).0 == MarkProviderDegraded(db, r.providerId);
    }
  }

  lemma {:induction false} RefuseStep(authority: Option<MarkerAuthority>, db: Db, r: Receipt, reason: Rejection)
    ensures Advance(authority, db, r, Refuse(reason)) == (RecordRejection(db, r, reason), Finished(Rejected(reason)))
  {}

  predicate SameBindings(a: Db, b: Db) {
    b.bindings == a.bindings && b.methods == a.methods
  }

  lemma {:induction false} ReadChangesNothing(authority: Option<MarkerAuthority>, db: Db, r: Receipt, stage: Stage)
    requires !Writes(stage)
    ensures Advance(authority, db, r, stage).0 == db
  {
    assert Advance(authority, db, r, stage) == (db, NextStage(authority, db, r, stage));
  }

  lemma {:induction false} CommitKeepsBindings(
    authority: Option<MarkerAuthority>, db: Db, r: Receipt, d: Delivery, next: DeliveryState, disposition: Option<Disposition>)
    ensures SameBindings(db, Advance(authority, db, r, Commit(d, next, disposition)).0)
  {
    var outcome := AcceptReceipt(db, r, d, next, disposition);
    assert outcome.Accepted? ==> outcome.db.bindings == db.bindings && outcome.db.methods == db.methods;
  }

  lemma {:induction false} WorkerKeepsComplete(w: World, db: Db, queued: set<string>, worker: Worker)
    requires RowsComplete(w, db) && WorkerOk(w, db, queued, worker)
    ensures RowsComplete(w, WorkerStep(w, db, worker).0)
  {
    match worker
    case Submitting(r, stage) => SubmissionKeepsBindings(w.authority, db, r, stage);
    case Registering(b, true) =>
      if InsertBinding(db, b).Some? {
        InsertionComplete(w, db, db, b);
      }
    case Superseding(oldId, b, true) =>
      if SupersedeCommit(db, oldId, b).Some? {
        var retired := if oldId in db.bindings then db.(bindings := db.bindings[oldId := db.bindings[oldId].(state := Superseded)]) else db;
        InsertionComplete(w, retired, db, b);
      }
    case _ =>
  }

  lemma {:induction false} TransactionKeepsComplete(w: World, db: Db, action: Action)
    requires RowsComplete(w, db)
    ensures RowsComplete(w, Transact(w, db, action))
  {}

  lemma {:induction false} RunKeepsComplete(w: World, s: State, actions: seq<Action>)
    requires Inv(w, s) && RowsComplete(w, s.db)
    ensures RowsComplete(w, Run(w, s, actions).db)
    decreases |actions|
  {
    if actions != [] {
      if actions[0].Proceed? && actions[0].pid in s.workers {
        WorkerKeepsComplete(w, s.db, s.queued, s.workers[actions[0].pid]);
      } else {
        TransactionKeepsComplete(w, s.db, actions[0]);
      }
      StepKeepsInv(w, s, actions[0]);
      RunKeepsComplete(w, Step(w, s, actions[0]), actions[1..]);
    }
  }

  /** In every reachable state each binding on file is complete, and so is each of its methods. */
  lemma {:induction false} BindingsStayComplete(w: World, actions: seq<Action>)
    ensures RowsComplete(w, After(w, actions).db)
  {
    InitialInv(w);
    RunKeepsComplete(w, INITIAL, actions);
  }
}
