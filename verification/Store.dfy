/** The mutable store: each method carries out one transaction of `Tables` in place. */
module Store {
  import opened CoreTypes
  import opened Tables

  /** The binding was written with its methods and nothing else changed; it is its recipient's only active
      one. */
  ghost predicate Installed(before: Db, after: Db, b: SessionBinding) {
    && after == before.(bindings := after.bindings, methods := after.methods)
    && after.bindings == before.bindings[b.bindingId := BindingRow(
         b.recipientId, b.providerId, b.adapterInstanceId, b.harness, b.sessionId, b.establishedAt, b.expiresAt, Active)]
    && (forall id | id in after.bindings && after.bindings[id].recipientId == b.recipientId && after.bindings[id].state == Active :: id == b.bindingId)
    && (forall key | key in after.methods ::
          if key in before.methods then after.methods[key] == before.methods[key]
          else key.0 == b.bindingId && exists m | m in b.proofMethods :: m.proofMethod == key.1 && after.methods[key] == m)
    && (forall key | key in before.methods :: key in after.methods)
    && (forall m | m in b.proofMethods :: (b.bindingId, m.proofMethod) in after.methods && after.methods[(b.bindingId, m.proofMethod)] == m)
  }

  lemma {:induction false} MethodsInstalled(
    methods: map<(string, string), ProofMethodRegistration>, bindingId: string, ms: seq<ProofMethodRegistration>)
    requires InsertMethods(methods, bindingId, ms).Some?
    ensures var after := InsertMethods(methods, bindingId, ms).value;
            && (forall key | key in methods :: key in after && after[key] == methods[key])
            && (forall key | key in after && key !in methods ::
                  key.0 == bindingId && exists m | m in ms :: m.proofMethod == key.1 && after[key] == m)
            && (forall m | m in ms :: (bindingId, m.proofMethod) in after && after[(bindingId, m.proofMethod)] == m)
    decreases |ms|
  {
    if ms != [] {
      MethodsInstalled(methods[(bindingId, ms[0].proofMethod) := ms[0]], bindingId, ms[1..]);
    }
  }

  lemma {:induction false} InsertionInstalls(db: Db, b: SessionBinding)
    requires Tables.InsertBinding(db, b).Some? && b.state.Active?
    ensures b.bindingId !in db.bindings && Installed(db, Tables.InsertBinding(db, b).value, b)
  {
    var after := Tables.InsertBinding(db, b).value;
    MethodsInstalled(db.methods, b.bindingId, b.proofMethods);
    forall id | id in after.bindings && after.bindings[id].recipientId == b.recipientId && after.bindings[id].state == Active
      ensures id == b.bindingId
    {
      if id != b.bindingId {
        assert ActiveFor(db, id, b.recipientId);
      }
    }
  }

  class CoreStore {
    const parse: string -> Option<int>
    var deliveries: map<string, Delivery>
    var providers: map<string, Provider>
    var declared: set<(string, EvidenceClass)>
    var principals: map<(string, string), string>
    var messages: map<(string, string), MessageBinding>
    var receipts: seq<ReceiptRow>
    var audit: seq<AuditRow>
    var rejections: seq<RejectionRow<Rejection>>
    var bindings: map<string, BindingRow>
    var methods: map<(string, string), ProofMethodRegistration>
    var rosters: map<string, seq<string>>
    var events: map<string, CanonicalEvent>
    var broadcasts: map<string, BroadcastRow>
    var recipients: seq<RecipientRow>
    var broadcastAudits: map<string, BroadcastAudit>

    function State(): Db
      reads this
    {
      Db(deliveries, providers, declared, principals, messages, receipts, audit, rejections, bindings,
         methods, rosters, events, broadcasts, recipients, broadcastAudits)
    }

    constructor (parse: string -> Option<int>)
      ensures this.parse == parse && State() == EMPTY_DB
    {
      this.parse := parse;
      deliveries, providers, declared, principals, messages := map[], map[], {}, map[], map[];
      receipts, audit, rejections, bindings, methods := [], [], [], map[], map[];
      rosters, events, broadcasts, recipients, broadcastAudits := map[], map[], map[], [], map[];
    }

    method AddDelivery(d: Delivery) returns (ok: bool)
      modifies this
      ensures ok <==> Tables.AddDelivery(old(State()), d).Some?
      ensures State() == if ok then Tables.AddDelivery(old(State()), d).value else old(State())
      ensures ok <==> d.deliveryId !in old(deliveries)
      ensures ok ==> State() == old(State()).(deliveries := old(deliveries)[d.deliveryId := d])
    {
      ok := d.deliveryId !in deliveries;
      if ok {
        deliveries := deliveries[d.deliveryId := d];
      }
    }

    method SetDispatching(deliveryId: string) returns (ok: bool)
      modifies this
      ensures ok <==> Tables.SetDispatching(old(State()), deliveryId).Some?
      ensures State() == if ok then Tables.SetDispatching(old(State()), deliveryId).value else old(State())
      ensures ok <==> deliveryId in old(deliveries) && old(deliveries)[deliveryId].state == Queued
      ensures ok ==> State() == old(State()).(deliveries := old(deliveries)[deliveryId := old(deliveries)[deliveryId].(state := Dispatching)])
    {
      ok := deliveryId in deliveries && deliveries[deliveryId].state.Queued?;
      if ok {
        deliveries := deliveries[deliveryId := deliveries[deliveryId].(state := Dispatching)];
      }
    }

    method InsertReceipt(row: ReceiptRow)
      modifies `receipts
      ensures State() == old(State()).(receipts := old(receipts) + [row])
    {
      receipts := receipts + [row];
    }

    /** The guarded update of a delivery; `ok` is whether a row in the expected state was found. */
    method CompareAndSwap(id: string, expected: DeliveryState, next: DeliveryState, disposition: Option<Disposition>)
      returns (ok: bool)
      requires id in deliveries
      modifies `deliveries
      ensures ok <==> old(deliveries)[id].state == expected
      ensures State() == if !ok then old(State()) else
                old(State()).(deliveries := old(deliveries)[id := old(deliveries)[id].(state := next, disposition := disposition)])
    {
      ok := deliveries[id].state == expected;
      if ok {
        deliveries := deliveries[id := deliveries[id].(state := next, disposition := disposition)];
      }
    }

    method RollbackReceipt(saved: Db)
      requires State() == saved.(receipts := receipts, deliveries := deliveries)
      modifies `receipts, `deliveries
      ensures State() == saved
    {
      receipts, deliveries := saved.receipts, saved.deliveries;
    }

    /** The receipt insert comes first, so a uniqueness error wins over a changed state; whatever
        fails, the tables end as they began. */
    method AcceptReceipt(r: Receipt, d: Delivery, next: DeliveryState, disposition: Option<Disposition>)
      returns (outcome: AcceptOutcome)
      modifies this
      ensures outcome == Tables.AcceptReceipt(old(State()), r, d, next, disposition)
      ensures State() == if outcome.Accepted? then outcome.db else old(State())
    {
      var saved := State();
      if d.bindingId.None? {
        return IntegrityError;
      }
      var row := RowFor(r, d, d.bindingId.value, disposition);
      if ReceiptRowConflicts(saved, row) {
        return IntegrityError;
      }
      InsertReceipt(row);
      var swapped := CompareAndSwap(d.deliveryId, d.state, next, disposition);
      if !swapped {
        RollbackReceipt(saved);
        return StateChanged;
      }
      if exists a | a in audit :: a.receiptId == r.receiptId {
        RollbackReceipt(saved);
        return IntegrityError;
      }
      InsertAudit(AuditFor(r, d, next, disposition));
      outcome := Accepted(State());
    }

    method InsertAudit(row: AuditRow)
      modifies `audit
      ensures State() == old(State()).(audit := old(audit) + [row])
    {
      audit := audit + [row];
    }

    method RecordRejection(r: Receipt, reason: Rejection)
      modifies this
      ensures State() == Tables.RecordRejection(old(State()), r, reason)
      ensures State() == old(State()).(rejections := old(rejections) + [RejectionRow(
                r.receiptId, r.deliveryId, r.providerId, r.evidenceClass, r.proofMethod, r.observedAt, reason)])
    {
      rejections := rejections + [RejectionRow(
        r.receiptId, r.deliveryId, r.providerId, r.evidenceClass, r.proofMethod, r.observedAt, reason)];
    }

    method MarkProviderDegraded(providerId: string)
      modifies this
      ensures State() == Tables.MarkProviderDegraded(old(State()), providerId)
      ensures State() == old(State()).(providers :=
                if providerId in old(providers) then old(providers)[providerId := old(providers)[providerId].(health := Degraded)]
                else old(providers))
    {
      if providerId in providers {
        providers := providers[providerId := providers[providerId].(health := Degraded)];
      }
    }

    method RegisterProvider(providerId: string, kind: ProviderKind, classes: seq<EvidenceClass>) returns (ok: bool)
      modifies this
      ensures ok <==> Tables.RegisterProvider(old(State()), providerId, kind, classes).Some?
      ensures State() == if ok then Tables.RegisterProvider(old(State()), providerId, kind, classes).value else old(State())
      ensures ok <==> && providerId !in old(providers)
                      && (forall i, j | 0 <= i < j < |classes| :: classes[i] != classes[j])
                      && forall c | c in classes :: (providerId, c) !in old(declared)
      ensures ok ==> State() == old(State()).(providers := old(providers)[providerId := Provider(kind, Healthy)],
                                              declared := old(declared) + (set c | c in classes :: (providerId, c)))
    {
      if providerId in providers {
        return false;
      }
      ok := DeclareEvidence(providerId, classes);
      if ok {
        providers := providers[providerId := Provider(kind, Healthy)];
      }
    }

    /** The evidence rows one at a time; a repeated row undoes the rows before it. */
    method DeclareEvidence(providerId: string, classes: seq<EvidenceClass>) returns (ok: bool)
      modifies `declared
      ensures ok <==> Distinct(classes) && forall c | c in classes :: (providerId, c) !in old(declared)
      ensures State() == old(State()).(declared := if ok then old(declared) + (set c | c in classes :: (providerId, c)) else old(declared))
    {
      var saved := declared;
      var i := 0;
      while i < |classes|
        invariant 0 <= i <= |classes|
        invariant Distinct(classes[..i])
        invariant forall c | c in classes[..i] :: (providerId, c) !in saved
        invariant declared == saved + (set c | c in classes[..i] :: (providerId, c))
      {
        assert classes[..i + 1] == classes[..i] + [classes[i]];
        if (providerId, classes[i]) in declared {
          if classes[i] in classes[..i] {
            var j :| 0 <= j < i && classes[..i][j] == classes[i];
            assert classes[j] == classes[i];
          }
          assert classes[i] in classes;
          declared := saved;
          return false;
        }
        declared := declared + {(providerId, classes[i])};
        i := i + 1;
      }
      assert classes[..i] == classes;
      ok := true;
    }

    method BindPrincipal(providerId: string, principalId: string, recipientId: string) returns (ok: bool)
      modifies this
      ensures ok <==> Tables.BindPrincipal(old(State()), providerId, principalId, recipientId).Some?
      ensures State() == if ok then Tables.BindPrincipal(old(State()), providerId, principalId, recipientId).value else old(State())
      ensures ok <==> (providerId, principalId) !in old(principals) && providerId in old(providers)
      ensures ok ==> State() == old(State()).(principals := old(principals)[(providerId, principalId) := recipientId])
    {
      ok := (providerId, principalId) !in principals && providerId in providers;
      if ok {
        principals := principals[(providerId, principalId) := recipientId];
      }
    }

    method BindMessage(providerId: string, messageId: string, m: MessageBinding) returns (ok: bool)
      modifies this
      ensures ok <==> Tables.BindMessage(old(State()), providerId, messageId, m).Some?
      ensures State() == if ok then Tables.BindMessage(old(State()), providerId, messageId, m).value else old(State())
      ensures ok <==> (providerId, messageId) !in old(messages) && providerId in old(providers) && m.deliveryId in old(deliveries)
      ensures ok ==> State() == old(State()).(messages := old(messages)[(providerId, messageId) := m])
    {
      ok := (providerId, messageId) !in messages && providerId in providers && m.deliveryId in deliveries;
      if ok {
        messages := messages[(providerId, messageId) := m];
      }
    }

    /** Writes a validated binding and its methods row by row, rolling back on any collision. */
    method InsertBinding(b: SessionBinding) returns (ok: bool)
      modifies this
      ensures ok <==> Tables.InsertBinding(old(State()), b).Some?
      ensures State() == if ok then Tables.InsertBinding(old(State()), b).value else old(State())
    {
      if BindingConflicts(State(), b) {
        return false;
      }
      ok := InsertProofMethods(b.bindingId, b.proofMethods);
      if ok {
        bindings := bindings[b.bindingId := BindingRowOf(b)];
      }
    }

    method InsertProofMethods(bindingId: string, ms: seq<ProofMethodRegistration>) returns (ok: bool)
      modifies `methods
      ensures ok <==> InsertMethods(old(methods), bindingId, ms).Some?
      ensures State() == old(State()).(methods := if ok then InsertMethods(old(methods), bindingId, ms).value else old(methods))
    {
      var saved := methods;
      var i := 0;
      while i < |ms|
        invariant 0 <= i <= |ms|
        invariant InsertMethods(saved, bindingId, ms) == InsertMethods(methods, bindingId, ms[i..])
      {
        if (bindingId, ms[i].proofMethod) in methods {
          methods := saved;
          return false;
        }
        methods := methods[(bindingId, ms[i].proofMethod) := ms[i]];
        i := i + 1;
      }
      ok := true;
    }

    method RegisterSessionBinding(b: SessionBinding) returns (ok: bool)
      modifies this
      ensures ok <==> BindingValid(old(State()), parse, b) && Tables.InsertBinding(old(State()), b).Some?
      ensures State() == if ok then Tables.InsertBinding(old(State()), b).value else old(State())
      ensures ok ==> b.bindingId !in old(bindings) && Installed(old(State()), State(), b)
    {
      if !BindingValid(State(), parse, b) {
        return false;
      }
      ghost var before := State();
      ok := InsertBinding(b);
      if ok {
        InsertionInstalls(before, b);
      }
    }

    method SupersedeSessionBinding(oldId: string, b: SessionBinding) returns (ok: bool)
      modifies this
      ensures ok <==> SupersedeAllowed(old(State()), parse, oldId, b) && SupersedeCommit(old(State()), oldId, b).Some?
      ensures State() == if ok then SupersedeCommit(old(State()), oldId, b).value else old(State())
      ensures ok ==>
                && oldId in old(bindings) && old(bindings)[oldId].state == Active && old(bindings)[oldId].recipientId == b.recipientId
                && b.bindingId !in old(bindings)
                && Installed(old(State()).(bindings := old(bindings)[oldId := old(bindings)[oldId].(state := Superseded)]), State(), b)
    {
      var saved := State();
      if !SupersedeAllowed(saved, parse, oldId, b) {
        return false;
      }
      bindings := bindings[oldId := bindings[oldId].(state := Superseded)];
      ghost var retired := State();
      ok := InsertBinding(b);
      if ok {
        InsertionInstalls(retired, b);
      } else {
        bindings := saved.bindings;
      }
    }

    method RevokeSessionBinding(id: string) returns (ok: bool)
      modifies this
      ensures ok <==> RevokeBinding(old(State()), id).Some?
      ensures State() == if ok then RevokeBinding(old(State()), id).value else old(State())
      ensures ok <==> id in old(bindings) && old(bindings)[id].state == Active
      ensures ok ==> State() == old(State()).(bindings := old(bindings)[id := old(bindings)[id].(state := Revoked)])
    {
      ok := id in bindings && bindings[id].state.Active?;
      if ok {
        bindings := bindings[id := bindings[id].(state := Revoked)];
      }
    }

    method ReplaceRoomRoster(roomId: string, members: seq<string>) returns (ok: bool)
      modifies this
      ensures ok <==> ReplaceRoster(old(State()), roomId, members).Some?
      ensures State() == if ok then ReplaceRoster(old(State()), roomId, members).value else old(State())
      ensures ok <==> && roomId != "" && members != [] && (forall m | m in members :: m != "")
                      && forall i, j | 0 <= i < j < |members| :: members[i] != members[j]
      ensures ok ==> State() == old(State()).(rosters := old(rosters)[roomId := members])
    {
      ok := roomId != "" && members != [] && "" !in members && Distinct(members);
      if ok {
        rosters := rosters[roomId := members];
      }
    }
  }
}
