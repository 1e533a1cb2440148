/** From the frames on the wire to a processed delivery: projection, storage, translation, correlation and
    the core, over one turn within a mixed stream. */
module StoredTurns {
  import opened CoreTypes
  import opened Proofs
  import opened Tables
  import opened Reducer
  import opened Emitter
  import opened Producer
  import opened Correlation
  import opened Soundness
  import opened EndToEnd
  import opened Resident
  import Marker

  /** This repository's own marker reader on both sides of the store, and a text that parses as it prints. */
  ghost predicate Deployed(long: Marker.LongForm, plant: Plant, p: Projector) {
    && Marker.LongOk(long) && plant.wiring.extract == WireExtract(long) && p.redact == (text => TokenOf(long, text))
    && forall j, rest :: plant.parseJson(p.render(j, rest)) == Some(j)
  }

  predicate Storable(p: Projector, f: Frame, bootId: string) {
    Project(p, f, bootId).Some? && !Blank(f.body.occurredAt)
  }

  predicate AllStorable(p: Projector, frames: seq<Frame>, bootId: string) {
    bootId != "" && forall i | 0 <= i < |frames| :: Storable(p, frames[i], bootId)
  }

  /** The events that frames leave in the store. */
  function StoredAll(p: Projector, frames: seq<Frame>, bootId: string): (events: seq<DerivedEvent>)
    requires AllStorable(p, frames, bootId)
    ensures |events| == |frames| && forall i | 0 <= i < |frames| :: events[i] == Project(p, frames[i], bootId).value
  {
    seq(|frames|, i requires 0 <= i < |frames| => Project(p, frames[i], bootId).value)
  }

  /** The server's own order: numbers rise and ids differ. */
  predicate ServedInOrder(frames: seq<Frame>) {
    && (forall f | f in frames :: f.EventFrame? && f.seqNo.Some? && f.id.Some?)
    && (forall i, j | 0 <= i < j < |frames| :: frames[i].seqNo.value < frames[j].seqNo.value && frames[i].id != frames[j].id)
  }

  /** A preview of what the injector typed for a marker, cut somewhere behind the token. */
  predicate CutOf(m: DeliveryMarker, prefix: string, body: string, n: nat, preview: Option<string>) {
    && Marker.EncodeShort(m).Some? && 'y' !in prefix
    && |prefix| + |Marker.EncodeShort(m).value| <= n <= |Marker.Typed(prefix, Marker.EncodeShort(m).value, body)|
    && preview == Some(Marker.Typed(prefix, Marker.EncodeShort(m).value, body)[..n])
  }

  ghost predicate ShowsTyped(m: DeliveryMarker, preview: Option<string>) {
    exists prefix, body, n: nat :: CutOf(m, prefix, body, n, preview)
  }

  /** Every prompt of the workspace shows what was typed for the marker. */
  ghost predicate PromptsTyped(frames: seq<Frame>, key: string, m: DeliveryMarker) {
    forall f | f in frames && f.EventFrame? && f.name == Some(PromptSubmitted) && WorkspaceOf(f) == key ::
      ShowsTyped(m, f.body.preview)
  }

  function WorkspaceOf(f: Frame): string
    requires f.EventFrame?
  {
    if Blank(f.body.workspaceId) then UNSCOPED else f.body.workspaceId.value
  }

  // ---------------------------------------------------------------- what the store gives back

  lemma {:induction false} AllTranslate(plant: Plant, events: seq<DerivedEvent>)
    requires forall e | e in events :: Translate(plant, e).Some?
    ensures |TranslateAll(plant, events)| == |events|
    ensures forall i | 0 <= i < |events| :: TranslateAll(plant, events)[i] == Translate(plant, events[i]).value
  {
    if events != [] {
      assert events[0] in events;
      forall e | e in events[1..] ensures Translate(plant, e).Some? {
        assert e in events;
      }
      AllTranslate(plant, events[1..]);
    }
  }

  /** The observations of stored events are those of the frames, one for one. */
  lemma {:induction false} StoredIsObserved(long: Marker.LongForm, plant: Plant, p: Projector, frames: seq<Frame>, bootId: string)
    requires Deployed(long, plant, p) && AllStorable(p, frames, bootId)
    ensures var os := TranslateAll(plant, StoredAll(p, frames, bootId));
            && |os| == |frames|
            && forall i | 0 <= i < |frames| :: Storable(p, frames[i], bootId) && os[i] == DirectObservation(plant.wiring, p, frames[i])
  {
    var events := StoredAll(p, frames, bootId);
    forall i | 0 <= i < |frames|
      ensures Storable(p, frames[i], bootId) && Translate(plant, events[i]) == Some(DirectObservation(plant.wiring, p, frames[i]))
    {
      StoredEventKeepsItsMarker(long, plant, p, frames[i], bootId);
    }
    forall e | e in events ensures Translate(plant, e).Some? {
      var i :| 0 <= i < |events| && events[i] == e;
      assert Storable(p, frames[i], bootId);
    }
    AllTranslate(plant, events);
  }

  lemma {:induction false} StoredBootStream(long: Marker.LongForm, plant: Plant, p: Projector, frames: seq<Frame>, bootId: string)
    requires Deployed(long, plant, p) && AllStorable(p, frames, bootId) && ServedInOrder(frames)
    ensures BootStream(TranslateAll(plant, StoredAll(p, frames, bootId)), p.sourceInstanceId, bootId)
  {
    StoredIsObserved(long, plant, p, frames, bootId);
  }

  lemma {:induction false} OneWorkspaceInOrder(os: seq<Observation>, key: string, source: string, bootId: string)
    requires BootStream(os, source, bootId)
    ensures BootStream(OnlyKey(os, key), source, bootId) && forall o | o in OnlyKey(os, key) :: o in os
  {
    if os != [] {
      var front, last := os[..|os| - 1], os[|os| - 1];
      OneWorkspaceInOrder(front, key, source, bootId);
      forall o | o in OnlyKey(front, key) ensures o.event.seqNo < last.event.seqNo && o.event.sourceEventId != last.event.sourceEventId && o in os {
        var i :| 0 <= i < |front| && front[i] == o;
        assert os[i] == o;
      }
    }
  }

  /** A stored prompt that shows what was typed is observed with the marker's delivery, binding and signature. */
  lemma {:induction false} StoredPromptCarriesMarker(long: Marker.LongForm, plant: Plant, p: Projector, f: Frame, m: DeliveryMarker)
    requires Deployed(long, plant, p)
    requires f.EventFrame? && f.bootId.Some? && Storable(p, f, f.bootId.value) && f.name == Some(PromptSubmitted)
    requires ShowsTyped(m, f.body.preview)
    ensures var o := DirectObservation(plant.wiring, p, f);
            && CarriesMarker(plant.wiring, o, WireMarker(m.claims.deliveryId, m.claims.bindingId, m.signature))
            && o.event.bindingId == Some(m.claims.bindingId)
  {
    var prefix, body, n: nat :| CutOf(m, prefix, body, n, f.body.preview);
    TypedMarkerIsObserved(long, m, prefix, body, n);
    if Marker.Extract(long, f.body.preview.value).Some? {
      Marker.ExtractAgain(long, f.body.preview.value);
    }
  }

  // ---------------------------------------------------------------- the turn

  predicate SameWorkspace(o: Observation, key: string) {
    KeyOf(o) == key && !o.event.eventName.InputSent?
  }

  /** The order of a turn's events in its workspace, whatever its prompts show. */
  ghost predicate TurnSkeleton(t: TurnShape, key: string, session: string) {
    && t.input.event.eventName.InputSent? && KeyOf(t.input) == key
    && (forall o | o in t.a :: SameWorkspace(o, key) && !o.event.eventName.PromptSubmitted? && !UsableHook(o))
    && KeyOf(t.prompt) == key && t.prompt.event.eventName.PromptSubmitted?
    && (forall o | o in t.b :: SameWorkspace(o, key) && !UsableHook(o))
    && KeyOf(t.hook) == key && t.hook.event.eventName.HookPromptSubmit? && UsableHook(t.hook) && t.hook.event.sessionId == Some(session)
    && (forall o | o in t.c :: SameWorkspace(o, key) && (o.event.eventName.HookStop? ==> !UsableHook(o)))
    && KeyOf(t.stop) == key && t.stop.event.eventName.HookStop? && UsableHook(t.stop) && t.stop.event.sessionId == Some(session)
    && (forall o | o in t.d :: SameWorkspace(o, key))
    && session != ""
  }

  ghost predicate PromptsCarry(w: Wiring, os: seq<Observation>, wire: WireMarker) {
    forall o | o in os && o.event.eventName.PromptSubmitted? :: CarriesMarker(w, o, wire) && o.event.bindingId == Some(wire.bindingId)
  }

  lemma {:induction false} SkeletonIsTurn(w: Wiring, t: TurnShape, key: string, wire: WireMarker, session: string)
    requires TurnSkeleton(t, key, session) && PromptsCarry(w, t.Stream(), wire)
    ensures IsTurn(w, t, key, wire, session)
  {
    NoPromptNoSignature(t.a, None);
    forall o | o in [t.prompt] + t.b + t.c + t.d ensures o in t.Stream() {
    }
  }

  lemma TurnAt(t: TurnShape)
    ensures var i, j, k := 1 + |t.a|, 2 + |t.a| + |t.b|, 3 + |t.a| + |t.b| + |t.c|;
            && k < |t.Stream()| && t.Stream()[0] == t.input && t.Stream()[i] == t.prompt
            && t.Stream()[j] == t.hook && t.Stream()[k] == t.stop
  {}

  lemma FourInOrder(os: seq<Observation>, i: nat, j: nat, k: nat, source: string, bootId: string)
    requires BootStream(os, source, bootId) && 0 < i < j < k < |os|
    requires os[0].event.eventName.InputSent? && os[i].event.eventName.PromptSubmitted?
    requires os[j].event.eventName.HookPromptSubmit? && os[k].event.eventName.HookStop?
    ensures ChainSound([os[0].event, os[i].event, os[j].event, os[k].event], COMPLETED_CHAIN, source)
  {
    var three := [os[0].event, os[i].event, os[j].event];
    assert ChainSound(three, PROMPT_CHAIN, source);
    ExtendedChainSound(three, PROMPT_CHAIN, source, os[k].event);
    assert three + [os[k].event] == [os[0].event, os[i].event, os[j].event, os[k].event];
  }

  /** The four events of a turn stand in stream order. */
  lemma {:induction false} TurnEventsInOrder(t: TurnShape, source: string, bootId: string)
    requires BootStream(t.Stream(), source, bootId)
    requires t.input.event.eventName.InputSent? && t.prompt.event.eventName.PromptSubmitted?
    requires t.hook.event.eventName.HookPromptSubmit? && t.stop.event.eventName.HookStop?
    ensures ChainSound(TurnEvents(t), COMPLETED_CHAIN, source)
  {
    TurnAt(t);
    FourInOrder(t.Stream(), 1 + |t.a|, 2 + |t.a| + |t.b|, 3 + |t.a| + |t.b| + |t.c|, source, bootId);
  }

  /** In a store that holds, among other workspaces' events, one whole turn of a workspace whose prompts were
      typed for the delivery's marker, that workspace's two receipts are accepted, and the delivery is
      processed. */
  lemma {:induction false} StoredTurnIsProcessed(
    long: Marker.LongForm, a: MarkerAuthority, plant: Plant, p: Projector, m: Memory, frames: seq<Frame>, bootId: string,
    t: TurnShape, key: string, session: string, db: Db, d: Delivery, held: Delivery, marker: DeliveryMarker)
    returns (inSession: Db, processed: Db)
    requires Deployed(long, plant, p) && AllStorable(p, frames, bootId) && ServedInOrder(frames)
    requires OnlyKey(TranslateAll(plant, StoredAll(p, frames, bootId)), key) == t.Stream() && TurnSkeleton(t, key, session)
    requires PromptsTyped(frames, key, marker)
    requires plant.wiring.lookup(d.deliveryId) == Some((held, marker)) && SameKeys(held, d) && !Blank(d.bindingId)
    requires CoreReady(a, plant.wiring, db, d, marker, session, p.sourceInstanceId) && d.state.TransportSubmitted?
    requires InBothWindows(a, db, d, marker, t.hook.observedAt) && InBothWindows(a, db, d, marker, t.stop.observedAt)
    requires Fresh(db, EntryReceipt(plant.wiring, t, (held, marker), session))
    requires Fresh(db, CompletionReceipt(plant.wiring, t, (held, marker), session))
    ensures var sent := ReceiptsOf(plant.wiring, m, TranslateAll(plant, StoredAll(p, frames, bootId)), key);
            && |sent| == 2
            && Alone(Some(a), db, sent[0], Begin) == (inSession, AcceptedAs(InSession, None))
            && Alone(Some(a), inSession, sent[1], Begin) == (processed, AcceptedAs(Processed, Some(Completed)))
    ensures processed.deliveries == db.deliveries[d.deliveryId := d.(state := Processed, disposition := Some(Completed))]
  {
    var os := TranslateAll(plant, StoredAll(p, frames, bootId));
    StoredTurn(long, a, plant, p, frames, bootId, t, key, session, d, marker);
    NonInterference(plant.wiring, m, m, os, key);
    inSession, processed := TurnIsProcessed(a, plant.wiring, m, t, key, session, p.sourceInstanceId, db, d, held, marker);
  }

  /** The observations of such a store are a turn of the marker, in order. */
  lemma {:induction false} StoredTurn(
    long: Marker.LongForm, a: MarkerAuthority, plant: Plant, p: Projector, frames: seq<Frame>, bootId: string,
    t: TurnShape, key: string, session: string, d: Delivery, marker: DeliveryMarker)
    requires Deployed(long, plant, p) && AllStorable(p, frames, bootId) && ServedInOrder(frames)
    requires OnlyKey(TranslateAll(plant, StoredAll(p, frames, bootId)), key) == t.Stream() && TurnSkeleton(t, key, session)
    requires PromptsTyped(frames, key, marker)
    requires Mint(a, d, marker.claims.issuedAt, marker.claims.expiresAt) == Some(marker)
    ensures IsTurn(plant.wiring, t, key, WireMarker(d.deliveryId, marker.claims.bindingId, marker.signature), session)
    ensures TurnInOrder(t, d, marker, p.sourceInstanceId)
  {
    var os := TranslateAll(plant, StoredAll(p, frames, bootId));
    var wire := WireMarker(marker.claims.deliveryId, marker.claims.bindingId, marker.signature);
    StoredBootStream(long, plant, p, frames, bootId);
    OneWorkspaceInOrder(os, key, p.sourceInstanceId, bootId);
    TurnEventsInOrder(t, p.sourceInstanceId, bootId);
    PromptsOfStored(long, plant, p, frames, bootId, key, marker);
    SkeletonIsTurn(plant.wiring, t, key, wire, session);
    assert t.prompt in t.Stream();
  }

  lemma {:induction false} PromptsOfStored(
    long: Marker.LongForm, plant: Plant, p: Projector, frames: seq<Frame>, bootId: string, key: string, m: DeliveryMarker)
    requires Deployed(long, plant, p) && AllStorable(p, frames, bootId) && ServedInOrder(frames) && PromptsTyped(frames, key, m)
    ensures PromptsCarry(plant.wiring, OnlyKey(TranslateAll(plant, StoredAll(p, frames, bootId)), key),
                         WireMarker(m.claims.deliveryId, m.claims.bindingId, m.signature))
  {
    var os := TranslateAll(plant, StoredAll(p, frames, bootId));
    var wire := WireMarker(m.claims.deliveryId, m.claims.bindingId, m.signature);
    StoredIsObserved(long, plant, p, frames, bootId);
    OnlyKeyMembers(os, key);
    forall o | o in OnlyKey(os, key) && o.event.eventName.PromptSubmitted?
      ensures CarriesMarker(plant.wiring, o, wire) && o.event.bindingId == Some(wire.bindingId)
    {
      var i :| 0 <= i < |os| && os[i] == o;
      assert Storable(p, frames[i], bootId) && frames[i] in frames;
      StoredPromptCarriesMarker(long, plant, p, frames[i], m);
    }
  }

  lemma {:induction false} OnlyKeyMembers(os: seq<Observation>, key: string)
    ensures forall o | o in OnlyKey(os, key) :: o in os && KeyOf(o) == key
  {
    if os != [] {
      OnlyKeyMembers(os[..|os| - 1], key);
    }
  }
}
