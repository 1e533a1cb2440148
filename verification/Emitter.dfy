/** Turns correlated harness events into the two receipt stages of a turn. */
module Emitter {
  import opened CoreTypes

  const PROOF_METHOD := "cmux.event_bus.harness_hook_relay"
  const UNSCOPED := "<unscoped>"

  /** The correlation fields both marker forms carry. */
  datatype WireMarker = WireMarker(deliveryId: string, bindingId: string, signature: string)

  /** The deployment: marker decoding and the authoritative delivery lookup are fixed functions. */
  datatype Wiring = Wiring(
    providerId: string,
    extract: string -> Option<WireMarker>,
    lookup: string -> Option<(Delivery, DeliveryMarker)>)

  /** One translated event with the payload fields that matter here; a field of the wrong type is
      absent. */
  datatype Observation = Observation(
    event: SourceEventRef,
    phase: Option<string>,
    preview: Option<string>,
    observedAt: string,
    workspaceId: Option<string>)

  function KeyOf(o: Observation): string {
    if Blank(o.workspaceId) then UNSCOPED else o.workspaceId.value
  }

  datatype Pending = Pending(input: Option<SourceEventRef>, prompt: Option<SourceEventRef>, marker: Option<WireMarker>)
  datatype Turn = Turn(delivery: Delivery, marker: DeliveryMarker, events: seq<SourceEventRef>)

  datatype State = State(pending: map<string, Pending>, active: map<(string, string), Turn>)

  const IDLE := State(map[], map[])

  /** The stable id of the receipt that an event's arrival emits. */
  function ReceiptIdOf(sourceEventId: string): string {
    "rec-" + sourceEventId
  }

  lemma ReceiptIdsDiffer(a: string, b: string)
    ensures ReceiptIdOf(a) == ReceiptIdOf(b) ==> a == b
  {
    assert ReceiptIdOf(a)[4..] == a && ReceiptIdOf(b)[4..] == b;
  }

  function ReceiptFor(w: Wiring, t: Turn, last: SourceEventRef, sessionId: string, c: EvidenceClass,
                      disposition: Option<Disposition>, observedAt: string): Receipt
  {
    Receipt(
      ReceiptIdOf(last.sourceEventId), t.delivery.eventId, t.delivery.deliveryId, t.delivery.attemptId, t.delivery.bindingId,
      w.providerId, c, PROOF_METHOD, observedAt, Some(last.sourceEventId), None, None, disposition, false, false,
      Some(SessionProof(sessionId, t.marker, t.events, None)))
  }

  /** The turn a prompt hook opens: a complete pending chain whose marker names a bound delivery. */
  function OpenedTurn(w: Wiring, p: Pending, hook: SourceEventRef): Option<Turn> {
    if p.input.None? || p.prompt.None? || p.marker.None? then None
    else
      var context := w.lookup(p.marker.value.deliveryId);
      if context.None? || Blank(context.value.0.bindingId) then None
      else Some(Turn(context.value.0, context.value.1, [p.input.value, p.prompt.value, hook]))
  }

  function DecodedPreview(w: Wiring, o: Observation): Option<WireMarker> {
    if o.preview.Some? then w.extract(o.preview.value) else None
  }

  /** One event: the next correlation state and the receipt it emits, if any. */
  function ObserveEvent(w: Wiring, s: State, o: Observation): (State, Option<Receipt>) {
    var key, e := KeyOf(o), o.event;
    match e.eventName
    case InputSent => (s.(pending := s.pending[key := Pending(Some(e), None, None)]), None)
    case PromptSubmitted =>
      var input := if key in s.pending then s.pending[key].input else None;
      (s.(pending := s.pending[key := Pending(input, Some(e), DecodedPreview(w, o))]), None)
    case HookPromptSubmit =>
      var popped := s.(pending := s.pending - {key});
      if Blank(e.sessionId) || key !in s.pending then (popped, None)
      else
        var turn := OpenedTurn(w, s.pending[key], e);
        if turn.None? then (popped, None)
        else (popped.(active := s.active[(key, e.sessionId.value) := turn.value]),
              Some(ReceiptFor(w, turn.value, e, e.sessionId.value, HarnessPromptAccepted, None, o.observedAt)))
    case HookStop =>
      if Blank(e.sessionId) || (key, e.sessionId.value) !in s.active then (s, None)
      else
        var turn := s.active[(key, e.sessionId.value)];
        var popped := s.(active := s.active - {(key, e.sessionId.value)});
        if Blank(turn.delivery.bindingId) then (popped, None)
        else (popped, Some(ReceiptFor(w, turn.(events := turn.events + [e]), e, e.sessionId.value, HarnessTurnCompleted,
                                      Some(Completed), o.observedAt)))
    case _ => (s, None)
  }

  /** The core's receiving end: a receipt is durably on the list, or the call fails. */
  class CoreClient {
    var received: seq<Receipt>

    constructor ()
      ensures received == []
    {
      received := [];
    }

    /** `available` is whether the core can take the receipt now. */
    method Deliver(r: Receipt, available: bool) returns (ok: bool)
      modifies this
      ensures ok == available
      ensures received == if ok then old(received) + [r] else old(received)
    {
      if available {
        received := received + [r];
      }
      ok := available;
    }
  }

  class ReceiptEmitter {
    const w: Wiring
    const core: CoreClient
    var pendingChains: map<string, Pending>
    var activeChains: map<(string, string), Turn>

    function Current(): State
      reads this
    {
      State(pendingChains, activeChains)
    }

    constructor (w: Wiring, core: CoreClient)
      ensures this.w == w && this.core == core && Current() == IDLE
    {
      this.w, this.core := w, core;
      pendingChains, activeChains := map[], map[];
    }

    /** Observes one event; `ok` is false only when the core could not take an emitted receipt, and
        then the core has received nothing. */
    method Observe(o: Observation, available: bool) returns (ok: bool)
      modifies this, core
      ensures ok ==> Current() == ObserveEvent(w, old(Current()), o).0
      ensures ok ==> core.received == old(core.received) + Emitted(ObserveEvent(w, old(Current()), o).1)
      ensures !ok ==> !available && core.received == old(core.received)
      ensures available ==> ok
    {
      var key, e := KeyOf(o), o.event;
      ok := true;
      match e.eventName {
        case InputSent =>
          pendingChains := pendingChains[key := Pending(Some(e), None, None)];
        case PromptSubmitted =>
          var pending := if key in pendingChains then pendingChains[key] else Pending(None, None, None);
          pendingChains := pendingChains[key := pending.(prompt := Some(e), marker := DecodedPreview(w, o))];
        case HookPromptSubmit =>
          ok := OpenTurn(key, e, o.observedAt, available);
        case HookStop =>
          ok := CloseTurn(key, e, o.observedAt, available);
        case _ =>
      }
    }

    method OpenTurn(key: string, e: SourceEventRef, observedAt: string, available: bool) returns (ok: bool)
      requires e.eventName == HookPromptSubmit
      modifies this, core
      ensures forall o: Observation | o.event == e && KeyOf(o) == key && o.observedAt == observedAt ::
                ok ==> Current() == ObserveEvent(w, old(Current()), o).0
                       && core.received == old(core.received) + Emitted(ObserveEvent(w, old(Current()), o).1)
      ensures !ok ==> !available && core.received == old(core.received)
      ensures available ==> ok
    {
      var pending := if key in pendingChains then Some(pendingChains[key]) else None;
      pendingChains := pendingChains - {key};
      ok := true;
      if Blank(e.sessionId) || pending.None? {
        return;
      }
      var turn := OpenedTurn(w, pending.value, e);
      if turn.Some? {
        ok := core.Deliver(ReceiptFor(w, turn.value, e, e.sessionId.value, HarnessPromptAccepted, None, observedAt), available);
        if ok {
          activeChains := activeChains[(key, e.sessionId.value) := turn.value];
        }
      }
    }

    method CloseTurn(key: string, e: SourceEventRef, observedAt: string, available: bool) returns (ok: bool)
      requires e.eventName == HookStop
      modifies this, core
      ensures forall o: Observation | o.event == e && KeyOf(o) == key && o.observedAt == observedAt ::
                ok ==> Current() == ObserveEvent(w, old(Current()), o).0
                       && core.received == old(core.received) + Emitted(ObserveEvent(w, old(Current()), o).1)
      ensures !ok ==> !available && core.received == old(core.received)
      ensures available ==> ok
    {
      ok := true;
      if Blank(e.sessionId) || (key, e.sessionId.value) !in activeChains {
        return;
      }
      var turn := activeChains[(key, e.sessionId.value)];
      activeChains := activeChains - {(key, e.sessionId.value)};
      if !Blank(turn.delivery.bindingId) {
        ok := core.Deliver(
          ReceiptFor(w, turn.(events := turn.events + [e]), e, e.sessionId.value, HarnessTurnCompleted, Some(Completed), observedAt),
          available);
      }
    }
  }

  function Emitted(r: Option<Receipt>): seq<Receipt> {
    if r.Some? then [r.value] else []
  }
}
