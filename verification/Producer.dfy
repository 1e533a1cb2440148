/** Translates durable stream events and feeds the emitter, collapsing repeated callbacks of one
    workspace turn. */
module Producer {
  import opened CoreTypes
  import opened Emitter

  /** Content-free event metadata as stored; `eventJson` is the projected event's text. */
  datatype DerivedEvent = DerivedEvent(
    sourceInstanceId: string, bootId: string, seqNo: int, sourceEventId: string, eventName: EventName, eventJson: string)

  /** What a JSON text holds. A member that is missing or of the wrong type is absent; the marker
      preview is the only payload text that survives projection. */
  datatype Projected = Projected(
    bootId: Option<string>, eventId: Option<string>, name: Option<EventName>, seqNo: Option<int>,
    occurredAt: Option<string>, workspaceId: Option<string>,
    sessionId: Option<string>, phase: Option<string>, preview: Option<string>)

  datatype Plant = Plant(wiring: Wiring, parseJson: string -> Option<Projected>)

  /** `None` where the source raises: unreadable text, a contradicted identity, or no timestamp. */
  function Translate(p: Plant, e: DerivedEvent): Option<Observation> {
    var parsed := p.parseJson(e.eventJson);
    if parsed.None? then None
    else
      var j := parsed.value;
      if j.bootId != Some(e.bootId) || j.eventId != Some(e.sourceEventId) || j.name != Some(e.eventName) || j.seqNo != Some(e.seqNo) then None
      else if Blank(j.occurredAt) then None
      else
        var marker := if e.eventName.PromptSubmitted? && j.preview.Some? then p.wiring.extract(j.preview.value) else None;
        Some(Observation(
               SourceEventRef(e.sourceInstanceId, e.bootId, e.seqNo, e.sourceEventId, e.eventName, j.sessionId,
                              if marker.Some? then Some(marker.value.bindingId) else None,
                              if marker.Some? then Some(marker.value.signature) else None),
               j.phase, j.preview, j.occurredAt.value, if Blank(j.workspaceId) then None else j.workspaceId))
  }

  /** An event translates exactly when its text is readable, agrees with its boot, id, name and number, and
      says when it occurred. */
  lemma {:induction false} TranslatesExactly(p: Plant, e: DerivedEvent, j: Option<Projected>)
    requires j == p.parseJson(e.eventJson)
    ensures Translate(p, e).Some?
       <==> && j.Some?
            && j.value.bootId == Some(e.bootId) && j.value.eventId == Some(e.sourceEventId)
            && j.value.name == Some(e.eventName) && j.value.seqNo == Some(e.seqNo)
            && j.value.occurredAt.Some? && j.value.occurredAt.value != ""
    ensures Translate(p, e).Some? ==>
              Translate(p, e).value.event.seqNo == e.seqNo && Translate(p, e).value.event.sourceEventId == e.sourceEventId
              && Translate(p, e).value.event.eventName == e.eventName && Translate(p, e).value.event.bootId == e.bootId
              && Translate(p, e).value.event.sourceInstanceId == e.sourceInstanceId
  {}

  /** The names already accepted for one workspace's marker. */
  datatype WorkspaceChain = WorkspaceChain(signature: Option<string>, accepted: set<(EventName, Option<string>)>)

  const FRESH := WorkspaceChain(None, {})

  type Chains = map<string, WorkspaceChain>

  /** A hook relayed in some phase other than completion. */
  predicate UnfinishedHook(o: Observation) {
    o.event.eventName.IsHook() && o.phase.Some? && o.phase.value != "completed"
  }

  predicate OncePerMarker(name: EventName) {
    name.PromptSubmitted? || name.HookPromptSubmit? || name.HookStop?
  }

  /** The workspace's chain after noting a prompt's signature. */
  function Noted(chain: WorkspaceChain, o: Observation): WorkspaceChain {
    if !o.event.eventName.PromptSubmitted? then chain
    else
      var signature := o.event.markerSignature;
      WorkspaceChain(signature, if chain.signature.Some? && chain.signature != signature then {} else chain.accepted)
  }

  /** Whether an observation reaches the emitter, and the chains afterwards. */
  function Accept(chains: Chains, o: Observation): (Chains, bool) {
    var key, name := KeyOf(o), o.event.eventName;
    if UnfinishedHook(o) then (chains, false)
    else if name.InputSent? then (chains[key := FRESH], true)
    else
      var chain := Noted(if key in chains then chains[key] else FRESH, o);
      if !OncePerMarker(name) then (chains[key := chain], true)
      else if (name, chain.signature) in chain.accepted then (chains[key := chain], false)
      else (chains[key := chain.(accepted := chain.accepted + {(name, chain.signature)})], true)
  }

  datatype Memory = Memory(chains: Chains, emitter: Emitter.State)

  const BLANK := Memory(map[], IDLE)

  function ObserveTranslated(w: Wiring, m: Memory, o: Observation): (Memory, Option<Receipt>) {
    var accepted := Accept(m.chains, o);
    if !accepted.1 then (m.(chains := accepted.0), None)
    else
      var step := ObserveEvent(w, m.emitter, o);
      (Memory(accepted.0, step.0), step.1)
  }

  /** The memory after a list of observations. */
  function Remember(w: Wiring, m: Memory, os: seq<Observation>): Memory {
    if os == [] then m
    else ObserveTranslated(w, Remember(w, m, os[..|os| - 1]), os[|os| - 1]).0
  }

  /** The receipts those observations emit, in order. */
  function Receipts(w: Wiring, m: Memory, os: seq<Observation>): seq<Receipt> {
    if os == [] then []
    else Receipts(w, m, os[..|os| - 1]) + Emitted(ObserveTranslated(w, Remember(w, m, os[..|os| - 1]), os[|os| - 1]).1)
  }

  /** The observations of events up to the first that cannot be translated. */
  function TranslateAll(p: Plant, events: seq<DerivedEvent>): (os: seq<Observation>)
    ensures |os| <= |events|
  {
    if events == [] || Translate(p, events[0]).None? then []
    else [Translate(p, events[0]).value] + TranslateAll(p, events[1..])
  }

  lemma {:induction false} OneMore(w: Wiring, m: Memory, os: seq<Observation>, i: nat)
    requires i < |os|
    ensures Remember(w, m, os[..i + 1]) == ObserveTranslated(w, Remember(w, m, os[..i]), os[i]).0
    ensures Receipts(w, m, os[..i + 1])
         == Receipts(w, m, os[..i]) + Emitted(ObserveTranslated(w, Remember(w, m, os[..i]), os[i]).1)
  {
    assert os[..i + 1][..i] == os[..i];
  }

  /** The memory and the receipts sent are those of observing the list. */
  ghost predicate Replayed(w: Wiring, os: seq<Observation>, m: Memory, sent: seq<Receipt>, received: seq<Receipt>) {
    m == Remember(w, BLANK, os) && received == sent + Receipts(w, BLANK, os)
  }

  lemma {:induction false} ReplayedOneMore(
    w: Wiring, os: seq<Observation>, i: nat, m: Memory, sent: seq<Receipt>, received: seq<Receipt>, m': Memory, received': seq<Receipt>)
    requires i < |os| && Replayed(w, os[..i], m, sent, received)
    requires m' == ObserveTranslated(w, m, os[i]).0 && received' == received + Emitted(ObserveTranslated(w, m, os[i]).1)
    ensures Replayed(w, os[..i + 1], m', sent, received')
  {
    OneMore(w, BLANK, os, i);
  }

  /** One by one: where the translation ends, an event does not translate. */
  lemma {:induction false} TranslationOf(p: Plant, events: seq<DerivedEvent>, i: nat)
    requires i < |events|
    ensures i < |TranslateAll(p, events)| ==> Translate(p, events[i]) == Some(TranslateAll(p, events)[i])
    ensures i == |TranslateAll(p, events)| ==> Translate(p, events[i]).None?
  {
    if i > 0 {
      TranslationOf(p, events[1..], i - 1);
    }
  }

  class DerivedEventReceiptProducer {
    const p: Plant
    const core: CoreClient
    var emitter: ReceiptEmitter
    var workspaceChains: Chains

    ghost predicate Valid()
      reads this, emitter
    {
      emitter.w == p.wiring && emitter.core == core
    }

    function Current(): Memory
      reads this, emitter
    {
      Memory(workspaceChains, emitter.Current())
    }

    constructor (p: Plant, core: CoreClient)
      ensures Valid() && fresh(emitter) && this.p == p && this.core == core && Current() == BLANK
    {
      this.p, this.core := p, core;
      emitter := new ReceiptEmitter(p.wiring, core);
      workspaceChains := map[];
    }

    /** Rebuilds the correlation state from the durable outbox, on a new emitter. When it succeeds it
        leaves exactly the memory, and has sent again exactly the receipts, of having observed the stored
        events in order; it succeeds whenever they translate and the core is available. */
    method Recover(events: seq<DerivedEvent>, available: bool) returns (ok: bool)
      requires Valid()
      modifies this, core
      ensures Valid() && fresh(emitter)
      ensures var os := TranslateAll(p, events);
              ok ==>
                && |os| == |events|
                && Current() == Remember(p.wiring, BLANK, os)
                && core.received == old(core.received) + Receipts(p.wiring, BLANK, os)
      ensures available && |TranslateAll(p, events)| == |events| ==> ok
    {
      var renewed := new ReceiptEmitter(p.wiring, core);
      emitter := renewed;
      workspaceChains := map[];
      ghost var os, sent := TranslateAll(p, events), core.received;
      var i := 0;
      while i < |events|
        modifies this`workspaceChains, renewed, core
        invariant Valid() && emitter == renewed && 0 <= i <= |events|
        invariant i <= |os| && Replayed(p.wiring, os[..i], Current(), sent, core.received)
      {
        ghost var before, received := Current(), core.received;
        TranslationOf(p, events, i);
        ok := Observe(events[i], available);
        if !ok {
          return;
        }
        ReplayedOneMore(p.wiring, os, i, before, sent, received, Current(), core.received);
        i := i + 1;
      }
      assert os[..i] == os;
      ok := true;
    }

    /** Translates one event and feeds the emitter; failing to translate or to deliver fails the call,
        and then the core has received nothing. */
    method Observe(e: DerivedEvent, available: bool) returns (ok: bool)
      requires Valid()
      modifies this`workspaceChains, emitter, core
      ensures Valid()
      ensures ok ==> Translate(p, e).Some?
                     && Current() == ObserveTranslated(p.wiring, old(Current()), Translate(p, e).value).0
                     && core.received == old(core.received) + Emitted(ObserveTranslated(p.wiring, old(Current()), Translate(p, e).value).1)
      ensures !ok ==> core.received == old(core.received)
      ensures available && Translate(p, e).Some? ==> ok
    {
      var translated := Translate(p, e);
      if translated.None? {
        return false;
      }
      var accepted := AcceptForEmission(translated.value);
      ok := true;
      if accepted {
        ok := emitter.Observe(translated.value, available);
      }
    }

    method AcceptForEmission(o: Observation) returns (accepted: bool)
      modifies this`workspaceChains
      ensures workspaceChains == Accept(old(workspaceChains), o).0
      ensures accepted == Accept(old(workspaceChains), o).1
    {
      var key, name := KeyOf(o), o.event.eventName;
      if UnfinishedHook(o) {
        return false;
      }
      if name.InputSent? {
        workspaceChains := workspaceChains[key := FRESH];
        return true;
      }
      var chain := if key in workspaceChains then workspaceChains[key] else FRESH;
      if name.PromptSubmitted? {
        if chain.signature.Some? && chain.signature != o.event.markerSignature {
          chain := chain.(accepted := {});
        }
        chain := chain.(signature := o.event.markerSignature);
      }
      accepted := true;
      if OncePerMarker(name) {
        if (name, chain.signature) in chain.accepted {
          accepted := false;
        } else {
          chain := chain.(accepted := chain.accepted + {(name, chain.signature)});
        }
      }
      workspaceChains := workspaceChains[key := chain];
    }
  }
}
