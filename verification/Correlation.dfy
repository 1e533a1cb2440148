/** What the producer and emitter together promise about a stream: workspaces do not interfere, noise
    collapses to one proof chain per turn, and every emitted chain is one the core accepts. */
module Correlation {
  import opened CoreTypes
  import opened Proofs
  import opened Emitter
  import opened Producer

  // ---------------------------------------------------------------- streams in pieces

  lemma {:induction false} SplitRun(w: Wiring, m: Memory, a: seq<Observation>, b: seq<Observation>)
    ensures Remember(w, m, a + b) == Remember(w, Remember(w, m, a), b)
    ensures Receipts(w, m, a + b) == Receipts(w, m, a) + Receipts(w, Remember(w, m, a), b)
  {
    if b == [] {
      assert a + b == a;
    } else {
      var n := |b| - 1;
      assert (a + b)[..|a + b| - 1] == a + b[..n];
      SplitRun(w, m, a, b[..n]);
    }
  }

  lemma {:induction false} OneRun(w: Wiring, m: Memory, o: Observation)
    ensures Remember(w, m, [o]) == ObserveTranslated(w, m, o).0
    ensures Receipts(w, m, [o]) == Emitted(ObserveTranslated(w, m, o).1)
  {
    assert [o][..0] == [];
  }

  // ---------------------------------------------------------------- workspace non-interference

  function OnlyKey(os: seq<Observation>, key: string): seq<Observation> {
    if os == [] then []
    else OnlyKey(os[..|os| - 1], key) + if KeyOf(os[|os| - 1]) == key then [os[|os| - 1]] else []
  }

  /** A named workspace's part of a mixed stream: exactly the observations that name it. */
  lemma {:induction false} OneWorkspace(os: seq<Observation>, workspaceId: string)
    requires workspaceId != "" && workspaceId != UNSCOPED
    ensures forall o :: o in OnlyKey(os, workspaceId) <==> o in os && o.workspaceId == Some(workspaceId)
  {
    if os != [] {
      OneWorkspace(os[..|os| - 1], workspaceId);
      assert os == os[..|os| - 1] + [os[|os| - 1]];
    }
  }

  /** The receipts that one workspace's observations trigger within a mixed stream. */
  function ReceiptsOf(w: Wiring, m: Memory, os: seq<Observation>, key: string): seq<Receipt> {
    if os == [] then []
    else
      var last := os[|os| - 1];
      ReceiptsOf(w, m, os[..|os| - 1], key)
      + if KeyOf(last) == key then Emitted(ObserveTranslated(w, Remember(w, m, os[..|os| - 1]), last).1) else []
  }

  ghost predicate EmittersAgreeOn(s: Emitter.State, t: Emitter.State, key: string) {
    && (key in s.pending <==> key in t.pending) && (key in s.pending ==> s.pending[key] == t.pending[key])
    && (forall u :: (key, u) in s.active <==> (key, u) in t.active)
    && (forall u | (key, u) in s.active :: s.active[(key, u)] == t.active[(key, u)])
  }

  /** Two memories hold the same about one workspace. */
  ghost predicate AgreeOn(m: Memory, n: Memory, key: string) {
    && (key in m.chains <==> key in n.chains) && (key in m.chains ==> m.chains[key] == n.chains[key])
    && EmittersAgreeOn(m.emitter, n.emitter, key)
  }

  lemma {:induction false} OwnEventAgrees(w: Wiring, s: Emitter.State, t: Emitter.State, o: Observation)
    requires EmittersAgreeOn(s, t, KeyOf(o))
    ensures ObserveEvent(w, s, o).1 == ObserveEvent(w, t, o).1
    ensures EmittersAgreeOn(ObserveEvent(w, s, o).0, ObserveEvent(w, t, o).0, KeyOf(o))
  {}

  lemma {:induction false} OwnStepAgrees(w: Wiring, m: Memory, n: Memory, o: Observation)
    requires AgreeOn(m, n, KeyOf(o))
    ensures ObserveTranslated(w, m, o).1 == ObserveTranslated(w, n, o).1
    ensures AgreeOn(ObserveTranslated(w, m, o).0, ObserveTranslated(w, n, o).0, KeyOf(o))
  {
    OwnEventAgrees(w, m.emitter, n.emitter, o);
  }

  lemma {:induction false} OtherStepAgrees(w: Wiring, m: Memory, o: Observation, key: string)
    requires KeyOf(o) != key
    ensures AgreeOn(ObserveTranslated(w, m, o).0, m, key)
  {}

  /** In any interleaving, one workspace's receipts are those of its own observations alone. */
  lemma {:induction false} NonInterference(w: Wiring, m: Memory, n: Memory, os: seq<Observation>, key: string)
    requires AgreeOn(m, n, key)
    ensures ReceiptsOf(w, m, os, key) == Receipts(w, n, OnlyKey(os, key))
    ensures AgreeOn(Remember(w, m, os), Remember(w, n, OnlyKey(os, key)), key)
  {
    if os != [] {
      var front, last := os[..|os| - 1], os[|os| - 1];
      NonInterference(w, m, n, front, key);
      var own := OnlyKey(front, key);
      if KeyOf(last) == key {
        OwnStepAgrees(w, Remember(w, m, front), Remember(w, n, own), last);
        assert (own + [last])[..|own|] == own;
      } else {
        OtherStepAgrees(w, Remember(w, m, front), last, key);
        assert own + [] == own;
      }
    }
  }

  // ---------------------------------------------------------------- normalization of one turn

  /** A prompt whose preview decodes to the given marker. */
  predicate CarriesMarker(w: Wiring, o: Observation, marker: WireMarker) {
    && o.event.eventName.PromptSubmitted?
    && DecodedPreview(w, o) == Some(marker)
    && o.event.markerSignature == Some(marker.signature)
  }

  /** A prompt or stop hook that names no phase, or completion. */
  predicate UsableHook(o: Observation) {
    (o.event.eventName == HookPromptSubmit || o.event.eventName == HookStop) && (o.phase == None || o.phase == Some("completed"))
  }

  /** A later observation of the same turn: no new input, and no prompt under another marker. */
  predicate SameTurn(w: Wiring, o: Observation, key: string, marker: WireMarker) {
    && KeyOf(o) == key && !o.event.eventName.InputSent?
    && (o.event.eventName.PromptSubmitted? ==> CarriesMarker(w, o, marker))
  }

  /** The marker signature of the latest prompt. */
  function LastSignature(os: seq<Observation>, before: Option<string>): Option<string> {
    if os == [] then before
    else
      var last := os[|os| - 1];
      if last.event.eventName == PromptSubmitted then last.event.markerSignature else LastSignature(os[..|os| - 1], before)
  }

  lemma {:induction false} NoPromptNoSignature(os: seq<Observation>, before: Option<string>)
    requires forall o | o in os :: o.event.eventName != PromptSubmitted
    ensures LastSignature(os, before) == before
  {
    if os != [] {
      NoPromptNoSignature(os[..|os| - 1], before);
    }
  }

  /** One turn of one workspace: its input, any prompts under other markers, then in this order the first
      prompt under its own, its first usable prompt hook and its first usable Stop, with any noise and any
      repeats between and after. */
  datatype TurnShape = TurnShape(
    input: Observation, a: seq<Observation>, prompt: Observation, b: seq<Observation>,
    hook: Observation, c: seq<Observation>, stop: Observation, d: seq<Observation>)
  {
    function Stream(): seq<Observation> {
      [input] + a + [prompt] + b + [hook] + c + [stop] + d
    }
  }

  ghost predicate IsTurn(w: Wiring, t: TurnShape, key: string, marker: WireMarker, session: string) {
    && t.input.event.eventName.InputSent? && KeyOf(t.input) == key
    && (forall o | o in t.a :: KeyOf(o) == key && !o.event.eventName.InputSent? && !UsableHook(o))
    && LastSignature(t.a, None) != Some(marker.signature)
    && SameTurn(w, t.prompt, key, marker) && t.prompt.event.eventName.PromptSubmitted?
    && (forall o | o in t.b :: SameTurn(w, o, key, marker) && !UsableHook(o))
    && KeyOf(t.hook) == key && t.hook.event.eventName.HookPromptSubmit? && UsableHook(t.hook) && t.hook.event.sessionId == Some(session)
    && (forall o | o in t.c :: SameTurn(w, o, key, marker) && (o.event.eventName.HookStop? ==> !UsableHook(o)))
    && KeyOf(t.stop) == key && t.stop.event.eventName.HookStop? && UsableHook(t.stop) && t.stop.event.sessionId == Some(session)
    && (forall o | o in t.d :: SameTurn(w, o, key, marker))
    && session != ""
  }

  /** The chain has this signature, and has accepted nothing under another. */
  predicate Knows(chain: WorkspaceChain, signature: Option<string>) {
    chain.signature == signature && forall p | p in chain.accepted :: p.1 == None || p.1 == signature
  }

  ghost predicate AwaitsPrompt(m: Memory, key: string, input: SourceEventRef, signature: Option<string>) {
    && key in m.chains && Knows(m.chains[key], signature)
    && key in m.emitter.pending && m.emitter.pending[key].input == Some(input)
  }

  ghost predicate AwaitsHook(m: Memory, key: string, input: SourceEventRef, prompt: SourceEventRef, marker: WireMarker) {
    && key in m.chains && m.chains[key].signature == Some(marker.signature)
    && (PromptSubmitted, Some(marker.signature)) in m.chains[key].accepted
    && (HookPromptSubmit, Some(marker.signature)) !in m.chains[key].accepted
    && (HookStop, Some(marker.signature)) !in m.chains[key].accepted
    && key in m.emitter.pending && m.emitter.pending[key] == Pending(Some(input), Some(prompt), Some(marker))
  }

  ghost predicate AwaitsStop(m: Memory, key: string, session: string, turn: Turn, marker: WireMarker) {
    && key in m.chains && m.chains[key].signature == Some(marker.signature)
    && {(PromptSubmitted, Some(marker.signature)), (HookPromptSubmit, Some(marker.signature))} <= m.chains[key].accepted
    && (HookStop, Some(marker.signature)) !in m.chains[key].accepted
    && (key, session) in m.emitter.active && m.emitter.active[(key, session)] == turn
  }

  ghost predicate TurnOver(m: Memory, key: string, marker: WireMarker) {
    && key in m.chains && m.chains[key].signature == Some(marker.signature)
    && {(PromptSubmitted, Some(marker.signature)), (HookPromptSubmit, Some(marker.signature)), (HookStop, Some(marker.signature))}
       <= m.chains[key].accepted
  }

  lemma {:induction false} WaitForPrompt(
    w: Wiring, m: Memory, os: seq<Observation>, key: string, input: SourceEventRef, signature: Option<string>)
    requires AwaitsPrompt(m, key, input, signature)
    requires forall o | o in os :: KeyOf(o) == key && !o.event.eventName.InputSent? && !UsableHook(o)
    ensures Receipts(w, m, os) == [] && AwaitsPrompt(Remember(w, m, os), key, input, LastSignature(os, signature))
  {
    if os != [] {
      var front, last := os[..|os| - 1], os[|os| - 1];
      assert last in os;
      WaitForPrompt(w, m, front, key, input, signature);
      StillAwaitsPrompt(w, Remember(w, m, front), last, input, LastSignature(front, signature));
    }
  }

  lemma {:induction false} StillAwaitsPrompt(w: Wiring, m: Memory, o: Observation, input: SourceEventRef, signature: Option<string>)
    requires AwaitsPrompt(m, KeyOf(o), input, signature) && !o.event.eventName.InputSent? && !UsableHook(o)
    ensures ObserveTranslated(w, m, o).1 == None
    ensures AwaitsPrompt(ObserveTranslated(w, m, o).0, KeyOf(o), input, LastSignature([o], signature))
  {
    assert [o][..0] == [];
  }

  lemma {:induction false} WaitForHook(
    w: Wiring, m: Memory, os: seq<Observation>, key: string, input: SourceEventRef, prompt: SourceEventRef, marker: WireMarker)
    requires AwaitsHook(m, key, input, prompt, marker)
    requires forall o | o in os :: SameTurn(w, o, key, marker) && !UsableHook(o)
    ensures Receipts(w, m, os) == [] && AwaitsHook(Remember(w, m, os), key, input, prompt, marker)
  {
    if os != [] {
      var last := os[|os| - 1];
      assert last in os;
      WaitForHook(w, m, os[..|os| - 1], key, input, prompt, marker);
    }
  }

  lemma {:induction false} WaitForStop(
    w: Wiring, m: Memory, os: seq<Observation>, key: string, session: string, turn: Turn, marker: WireMarker)
    requires AwaitsStop(m, key, session, turn, marker)
    requires forall o | o in os :: SameTurn(w, o, key, marker) && (o.event.eventName.HookStop? ==> !UsableHook(o))
    ensures Receipts(w, m, os) == [] && AwaitsStop(Remember(w, m, os), key, session, turn, marker)
  {
    if os != [] {
      var last := os[|os| - 1];
      assert last in os;
      WaitForStop(w, m, os[..|os| - 1], key, session, turn, marker);
    }
  }

  lemma {:induction false} WaitForNext(w: Wiring, m: Memory, os: seq<Observation>, key: string, marker: WireMarker)
    requires TurnOver(m, key, marker)
    requires forall o | o in os :: SameTurn(w, o, key, marker)
    ensures Receipts(w, m, os) == [] && TurnOver(Remember(w, m, os), key, marker)
  {
    if os != [] {
      var last := os[|os| - 1];
      assert last in os;
      WaitForNext(w, m, os[..|os| - 1], key, marker);
    }
  }

  /** The two receipts of a turn. */
  function EntryReceipt(w: Wiring, t: TurnShape, context: (Delivery, DeliveryMarker), session: string): Receipt {
    ReceiptFor(w, Turn(context.0, context.1, [t.input.event, t.prompt.event, t.hook.event]), t.hook.event, session,
               HarnessPromptAccepted, None, t.hook.observedAt)
  }

  function CompletionReceipt(w: Wiring, t: TurnShape, context: (Delivery, DeliveryMarker), session: string): Receipt {
    ReceiptFor(w, Turn(context.0, context.1, [t.input.event, t.prompt.event, t.hook.event] + [t.stop.event]), t.stop.event, session,
               HarnessTurnCompleted, Some(Completed), t.stop.observedAt)
  }

  lemma {:induction false} InputOpens(w: Wiring, m: Memory, o: Observation)
    requires o.event.eventName.InputSent?
    ensures ObserveTranslated(w, m, o).1 == None && AwaitsPrompt(ObserveTranslated(w, m, o).0, KeyOf(o), o.event, None)
  {}

  lemma {:induction false} PromptArrives(
    w: Wiring, m: Memory, o: Observation, input: SourceEventRef, signature: Option<string>, marker: WireMarker)
    requires AwaitsPrompt(m, KeyOf(o), input, signature) && signature != Some(marker.signature) && CarriesMarker(w, o, marker)
    ensures ObserveTranslated(w, m, o).1 == None && AwaitsHook(ObserveTranslated(w, m, o).0, KeyOf(o), input, o.event, marker)
  {}

  lemma {:induction false} HookArrives(
    w: Wiring, m: Memory, o: Observation, input: SourceEventRef, prompt: SourceEventRef, marker: WireMarker,
    session: string, context: (Delivery, DeliveryMarker))
    requires AwaitsHook(m, KeyOf(o), input, prompt, marker) && o.event.eventName.HookPromptSubmit? && UsableHook(o)
    requires o.event.sessionId == Some(session) && session != ""
    requires w.lookup(marker.deliveryId) == Some(context) && !Blank(context.0.bindingId)
    ensures var turn := Turn(context.0, context.1, [input, prompt, o.event]);
            && ObserveTranslated(w, m, o).1 == Some(ReceiptFor(w, turn, o.event, session, HarnessPromptAccepted, None, o.observedAt))
            && AwaitsStop(ObserveTranslated(w, m, o).0, KeyOf(o), session, turn, marker)
  {}

  lemma {:induction false} StopArrives(w: Wiring, m: Memory, o: Observation, session: string, turn: Turn, marker: WireMarker)
    requires AwaitsStop(m, KeyOf(o), session, turn, marker) && o.event.eventName.HookStop? && UsableHook(o)
    requires o.event.sessionId == Some(session) && session != "" && !Blank(turn.delivery.bindingId)
    ensures ObserveTranslated(w, m, o).1
         == Some(ReceiptFor(w, turn.(events := turn.events + [o.event]), o.event, session, HarnessTurnCompleted, Some(Completed), o.observedAt))
    ensures TurnOver(ObserveTranslated(w, m, o).0, KeyOf(o), marker)
  {}

  /** From any memory, one turn emits exactly its entry and its completion receipt, whose chains are the
      first occurrences, however many duplicates, unfinished hook phases and unrelated events occur. */
  lemma {:induction false} TurnEmitsTwo(w: Wiring, m: Memory, t: TurnShape, key: string, marker: WireMarker, session: string, context: (Delivery, DeliveryMarker))
    requires IsTurn(w, t, key, marker, session)
    requires w.lookup(marker.deliveryId) == Some(context) && !Blank(context.0.bindingId)
    ensures Receipts(w, m, t.Stream()) == [EntryReceipt(w, t, context, session), CompletionReceipt(w, t, context, session)]
  {
    var turn := Turn(context.0, context.1, [t.input.event, t.prompt.event, t.hook.event]);
    var opening := [t.input] + t.a + [t.prompt] + t.b + [t.hook];
    TurnOpens(w, m, t, key, marker, session, context);
    SplitRun(w, m, opening, t.c);
    WaitForStop(w, Remember(w, m, opening), t.c, key, session, turn, marker);
    ThenOne(w, m, opening + t.c, t.stop);
    StopArrives(w, Remember(w, m, opening + t.c), t.stop, session, turn, marker);
    SplitRun(w, m, opening + t.c + [t.stop], t.d);
    WaitForNext(w, Remember(w, m, opening + t.c + [t.stop]), t.d, key, marker);
  }

  /** Up to its first usable prompt hook, a turn emits its entry receipt. */
  lemma {:induction false} TurnOpens(w: Wiring, m: Memory, t: TurnShape, key: string, marker: WireMarker, session: string, context: (Delivery, DeliveryMarker))
    requires IsTurn(w, t, key, marker, session)
    requires w.lookup(marker.deliveryId) == Some(context) && !Blank(context.0.bindingId)
    ensures var opening := [t.input] + t.a + [t.prompt] + t.b + [t.hook];
      && Receipts(w, m, opening) == [EntryReceipt(w, t, context, session)]
      && AwaitsStop(Remember(w, m, opening), key, session, Turn(context.0, context.1, [t.input.event, t.prompt.event, t.hook.event]), marker)
  {
    OneRun(w, m, t.input);
    InputOpens(w, m, t.input);
    SplitRun(w, m, [t.input], t.a);
    WaitForPrompt(w, Remember(w, m, [t.input]), t.a, key, t.input.event, None);
    ThenOne(w, m, [t.input] + t.a, t.prompt);
    PromptArrives(w, Remember(w, m, [t.input] + t.a), t.prompt, t.input.event, LastSignature(t.a, None), marker);
    SplitRun(w, m, [t.input] + t.a + [t.prompt], t.b);
    WaitForHook(w, Remember(w, m, [t.input] + t.a + [t.prompt]), t.b, key, t.input.event, t.prompt.event, marker);
    ThenOne(w, m, [t.input] + t.a + [t.prompt] + t.b, t.hook);
    HookArrives(w, Remember(w, m, [t.input] + t.a + [t.prompt] + t.b), t.hook, t.input.event, t.prompt.event, marker, session, context);
  }

  lemma {:induction false} ThenOne(w: Wiring, m: Memory, os: seq<Observation>, o: Observation)
    ensures Remember(w, m, os + [o]) == ObserveTranslated(w, Remember(w, m, os), o).0
    ensures Receipts(w, m, os + [o]) == Receipts(w, m, os) + Emitted(ObserveTranslated(w, Remember(w, m, os), o).1)
  {
    assert (os + [o])[..|os|] == os;
  }

  /** The same in a mixed stream: whatever other workspaces do meanwhile, a turn triggers exactly its
      two receipts. */
  lemma {:induction false} InterleavedTurnEmitsTwo(
    w: Wiring, m: Memory, os: seq<Observation>, t: TurnShape, key: string, marker: WireMarker, session: string,
    context: (Delivery, DeliveryMarker))
    requires OnlyKey(os, key) == t.Stream() && IsTurn(w, t, key, marker, session)
    requires w.lookup(marker.deliveryId) == Some(context) && !Blank(context.0.bindingId)
    ensures ReceiptsOf(w, m, os, key) == [EntryReceipt(w, t, context, session), CompletionReceipt(w, t, context, session)]
  {
    NonInterference(w, m, m, os, key);
    TurnEmitsTwo(w, m, t, key, marker, session, context);
  }
}
