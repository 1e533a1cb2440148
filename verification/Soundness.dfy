/** Whatever a one-boot stream holds, everything it makes the emitter send is a chain the core's validator
    passes, and completions pair off with entries. */
module Soundness {
  import opened CoreTypes
  import opened Proofs
  import opened Emitter
  import opened Producer

  /** The events of one boot of one source: all identified, no two with one id or one number. */
  ghost predicate OneBoot(events: set<SourceEventRef>, source: string, bootId: string) {
    && (forall e | e in events ::
          e.sourceInstanceId == source && e.bootId == bootId != "" && e.sourceEventId != "" && e.seqNo >= 0)
    && (forall e, f | e in events && f in events && (e.sourceEventId == f.sourceEventId || e.seqNo == f.seqNo) :: e == f)
  }

  /** The stream context: its events, their source, and the first sequence number not yet seen. */
  datatype Context = Context(events: set<SourceEventRef>, source: string, bootId: string, next: int)
  {
    ghost predicate Seen(e: SourceEventRef) {
      e in events && e.seqNo < next
    }
  }

  ghost predicate PendingOk(c: Context, p: Pending) {
    && (p.input.Some? ==> c.Seen(p.input.value) && p.input.value.eventName.InputSent?)
    && (p.prompt.Some? ==> c.Seen(p.prompt.value) && p.prompt.value.eventName.PromptSubmitted?)
    && (p.input.Some? && p.prompt.Some? ==> p.input.value.seqNo < p.prompt.value.seqNo)
  }

  ghost predicate TurnOk(c: Context, sessionId: string, t: Turn) {
    && |t.events| == 3
    && (forall e | e in t.events :: c.Seen(e))
    && t.events[0].eventName.InputSent? && t.events[1].eventName.PromptSubmitted? && t.events[2].eventName.HookPromptSubmit?
    && t.events[0].seqNo < t.events[1].seqNo < t.events[2].seqNo
    && t.events[2].sessionId == Some(sessionId) && !Blank(t.delivery.bindingId)
  }

  function ChainOf(r: Receipt): seq<SourceEventRef> {
    if r.proof.Some? then r.proof.value.sourceEvents else []
  }

  predicate IsEntry(r: Receipt) {
    r.evidenceClass.HarnessPromptAccepted?
  }

  predicate IsCompletion(r: Receipt) {
    r.evidenceClass.HarnessTurnCompleted?
  }

  /** A receipt the validator finds nothing wrong with, as far as names, source, boot, distinctness, order
      and session go; it names the last event of its chain. */
  ghost predicate ReceiptSound(c: Context, r: Receipt) {
    && (IsEntry(r) || IsCompletion(r))
    && r.proof.Some?
    && ChainSound(ChainOf(r), ExpectedNames(r.evidenceClass), c.source)
    && (forall e | e in ChainOf(r) :: c.Seen(e))
    && (forall i | 2 <= i < |ChainOf(r)| :: ChainOf(r)[i].sessionId == Some(r.proof.value.sessionId))
    && r.sourceEventId == Some(ChainOf(r)[|ChainOf(r)| - 1].sourceEventId)
    && r.disposition == (if IsCompletion(r) then Some(Completed) else None)
  }

  /** An entry receipt for a turn or for a completion's front. */
  predicate Opens(entry: Receipt, chain: seq<SourceEventRef>, deliveryId: string, sessionId: string) {
    && IsEntry(entry) && ChainOf(entry) == chain && entry.deliveryId == deliveryId
    && entry.proof.Some? && entry.proof.value.sessionId == sessionId
  }

  ghost predicate OpenedIn(sent: seq<Receipt>, n: nat, chain: seq<SourceEventRef>, deliveryId: string, sessionId: string)
    requires n <= |sent|
  {
    exists i | 0 <= i < n :: Opens(sent[i], chain, deliveryId, sessionId)
  }

  /** Every completion extends the chain of an earlier entry, and no two extend the same one. */
  ghost predicate Paired(sent: seq<Receipt>) {
    && (forall j | 0 <= j < |sent| && IsCompletion(sent[j]) && sent[j].proof.Some? ::
          OpenedIn(sent, j, Front(ChainOf(sent[j])), sent[j].deliveryId, sent[j].proof.value.sessionId))
    && (forall i, j | 0 <= i < j < |sent| && IsCompletion(sent[i]) && IsCompletion(sent[j]) ::
          Front(ChainOf(sent[i])) != Front(ChainOf(sent[j])))
  }

  /** The turn was announced and has not been completed. */
  ghost predicate StillOpen(sent: seq<Receipt>, sessionId: string, t: Turn) {
    && OpenedIn(sent, |sent|, t.events, t.delivery.deliveryId, sessionId)
    && (forall j | 0 <= j < |sent| && IsCompletion(sent[j]) :: Front(ChainOf(sent[j])) != t.events)
  }

  ghost predicate StateOk(c: Context, s: Emitter.State, sent: seq<Receipt>) {
    && (forall k | k in s.pending :: PendingOk(c, s.pending[k]))
    && (forall k | k in s.active :: k.1 != "" && TurnOk(c, k.1, s.active[k]) && StillOpen(sent, k.1, s.active[k]))
    && (forall k, l | k in s.active && l in s.active && k != l :: s.active[k].events != s.active[l].events)
  }

  ghost predicate HistoryOk(c: Context, sent: seq<Receipt>) {
    (forall r | r in sent :: ReceiptSound(c, r)) && Paired(sent)
  }

  function After(c: Context, e: SourceEventRef): Context {
    c.(next := e.seqNo + 1)
  }

  ghost predicate Arrives(c: Context, e: SourceEventRef) {
    OneBoot(c.events, c.source, c.bootId) && e in c.events && e.seqNo >= c.next
  }

  // ---------------------------------------------------------------- chains

  lemma ThreeInOrder(c: Context, x: SourceEventRef, y: SourceEventRef, z: SourceEventRef)
    requires OneBoot(c.events, c.source, c.bootId) && x in c.events && y in c.events && z in c.events
    requires x.eventName.InputSent? && y.eventName.PromptSubmitted? && z.eventName.HookPromptSubmit?
    requires x.seqNo < y.seqNo < z.seqNo
    ensures ChainSound([x, y, z], PROMPT_CHAIN, c.source)
  {
    assert x.sourceEventId != y.sourceEventId && x.sourceEventId != z.sourceEventId && y.sourceEventId != z.sourceEventId;
  }

  lemma EntryChainSound(c: Context, sessionId: string, t: Turn)
    requires OneBoot(c.events, c.source, c.bootId) && TurnOk(c, sessionId, t)
    ensures ChainSound(t.events, PROMPT_CHAIN, c.source)
  {
    assert t.events == [t.events[0], t.events[1], t.events[2]];
    assert t.events[0] in t.events && t.events[1] in t.events && t.events[2] in t.events;
    ThreeInOrder(c, t.events[0], t.events[1], t.events[2]);
  }

  lemma ExtendedChainSound(chain: seq<SourceEventRef>, names: seq<EventName>, source: string, e: SourceEventRef)
    requires ChainSound(chain, names, source)
    requires e.sourceInstanceId == source && e.bootId != "" && e.sourceEventId != "" && e.seqNo >= 0
    requires forall f | f in chain :: f.bootId == e.bootId && f.sourceEventId != e.sourceEventId && f.seqNo < e.seqNo
    ensures ChainSound(chain + [e], names + [e.eventName], source)
  {
    assert forall i | 0 <= i < |chain| :: chain[i] in chain;
  }

  lemma CompletionChainSound(c: Context, sessionId: string, t: Turn, e: SourceEventRef)
    requires TurnOk(c, sessionId, t) && Arrives(c, e) && e.eventName.HookStop?
    ensures ChainSound(t.events + [e], COMPLETED_CHAIN, c.source)
  {
    EntryChainSound(c, sessionId, t);
    ExtendedChainSound(t.events, PROMPT_CHAIN, c.source, e);
  }

  // ---------------------------------------------------------------- sending

  lemma SendingKeepsOpened(sent: seq<Receipt>, r: Receipt, n: nat, chain: seq<SourceEventRef>, deliveryId: string, sessionId: string)
    requires n <= |sent| && OpenedIn(sent, n, chain, deliveryId, sessionId)
    ensures OpenedIn(sent + [r], n, chain, deliveryId, sessionId)
    ensures OpenedIn(sent + [r], |sent| + 1, chain, deliveryId, sessionId)
  {
    var i :| 0 <= i < n && Opens(sent[i], chain, deliveryId, sessionId);
    assert Opens((sent + [r])[i], chain, deliveryId, sessionId);
  }

  lemma SendingPairs(sent: seq<Receipt>, r: Receipt)
    requires Paired(sent)
    requires IsCompletion(r) && r.proof.Some? ==>
               OpenedIn(sent, |sent|, Front(ChainOf(r)), r.deliveryId, r.proof.value.sessionId)
    requires IsCompletion(r) ==> forall j | 0 <= j < |sent| && IsCompletion(sent[j]) :: Front(ChainOf(sent[j])) != Front(ChainOf(r))
    ensures Paired(sent + [r])
  {
    var more := sent + [r];
    forall j | 0 <= j < |more| && IsCompletion(more[j]) && more[j].proof.Some?
      ensures OpenedIn(more, j, Front(ChainOf(more[j])), more[j].deliveryId, more[j].proof.value.sessionId)
    {
      SendingKeepsOpened(sent, r, j, Front(ChainOf(more[j])), more[j].deliveryId, more[j].proof.value.sessionId);
    }
  }

  lemma SendingKeepsOpen(sent: seq<Receipt>, r: Receipt, sessionId: string, t: Turn)
    requires StillOpen(sent, sessionId, t) && (IsCompletion(r) ==> Front(ChainOf(r)) != t.events)
    ensures StillOpen(sent + [r], sessionId, t)
  {
    SendingKeepsOpened(sent, r, |sent|, t.events, t.delivery.deliveryId, sessionId);
  }

  lemma LaterStillSound(c: Context, e: SourceEventRef, r: Receipt)
    requires ReceiptSound(c, r) && e.seqNo >= c.next
    ensures ReceiptSound(After(c, e), r)
  {}

  lemma HistoryAges(c: Context, e: SourceEventRef, sent: seq<Receipt>)
    requires HistoryOk(c, sent) && e.seqNo >= c.next
    ensures HistoryOk(After(c, e), sent)
  {
    forall r | r in sent ensures ReceiptSound(After(c, e), r) {
      LaterStillSound(c, e, r);
    }
  }

  lemma StateAges(c: Context, e: SourceEventRef, s: Emitter.State, sent: seq<Receipt>)
    requires StateOk(c, s, sent) && e.seqNo >= c.next
    ensures StateOk(After(c, e), s, sent)
  {}

  // ---------------------------------------------------------------- the four kinds of event

  lemma {:induction false} InputOrPromptKeeps(w: Wiring, c: Context, s: Emitter.State, sent: seq<Receipt>, o: Observation)
    requires StateOk(c, s, sent) && Arrives(c, o.event)
    requires o.event.eventName.InputSent? || o.event.eventName.PromptSubmitted?
    ensures ObserveEvent(w, s, o).1 == None && StateOk(After(c, o.event), ObserveEvent(w, s, o).0, sent)
  {
    StateAges(c, o.event, s, sent);
  }

  /** Opening a turn sends a sound entry, and the turn stands open. */
  lemma {:induction false} EntrySent(w: Wiring, c: Context, sent: seq<Receipt>, o: Observation, p: Pending, t: Turn, sessionId: string)
    requires PendingOk(c, p) && Arrives(c, o.event) && HistoryOk(c, sent)
    requires o.event.eventName.HookPromptSubmit? && o.event.sessionId == Some(sessionId)
    requires OpenedTurn(w, p, o.event) == Some(t)
    ensures var r := ReceiptFor(w, t, o.event, sessionId, HarnessPromptAccepted, None, o.observedAt);
            && HistoryOk(After(c, o.event), sent + [r])
            && TurnOk(After(c, o.event), sessionId, t) && StillOpen(sent + [r], sessionId, t)
  {
    var after := After(c, o.event);
    var r := ReceiptFor(w, t, o.event, sessionId, HarnessPromptAccepted, None, o.observedAt);
    assert t.events == [p.input.value, p.prompt.value, o.event];
    EntryChainSound(after, sessionId, t);
    HistoryAges(c, o.event, sent);
    SendingPairs(sent, r);
    assert Opens((sent + [r])[|sent|], t.events, t.delivery.deliveryId, sessionId);
    forall j | 0 <= j < |sent + [r]| && IsCompletion((sent + [r])[j]) ensures Front(ChainOf((sent + [r])[j])) != t.events {
      assert sent[j] in sent;
      OldFront(c, sent[j], o.event);
    }
  }

  /** A receipt already sent does not speak of the event now arriving. */
  lemma OldFront(c: Context, r: Receipt, e: SourceEventRef)
    requires ReceiptSound(c, r) && IsCompletion(r) && e.seqNo >= c.next
    ensures e !in Front(ChainOf(r))
  {
    forall i | 0 <= i < |Front(ChainOf(r))| ensures Front(ChainOf(r))[i] != e {
      assert ChainOf(r)[i] in ChainOf(r);
    }
  }

  /** A hook that opens a turn sends its entry. */
  lemma {:induction false} HookOpens(w: Wiring, c: Context, s: Emitter.State, sent: seq<Receipt>, o: Observation, t: Turn, sessionId: string, r: Receipt)
    requires StateOk(c, s, sent) && HistoryOk(c, sent) && Arrives(c, o.event) && o.event.eventName.HookPromptSubmit?
    requires KeyOf(o) in s.pending && OpenedTurn(w, s.pending[KeyOf(o)], o.event) == Some(t)
    requires o.event.sessionId == Some(sessionId) && sessionId != ""
    requires r == ReceiptFor(w, t, o.event, sessionId, HarnessPromptAccepted, None, o.observedAt)
    ensures HistoryOk(After(c, o.event), sent + [r])
    ensures StateOk(After(c, o.event), State(s.pending - {KeyOf(o)}, s.active[(KeyOf(o), sessionId) := t]), sent + [r])
  {
    var e, more, active := o.event, sent + [r], s.active[(KeyOf(o), sessionId) := t];
    StateAges(c, e, s, sent);
    EntrySent(w, c, sent, o, s.pending[KeyOf(o)], t, sessionId);
    NewTurnDiffers(c, s, sent, t, e);
    forall k | k in active ensures k.1 != "" && TurnOk(After(c, e), k.1, active[k]) && StillOpen(more, k.1, active[k]) {
      if k != (KeyOf(o), sessionId) {
        SendingKeepsOpen(sent, r, k.1, s.active[k]);
      }
    }
  }

  lemma {:induction false} HookKeeps(w: Wiring, c: Context, s: Emitter.State, sent: seq<Receipt>, o: Observation)
    requires StateOk(c, s, sent) && HistoryOk(c, sent) && Arrives(c, o.event) && o.event.eventName.HookPromptSubmit?
    ensures var step := ObserveEvent(w, s, o);
            HistoryOk(After(c, o.event), sent + Emitted(step.1)) && StateOk(After(c, o.event), step.0, sent + Emitted(step.1))
  {
    var key, e, step := KeyOf(o), o.event, ObserveEvent(w, s, o);
    if step.1.Some? {
      HookOpens(w, c, s, sent, o, OpenedTurn(w, s.pending[key], e).value, e.sessionId.value, step.1.value);
    } else {
      assert sent + [] == sent;
      StateAges(c, e, s, sent);
      HistoryAges(c, e, sent);
    }
  }

  lemma NewTurnDiffers(c: Context, s: Emitter.State, sent: seq<Receipt>, t: Turn, e: SourceEventRef)
    requires StateOk(c, s, sent) && e.seqNo >= c.next && |t.events| == 3 && t.events[2] == e
    ensures forall k | k in s.active :: s.active[k].events != t.events
  {
    forall k | k in s.active ensures s.active[k].events != t.events {
      assert s.active[k].events[2] in s.active[k].events;
    }
  }

  /** Closing a turn sends a sound completion of the entry that opened it. */
  lemma {:induction false} CompletionSent(w: Wiring, c: Context, sent: seq<Receipt>, o: Observation, t: Turn, sessionId: string)
    requires TurnOk(c, sessionId, t) && StillOpen(sent, sessionId, t) && Arrives(c, o.event) && HistoryOk(c, sent)
    requires o.event.eventName.HookStop? && o.event.sessionId == Some(sessionId)
    ensures var r := ReceiptFor(w, t.(events := t.events + [o.event]), o.event, sessionId, HarnessTurnCompleted, Some(Completed), o.observedAt);
            HistoryOk(After(c, o.event), sent + [r]) && Front(ChainOf(r)) == t.events
  {
    var r := ReceiptFor(w, t.(events := t.events + [o.event]), o.event, sessionId, HarnessTurnCompleted, Some(Completed), o.observedAt);
    CompletionChainSound(c, sessionId, t, o.event);
    HistoryAges(c, o.event, sent);
    assert Front(ChainOf(r)) == t.events;
    SendingPairs(sent, r);
  }

  lemma {:induction false} StopKeeps(w: Wiring, c: Context, s: Emitter.State, sent: seq<Receipt>, o: Observation)
    requires StateOk(c, s, sent) && HistoryOk(c, sent) && Arrives(c, o.event) && o.event.eventName.HookStop?
    ensures var step := ObserveEvent(w, s, o);
            HistoryOk(After(c, o.event), sent + Emitted(step.1)) && StateOk(After(c, o.event), step.0, sent + Emitted(step.1))
  {
    var key, e, step := KeyOf(o), o.event, ObserveEvent(w, s, o);
    StateAges(c, e, s, sent);
    HistoryAges(c, e, sent);
    assert sent + [] == sent;
    if step.1.Some? {
      var sessionId := e.sessionId.value;
      var t := s.active[(key, sessionId)];
      CompletionSent(w, c, sent, o, t, sessionId);
      forall k | k in step.0.active ensures StillOpen(sent + [step.1.value], k.1, step.0.active[k]) {
        SendingKeepsOpen(sent, step.1.value, k.1, s.active[k]);
      }
    }
  }

  // ---------------------------------------------------------------- the stream

  lemma {:induction false} EventKeeps(w: Wiring, c: Context, s: Emitter.State, sent: seq<Receipt>, o: Observation)
    requires StateOk(c, s, sent) && HistoryOk(c, sent) && Arrives(c, o.event)
    ensures var step := ObserveEvent(w, s, o);
            HistoryOk(After(c, o.event), sent + Emitted(step.1)) && StateOk(After(c, o.event), step.0, sent + Emitted(step.1))
  {
    assert sent + [] == sent;
    match o.event.eventName
    case HookPromptSubmit => HookKeeps(w, c, s, sent, o);
    case HookStop => StopKeeps(w, c, s, sent, o);
    case _ =>
      HistoryAges(c, o.event, sent);
      if o.event.eventName.InputSent? || o.event.eventName.PromptSubmitted? {
        InputOrPromptKeeps(w, c, s, sent, o);
      } else {
        StateAges(c, o.event, s, sent);
      }
  }

  /** A stream of one boot: identified events, in increasing order, with distinct ids. */
  ghost predicate BootStream(os: seq<Observation>, source: string, bootId: string) {
    && bootId != ""
    && (forall i | 0 <= i < |os| :: os[i].event.sourceInstanceId == source && os[i].event.bootId == bootId
                                    && os[i].event.sourceEventId != "" && os[i].event.seqNo >= 0)
    && (forall i, j | 0 <= i < j < |os| :: os[i].event.seqNo < os[j].event.seqNo && os[i].event.sourceEventId != os[j].event.sourceEventId)
  }

  ghost function ContextAt(os: seq<Observation>, n: nat, source: string, bootId: string): Context
    requires n <= |os|
  {
    Context(set o | o in os :: o.event, source, bootId, if n == 0 then 0 else os[n - 1].event.seqNo + 1)
  }

  lemma StreamEvents(os: seq<Observation>, n: nat, source: string, bootId: string)
    requires BootStream(os, source, bootId) && n < |os|
    ensures Arrives(ContextAt(os, n, source, bootId), os[n].event)
    ensures ContextAt(os, n + 1, source, bootId) == After(ContextAt(os, n, source, bootId), os[n].event)
  {}

  /** After `n` observations of the stream. */
  ghost predicate SoundAt(w: Wiring, os: seq<Observation>, n: nat, source: string, bootId: string)
    requires n <= |os|
  {
    var c, sent := ContextAt(os, n, source, bootId), Receipts(w, BLANK, os[..n]);
    HistoryOk(c, sent) && StateOk(c, Remember(w, BLANK, os[..n]).emitter, sent)
  }

  lemma {:induction false} StreamSound(w: Wiring, os: seq<Observation>, n: nat, source: string, bootId: string)
    requires BootStream(os, source, bootId) && n <= |os|
    ensures SoundAt(w, os, n, source, bootId)
  {
    if n == 0 {
      assert os[..0] == [];
    } else {
      StreamSound(w, os, n - 1, source, bootId);
      StreamStep(w, os, n - 1, source, bootId);
    }
  }

  lemma {:induction false} StreamStep(w: Wiring, os: seq<Observation>, n: nat, source: string, bootId: string)
    requires BootStream(os, source, bootId) && n < |os| && SoundAt(w, os, n, source, bootId)
    ensures SoundAt(w, os, n + 1, source, bootId)
  {
    OneMore(w, BLANK, os, n);
    StreamEvents(os, n, source, bootId);
    ObservationKeeps(w, ContextAt(os, n, source, bootId), Remember(w, BLANK, os[..n]), Receipts(w, BLANK, os[..n]), os[n]);
  }

  lemma {:induction false} ObservationKeeps(w: Wiring, c: Context, m: Memory, sent: seq<Receipt>, o: Observation)
    requires StateOk(c, m.emitter, sent) && HistoryOk(c, sent) && Arrives(c, o.event)
    ensures var step := ObserveTranslated(w, m, o);
            HistoryOk(After(c, o.event), sent + Emitted(step.1)) && StateOk(After(c, o.event), step.0.emitter, sent + Emitted(step.1))
  {
    if Accept(m.chains, o).1 {
      EventKeeps(w, c, m.emitter, sent, o);
    } else {
      assert sent + [] == sent;
      HistoryAges(c, o.event, sent);
      StateAges(c, o.event, m.emitter, sent);
    }
  }

  /** On any one-boot stream: every receipt carries a chain that passes the core's name, source, boot,
      distinctness, order and session checks; every completion extends an earlier entry's chain by one
      Stop; and no two completions extend the same one. */
  lemma {:induction false} EmittedChainsAreSound(w: Wiring, os: seq<Observation>, source: string, bootId: string)
    requires BootStream(os, source, bootId)
    ensures forall r | r in Receipts(w, BLANK, os) ::
              && (IsEntry(r) || IsCompletion(r)) && r.proof.Some?
              && ChainError(ChainOf(r), ExpectedNames(r.evidenceClass), source).None?
              && (forall i | 2 <= i < |ChainOf(r)| :: ChainOf(r)[i].sessionId == Some(r.proof.value.sessionId))
    ensures Paired(Receipts(w, BLANK, os))
  {
    StreamSound(w, os, |os|, source, bootId);
    assert os[..|os|] == os;
    forall r | r in Receipts(w, BLANK, os)
      ensures (IsEntry(r) || IsCompletion(r)) && r.proof.Some?
              && ChainError(ChainOf(r), ExpectedNames(r.evidenceClass), source).None?
    {
      assert ReceiptSound(ContextAt(os, |os|, source, bootId), r);
      ChainOkMeaning(ChainOf(r), ExpectedNames(r.evidenceClass), source);
    }
  }

  // ---------------------------------------------------------------- one entry per input

  /** The input event that an entry receipt starts from. */
  function StartOf(r: Receipt): Option<SourceEventRef> {
    if IsEntry(r) && ChainOf(r) != [] then Some(ChainOf(r)[0]) else None
  }

  /** No pending input was used, no two are the same, and no two entries start from one input. `past` are the
      inputs so far. */
  ghost predicate InputsOnce(s: Emitter.State, sent: seq<Receipt>, past: set<SourceEventRef>) {
    && (forall k | k in s.pending && s.pending[k].input.Some? ::
          s.pending[k].input.value in past && forall r | r in sent :: StartOf(r) != s.pending[k].input)
    && (forall k, l | k in s.pending && l in s.pending && s.pending[k].input.Some? && s.pending[k].input == s.pending[l].input :: k == l)
    && (forall i, j | 0 <= i < j < |sent| && StartOf(sent[i]).Some? :: StartOf(sent[i]) != StartOf(sent[j]))
    && (forall r | r in sent && StartOf(r).Some? :: StartOf(r).value in past)
    && (forall r | r in sent && IsEntry(r) :: |ChainOf(r)| == 3)
  }

  function InputsOf(o: Observation): set<SourceEventRef> {
    if o.event.eventName.InputSent? then {o.event} else {}
  }

  lemma {:induction false} InputIsNew(w: Wiring, s: Emitter.State, sent: seq<Receipt>, past: set<SourceEventRef>, o: Observation)
    requires InputsOnce(s, sent, past) && o.event.eventName.InputSent? && o.event !in past
    ensures ObserveEvent(w, s, o).1 == None && InputsOnce(ObserveEvent(w, s, o).0, sent, past + {o.event})
  {}

  lemma {:induction false} HookUsesInput(w: Wiring, s: Emitter.State, sent: seq<Receipt>, past: set<SourceEventRef>, o: Observation)
    requires InputsOnce(s, sent, past) && o.event.eventName.HookPromptSubmit?
    ensures InputsOnce(ObserveEvent(w, s, o).0, sent + Emitted(ObserveEvent(w, s, o).1), past)
  {
    var step := ObserveEvent(w, s, o);
    assert sent + [] == sent;
    if step.1.Some? {
      var input := s.pending[KeyOf(o)].input;
      assert StartOf(step.1.value) == input;
      assert forall r | r in sent + [step.1.value] :: r in sent || r == step.1.value;
      forall i, j | 0 <= i < j < |sent + [step.1.value]| && StartOf((sent + [step.1.value])[i]).Some?
        ensures StartOf((sent + [step.1.value])[i]) != StartOf((sent + [step.1.value])[j])
      {
        assert sent[i] in sent;
      }
    }
  }

  lemma {:induction false} OtherEventKeepsInputs(w: Wiring, s: Emitter.State, sent: seq<Receipt>, past: set<SourceEventRef>, o: Observation)
    requires InputsOnce(s, sent, past) && !o.event.eventName.InputSent? && !o.event.eventName.HookPromptSubmit?
    ensures InputsOnce(ObserveEvent(w, s, o).0, sent + Emitted(ObserveEvent(w, s, o).1), past)
  {
    var step := ObserveEvent(w, s, o);
    assert sent + [] == sent;
    if step.1.Some? {
      assert StartOf(step.1.value) == None;
      assert forall r | r in sent + [step.1.value] :: r in sent || r == step.1.value;
    }
  }

  lemma {:induction false} ObservationUsesInputs(w: Wiring, m: Memory, sent: seq<Receipt>, past: set<SourceEventRef>, o: Observation)
    requires InputsOnce(m.emitter, sent, past) && InputsOf(o) !! past
    ensures var step := ObserveTranslated(w, m, o);
            InputsOnce(step.0.emitter, sent + Emitted(step.1), past + InputsOf(o))
  {
    assert sent + [] == sent;
    if Accept(m.chains, o).1 {
      match o.event.eventName
      case InputSent => InputIsNew(w, m.emitter, sent, past, o);
      case HookPromptSubmit => HookUsesInput(w, m.emitter, sent, past, o); assert past + {} == past;
      case _ => OtherEventKeepsInputs(w, m.emitter, sent, past, o); assert past + {} == past;
    }
  }

  ghost predicate InputsDiffer(os: seq<Observation>) {
    forall i, j | 0 <= i < j < |os| && os[i].event.eventName == InputSent :: os[i].event != os[j].event
  }

  ghost function InputsSoFar(os: seq<Observation>): set<SourceEventRef> {
    if os == [] then {} else InputsSoFar(os[..|os| - 1]) + InputsOf(os[|os| - 1])
  }

  lemma {:induction false} InputsAreSeen(os: seq<Observation>)
    ensures forall e | e in InputsSoFar(os) :: exists i :: 0 <= i < |os| && os[i].event == e && e.eventName == InputSent
  {
    if os != [] {
      InputsAreSeen(os[..|os| - 1]);
      assert os == os[..|os| - 1] + [os[|os| - 1]];
    }
  }

  lemma {:induction false} StreamUsesInputs(w: Wiring, os: seq<Observation>)
    requires InputsDiffer(os)
    ensures InputsOnce(Remember(w, BLANK, os).emitter, Receipts(w, BLANK, os), InputsSoFar(os))
  {
    if os != [] {
      var front, last := os[..|os| - 1], os[|os| - 1];
      StreamUsesInputs(w, front);
      InputsAreSeen(front);
      assert InputsOf(last) !! InputsSoFar(front);
      ObservationUsesInputs(w, Remember(w, BLANK, front), Receipts(w, BLANK, front), InputsSoFar(front), last);
    }
  }

  /** However often prompts and hooks follow it, an input is the start of at most one entry receipt. */
  lemma {:induction false} EachInputOpensOnce(w: Wiring, os: seq<Observation>, i: nat, j: nat)
    requires InputsDiffer(os) && i < j < |Receipts(w, BLANK, os)|
    requires Receipts(w, BLANK, os)[i].evidenceClass == HarnessPromptAccepted && Receipts(w, BLANK, os)[j].evidenceClass == HarnessPromptAccepted
    ensures |ChainOf(Receipts(w, BLANK, os)[i])| == 3 == |ChainOf(Receipts(w, BLANK, os)[j])|
    ensures ChainOf(Receipts(w, BLANK, os)[i])[0] != ChainOf(Receipts(w, BLANK, os)[j])[0]
  {
    StreamUsesInputs(w, os);
    var sent := Receipts(w, BLANK, os);
    assert sent[i] in sent && sent[j] in sent;
  }
}
