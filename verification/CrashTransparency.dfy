/** Any schedule of crashes, restarts, reconnects and sink failures of the resident emits, repeats
    aside, the receipts of a run that nothing interrupts. */
module CrashTransparency {
  import opened CoreTypes
  import opened Emitter
  import opened Producer
  import opened Outbox
  import opened Repeats

  datatype Deployment = Deployment(plant: Plant, json: JsonReader, source: string)

  /** Where the resident process stands. A connection was opened after a sequence number, if the outbox
      had a cursor, and has consumed some of the events it serves. */
  datatype Phase =
    | Down
    | Recovering(replayed: nat)
    | Idle
    | Connected(after: Option<int>, consumed: nat)
    | Observed(after: Option<int>, consumed: nat)

  /** `log` survives a crash and `history` is what the core was ever sent; the rest is process memory. */
  datatype System = System(log: Log, phase: Phase, memory: Memory, history: seq<Receipt>)

  /** The sink takes a receipt, or raises; when it raises it may still have taken the receipt. */
  datatype Sink = Takes | Raises(taken: bool)

  datatype Action = Crash | Start | Replay(sink: Sink) | Recovered | Connect | Disconnect | Observe(sink: Sink) | CommitObserved

  const AT_REST := System(EMPTY_LOG, Down, BLANK, [])

  /** What a server holding `events` serves after a sequence number. */
  function Served(events: seq<DerivedEvent>, after: Option<int>): seq<DerivedEvent> {
    if events == [] then []
    else (if after.None? || events[0].seqNo > after.value then [events[0]] else []) + Served(events[1..], after)
  }

  /** The producer observes one event; success leads to `next`, and every error ends the process. */
  function ObserveOne(d: Deployment, s: System, e: DerivedEvent, sink: Sink, next: Phase): System {
    var translated := Translate(d.plant, e);
    if translated.None? then s.(phase := Down)
    else
      var step := ObserveTranslated(d.plant.wiring, s.memory, translated.value);
      if step.1.Some? && sink.Raises? then
        s.(phase := Down, history := s.history + if sink.taken then [step.1.value] else [])
      else s.(phase := next, memory := step.0, history := s.history + Emitted(step.1))
  }

  function Step(d: Deployment, events: seq<DerivedEvent>, s: System, a: Action): System {
    match a
    case Crash => s.(phase := Down, memory := BLANK)
    case Start => if s.phase.Down? then s.(phase := Recovering(0), memory := BLANK) else s
    case Replay(sink) =>
      var stored := EventsOf(s.log.rows, d.source);
      if s.phase.Recovering? && s.phase.replayed < |stored| then
        ObserveOne(d, s, stored[s.phase.replayed], sink, Recovering(s.phase.replayed + 1))
      else s
    case Recovered =>
      if s.phase.Recovering? && s.phase.replayed == |EventsOf(s.log.rows, d.source)| then s.(phase := Idle) else s
    case Connect =>
      if s.phase.Idle? then
        var cursor := CursorOf(s.log, d.source);
        s.(phase := Connected(if cursor.Some? then Some(cursor.value.seqNo) else None, 0))
      else s
    case Disconnect => if s.phase.Connected? then s.(phase := Idle) else s
    case Observe(sink) =>
      if s.phase.Connected? && s.phase.consumed < |Served(events, s.phase.after)| then
        ObserveOne(d, s, Served(events, s.phase.after)[s.phase.consumed], sink, Observed(s.phase.after, s.phase.consumed))
      else s
    case CommitObserved =>
      if s.phase.Observed? && s.phase.consumed < |Served(events, s.phase.after)| then
        var outcome := CommitEvent(d.json, s.log, Served(events, s.phase.after)[s.phase.consumed], false);
        if outcome.Raised? then s.(phase := Down)
        else s.(phase := Connected(s.phase.after, s.phase.consumed + 1), log := outcome.log)
      else s
  }

  function Run(d: Deployment, events: seq<DerivedEvent>, schedule: seq<Action>): System {
    if schedule == [] then AT_REST
    else Step(d, events, Run(d, events, schedule[..|schedule| - 1]), schedule[|schedule| - 1])
  }

  /** One boot's log as its server holds it: well formed, in increasing order, with distinct ids. */
  ghost predicate BootLog(d: Deployment, events: seq<DerivedEvent>) {
    && (forall e | e in events :: EventError(d.json, e).None? && e.sourceInstanceId == d.source)
    && (forall i, j | 0 <= i < j < |events| :: events[i].bootId == events[j].bootId && events[i].seqNo < events[j].seqNo)
    && (forall i, j | 0 <= i < j < |events| :: events[i].sourceEventId != events[j].sourceEventId)
  }

  // ---------------------------------------------------------------- the uninterrupted run

  function Observations(d: Deployment, events: seq<DerivedEvent>): seq<Observation> {
    TranslateAll(d.plant, events)
  }

  /** What observing the first `n` events once, in order, emits. */
  function CrashFree(d: Deployment, events: seq<DerivedEvent>, n: nat): seq<Receipt>
    requires n <= |Observations(d, events)|
  {
    Receipts(d.plant.wiring, BLANK, Observations(d, events)[..n])
  }

  function MemoryAfter(d: Deployment, events: seq<DerivedEvent>, n: nat): Memory
    requires n <= |Observations(d, events)|
  {
    Remember(d.plant.wiring, BLANK, Observations(d, events)[..n])
  }

  lemma {:induction false} TranslationOfPrefix(p: Plant, events: seq<DerivedEvent>, n: nat)
    requires n <= |TranslateAll(p, events)|
    ensures TranslateAll(p, events[..n]) == TranslateAll(p, events)[..n]
  {
    if n > 0 {
      TranslationOfPrefix(p, events[1..], n - 1);
      assert events[..n][1..] == events[1..][..n - 1];
    }
  }

  /** The uninterrupted run over the first `n` events sees nothing of the later ones. */
  lemma {:induction false} CrashFreeOfPrefix(d: Deployment, events: seq<DerivedEvent>, n: nat)
    requires n <= |Observations(d, events)|
    ensures CrashFree(d, events, n) == Receipts(d.plant.wiring, BLANK, TranslateAll(d.plant, events[..n]))
  {
    TranslationOfPrefix(d.plant, events, n);
  }

  /** An observation keeps its event's id. */
  lemma {:induction false} ObservationKeepsId(d: Deployment, events: seq<DerivedEvent>, i: nat)
    requires i < |Observations(d, events)|
    ensures Observations(d, events)[i].event.sourceEventId == events[i].sourceEventId
  {
    TranslationOf(d.plant, events, i);
  }

  lemma {:induction false} EmissionNamesItsEvent(w: Wiring, m: Memory, o: Observation)
    ensures var emitted := ObserveTranslated(w, m, o).1;
            emitted.Some? ==> emitted.value.receiptId == ReceiptIdOf(o.event.sourceEventId)
  {}

  lemma {:induction false} ReceiptNamesItsEvent(d: Deployment, events: seq<DerivedEvent>, n: nat, r: Receipt) returns (i: nat)
    requires n <= |Observations(d, events)| && r in CrashFree(d, events, n)
    ensures i < n && r.receiptId == ReceiptIdOf(events[i].sourceEventId)
  {
    var os := Observations(d, events);
    Producer.OneMore(d.plant.wiring, BLANK, os, n - 1);
    EmissionNamesItsEvent(d.plant.wiring, MemoryAfter(d, events, n - 1), os[n - 1]);
    if r in CrashFree(d, events, n - 1) {
      i := ReceiptNamesItsEvent(d, events, n - 1, r);
    } else {
      i := n - 1;
      ObservationKeepsId(d, events, i);
    }
  }

  /** The receipt of a later event is none of the earlier receipts. */
  lemma {:induction false} NextReceiptIsNew(d: Deployment, events: seq<DerivedEvent>, n: nat)
    requires BootLog(d, events) && n < |Observations(d, events)|
    ensures var emitted := ObserveTranslated(d.plant.wiring, MemoryAfter(d, events, n), Observations(d, events)[n]).1;
            && CrashFree(d, events, n + 1) == CrashFree(d, events, n) + Emitted(emitted)
            && MemoryAfter(d, events, n + 1) == ObserveTranslated(d.plant.wiring, MemoryAfter(d, events, n), Observations(d, events)[n]).0
            && (emitted.Some? ==> emitted.value !in CrashFree(d, events, n))
  {
    Producer.OneMore(d.plant.wiring, BLANK, Observations(d, events), n);
    var emitted := ObserveTranslated(d.plant.wiring, MemoryAfter(d, events, n), Observations(d, events)[n]).1;
    EmissionNamesItsEvent(d.plant.wiring, MemoryAfter(d, events, n), Observations(d, events)[n]);
    if emitted.Some? && emitted.value in CrashFree(d, events, n) {
      var i := ReceiptNamesItsEvent(d, events, n, emitted.value);
      ObservationKeepsId(d, events, n);
      ReceiptIdsDiffer(events[i].sourceEventId, events[n].sourceEventId);
      assert false;
    }
  }

  lemma {:induction false} EarlierReceiptsArePrefix(d: Deployment, events: seq<DerivedEvent>, m: nat, n: nat)
    requires BootLog(d, events) && m <= n <= |Observations(d, events)|
    ensures CrashFree(d, events, m) <= CrashFree(d, events, n)
    decreases n
  {
    if m < n {
      EarlierReceiptsArePrefix(d, events, m, n - 1);
      NextReceiptIsNew(d, events, n - 1);
    }
  }

  // ---------------------------------------------------------------- what the server serves

  lemma {:induction false} ServesTheRest(d: Deployment, events: seq<DerivedEvent>, k: nat)
    requires BootLog(d, events) && k <= |events|
    ensures Served(events, if k == 0 then None else Some(events[k - 1].seqNo)) == events[k..]
    decreases |events|
  {
    if k == 0 {
      ServesAll(events, None);
    } else if k == 1 {
      ServesAll(events[1..], Some(events[0].seqNo));
    } else {
      ServesTheRest(d, events[1..], k - 1);
    }
  }

  lemma {:induction false} ServesAll(events: seq<DerivedEvent>, after: Option<int>)
    requires after.Some? ==> forall e | e in events :: e.seqNo > after.value
    ensures Served(events, after) == events
  {
    if events != [] {
      ServesAll(events[1..], after);
      assert events[0] in events;
    }
  }

  // ---------------------------------------------------------------- the invariant

  /** The outbox holds exactly the first `k` events, with the cursor at the last of them. */
  ghost predicate HoldsPrefix(d: Deployment, events: seq<DerivedEvent>, log: Log, k: nat) {
    && k <= |Observations(d, events)|
    && log.rows == events[..k]
    && CursorOf(log, d.source) == if k == 0 then None else Some(At(events[k - 1]))
  }

  /** The core was sent what the first `n` events emit, repeats aside. */
  ghost predicate Sent(d: Deployment, events: seq<DerivedEvent>, history: seq<Receipt>, n: nat) {
    n <= |Observations(d, events)| && WithoutRepeats(history) == CrashFree(d, events, n)
  }

  ghost predicate Continues(events: seq<DerivedEvent>, after: Option<int>, consumed: nat, k: nat) {
    consumed <= |Served(events, after)| && k <= |events| && Served(events, after)[consumed..] == events[k..]
  }

  ghost predicate Consistent(d: Deployment, events: seq<DerivedEvent>, s: System, k: nat) {
    && HoldsPrefix(d, events, s.log, k)
    && (Sent(d, events, s.history, k) || Sent(d, events, s.history, k + 1))
    && match s.phase
       case Down => true
       case Recovering(j) => j <= k && s.memory == MemoryAfter(d, events, j)
       case Idle => s.memory == MemoryAfter(d, events, k)
       case Connected(after, n) => s.memory == MemoryAfter(d, events, k) && Continues(events, after, n, k)
       case Observed(after, n) =>
         Sent(d, events, s.history, k + 1) && s.memory == MemoryAfter(d, events, k + 1) && Continues(events, after, n, k)
  }

  lemma {:induction false} OneSourceOnly(rows: seq<DerivedEvent>, source: string)
    requires forall e | e in rows :: e.sourceInstanceId == source
    ensures EventsOf(rows, source) == rows
  {
    if rows != [] {
      var front, last := rows[..|rows| - 1], rows[|rows| - 1];
      assert rows == front + [last] && last in rows;
      OneSourceOnly(front, source);
    }
  }

  lemma {:induction false} StoredIsPrefix(d: Deployment, events: seq<DerivedEvent>, log: Log, k: nat)
    requires BootLog(d, events) && HoldsPrefix(d, events, log, k)
    ensures EventsOf(log.rows, d.source) == events[..k]
  {
    OneSourceOnly(log.rows, d.source);
  }

  /** Sending what was already sent leaves the history the same, repeats aside. */
  lemma {:induction false} ResendsNothingNew(d: Deployment, events: seq<DerivedEvent>, history: seq<Receipt>, j: nat, n: nat)
    requires BootLog(d, events) && j < n && Sent(d, events, history, n)
    ensures var emitted := ObserveTranslated(d.plant.wiring, MemoryAfter(d, events, j), Observations(d, events)[j]).1;
            Sent(d, events, history + Emitted(emitted), n)
  {
    var emitted := ObserveTranslated(d.plant.wiring, MemoryAfter(d, events, j), Observations(d, events)[j]).1;
    NextReceiptIsNew(d, events, j);
    EarlierReceiptsArePrefix(d, events, j + 1, n);
    if emitted.Some? {
      assert emitted.value == CrashFree(d, events, n)[|CrashFree(d, events, j)|];
      assert emitted.value in WithoutRepeats(history);
      Repeats.OneMore(history, emitted.value);
    } else {
      assert history + [] == history;
    }
  }

  /** Observing the next event brings the history up to it. */
  lemma {:induction false} SendsTheNext(d: Deployment, events: seq<DerivedEvent>, history: seq<Receipt>, n: nat)
    requires BootLog(d, events) && n < |Observations(d, events)| && Sent(d, events, history, n)
    ensures var emitted := ObserveTranslated(d.plant.wiring, MemoryAfter(d, events, n), Observations(d, events)[n]).1;
            Sent(d, events, history + Emitted(emitted), n + 1)
  {
    var emitted := ObserveTranslated(d.plant.wiring, MemoryAfter(d, events, n), Observations(d, events)[n]).1;
    NextReceiptIsNew(d, events, n);
    if emitted.Some? {
      assert emitted.value !in WithoutRepeats(history);
      Repeats.OneMore(history, emitted.value);
    } else {
      assert history + [] == history;
    }
  }

  /** Observing an event again whose receipt was already sent. */
  lemma {:induction false} ObserveAgainSends(d: Deployment, events: seq<DerivedEvent>, s: System, j: nat, n: nat, sink: Sink, next: Phase)
    requires BootLog(d, events) && j < |events| && j < n && j < |Observations(d, events)|
    requires s.memory == MemoryAfter(d, events, j) && Sent(d, events, s.history, n)
    ensures var t := ObserveOne(d, s, events[j], sink, next);
            && t.log == s.log && Sent(d, events, t.history, n)
            && (t.phase.Down? || (t.phase == next && t.memory == MemoryAfter(d, events, j + 1)))
  {
    TranslationOf(d.plant, events, j);
    NextReceiptIsNew(d, events, j);
    ResendsNothingNew(d, events, s.history, j, n);
    assert s.history + [] == s.history;
  }

  /** Observing the first event whose receipt was not sent yet. */
  lemma {:induction false} ObserveNextSends(d: Deployment, events: seq<DerivedEvent>, s: System, n: nat, sink: Sink, next: Phase)
    requires BootLog(d, events) && n < |events| && n < |Observations(d, events)|
    requires s.memory == MemoryAfter(d, events, n) && Sent(d, events, s.history, n)
    ensures var t := ObserveOne(d, s, events[n], sink, next);
            && t.log == s.log
            && (|| (t.phase.Down? && (Sent(d, events, t.history, n) || Sent(d, events, t.history, n + 1)))
                || (t.phase == next && t.memory == MemoryAfter(d, events, n + 1) && Sent(d, events, t.history, n + 1)))
  {
    TranslationOf(d.plant, events, n);
    NextReceiptIsNew(d, events, n);
    SendsTheNext(d, events, s.history, n);
    assert s.history + [] == s.history;
  }

  /** Observing the j-th event from the memory before it, when the history reaches `n` events: the call
      succeeds and the history reaches past that event, or the process ends at most one event further. */
  lemma {:induction false} ObserveOneSends(d: Deployment, events: seq<DerivedEvent>, s: System, j: nat, n: nat, sink: Sink, next: Phase)
    requires BootLog(d, events) && j < |events| && j <= n && j <= |Observations(d, events)|
    requires s.memory == MemoryAfter(d, events, j) && Sent(d, events, s.history, n)
    ensures var t := ObserveOne(d, s, events[j], sink, next);
            && t.log == s.log
            && (|| (t.phase.Down? && (Sent(d, events, t.history, n) || (j == n && Sent(d, events, t.history, n + 1))))
                || (t.phase == next && j < |Observations(d, events)| && t.memory == MemoryAfter(d, events, j + 1)
                    && Sent(d, events, t.history, if j < n then n else n + 1)))
  {
    if j == |Observations(d, events)| {
      TranslationOf(d.plant, events, j);
    } else if j < n {
      ObserveAgainSends(d, events, s, j, n, sink, next);
    } else {
      ObserveNextSends(d, events, s, n, sink, next);
    }
  }

  lemma {:induction false} ReplayKeeps(d: Deployment, events: seq<DerivedEvent>, s: System, k: nat, sink: Sink)
    requires BootLog(d, events) && Consistent(d, events, s, k)
    requires s.phase.Recovering? && s.phase.replayed < k
    ensures Consistent(d, events, ObserveOne(d, s, events[s.phase.replayed], sink, Recovering(s.phase.replayed + 1)), k)
  {
    var j := s.phase.replayed;
    if Sent(d, events, s.history, k) {
      ObserveOneSends(d, events, s, j, k, sink, Recovering(j + 1));
    } else {
      ObserveOneSends(d, events, s, j, k + 1, sink, Recovering(j + 1));
    }
  }

  lemma {:induction false} ReplayStepKeeps(d: Deployment, events: seq<DerivedEvent>, s: System, k: nat, sink: Sink)
    requires BootLog(d, events) && Consistent(d, events, s, k)
    ensures Consistent(d, events, Step(d, events, s, Replay(sink)), k)
  {
    StoredIsPrefix(d, events, s.log, k);
    if s.phase.Recovering? && s.phase.replayed < k {
      ReplayKeeps(d, events, s, k, sink);
    }
  }

  lemma {:induction false} ObserveKeeps(d: Deployment, events: seq<DerivedEvent>, s: System, k: nat, sink: Sink)
    requires BootLog(d, events) && Consistent(d, events, s, k)
    requires s.phase.Connected? && k < |events|
    ensures Consistent(d, events, ObserveOne(d, s, events[k], sink, Observed(s.phase.after, s.phase.consumed)), k)
  {
    var next := Observed(s.phase.after, s.phase.consumed);
    if Sent(d, events, s.history, k) {
      ObserveOneSends(d, events, s, k, k, sink, next);
    } else {
      ObserveOneSends(d, events, s, k, k + 1, sink, next);
    }
  }

  lemma NextServed(events: seq<DerivedEvent>, after: Option<int>, n: nat, k: nat)
    requires Continues(events, after, n, k) && n < |Served(events, after)|
    ensures k < |events| && Served(events, after)[n] == events[k] && Continues(events, after, n + 1, k + 1)
  {
    var served := Served(events, after);
    assert served[n..][0] == events[k..][0];
    assert served[n + 1..] == served[n..][1..] && events[k + 1..] == events[k..][1..];
  }

  lemma {:induction false} ObserveIs(d: Deployment, events: seq<DerivedEvent>, s: System, e: DerivedEvent, sink: Sink)
    requires s.phase.Connected? && s.phase.consumed < |Served(events, s.phase.after)|
    requires e == Served(events, s.phase.after)[s.phase.consumed]
    ensures Step(d, events, s, Observe(sink)) == ObserveOne(d, s, e, sink, Observed(s.phase.after, s.phase.consumed))
  {}

  lemma {:induction false} ObserveStepKeeps(d: Deployment, events: seq<DerivedEvent>, s: System, k: nat, sink: Sink)
    requires BootLog(d, events) && Consistent(d, events, s, k)
    ensures Consistent(d, events, Step(d, events, s, Observe(sink)), k)
  {
    if s.phase.Connected? && s.phase.consumed < |Served(events, s.phase.after)| {
      NextServed(events, s.phase.after, s.phase.consumed, k);
      ObserveIs(d, events, s, events[k], sink);
      ObserveKeeps(d, events, s, k, sink);
    } else {
      assert Step(d, events, s, Observe(sink)) == s;
    }
  }

  /** The next event is committed: it is new, it carries on from the cursor, and no gap is declared. */
  lemma {:induction false} CommitAppends(d: Deployment, events: seq<DerivedEvent>, log: Log, k: nat)
    requires BootLog(d, events) && HoldsPrefix(d, events, log, k) && k < |Observations(d, events)|
    ensures var outcome := CommitEvent(d.json, log, events[k], false);
            outcome.Committed? && outcome.disposition.Inserted? && HoldsPrefix(d, events, outcome.log, k + 1)
  {
    var e := events[k];
    assert e in events;
    forall r | r in events[..k] ensures !SameTriple(r, e) && !SameId(r, e) {
      var i :| 0 <= i < k && events[i] == r;
    }
    assert events[..k + 1] == events[..k] + [e];
  }

  lemma {:induction false} CommitIs(d: Deployment, events: seq<DerivedEvent>, s: System, e: DerivedEvent, log: Log)
    requires s.phase.Observed? && s.phase.consumed < |Served(events, s.phase.after)|
    requires e == Served(events, s.phase.after)[s.phase.consumed] && CommitEvent(d.json, s.log, e, false) == Committed(log, Inserted)
    ensures Step(d, events, s, CommitObserved) == System(log, Connected(s.phase.after, s.phase.consumed + 1), s.memory, s.history)
  {}

  /** What the commit of an observed event leaves. */
  lemma {:induction false} CommitLeaves(d: Deployment, events: seq<DerivedEvent>, s: System, k: nat) returns (log: Log)
    requires BootLog(d, events) && Consistent(d, events, s, k)
    requires s.phase.Observed? && s.phase.consumed < |Served(events, s.phase.after)|
    ensures HoldsPrefix(d, events, log, k + 1)
    ensures Continues(events, s.phase.after, s.phase.consumed + 1, k + 1)
    ensures Step(d, events, s, CommitObserved) == System(log, Connected(s.phase.after, s.phase.consumed + 1), s.memory, s.history)
  {
    NextServed(events, s.phase.after, s.phase.consumed, k);
    CommitAppends(d, events, s.log, k);
    log := CommitEvent(d.json, s.log, events[k], false).log;
    CommitIs(d, events, s, events[k], log);
  }

  lemma {:induction false} CommitKeeps(d: Deployment, events: seq<DerivedEvent>, s: System, k: nat)
    requires BootLog(d, events) && Consistent(d, events, s, k)
    requires s.phase.Observed? && s.phase.consumed < |Served(events, s.phase.after)|
    ensures Consistent(d, events, Step(d, events, s, CommitObserved), k + 1)
  {
    var log := CommitLeaves(d, events, s, k);
  }

  lemma {:induction false} ConnectKeeps(d: Deployment, events: seq<DerivedEvent>, s: System, k: nat)
    requires BootLog(d, events) && Consistent(d, events, s, k)
    ensures Consistent(d, events, Step(d, events, s, Connect), k)
  {
    if s.phase.Idle? {
      ServesTheRest(d, events, k);
    }
  }

  lemma {:induction false} RecoveredKeeps(d: Deployment, events: seq<DerivedEvent>, s: System, k: nat)
    requires BootLog(d, events) && Consistent(d, events, s, k)
    ensures Consistent(d, events, Step(d, events, s, Recovered), k)
  {
    StoredIsPrefix(d, events, s.log, k);
  }

  lemma {:induction false} ControlKeeps(d: Deployment, events: seq<DerivedEvent>, s: System, k: nat, a: Action)
    requires BootLog(d, events) && Consistent(d, events, s, k) && (a.Crash? || a.Start? || a.Disconnect?)
    ensures Consistent(d, events, Step(d, events, s, a), k)
  {}

  lemma {:induction false} CommitStepKeeps(d: Deployment, events: seq<DerivedEvent>, s: System, k: nat) returns (next: nat)
    requires BootLog(d, events) && Consistent(d, events, s, k)
    ensures k <= next <= k + 1 && Consistent(d, events, Step(d, events, s, CommitObserved), next)
  {
    if s.phase.Observed? && s.phase.consumed < |Served(events, s.phase.after)| {
      CommitKeeps(d, events, s, k);
      next := k + 1;
    } else {
      assert Step(d, events, s, CommitObserved) == s;
      next := k;
    }
  }

  lemma {:induction false} StepKeeps(d: Deployment, events: seq<DerivedEvent>, s: System, k: nat, a: Action) returns (next: nat)
    requires BootLog(d, events) && Consistent(d, events, s, k)
    ensures k <= next <= k + 1 && Consistent(d, events, Step(d, events, s, a), next)
  {
    next := k;
    match a
    case Replay(sink) => ReplayStepKeeps(d, events, s, k, sink);
    case Observe(sink) => ObserveStepKeeps(d, events, s, k, sink);
    case Connect => ConnectKeeps(d, events, s, k);
    case Recovered => RecoveredKeeps(d, events, s, k);
    case CommitObserved => next := CommitStepKeeps(d, events, s, k);
    case _ => ControlKeeps(d, events, s, k, a);
  }

  /** Crash transparency. After any schedule the outbox is the first `k` events with the cursor at the
      last, and everything ever sent, repeats removed, is what an uninterrupted run over the first `k`
      or `k + 1` events sends. */
  lemma {:induction false} CrashesAreInvisible(d: Deployment, events: seq<DerivedEvent>, schedule: seq<Action>) returns (k: nat)
    requires BootLog(d, events)
    ensures Consistent(d, events, Run(d, events, schedule), k)
    ensures var s := Run(d, events, schedule);
            && k <= |Observations(d, events)| && s.log.rows == events[..k]
            && CursorOf(s.log, d.source) == (if k == 0 then None else Some(At(events[k - 1])))
            && (WithoutRepeats(s.history) == CrashFree(d, events, k)
                || (k < |Observations(d, events)| && WithoutRepeats(s.history) == CrashFree(d, events, k + 1)))
  {
    if schedule == [] {
      k := 0;
    } else {
      var front := schedule[..|schedule| - 1];
      var before := CrashesAreInvisible(d, events, front);
      k := StepKeeps(d, events, Run(d, events, front), before, schedule[|schedule| - 1]);
    }
  }

  /** The schedule that nothing interrupts: start once, connect once, and take every event in turn. */
  function Smooth(n: nat): seq<Action> {
    if n == 0 then [Start, Recovered, Connect] else Smooth(n - 1) + [Observe(Takes), CommitObserved]
  }

  lemma {:induction false} SmoothStart(d: Deployment, events: seq<DerivedEvent>)
    requires BootLog(d, events)
    ensures Run(d, events, Smooth(0)) == AT_REST.(phase := Connected(None, 0), memory := BLANK)
  {
    var start := [Start, Recovered, Connect];
    assert start[..2] == [Start, Recovered] && [Start, Recovered][..1] == [Start] && [Start][..0] == [];
    assert Run(d, events, [Start]) == Step(d, events, AT_REST, Start);
    assert Run(d, events, [Start, Recovered]) == Step(d, events, Run(d, events, [Start]), Recovered);
    assert Run(d, events, start) == Step(d, events, Run(d, events, [Start, Recovered]), Connect);
  }

  lemma {:induction false} TwoMoreSteps(d: Deployment, events: seq<DerivedEvent>, schedule: seq<Action>, a: Action, b: Action)
    ensures Run(d, events, schedule + [a, b]) == Step(d, events, Step(d, events, Run(d, events, schedule), a), b)
  {
    assert (schedule + [a, b])[..|schedule| + 1] == schedule + [a] && (schedule + [a])[..|schedule|] == schedule;
  }

  ghost predicate SmoothAt(d: Deployment, events: seq<DerivedEvent>, s: System, n: nat) {
    && Consistent(d, events, s, n)
    && s.phase == Connected(None, n) && s.history == CrashFree(d, events, n)
  }

  /** A sink that takes everything loses nothing. */
  lemma {:induction false} TakenObserve(d: Deployment, events: seq<DerivedEvent>, s: System, k: nat, next: Phase)
    requires BootLog(d, events) && k < |Observations(d, events)| && k < |events|
    requires s.memory == MemoryAfter(d, events, k) && s.history == CrashFree(d, events, k)
    ensures ObserveOne(d, s, events[k], Takes, next)
         == System(s.log, next, MemoryAfter(d, events, k + 1), CrashFree(d, events, k + 1))
  {
    TranslationOf(d.plant, events, k);
    NextReceiptIsNew(d, events, k);
  }

  lemma {:induction false} SmoothObserve(d: Deployment, events: seq<DerivedEvent>, s: System, k: nat)
    requires BootLog(d, events) && SmoothAt(d, events, s, k) && k < |Observations(d, events)| && k < |events|
    requires Served(events, None) == events
    ensures Step(d, events, s, Observe(Takes))
         == System(s.log, Observed(None, k), MemoryAfter(d, events, k + 1), CrashFree(d, events, k + 1))
  {
    ObserveIs(d, events, s, events[k], Takes);
    TakenObserve(d, events, s, k, Observed(None, k));
  }

  lemma {:induction false} SmoothStep(d: Deployment, events: seq<DerivedEvent>, s: System, k: nat)
    requires BootLog(d, events) && SmoothAt(d, events, s, k) && k < |Observations(d, events)|
    ensures SmoothAt(d, events, Step(d, events, Step(d, events, s, Observe(Takes)), CommitObserved), k + 1)
  {
    ServesTheRest(d, events, 0);
    ObserveStepKeeps(d, events, s, k, Takes);
    SmoothObserve(d, events, s, k);
    SmoothCommit(d, events, Step(d, events, s, Observe(Takes)), k);
  }

  lemma {:induction false} SmoothCommit(d: Deployment, events: seq<DerivedEvent>, s: System, k: nat)
    requires BootLog(d, events) && Consistent(d, events, s, k) && k < |Observations(d, events)|
    requires s.phase == Observed(None, k) && k < |Served(events, None)| && s.history == CrashFree(d, events, k + 1)
    ensures SmoothAt(d, events, Step(d, events, s, CommitObserved), k + 1)
  {
    var log := CommitLeaves(d, events, s, k);
    CommitKeeps(d, events, s, k);
  }

  /** It reaches every event that translates, and sends exactly the uninterrupted run's receipts. */
  lemma {:induction false} SmoothRunReachesAll(d: Deployment, events: seq<DerivedEvent>, n: nat)
    requires BootLog(d, events) && n <= |Observations(d, events)|
    ensures SmoothAt(d, events, Run(d, events, Smooth(n)), n)
  {
    if n == 0 {
      SmoothStart(d, events);
      ServesTheRest(d, events, 0);
    } else {
      SmoothRunReachesAll(d, events, n - 1);
      TwoMoreSteps(d, events, Smooth(n - 1), Observe(Takes), CommitObserved);
      SmoothStep(d, events, Run(d, events, Smooth(n - 1)), n - 1);
    }
  }
}
