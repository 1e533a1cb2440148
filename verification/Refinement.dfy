/** The resident's own calls as schedules of the transition system whose crashes are invisible: what a
    recovery and a gap-free connection leave behind is what a schedule leaves. */
module Refinement {
  import opened CoreTypes
  import opened Emitter
  import opened Producer
  import opened Outbox
  import opened Repeats
  import opened Resident
  import opened CrashTransparency

  function RunFrom(d: Deployment, events: seq<DerivedEvent>, s: System, schedule: seq<Action>): System {
    if schedule == [] then s
    else Step(d, events, RunFrom(d, events, s, schedule[..|schedule| - 1]), schedule[|schedule| - 1])
  }

  lemma {:induction false} RunOn(d: Deployment, events: seq<DerivedEvent>, schedule: seq<Action>, more: seq<Action>)
    ensures CrashTransparency.Run(d, events, schedule + more) == RunFrom(d, events, CrashTransparency.Run(d, events, schedule), more)
  {
    if more == [] {
      assert schedule + more == schedule;
    } else {
      var n := |more| - 1;
      assert (schedule + more)[..|schedule + more| - 1] == schedule + more[..n];
      RunOn(d, events, schedule, more[..n]);
    }
  }

  lemma {:induction false} OneStepOn(d: Deployment, events: seq<DerivedEvent>, s: System, schedule: seq<Action>, a: Action)
    ensures RunFrom(d, events, s, schedule + [a]) == Step(d, events, RunFrom(d, events, s, schedule), a)
  {
    assert (schedule + [a])[..|schedule|] == schedule;
  }

  // ---------------------------------------------------------------- recovery

  function Recovery(n: nat): seq<Action> {
    if n == 0 then [Start] else Recovery(n - 1) + [Replay(Takes)]
  }

  /** The system once it has observed these events again after a start. */
  function Replaying(d: Deployment, s: System, os: seq<Observation>): System {
    System(s.log, Recovering(|os|), Remember(d.plant.wiring, BLANK, os), s.history + Receipts(d.plant.wiring, BLANK, os))
  }

  lemma {:induction false} ReplayStep(d: Deployment, events: seq<DerivedEvent>, s: System, os: seq<Observation>, n: nat)
    requires n < |EventsOf(s.log.rows, d.source)| && n < |os|
    requires Translate(d.plant, EventsOf(s.log.rows, d.source)[n]) == Some(os[n])
    ensures Step(d, events, Replaying(d, s, os[..n]), Replay(Takes)) == Replaying(d, s, os[..n + 1])
  {
    ReplayIs(d, events, Replaying(d, s, os[..n]), n, os[n]);
    Producer.OneMore(d.plant.wiring, BLANK, os, n);
  }

  /** Replaying the first `n` stored events, all of which translate. */
  lemma {:induction false} ReplayedSoFar(d: Deployment, events: seq<DerivedEvent>, s: System, os: seq<Observation>, n: nat)
    requires s.phase.Down? && os == TranslateAll(d.plant, EventsOf(s.log.rows, d.source))
    requires n <= |os| == |EventsOf(s.log.rows, d.source)|
    ensures RunFrom(d, events, s, Recovery(n)) == Replaying(d, s, os[..n])
  {
    if n == 0 {
      assert [Start][..0] == [] && os[..0] == [] && s.history + [] == s.history;
    } else {
      ReplayedSoFar(d, events, s, os, n - 1);
      OneStepOn(d, events, s, Recovery(n - 1), Replay(Takes));
      TranslationOf(d.plant, EventsOf(s.log.rows, d.source), n - 1);
      ReplayStep(d, events, s, os, n - 1);
    }
  }

  lemma {:induction false} ReplayIs(d: Deployment, events: seq<DerivedEvent>, s: System, n: nat, o: Observation)
    requires s.phase == Recovering(n) && n < |EventsOf(s.log.rows, d.source)|
    requires Translate(d.plant, EventsOf(s.log.rows, d.source)[n]) == Some(o)
    ensures Step(d, events, s, Replay(Takes))
         == System(s.log, Recovering(n + 1), ObserveTranslated(d.plant.wiring, s.memory, o).0,
                   s.history + Emitted(ObserveTranslated(d.plant.wiring, s.memory, o).1))
  {}

  /** A successful `RecoverProducer` is a start, one replay per stored event, and the end of recovery. */
  lemma {:induction false} RecoveryIsASchedule(d: Deployment, events: seq<DerivedEvent>, s: System)
    requires s.phase.Down?
    requires var stored := EventsOf(s.log.rows, d.source); |TranslateAll(d.plant, stored)| == |stored|
    ensures var os := TranslateAll(d.plant, EventsOf(s.log.rows, d.source));
            RunFrom(d, events, s, Recovery(|os|) + [Recovered])
            == System(s.log, CrashTransparency.Idle, Remember(d.plant.wiring, BLANK, os), s.history + Receipts(d.plant.wiring, BLANK, os))
  {
    var os := TranslateAll(d.plant, EventsOf(s.log.rows, d.source));
    assert os[..|os|] == os;
    ReplayedSoFar(d, events, s, os, |os|);
    OneStepOn(d, events, s, Recovery(|os|), Recovered);
    RecoveryEnds(d, events, s, os);
  }

  lemma {:induction false} RecoveryEnds(d: Deployment, events: seq<DerivedEvent>, s: System, os: seq<Observation>)
    requires |os| == |EventsOf(s.log.rows, d.source)|
    ensures Step(d, events, Replaying(d, s, os), Recovered) == Replaying(d, s, os).(phase := CrashTransparency.Idle)
  {}

  // ---------------------------------------------------------------- a connection

  function Taking(n: nat): seq<Action> {
    if n == 0 then [Connect] else Taking(n - 1) + [Observe(Takes), CommitObserved]
  }

  lemma {:induction false} TakenIs(d: Deployment, events: seq<DerivedEvent>, s: System, e: DerivedEvent, o: Observation, log: Log, disposition: CommitDisposition)
    requires s.phase.Connected? && s.phase.consumed < |Served(events, s.phase.after)| && e == Served(events, s.phase.after)[s.phase.consumed]
    requires Translate(d.plant, e) == Some(o) && CommitEvent(d.json, s.log, e, false) == Committed(log, disposition)
    ensures Step(d, events, Step(d, events, s, Observe(Takes)), CommitObserved)
         == System(log, Connected(s.phase.after, s.phase.consumed + 1), ObserveTranslated(d.plant.wiring, s.memory, o).0,
                   s.history + Emitted(ObserveTranslated(d.plant.wiring, s.memory, o).1))
  {
    ObserveIs(d, events, s, e, Takes);
  }

  /** The event frames are those of what the server holds after a sequence number. */
  ghost predicate FramesServe(p: Projector, bootId: string, frames: seq<Frame>, served: seq<DerivedEvent>) {
    |frames| <= |served| && forall i | 0 <= i < |frames| :: Project(p, frames[i], bootId) == Some(served[i])
  }

  lemma {:induction false} FedStep(
    d: Deployment, events: seq<DerivedEvent>, p: Projector, bootId: string, after: Option<int>, n: nat, f: Frame, flow: Flow, next: Flow)
    requires n < |Served(events, after)| && Project(p, f, bootId) == Some(Served(events, after)[n])
    requires Fed(d.json, d.plant, p, bootId, false, f, flow) == Some(next)
    ensures var s := System(flow.log, Connected(after, n), flow.memory, flow.received);
            Step(d, events, Step(d, events, s, Observe(Takes)), CommitObserved)
            == System(next.log, Connected(after, n + 1), next.memory, next.received)
  {
    var stored := Served(events, after)[n];
    var committed := CommitEvent(d.json, flow.log, stored, false);
    TakenIs(d, events, System(flow.log, Connected(after, n), flow.memory, flow.received), stored, Translate(d.plant, stored).value,
            committed.log, committed.disposition);
  }

  /** Feeding the first frames is connecting, and then observing and committing each. */
  lemma {:induction false} FedIsTaken(
    d: Deployment, events: seq<DerivedEvent>, p: Projector, bootId: string, s: System, after: Option<int>, frames: seq<Frame>, flow: Flow)
    requires s.phase.Idle? && after == AfterSeq(CursorOf(s.log, d.source))
    requires FramesServe(p, bootId, frames, Served(events, after))
    requires FedAll(d.json, d.plant, p, bootId, false, frames, Flow(s.log, s.memory, s.history)) == Some(flow)
    ensures RunFrom(d, events, s, Taking(|frames|)) == System(flow.log, Connected(after, |frames|), flow.memory, flow.received)
  {
    var start := Flow(s.log, s.memory, s.history);
    if frames == [] {
      assert [Connect][..0] == [];
    } else {
      var n := |frames| - 1;
      var middle := FedAll(d.json, d.plant, p, bootId, false, frames[..n], start).value;
      FedIsTaken(d, events, p, bootId, s, after, frames[..n], middle);
      FedStep(d, events, p, bootId, after, n, frames[n], middle, flow);
      TwoStepsOn(d, events, s, Taking(n), Observe(Takes), CommitObserved);
    }
  }

  lemma {:induction false} TwoStepsOn(d: Deployment, events: seq<DerivedEvent>, s: System, schedule: seq<Action>, a: Action, b: Action)
    ensures RunFrom(d, events, s, schedule + [a, b]) == Step(d, events, Step(d, events, RunFrom(d, events, s, schedule), a), b)
  {
    assert schedule + [a, b] == (schedule + [a]) + [b];
    OneStepOn(d, events, s, schedule + [a], b);
    OneStepOn(d, events, s, schedule, a);
  }

  /** A connection without a gap, as `Connection` follows its events, is a schedule. */
  lemma {:induction false} ConnectionIsASchedule(
    d: Deployment, events: seq<DerivedEvent>, p: Projector, bootId: string, s: System, frames: seq<Frame>, flow: Flow)
    requires s.phase.Idle? && FramesServe(p, bootId, frames, Served(events, AfterSeq(CursorOf(s.log, d.source))))
    requires FedAll(d.json, d.plant, p, bootId, false, frames, Flow(s.log, s.memory, s.history)) == Some(flow)
    ensures RunFrom(d, events, s, Taking(|frames|) + [Disconnect]) == System(flow.log, CrashTransparency.Idle, flow.memory, flow.received)
  {
    FedIsTaken(d, events, p, bootId, s, AfterSeq(CursorOf(s.log, d.source)), frames, flow);
    OneStepOn(d, events, s, Taking(|frames|), Disconnect);
  }

  /** So whatever happened before, once the resident has recovered and followed a connection, the outbox is a
      prefix of the server's log, and what the core was ever sent is, repeats aside, what an uninterrupted
      run over that prefix sends, or over one event more. */
  lemma {:induction false} RecoveredConnectionIsTransparent(
    d: Deployment, events: seq<DerivedEvent>, schedule: seq<Action>, p: Projector, bootId: string, frames: seq<Frame>, flow: Flow)
    returns (longer: seq<Action>, k: nat)
    requires BootLog(d, events) && CrashTransparency.Run(d, events, schedule).phase.Down?
    requires var s := CrashTransparency.Run(d, events, schedule);
             var stored := EventsOf(s.log.rows, d.source);
             var os := TranslateAll(d.plant, stored);
             && |os| == |stored|
             && FramesServe(p, bootId, frames, Served(events, AfterSeq(CursorOf(s.log, d.source))))
             && FedAll(d.json, d.plant, p, bootId, false, frames,
                       Flow(s.log, Remember(d.plant.wiring, BLANK, os), s.history + Receipts(d.plant.wiring, BLANK, os))) == Some(flow)
    ensures CrashTransparency.Run(d, events, longer) == System(flow.log, CrashTransparency.Idle, flow.memory, flow.received)
    ensures k <= |Observations(d, events)| && flow.log.rows == events[..k]
    ensures || WithoutRepeats(flow.received) == CrashFree(d, events, k)
            || (k < |Observations(d, events)| && WithoutRepeats(flow.received) == CrashFree(d, events, k + 1))
  {
    var s := CrashTransparency.Run(d, events, schedule);
    var os := TranslateAll(d.plant, EventsOf(s.log.rows, d.source));
    RecoveryIsASchedule(d, events, s);
    RunOn(d, events, schedule, Recovery(|os|) + [Recovered]);
    var recovered := schedule + (Recovery(|os|) + [Recovered]);
    ConnectionIsASchedule(d, events, p, bootId, CrashTransparency.Run(d, events, recovered), frames, flow);
    RunOn(d, events, recovered, Taking(|frames|) + [Disconnect]);
    longer := recovered + (Taking(|frames|) + [Disconnect]);
    k := CrashesAreInvisible(d, events, longer);
  }
}
