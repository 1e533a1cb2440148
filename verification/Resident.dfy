/** The reconnecting stream resident: frame parsing and projection, observe-before-commit, and the
    accounting of a bounded run. */
module Resident {
  import opened CoreTypes
  import opened Emitter
  import opened Producer
  import opened Outbox

  // ---------------------------------------------------------------- frames

  /** A member that is missing or of the wrong type is absent; `requestedOk` is false when the
      requested cursor is neither null nor an integer. */
  datatype Resume = Resume(requestedOk: bool, oldestSeq: Option<int>, latestSeq: Option<int>, nextSeq: Option<int>, gap: Option<bool>)

  /** An event frame's remaining members: those the producer reads, and all others as one text. */
  datatype Body = Body(
    occurredAt: Option<string>, workspaceId: Option<string>, sessionId: Option<string>, phase: Option<string>,
    preview: Option<string>, rest: string)

  /** `supported` is whether the protocol name and version are the known ones. */
  datatype Frame =
    | AckFrame(supported: bool, bootId: Option<string>, replayCount: Option<int>, resume: Option<Resume>)
    | EventFrame(supported: bool, bootId: Option<string>, seqNo: Option<int>, id: Option<string>, name: Option<EventName>, body: Body)
    | HeartbeatFrame
    | ErrorFrame(code: Option<string>, latestSeq: Option<int>)
    | OtherFrame

  datatype Ack = Ack(bootId: string, replayCount: nat, latestSeq: nat, gap: bool)

  /** `None` where parsing raises. */
  function ParseAck(f: Frame): Option<Ack> {
    if !f.AckFrame? || !f.supported || Blank(f.bootId) || f.replayCount.None? || f.replayCount.value < 0 || f.resume.None? then None
    else
      var r := f.resume.value;
      if !r.requestedOk || r.oldestSeq.None? || r.latestSeq.None? || r.nextSeq.None? || r.gap.None?
         || r.oldestSeq.value < 0 || r.latestSeq.value < 0 || r.nextSeq.value < 0 then None
      else Some(Ack(f.bootId.value, f.replayCount.value, r.latestSeq.value, r.gap.value))
  }

  /** `render` gives the text of a projected event and its other members; `redact` keeps of a preview only its
      marker's token. */
  datatype Projector = Projector(
    sourceInstanceId: string, render: (Projected, string) -> string, redact: string -> Option<string>)

  function SafePreview(p: Projector, body: Body): Option<string> {
    if body.preview.Some? then p.redact(body.preview.value) else None
  }

  /** `None` where projection raises. */
  function Project(p: Projector, f: Frame, expectedBootId: string): Option<DerivedEvent> {
    if !f.EventFrame? || !f.supported || f.bootId != Some(expectedBootId) then None
    else if f.seqNo.None? || f.seqNo.value < 0 || Blank(f.id) || f.name.None? || f.name.value == OtherEvent("") then None
    else
      var body := f.body;
      var projected := Projected(f.bootId, f.id, f.name, f.seqNo, body.occurredAt, body.workspaceId,
                                 body.sessionId, body.phase, SafePreview(p, body));
      Some(DerivedEvent(p.sourceInstanceId, expectedBootId, f.seqNo.value, f.id.value, f.name.value, p.render(projected, body.rest)))
  }

  /** What the producer needs to see of a frame. */
  function DirectObservation(w: Wiring, p: Projector, f: Frame): Observation
    requires f.EventFrame? && f.bootId.Some? && f.seqNo.Some? && f.id.Some? && f.name.Some? && f.body.occurredAt.Some?
  {
    var marker := if f.name.value.PromptSubmitted? && f.body.preview.Some? then w.extract(f.body.preview.value) else None;
    Observation(
      SourceEventRef(p.sourceInstanceId, f.bootId.value, f.seqNo.value, f.id.value, f.name.value, f.body.sessionId,
                     if marker.Some? then Some(marker.value.bindingId) else None,
                     if marker.Some? then Some(marker.value.signature) else None),
      f.body.phase, SafePreview(p, f.body), f.body.occurredAt.value, if Blank(f.body.workspaceId) then None else f.body.workspaceId)
  }

  /** Minimizing an event loses nothing the receipt plane uses: what is translated back from the stored
      text is the frame's own observation, marker included, provided the text prints and parses
      faithfully and a redacted preview still holds its marker. */
  lemma {:induction false} ProjectionKeepsEvidence(plant: Plant, p: Projector, f: Frame, bootId: string)
    requires forall j, rest :: plant.parseJson(p.render(j, rest)) == Some(j)
    requires forall text :: if p.redact(text).Some? then plant.wiring.extract(p.redact(text).value) == plant.wiring.extract(text)
                            else plant.wiring.extract(text) == None
    requires Project(p, f, bootId).Some?
    ensures var stored := Project(p, f, bootId).value;
            if Blank(f.body.occurredAt) then Translate(plant, stored).None?
            else Translate(plant, stored) == Some(DirectObservation(plant.wiring, p, f))
    ensures var stored := Project(p, f, bootId).value;
            Translate(plant, stored).Some? ==>
              DecodedPreview(plant.wiring, Translate(plant, stored).value)
              == (if f.body.preview.Some? then plant.wiring.extract(f.body.preview.value) else None)
  {
    var body := f.body;
    var projected := Projected(f.bootId, f.id, f.name, f.seqNo, body.occurredAt, body.workspaceId,
                               body.sessionId, body.phase, SafePreview(p, body));
    assert plant.parseJson(p.render(projected, body.rest)) == Some(projected);
  }

  // ---------------------------------------------------------------- connections

  /** Everything outside the process: the frames of the c-th connection opened after a sequence number,
      the snapshots taken during it, and whether the sink takes what its n-th event emits. */
  datatype Host = Host(
    stream: (nat, Option<int>) -> seq<Frame>,
    snapshots: nat -> Option<seq<Snapshot>>,
    sinkReady: (nat, nat) -> bool,
    recoverySinkReady: bool)

  /** The frames before the first error frame. */
  function Window(frames: seq<Frame>): seq<Frame> {
    if frames == [] || frames[0].ErrorFrame? then [] else [frames[0]] + Window(frames[1..])
  }

  function EventsIn(frames: seq<Frame>): seq<Frame> {
    if frames == [] then []
    else EventsIn(frames[..|frames| - 1]) + if frames[|frames| - 1].EventFrame? then [frames[|frames| - 1]] else []
  }

  /** The frames of a connection after its ack. */
  function Rest(frames: seq<Frame>): seq<Frame> {
    if frames == [] then [] else frames[1..]
  }

  /** The event frames among them that the server served. */
  function ServedEvents(rest: seq<Frame>): seq<Frame> {
    EventsIn(Window(rest))
  }

  /** The sequence number at which the server dropped a slow consumer, or else the earlier one. */
  function DroppedAt(rest: seq<Frame>, earlier: Option<int>): Option<int> {
    var n := |Window(rest)|;
    if n < |rest| && rest[n].ErrorFrame? then rest[n].latestSeq else earlier
  }

  /** The server dropped the connection. */
  predicate Dropped(rest: seq<Frame>) {
    |Window(rest)| < |rest|
  }

  lemma {:induction false} WindowIs(frames: seq<Frame>, n: nat)
    requires n <= |frames| && (forall i | 0 <= i < n :: !frames[i].ErrorFrame?)
    requires n == |frames| || frames[n].ErrorFrame?
    ensures Window(frames) == frames[..n]
  {
    if n > 0 {
      WindowIs(frames[1..], n - 1);
    }
  }

  lemma OneMoreFrame(frames: seq<Frame>, n: nat)
    requires n < |frames|
    ensures EventsIn(frames[..n + 1]) == if frames[n].EventFrame? then EventsIn(frames[..n]) + [frames[n]] else EventsIn(frames[..n])
  {
    assert frames[..n + 1][..n] == frames[..n];
  }

  /** A drop says where it happened. */
  predicate DropKnown(rest: seq<Frame>) {
    Dropped(rest) ==> DroppedAt(rest, None).Some?
  }

  /** A connection that was dropped reports its own drop, and another the earlier one. */
  lemma DropOf(rest: seq<Frame>, earlier: Option<int>)
    requires DropKnown(rest)
    ensures DroppedAt(rest, earlier) == (if DroppedAt(rest, None).Some? then DroppedAt(rest, None) else earlier)
    ensures Dropped(rest) <==> DroppedAt(rest, None).Some?
  {}

  /** The first `i` frames were taken, their events are these, and only the last of them may be a drop. */
  ghost predicate EndsAt(rest: seq<Frame>, i: nat, dropped: Option<int>, fed: seq<Frame>)
    requires i <= |rest|
  {
    && fed == EventsIn(rest[..i])
    && (forall k | 0 <= k < i && (k < i - 1 || dropped.None?) :: !rest[k].ErrorFrame?)
    && (dropped.Some? ==> i > 0 && rest[i - 1].ErrorFrame? && dropped == rest[i - 1].latestSeq)
  }

  lemma EndsOneOn(rest: seq<Frame>, i: nat, fed: seq<Frame>, drop: Option<int>)
    requires i < |rest| && EndsAt(rest, i, None, fed)
    requires (rest[i].ErrorFrame? <==> drop.Some?) && (rest[i].ErrorFrame? ==> drop == rest[i].latestSeq)
    ensures EndsAt(rest, i + 1, drop, if rest[i].EventFrame? then fed + [rest[i]] else fed)
  {
    OneMoreFrame(rest, i);
  }

  /** When they end, the events taken are those served, and the drop is the connection's. */
  lemma ServedAre(rest: seq<Frame>, i: nat, dropped: Option<int>, fed: seq<Frame>)
    requires i <= |rest| && EndsAt(rest, i, dropped, fed) && (i == |rest| || dropped.Some?)
    ensures fed == ServedEvents(rest) && dropped == DroppedAt(rest, None) && (Dropped(rest) <==> dropped.Some?)
  {
    if dropped.Some? {
      WindowIs(rest, i - 1);
      OneMoreFrame(rest, i - 1);
    } else {
      WindowIs(rest, i);
    }
  }

  lemma {:induction false} EventsAreEvents(frames: seq<Frame>)
    ensures forall f | f in EventsIn(frames) :: f.EventFrame?
  {
    if frames != [] {
      EventsAreEvents(frames[..|frames| - 1]);
    }
  }

  /** One finished connection: the cursors around it, the outbox sizes around it, and its duplicates. */
  datatype Part = Part(before: Option<Position>, cursor: Option<Position>, rowsBefore: nat, rowsAfter: nat, duplicates: nat)

  function AfterSeq(before: Option<Position>): Option<int> {
    if before.Some? then Some(before.value.seqNo) else None
  }

  function FramesOf(host: Host, c: nat, p: Part): seq<Frame> {
    host.stream(c, AfterSeq(p.before))
  }

  function AckOf(frames: seq<Frame>): Option<Ack> {
    if frames == [] then None else ParseAck(frames[0])
  }

  predicate IsGap(ack: Ack, before: Option<Position>) {
    ack.gap || (before.Some? && before.value.bootId != ack.bootId)
  }

  /** The events are of the boot, and each has its number. */
  predicate Placed(bootId: string, events: seq<Frame>) {
    forall f | f in events :: f.EventFrame? && f.bootId == Some(bootId) && f.seqNo.Some?
  }

  /** Where a gap is closed: at the last declared replay event, or at the latest one without replay. */
  function GapEnd(ack: Ack, events: seq<Frame>): Position
    requires ack.replayCount <= |events|
  {
    if ack.replayCount == 0 then Position(ack.bootId, ack.latestSeq)
    else
      var f := events[ack.replayCount - 1];
      Position(ack.bootId, if f.EventFrame? && f.seqNo.Some? then f.seqNo.value else -1)
  }

  function GapRows(host: Host, source: string, c: nat, ack: Ack, gap: bool, events: seq<Frame>): seq<AuditEntry>
    requires ack.replayCount <= |events|
  {
    if gap && host.snapshots(c).Some? then
      [GapResnapshot(source, GapEnd(ack, events), CommandsOf(host.snapshots(c).value), ack.replayCount)]
    else []
  }

  /** The row of a connection that resumed from a cursor, with its own counts. */
  function ResumeRow(host: Host, source: string, c: nat, p: Part, dropped: Option<int>): AuditEntry
    requires PartOk(host, c, p) && p.before.Some?
  {
    ReconnectReplay(source, p.cursor.value, p.before.value.seqNo, AckOf(FramesOf(host, c, p)).value.replayCount,
                    p.rowsAfter - p.rowsBefore, p.duplicates, dropped)
  }

  /** The audit rows of one connection: one for a gap, one for a resumed cursor. */
  function PartRows(host: Host, source: string, c: nat, p: Part, dropped: Option<int>): seq<AuditEntry>
    requires PartOk(host, c, p)
  {
    var frames := FramesOf(host, c, p);
    var ack := AckOf(frames).value;
    GapRows(host, source, c, ack, IsGap(ack, p.before), ServedEvents(Rest(frames)))
    + if p.before.None? then [] else [ResumeRow(host, source, c, p, dropped)]
  }

  /** The rows are those of the gap, then the one of the resume. */
  lemma RowsOfPart(
    host: Host, source: string, c: nat, p: Part, dropped: Option<int>, ack: Ack,
    before: seq<AuditEntry>, served: seq<AuditEntry>, after: seq<AuditEntry>)
    requires PartOk(host, c, p) && AckOf(FramesOf(host, c, p)) == Some(ack)
    requires served == before + GapRows(host, source, c, ack, IsGap(ack, p.before), ServedEvents(Rest(FramesOf(host, c, p))))
    requires after == served + if p.before.None? then [] else [ResumeRow(host, source, c, p, dropped)]
    ensures after == before + PartRows(host, source, c, p, dropped)
  {}

  /** What a finished connection satisfies: its inserts and duplicates are the events it was served, and
      the declared replay was served in full. */
  predicate PartOk(host: Host, c: nat, p: Part) {
    var frames := FramesOf(host, c, p);
    && AckOf(frames).Some?
    && p.rowsBefore <= p.rowsAfter
    && p.rowsAfter - p.rowsBefore + p.duplicates == |ServedEvents(Rest(frames))|
    && AckOf(frames).value.replayCount <= |ServedEvents(Rest(frames))|
    && (IsGap(AckOf(frames).value, p.before) ==> host.snapshots(c).Some?)
    && (p.before.Some? ==> p.cursor.Some?)
    && DropKnown(Rest(frames))
    && Placed(AckOf(frames).value.bootId, ServedEvents(Rest(frames)))
    && ClosedAt(AckOf(frames).value, IsGap(AckOf(frames).value, p.before), ServedEvents(Rest(frames)), p.cursor)
  }

  /** A gap that nothing was served after leaves the cursor where it was closed. */
  predicate ClosedAt(ack: Ack, gap: bool, events: seq<Frame>, cursor: Option<Position>) {
    gap && |events| == ack.replayCount ==> cursor == Some(GapEnd(ack, events))
  }

  /** The outbox size when the c-th connection opens. */
  function RowsAt(parts: seq<Part>, c: nat, rowsAtStart: nat): nat
    requires c <= |parts|
  {
    if c == 0 then rowsAtStart else parts[c - 1].rowsAfter
  }

  predicate EachOk(host: Host, parts: seq<Part>) {
    parts == [] || (EachOk(host, parts[..|parts| - 1]) && PartOk(host, |parts| - 1, parts[|parts| - 1]))
  }

  lemma {:induction false} EachMeans(host: Host, parts: seq<Part>, c: nat)
    requires EachOk(host, parts) && c < |parts|
    ensures PartOk(host, c, parts[c])
  {
    if c < |parts| - 1 {
      EachMeans(host, parts[..|parts| - 1], c);
    }
  }

  /** The cursor when it opens. */
  function CursorAt(parts: seq<Part>, c: nat, cursorAtStart: Option<Position>): Option<Position>
    requires c <= |parts|
  {
    if c == 0 then cursorAtStart else parts[c - 1].cursor
  }

  /** Each connection starts from the outbox and the cursor that its predecessor left. */
  predicate Chained(parts: seq<Part>, rowsAtStart: nat, cursorAtStart: Option<Position>) {
    forall c | 0 <= c < |parts| ::
      parts[c].rowsBefore == RowsAt(parts, c, rowsAtStart) && parts[c].before == CursorAt(parts, c, cursorAtStart)
  }

  /** The last drop reported so far: it is carried over to later connections. */
  function LastDrop(host: Host, parts: seq<Part>): Option<int> {
    if parts == [] then None
    else DroppedAt(Rest(FramesOf(host, |parts| - 1, parts[|parts| - 1])), LastDrop(host, parts[..|parts| - 1]))
  }

  /** The snapshot commands of one connection, and of all of them. */
  function PartCommands(host: Host, c: nat, p: Part): seq<string>
    requires PartOk(host, c, p)
  {
    if IsGap(AckOf(FramesOf(host, c, p)).value, p.before) then CommandsOf(host.snapshots(c).value) else []
  }

  function SnapshotsTaken(host: Host, parts: seq<Part>): seq<string>
    requires EachOk(host, parts)
  {
    if parts == [] then []
    else
      assert PartOk(host, |parts| - 1, parts[|parts| - 1]);
      SnapshotsTaken(host, parts[..|parts| - 1]) + PartCommands(host, |parts| - 1, parts[|parts| - 1])
  }

  function AuditOf(host: Host, source: string, parts: seq<Part>): seq<AuditEntry>
    requires EachOk(host, parts)
  {
    if parts == [] then []
    else AuditOf(host, source, parts[..|parts| - 1])
         + PartRows(host, source, |parts| - 1, parts[|parts| - 1], LastDrop(host, parts))
  }

  function TotalServed(host: Host, parts: seq<Part>): nat {
    if parts == [] then 0
    else TotalServed(host, parts[..|parts| - 1]) + |ServedEvents(Rest(FramesOf(host, |parts| - 1, parts[|parts| - 1])))|
  }

  function TotalDeclared(host: Host, parts: seq<Part>): nat
    requires EachOk(host, parts)
  {
    if parts == [] then 0
    else
      var last := parts[|parts| - 1];
      assert PartOk(host, |parts| - 1, last);
      TotalDeclared(host, parts[..|parts| - 1]) + AckOf(FramesOf(host, |parts| - 1, last)).value.replayCount
  }

  /** How the outbox stands for one source: its size, the source's cursor, and the audit. */
  datatype Standing = Standing(rows: nat, cursor: Option<Position>, audit: seq<AuditEntry>)

  function StandingOf(log: Log, source: string): Standing {
    Standing(|log.rows|, CursorOf(log, source), log.audit)
  }

  /** The books of a run so far: what its finished connections explain of the outbox size, of the cursor, of
      the audit and of the totals. */
  ghost predicate Balanced(
    host: Host, source: string, parts: seq<Part>, start: Standing, now: Standing,
    inserted: nat, duplicates: nat, replayed: nat, dropped: Option<int>)
  {
    && EachOk(host, parts) && Chained(parts, start.rows, start.cursor)
    && now.rows == RowsAt(parts, |parts|, start.rows)
    && now.cursor == CursorAt(parts, |parts|, start.cursor)
    && now.rows == start.rows + inserted
    && inserted + duplicates == TotalServed(host, parts)
    && replayed == TotalDeclared(host, parts)
    && dropped == LastDrop(host, parts)
    && now.audit == start.audit + AuditOf(host, source, parts)
  }

  lemma {:induction false} PartsGrow(host: Host, parts: seq<Part>, p: Part)
    requires EachOk(host, parts) && PartOk(host, |parts|, p)
    ensures EachOk(host, parts + [p])
  {
    assert (parts + [p])[..|parts|] == parts;
  }

  lemma ChainGrows(parts: seq<Part>, p: Part, rowsAtStart: nat, cursorAtStart: Option<Position>)
    requires Chained(parts, rowsAtStart, cursorAtStart)
    requires p.rowsBefore == RowsAt(parts, |parts|, rowsAtStart) && p.before == CursorAt(parts, |parts|, cursorAtStart)
    ensures Chained(parts + [p], rowsAtStart, cursorAtStart)
  {
    var more := parts + [p];
    forall c | 0 <= c < |more|
      ensures more[c].rowsBefore == RowsAt(more, c, rowsAtStart) && more[c].before == CursorAt(more, c, cursorAtStart)
    {
      assert c < |parts| ==> RowsAt(more, c, rowsAtStart) == RowsAt(parts, c, rowsAtStart) && more[c] == parts[c];
    }
  }

  lemma {:induction false} SnapshotsGrow(host: Host, parts: seq<Part>, p: Part)
    requires EachOk(host, parts + [p]) && EachOk(host, parts) && PartOk(host, |parts|, p)
    ensures SnapshotsTaken(host, parts + [p]) == SnapshotsTaken(host, parts) + PartCommands(host, |parts|, p)
  {
    assert (parts + [p])[..|parts|] == parts;
  }

  lemma {:induction false} BooksGrow(
    host: Host, source: string, parts: seq<Part>, p: Part, start: Standing, now: Standing, later: Standing,
    inserted: nat, duplicates: nat, replayed: nat, dropped: Option<int>)
    requires Balanced(host, source, parts, start, now, inserted, duplicates, replayed, dropped)
    requires PartOk(host, |parts|, p) && p.rowsBefore == now.rows && p.before == now.cursor
    requires p.rowsAfter == later.rows && p.cursor == later.cursor
    requires later.audit == now.audit + PartRows(host, source, |parts|, p, DroppedAt(Rest(FramesOf(host, |parts|, p)), dropped))
    ensures Balanced(
              host, source, parts + [p], start, later,
              inserted + (p.rowsAfter - p.rowsBefore), duplicates + p.duplicates,
              replayed + AckOf(FramesOf(host, |parts|, p)).value.replayCount, DroppedAt(Rest(FramesOf(host, |parts|, p)), dropped))
  {
    PartsGrow(host, parts, p);
    ChainGrows(parts, p, start.rows, start.cursor);
    OneMorePart(host, source, parts, p);
    assert (parts + [p])[|parts|] == p;
    Regrouped(start.audit, AuditOf(host, source, parts), PartRows(host, source, |parts|, p, DroppedAt(Rest(FramesOf(host, |parts|, p)), dropped)));
  }

  lemma Regrouped<T>(a: seq<T>, b: seq<T>, c: seq<T>)
    ensures a + (b + c) == (a + b) + c
  {}

  lemma {:induction false} OneMorePart(host: Host, source: string, parts: seq<Part>, p: Part)
    requires EachOk(host, parts)
    requires PartOk(host, |parts|, p) && EachOk(host, parts + [p])
    ensures var drop := DroppedAt(Rest(FramesOf(host, |parts|, p)), LastDrop(host, parts));
            && LastDrop(host, parts + [p]) == drop
            && AuditOf(host, source, parts + [p]) == AuditOf(host, source, parts) + PartRows(host, source, |parts|, p, drop)
    ensures TotalServed(host, parts + [p]) == TotalServed(host, parts) + |ServedEvents(Rest(FramesOf(host, |parts|, p)))|
    ensures TotalDeclared(host, parts + [p]) == TotalDeclared(host, parts) + AckOf(FramesOf(host, |parts|, p)).value.replayCount
  {
    assert (parts + [p])[..|parts|] == parts;
  }

  function GapRowsIn(rows: seq<AuditEntry>): nat {
    if rows == [] then 0 else GapRowsIn(rows[..|rows| - 1]) + if rows[|rows| - 1].GapResnapshot? then 1 else 0
  }

  function GapsIn(host: Host, parts: seq<Part>): nat
    requires EachOk(host, parts)
  {
    if parts == [] then 0
    else
      var last := parts[|parts| - 1];
      assert PartOk(host, |parts| - 1, last);
      GapsIn(host, parts[..|parts| - 1]) + if IsGap(AckOf(FramesOf(host, |parts| - 1, last)).value, last.before) then 1 else 0
  }

  function ResumesIn(parts: seq<Part>): nat {
    if parts == [] then 0 else ResumesIn(parts[..|parts| - 1]) + if parts[|parts| - 1].before.Some? then 1 else 0
  }

  lemma {:induction false} GapRowsAdd(a: seq<AuditEntry>, b: seq<AuditEntry>)
    ensures GapRowsIn(a + b) == GapRowsIn(a) + GapRowsIn(b)
  {
    if b == [] {
      assert a + b == a;
    } else {
      assert (a + b)[..|a + b| - 1] == a + b[..|b| - 1];
      GapRowsAdd(a, b[..|b| - 1]);
    }
  }

  /** As many gap rows as gap connections, and as many replay rows as resumed connections. */
  lemma {:induction false} OneRowPerGapAndResume(host: Host, source: string, parts: seq<Part>)
    requires EachOk(host, parts)
    ensures GapRowsIn(AuditOf(host, source, parts)) == GapsIn(host, parts)
    ensures |AuditOf(host, source, parts)| - GapRowsIn(AuditOf(host, source, parts)) == ResumesIn(parts)
  {
    if parts != [] {
      var front, n := parts[..|parts| - 1], |parts| - 1;
      OneRowPerGapAndResume(host, source, front);
      var rows := PartRows(host, source, n, parts[n], LastDrop(host, parts));
      GapRowsAdd(AuditOf(host, source, front), rows);
      PartRowsCount(host, source, n, parts[n], LastDrop(host, parts));
    }
  }

  lemma {:induction false} PartRowsCount(host: Host, source: string, c: nat, p: Part, dropped: Option<int>)
    requires PartOk(host, c, p)
    ensures var rows := PartRows(host, source, c, p, dropped);
            && GapRowsIn(rows) == (if IsGap(AckOf(FramesOf(host, c, p)).value, p.before) then 1 else 0)
            && |rows| - GapRowsIn(rows) == if p.before.Some? then 1 else 0
  {
    var ack := AckOf(FramesOf(host, c, p)).value;
    var gaps := GapRows(host, source, c, ack, IsGap(ack, p.before), ServedEvents(Rest(FramesOf(host, c, p))));
    ShortPair(gaps, if p.before.None? then [] else [ResumeRow(host, source, c, p, dropped)]);
  }

  lemma ShortPair(a: seq<AuditEntry>, b: seq<AuditEntry>)
    requires |a| <= 1 && |b| <= 1
    ensures GapRowsIn(a + b) == (if a != [] && a[0].GapResnapshot? then 1 else 0) + (if b != [] && b[0].GapResnapshot? then 1 else 0)
  {
    ShortRows(a);
    ShortRows(b);
    GapRowsAdd(a, b);
  }

  lemma ShortRows(rows: seq<AuditEntry>)
    requires |rows| <= 1
    ensures GapRowsIn(rows) == if rows != [] && rows[0].GapResnapshot? then 1 else 0
  {
    assert rows != [] ==> rows[..0] == [];
  }

  /** From an outbox that has a cursor, every connection resumes. */
  lemma {:induction false} EveryConnectionResumes(host: Host, parts: seq<Part>, rowsAtStart: nat, cursorAtStart: Option<Position>)
    requires EachOk(host, parts) && Chained(parts, rowsAtStart, cursorAtStart) && cursorAtStart.Some?
    ensures ResumesIn(parts) == |parts| && CursorAt(parts, |parts|, cursorAtStart).Some?
  {
    if parts != [] {
      var n := |parts| - 1;
      assert Chained(parts[..n], rowsAtStart, cursorAtStart) by {
        assert forall c | 0 <= c < n :: CursorAt(parts[..n], c, cursorAtStart) == CursorAt(parts, c, cursorAtStart);
        assert forall c | 0 <= c < n :: RowsAt(parts[..n], c, rowsAtStart) == RowsAt(parts, c, rowsAtStart);
      }
      EveryConnectionResumes(host, parts[..n], rowsAtStart, cursorAtStart);
      assert parts[n].before == CursorAt(parts, n, cursorAtStart) == CursorAt(parts[..n], n, cursorAtStart);
    }
  }

  // ---------------------------------------------------------------- whose drop a row reports

  function RestOf(host: Host, parts: seq<Part>, c: nat): seq<Frame>
    requires c < |parts|
  {
    Rest(FramesOf(host, c, parts[c]))
  }

  predicate DroppedIn(host: Host, parts: seq<Part>, c: nat)
    requires c < |parts|
  {
    Dropped(RestOf(host, parts, c))
  }

  predicate NoneDropped(host: Host, parts: seq<Part>, n: nat)
    requires n <= |parts|
  {
    forall d | 0 <= d < n :: !DroppedIn(host, parts, d)
  }

  lemma {:induction false} EachOfPrefix(host: Host, parts: seq<Part>, n: nat)
    requires EachOk(host, parts) && n <= |parts|
    ensures EachOk(host, parts[..n])
  {
    if n < |parts| {
      EachOfPrefix(host, parts[..|parts| - 1], n);
      assert parts[..|parts| - 1][..n] == parts[..n];
    } else {
      assert parts[..n] == parts;
    }
  }

  lemma {:induction false} NextDrop(host: Host, parts: seq<Part>, c: nat)
    requires c < |parts|
    ensures LastDrop(host, parts[..c + 1]) == DroppedAt(RestOf(host, parts, c), LastDrop(host, parts[..c]))
  {
    assert parts[..c + 1][..c] == parts[..c] && parts[..c + 1][c] == parts[c];
  }

  /** Each connection's own drop. */
  function OwnDrops(host: Host, parts: seq<Part>): (drops: seq<Option<int>>)
    ensures |drops| == |parts| && forall c | 0 <= c < |parts| :: drops[c] == DroppedAt(RestOf(host, parts, c), None)
  {
    seq(|parts|, c requires 0 <= c < |parts| => DroppedAt(RestOf(host, parts, c), None))
  }

  function LastSome(drops: seq<Option<int>>): Option<int> {
    if drops == [] then None
    else if drops[|drops| - 1].Some? then drops[|drops| - 1] else LastSome(drops[..|drops| - 1])
  }

  lemma {:induction false} LastSomeIsNone(drops: seq<Option<int>>)
    ensures LastSome(drops).None? <==> forall c | 0 <= c < |drops| :: drops[c].None?
  {
    if drops != [] {
      LastSomeIsNone(drops[..|drops| - 1]);
    }
  }

  ghost predicate DropsKnown(host: Host, parts: seq<Part>) {
    forall c | 0 <= c < |parts| :: DropKnown(RestOf(host, parts, c))
  }

  lemma {:induction false} EachDropKnown(host: Host, parts: seq<Part>)
    requires EachOk(host, parts)
    ensures DropsKnown(host, parts)
  {
    forall c | 0 <= c < |parts| ensures DropKnown(RestOf(host, parts, c)) {
      EachMeans(host, parts, c);
    }
  }

  /** The last drop reported is the latest one there was. */
  lemma {:induction false} LastDropIsLatest(host: Host, parts: seq<Part>, n: nat)
    requires DropsKnown(host, parts) && n <= |parts|
    ensures LastDrop(host, parts[..n]) == LastSome(OwnDrops(host, parts)[..n])
  {
    if n > 0 {
      var drops := OwnDrops(host, parts);
      LastDropIsLatest(host, parts, n - 1);
      NextDrop(host, parts, n - 1);
      DropOf(RestOf(host, parts, n - 1), LastDrop(host, parts[..n - 1]));
      assert drops[..n][..n - 1] == drops[..n - 1] && drops[..n][n - 1] == drops[n - 1];
    }
  }

  lemma {:induction false} NoneDroppedIs(host: Host, parts: seq<Part>, c: nat)
    requires DropsKnown(host, parts) && c <= |parts|
    ensures NoneDropped(host, parts, c) <==> forall d | 0 <= d < c :: OwnDrops(host, parts)[d].None?
  {
    forall d | 0 <= d < c ensures DroppedIn(host, parts, d) <==> OwnDrops(host, parts)[d].Some? {
      DropOf(RestOf(host, parts, d), None);
    }
  }

  lemma LastSomeIsOwn(drops: seq<Option<int>>, c: nat)
    requires c < |drops|
    ensures LastSome(drops[..c + 1]) == drops[c] <==> drops[c].Some? || forall d | 0 <= d < c :: drops[d].None?
  {
    assert drops[..c + 1][..c] == drops[..c];
    LastSomeIsNone(drops[..c]);
    assert forall d | 0 <= d < c :: drops[..c][d] == drops[d];
  }

  lemma {:induction false} OwnDropExactly(host: Host, parts: seq<Part>, c: nat)
    requires DropsKnown(host, parts) && c < |parts|
    ensures LastDrop(host, parts[..c + 1]) == DroppedAt(RestOf(host, parts, c), None)
       <==> DroppedIn(host, parts, c) || NoneDropped(host, parts, c)
  {
    LastDropIsLatest(host, parts, c + 1);
    LastSomeIsOwn(OwnDrops(host, parts), c);
    DropOf(RestOf(host, parts, c), None);
    NoneDroppedIs(host, parts, c);
  }

  /** What is reported for a connection is its own drop exactly when it was dropped itself or no earlier one
      was. */
  lemma {:induction false} ReportsOwnDropExactly(host: Host, parts: seq<Part>, c: nat)
    requires EachOk(host, parts) && c < |parts|
    ensures LastDrop(host, parts[..c + 1]) == DroppedAt(RestOf(host, parts, c), None)
       <==> DroppedIn(host, parts, c) || NoneDropped(host, parts, c)
  {
    EachDropKnown(host, parts);
    OwnDropExactly(host, parts, c);
  }

  lemma {:induction false} AuditOfPrefix(host: Host, source: string, parts: seq<Part>, n: nat)
    requires EachOk(host, parts) && n <= |parts| && EachOk(host, parts[..n])
    ensures AuditOf(host, source, parts[..n]) <= AuditOf(host, source, parts)
  {
    if n < |parts| {
      assert parts[..|parts| - 1][..n] == parts[..n];
      AuditOfPrefix(host, source, parts[..|parts| - 1], n);
    } else {
      assert parts[..n] == parts;
    }
  }

  lemma {:induction false} LastRow(host: Host, source: string, parts: seq<Part>)
    requires EachOk(host, parts) && parts != [] && parts[|parts| - 1].before.Some?
    requires PartOk(host, |parts| - 1, parts[|parts| - 1])
    ensures var rows := AuditOf(host, source, parts);
            rows != [] && rows[|rows| - 1] == ResumeRow(host, source, |parts| - 1, parts[|parts| - 1], LastDrop(host, parts))
  {
    var last := PartRows(host, source, |parts| - 1, parts[|parts| - 1], LastDrop(host, parts));
    assert last[|last| - 1] == ResumeRow(host, source, |parts| - 1, parts[|parts| - 1], LastDrop(host, parts));
    assert AuditOf(host, source, parts) == AuditOf(host, source, parts[..|parts| - 1]) + last;
  }

  /** The audit row of a resumed connection is in its place, with its own cursor and counts; and the drop it
      reports is its own exactly then. */
  lemma {:induction false} RowOfResumed(host: Host, source: string, parts: seq<Part>, c: nat)
    requires EachOk(host, parts) && c < |parts| && parts[c].before.Some?
    ensures EachOk(host, parts[..c + 1]) && PartOk(host, c, parts[c])
    ensures var at, audit := |AuditOf(host, source, parts[..c + 1])| - 1, AuditOf(host, source, parts);
            && 0 <= at < |audit|
            && audit[at] == ResumeRow(host, source, c, parts[c], LastDrop(host, parts[..c + 1]))
            && (audit[at].disconnectAtSeq == DroppedAt(RestOf(host, parts, c), None)
                <==> DroppedIn(host, parts, c) || NoneDropped(host, parts, c))
  {
    EachOfPrefix(host, parts, c + 1);
    EachMeans(host, parts, c);
    ReportsOwnDropExactly(host, parts, c);
    AuditOfPrefix(host, source, parts, c + 1);
    LastRow(host, source, parts[..c + 1]);
    var rows := AuditOf(host, source, parts[..c + 1]);
    assert rows[|rows| - 1] == AuditOf(host, source, parts)[|rows| - 1];
  }

  /** A host that drops its first connection at 7, after one event, and not its second. */
  function DroppingFrames(c: nat, body: Body): seq<Frame> {
    var ack := AckFrame(true, Some("a"), Some(0), Some(Resume(true, Some(0), Some(5), Some(6), Some(false))));
    if c > 0 then [ack]
    else [ack, EventFrame(true, Some("a"), Some(5), Some("e"), Some(InputSent), body), ErrorFrame(Some("slow_consumer"), Some(7))]
  }

  function DroppingHost(body: Body): Host {
    Host((c: nat, after: Option<int>) => DroppingFrames(c, body), c => None, (c, n) => true, true)
  }

  lemma {:induction false} TwoParts(host: Host, source: string, p: Part, q: Part)
    requires PartOk(host, 0, p) && PartOk(host, 1, q)
    ensures EachOk(host, [p, q])
    ensures var first := DroppedAt(Rest(FramesOf(host, 0, p)), None);
            AuditOf(host, source, [p, q])
            == PartRows(host, source, 0, p, first) + PartRows(host, source, 1, q, DroppedAt(Rest(FramesOf(host, 1, q)), first))
  {
    assert [p, q][..1] == [p] && [p][..0] == [];
    assert EachOk(host, []) && EachOk(host, [p]) && EachOk(host, [p, q]);
    assert LastDrop(host, [p]) == DroppedAt(Rest(FramesOf(host, 0, p)), LastDrop(host, []));
    assert AuditOf(host, source, [p]) == AuditOf(host, source, []) + PartRows(host, source, 0, p, LastDrop(host, [p]));
  }

  lemma {:induction false} DroppedPart(source: string, body: Body, p: Part)
    requires p == Part(None, Some(Position("a", 5)), 0, 1, 0)
    ensures PartOk(DroppingHost(body), 0, p) && PartRows(DroppingHost(body), source, 0, p, Some(7)) == []
    ensures DroppedAt(Rest(FramesOf(DroppingHost(body), 0, p)), None) == Some(7)
  {
    var rest := Rest(DroppingFrames(0, body));
    assert rest == [DroppingFrames(0, body)[1], DroppingFrames(0, body)[2]];
    WindowIs(rest, 1);
    assert Window(rest) == [rest[0]] && [rest[0]][..0] == [];
    assert EventsIn([rest[0]]) == [rest[0]];
  }

  lemma {:induction false} ResumedPart(source: string, body: Body, p: Part)
    requires p == Part(Some(Position("a", 5)), Some(Position("a", 5)), 1, 1, 0)
    ensures var rest := Rest(FramesOf(DroppingHost(body), 1, p));
            PartOk(DroppingHost(body), 1, p) && !Dropped(rest) && DroppedAt(rest, Some(7)) == Some(7)
    ensures PartRows(DroppingHost(body), source, 1, p, Some(7)) == [ReconnectReplay(source, Position("a", 5), 5, 0, 0, 0, Some(7))]
  {
    assert Rest(DroppingFrames(1, body)) == [];
  }

  /** Its two connections: the row of the second says 7, although the second was not dropped. */
  lemma {:induction false} SecondRowCarriesTheFirstDrop(source: string, body: Body)
    ensures var host, at := DroppingHost(body), Some(Position("a", 5));
            var parts := [Part(None, at, 0, 1, 0), Part(at, at, 1, 1, 0)];
            && EachOk(host, parts) && Chained(parts, 0, None)
            && !DroppedIn(host, parts, 1)
            && AuditOf(host, source, parts) == [ReconnectReplay(source, at.value, 5, 0, 0, 0, Some(7))]
  {
    var at := Some(Position("a", 5));
    var p, q := Part(None, at, 0, 1, 0), Part(at, at, 1, 1, 0);
    DroppedPart(source, body, p);
    ResumedPart(source, body, q);
    TwoParts(DroppingHost(body), source, p, q);
  }

  // ---------------------------------------------------------------- what events leave behind

  /** The outbox, the producer's memory and what the core was sent. */
  datatype Flow = Flow(log: Log, memory: Memory, received: seq<Receipt>)

  function WithAudit(flow: Flow, audit: seq<AuditEntry>): Flow {
    flow.(log := flow.log.(audit := audit))
  }

  /** One event observed and then committed; `None` where either raises. */
  function Fed(json: JsonReader, plant: Plant, p: Projector, bootId: string, gap: bool, f: Frame, flow: Flow): Option<Flow> {
    var stored := Project(p, f, bootId);
    if stored.None? then None
    else
      var translated := Translate(plant, stored.value);
      if translated.None? then None
      else
        var step := ObserveTranslated(plant.wiring, flow.memory, translated.value);
        var committed := CommitEvent(json, flow.log, stored.value, gap);
        if committed.Raised? then None
        else Some(Flow(committed.log, step.0, flow.received + Emitted(step.1)))
  }

  function FedAll(json: JsonReader, plant: Plant, p: Projector, bootId: string, gap: bool, frames: seq<Frame>, flow: Flow): Option<Flow> {
    if frames == [] then Some(flow)
    else
      var before := FedAll(json, plant, p, bootId, gap, frames[..|frames| - 1], flow);
      if before.None? then None else Fed(json, plant, p, bootId, gap, frames[|frames| - 1], before.value)
  }

  lemma {:induction false} FedOneMore(
    json: JsonReader, plant: Plant, p: Projector, bootId: string, gap: bool, frames: seq<Frame>, f: Frame, flow: Flow, middle: Flow)
    requires FedAll(json, plant, p, bootId, gap, frames, flow) == Some(middle)
    ensures FedAll(json, plant, p, bootId, gap, frames + [f], flow) == Fed(json, plant, p, bootId, gap, f, middle)
  {
    assert (frames + [f])[..|frames|] == frames;
  }

  // ---------------------------------------------------------------- what a run leaves in the tables

  /** Everything a run depends on besides the tables; without a producer there is no plant. */
  datatype Setup = Setup(json: JsonReader, plant: Option<Plant>, projector: Projector, host: Host, source: string)

  predicate FrameFine(f: Frame) {
    f.EventFrame? || f.HeartbeatFrame? || (f.ErrorFrame? && f.code == Some("slow_consumer") && f.latestSeq.Some? && f.latestSeq.value >= 0)
  }

  /** Every frame up to the drop is an event or a heartbeat, and the drop says where it happened. */
  predicate FramesFine(rest: seq<Frame>) {
    forall i | 0 <= i < |rest| && i <= |Window(rest)| :: FrameFine(rest[i])
  }

  function Resnapped(u: Setup, c: nat, at: Position, replayCount: nat, log: Log): Option<Log> {
    if u.host.snapshots(c).None? then None
    else
      var outcome := RecordResnapshot(u.json, log, u.source, at, u.host.snapshots(c).value, replayCount);
      if outcome.Recorded? then Some(outcome.log) else None
  }

  /** The tables after the events of one connection, or `None` where one of them, or closing the gap, fails. */
  function TakenLog(u: Setup, c: nat, ack: Ack, gap: bool, events: seq<Frame>, log: Log): Option<Log>
    decreases |events|, 1
  {
    if events != [] then TakenLast(u, c, ack, gap, events, log)
    else if gap && ack.replayCount == 0 then Resnapped(u, c, Position(ack.bootId, ack.latestSeq), 0, log)
    else Some(log)
  }

  function TakenLast(u: Setup, c: nat, ack: Ack, gap: bool, events: seq<Frame>, log: Log): Option<Log>
    requires events != []
    decreases |events|, 0
  {
    var n := |events| - 1;
    var before, stored := TakenLog(u, c, ack, gap, events[..n], log), Project(u.projector, events[n], ack.bootId);
    if before.None? || stored.None? || (u.plant.Some? && Translate(u.plant.value, stored.value).None?) then None
    else
      var committed := CommitEvent(u.json, before.value, stored.value, gap);
      if committed.Raised? then None
      else if gap && |events| == ack.replayCount then
        Resnapped(u, c, Position(ack.bootId, stored.value.seqNo), ack.replayCount, committed.log)
      else Some(committed.log)
  }

  lemma {:induction false} TakenOneMore(u: Setup, c: nat, ack: Ack, gap: bool, events: seq<Frame>, f: Frame, log: Log)
    ensures TakenLog(u, c, ack, gap, events + [f], log).Some? ==> TakenLog(u, c, ack, gap, events, log).Some?
    ensures TakenLog(u, c, ack, gap, events, log).Some? ==>
              var middle, stored := TakenLog(u, c, ack, gap, events, log).value, Project(u.projector, f, ack.bootId);
              TakenLog(u, c, ack, gap, events + [f], log)
              == if stored.None? || (u.plant.Some? && Translate(u.plant.value, stored.value).None?) then None
                 else
                   var committed := CommitEvent(u.json, middle, stored.value, gap);
                   if committed.Raised? then None
                   else if gap && |events| + 1 == ack.replayCount then
                     Resnapped(u, c, Position(ack.bootId, stored.value.seqNo), ack.replayCount, committed.log)
                   else Some(committed.log)
  {
    assert (events + [f])[..|events|] == events;
    assert TakenLog(u, c, ack, gap, events + [f], log) == TakenLast(u, c, ack, gap, events + [f], log);
  }

  lemma {:induction false} TakenEarlier(u: Setup, c: nat, ack: Ack, gap: bool, events: seq<Frame>, n: nat, log: Log)
    requires n <= |events| && TakenLog(u, c, ack, gap, events, log).Some?
    ensures TakenLog(u, c, ack, gap, events[..n], log).Some?
  {
    if n < |events| {
      assert TakenLast(u, c, ack, gap, events, log).Some?;
      TakenEarlier(u, c, ack, gap, events[..|events| - 1], n, log);
      assert events[..|events| - 1][..n] == events[..n];
    } else {
      assert events[..n] == events;
    }
  }

  /** If closing a gap before any event fails, everything does. */
  lemma {:induction false} TakenNone(u: Setup, c: nat, ack: Ack, gap: bool, events: seq<Frame>, log: Log)
    requires TakenLog(u, c, ack, gap, [], log).None?
    ensures TakenLog(u, c, ack, gap, events, log).None?
  {
    assert events[..0] == [];
    if TakenLog(u, c, ack, gap, events, log).Some? {
      TakenEarlier(u, c, ack, gap, events, 0, log);
    }
  }

  lemma {:induction false} WindowReaches(frames: seq<Frame>, n: nat)
    requires n <= |frames| && forall i | 0 <= i < n :: !frames[i].ErrorFrame?
    ensures n <= |Window(frames)| <= |frames| && Window(frames) == frames[..|Window(frames)|]
  {
    if frames != [] && !frames[0].ErrorFrame? {
      WindowReaches(frames[1..], if n == 0 then 0 else n - 1);
    }
  }

  lemma {:induction false} EventsEarlier(frames: seq<Frame>, n: nat)
    requires n <= |frames|
    ensures EventsIn(frames[..n]) <= EventsIn(frames)
  {
    if n < |frames| {
      EventsEarlier(frames[..|frames| - 1], n);
      assert frames[..|frames| - 1][..n] == frames[..n];
    } else {
      assert frames[..n] == frames;
    }
  }

  /** A frame that is refused, or an event that is, refuses the connection. */
  lemma {:induction false} RefusedFrame(u: Setup, c: nat, ack: Ack, gap: bool, rest: seq<Frame>, i: nat, fed: seq<Frame>, log: Log)
    requires i < |rest| && EndsAt(rest, i, None, fed)
    requires !FrameFine(rest[i]) || (rest[i].EventFrame? && TakenLog(u, c, ack, gap, fed + [rest[i]], log).None?)
    ensures !FramesFine(rest) || TakenLog(u, c, ack, gap, ServedEvents(rest), log).None?
  {
    WindowReaches(rest, i);
    if FrameFine(rest[i]) {
      WindowReaches(rest, i + 1);
      OneMoreFrame(rest, i);
      EventsEarlier(Window(rest), i + 1);
      assert Window(rest)[..i + 1] == rest[..i + 1];
      var events := ServedEvents(rest);
      assert events[..|fed| + 1] == fed + [rest[i]];
      if TakenLog(u, c, ack, gap, events, log).Some? {
        TakenEarlier(u, c, ack, gap, events, |fed| + 1, log);
      }
    }
  }

  /** The same, and every frame taken was fine. */
  ghost predicate FineTo(rest: seq<Frame>, i: nat, dropped: Option<int>, fed: seq<Frame>)
    requires i <= |rest|
  {
    EndsAt(rest, i, dropped, fed) && forall k | 0 <= k < i :: FrameFine(rest[k])
  }

  lemma TakenFramesFine(rest: seq<Frame>, i: nat, dropped: Option<int>, fed: seq<Frame>)
    requires i <= |rest| && FineTo(rest, i, dropped, fed) && (i == |rest| || dropped.Some?)
    ensures FramesFine(rest)
  {
    if dropped.Some? {
      WindowIs(rest, i - 1);
    }
  }

  /** The frames are fine, they serve what is declared, and every event is taken. */
  predicate ServedFine(u: Setup, c: nat, rest: seq<Frame>, ack: Ack, gap: bool, log: Log) {
    FramesFine(rest) && ack.replayCount <= |ServedEvents(rest)| && TakenLog(u, c, ack, gap, ServedEvents(rest), log).Some?
  }

  /** The connection that opens at the tables' cursor is acked and served. */
  predicate Servable(u: Setup, c: nat, log: Log) {
    var before := CursorOf(log, u.source);
    var frames := u.host.stream(c, AfterSeq(before));
    AckOf(frames).Some? && ServedFine(u, c, Rest(frames), AckOf(frames).value, IsGap(AckOf(frames).value, before), log)
  }

  /** The tables it leaves, but for its replay row. */
  function ServedLog(u: Setup, c: nat, log: Log): Log
    requires Servable(u, c, log)
  {
    var before := CursorOf(log, u.source);
    var frames := u.host.stream(c, AfterSeq(before));
    TakenLog(u, c, AckOf(frames).value, IsGap(AckOf(frames).value, before), ServedEvents(Rest(frames)), log).value
  }

  /** The tables after the first `n` connections, but for their replay rows. */
  function RunLog(u: Setup, n: nat, log: Log): Option<Log>
    decreases n, 1
  {
    if n == 0 then Some(log) else LastServed(u, n, log)
  }

  function LastServed(u: Setup, n: nat, log: Log): Option<Log>
    requires n > 0
    decreases n, 0
  {
    var before := RunLog(u, n - 1, log);
    if before.None? || !Servable(u, n - 1, before.value) then None else Some(ServedLog(u, n - 1, before.value))
  }

  predicate SameButAudit(a: Log, b: Log) {
    a.rows == b.rows && a.cursors == b.cursors && a.baselines == b.baselines
  }

  /** The audit has no bearing on what is taken. */
  lemma {:induction false} TakenAuditAside(u: Setup, c: nat, ack: Ack, gap: bool, events: seq<Frame>, a: Log, b: Log)
    requires SameButAudit(a, b)
    ensures var x, y := TakenLog(u, c, ack, gap, events, a), TakenLog(u, c, ack, gap, events, b);
            (x.Some? <==> y.Some?) && (x.Some? ==> SameButAudit(x.value, y.value))
  {
    if events == [] {
      ResnappedAuditAside(u, c, Position(ack.bootId, ack.latestSeq), 0, a, b);
    } else {
      var n := |events| - 1;
      TakenAuditAside(u, c, ack, gap, events[..n], a, b);
      assert TakenLog(u, c, ack, gap, events, a) == TakenLast(u, c, ack, gap, events, a);
      assert TakenLog(u, c, ack, gap, events, b) == TakenLast(u, c, ack, gap, events, b);
      var x, y, stored := TakenLog(u, c, ack, gap, events[..n], a), TakenLog(u, c, ack, gap, events[..n], b), Project(u.projector, events[n], ack.bootId);
      if x.Some? && stored.Some? {
        var committed, other := CommitEvent(u.json, x.value, stored.value, gap), CommitEvent(u.json, y.value, stored.value, gap);
        CommittedAuditAside(u.json, x.value, y.value, stored.value, gap);
        if committed.Committed? {
          ResnappedAuditAside(u, c, Position(ack.bootId, stored.value.seqNo), ack.replayCount, committed.log, other.log);
        }
      }
    }
  }

  lemma CommittedAuditAside(json: JsonReader, a: Log, b: Log, e: DerivedEvent, gap: bool)
    requires SameButAudit(a, b)
    ensures CommitEvent(json, a, e, gap).Committed? <==> CommitEvent(json, b, e, gap).Committed?
    ensures CommitEvent(json, a, e, gap).Committed? ==> SameButAudit(CommitEvent(json, a, e, gap).log, CommitEvent(json, b, e, gap).log)
  {}

  lemma {:induction false} ResnappedAuditAside(u: Setup, c: nat, at: Position, replayCount: nat, a: Log, b: Log)
    requires SameButAudit(a, b)
    ensures var x, y := Resnapped(u, c, at, replayCount, a), Resnapped(u, c, at, replayCount, b);
            (x.Some? <==> y.Some?) && (x.Some? ==> SameButAudit(x.value, y.value))
  {}

  lemma {:induction false} ServedAuditAside(u: Setup, c: nat, a: Log, b: Log)
    requires SameButAudit(a, b)
    ensures Servable(u, c, a) <==> Servable(u, c, b)
    ensures Servable(u, c, a) ==> SameButAudit(ServedLog(u, c, a), ServedLog(u, c, b))
  {
    var before := CursorOf(a, u.source);
    var frames := u.host.stream(c, AfterSeq(before));
    if AckOf(frames).Some? {
      TakenAuditAside(u, c, AckOf(frames).value, IsGap(AckOf(frames).value, before), ServedEvents(Rest(frames)), a, b);
    }
  }

  /** What the run has stored so far, audit aside. */
  predicate Follows(u: Setup, n: nat, start: Log, now: Log) {
    RunLog(u, n, start).Some? && SameButAudit(RunLog(u, n, start).value, now)
  }

  lemma {:induction false} FollowsOn(u: Setup, n: nat, start: Log, now: Log, later: Log)
    requires Follows(u, n, start, now) && Servable(u, n, now) && SameButAudit(ServedLog(u, n, now), later)
    ensures Follows(u, n + 1, start, later)
  {
    ServedAuditAside(u, n, RunLog(u, n, start).value, now);
    assert RunLog(u, n + 1, start) == LastServed(u, n + 1, start);
  }

  lemma {:induction false} ServedKeepsOk(u: Setup, c: nat, log: Log, later: Log)
    requires Servable(u, c, log) && SameButAudit(ServedLog(u, c, log), later)
    ensures CursorsOk(log) ==> CursorsOk(later)
  {
    ServedKeepsCursors(u, c, log);
  }

  /** The run goes on exactly when the next connection is served. */
  lemma {:induction false} ConnectionFollows(u: Setup, n: nat, start: Log, now: Log, later: Log)
    requires Follows(u, n, start, now)
    ensures Servable(u, n, now) && SameButAudit(ServedLog(u, n, now), later) ==>
              Follows(u, n + 1, start, later) && (CursorsOk(now) ==> CursorsOk(later))
    ensures !Servable(u, n, now) ==> RunLog(u, n + 1, start).None?
  {
    ServedAuditAside(u, n, RunLog(u, n, start).value, now);
    assert RunLog(u, n + 1, start) == LastServed(u, n + 1, start);
    if Servable(u, n, now) && SameButAudit(ServedLog(u, n, now), later) {
      FollowsOn(u, n, start, now, later);
      ServedKeepsOk(u, n, now, later);
    }
  }

  predicate CursorsOk(log: Log) {
    forall s | s in log.cursors :: log.cursors[s].seqNo >= 0
  }

  /** No cursor is lost or falls below zero. */
  lemma {:induction false} TakenKeepsCursors(u: Setup, c: nat, ack: Ack, gap: bool, events: seq<Frame>, log: Log)
    requires TakenLog(u, c, ack, gap, events, log).Some?
    ensures log.cursors.Keys <= TakenLog(u, c, ack, gap, events, log).value.cursors.Keys
    ensures CursorsOk(log) ==> CursorsOk(TakenLog(u, c, ack, gap, events, log).value)
  {
    if events != [] {
      TakenKeepsCursors(u, c, ack, gap, events[..|events| - 1], log);
    }
  }

  lemma {:induction false} ServedKeepsCursors(u: Setup, c: nat, log: Log)
    requires Servable(u, c, log)
    ensures log.cursors.Keys <= ServedLog(u, c, log).cursors.Keys
    ensures CursorsOk(log) ==> CursorsOk(ServedLog(u, c, log))
  {
    var before := CursorOf(log, u.source);
    var frames := u.host.stream(c, AfterSeq(before));
    TakenKeepsCursors(u, c, AckOf(frames).value, IsGap(AckOf(frames).value, before), ServedEvents(Rest(frames)), log);
  }

  /** Every stored event of the source translates. */
  predicate Recoverable(u: Setup, log: Log) {
    u.plant.Some? ==> |TranslateAll(u.plant.value, EventsOf(log.rows, u.source))| == |EventsOf(log.rows, u.source)|
  }

  lemma {:induction false} FailedRun(u: Setup, n: nat, k: nat, log: Log)
    requires k <= n && RunLog(u, k, log).None?
    ensures RunLog(u, n, log).None?
  {
    if k < n {
      FailedRun(u, n - 1, k, log);
      assert RunLog(u, n, log) == LastServed(u, n, log);
    }
  }

  // ---------------------------------------------------------------- the resident

  datatype RunError =
    | NotPositive
    | RecoveryFailed
    | ClosedBeforeAck
    | AckInvalid
    | StreamFailed(code: Option<string>)
    | SlowConsumerMalformed
    | UnexpectedFrame
    | EventInvalid
    | ProducerFailed
    | OutboxFailed(error: OutboxError)
    | SnapshotsFailed
    | ReplayIncomplete
    | CursorLost

  datatype ResidentRun = ResidentRun(
    connections: nat, reconnectAfterSeq: seq<Option<int>>, slowConsumerReceived: bool, disconnectAtSeq: Option<int>,
    replayEventCount: nat, insertedEventCount: nat, duplicateEventCount: nat, snapshotCommands: seq<string>)

  datatype Counts = Counts(inserted: nat, duplicates: nat, remaining: nat, commands: seq<string>)

  datatype Tally = Tally(inserted: nat, duplicates: nat, commands: seq<string>, slow: bool, disconnectAtSeq: Option<int>)

  datatype Totals = Totals(
    afters: seq<Option<int>>, slow: bool, disconnectAtSeq: Option<int>, replayed: nat, inserted: nat, duplicates: nat,
    commands: seq<string>)

  /** The totals of a run are those of its connections. */
  ghost predicate Accounted(host: Host, source: string, n: nat, parts: seq<Part>, start: Standing, now: Standing, run: ResidentRun) {
    && |parts| == n == run.connections == |run.reconnectAfterSeq|
    && (forall c | 0 <= c < n :: run.reconnectAfterSeq[c] == AfterSeq(parts[c].before))
    && Balanced(host, source, parts, start, now, run.insertedEventCount, run.duplicateEventCount, run.replayEventCount, run.disconnectAtSeq)
    && run.snapshotCommands == SnapshotsTaken(host, parts)
    && (run.slowConsumerReceived <==> run.disconnectAtSeq.Some?)
  }

  class EventStreamResident {
    const sourceInstanceId: string
    const host: Host
    const projector: Projector
    const outbox: EventOutbox
    const producer: DerivedEventReceiptProducer?

    ghost predicate Valid()
      reads this, producer, if producer == null then {} else {producer.emitter}
    {
      producer != null ==> producer.Valid()
    }

    function CurrentFlow(): Flow
      reads this, outbox, producer, if producer == null then {} else {producer.emitter, producer.core}
    {
      if producer == null then Flow(outbox.Tables(), BLANK, []) else Flow(outbox.Tables(), producer.Current(), producer.core.received)
    }

    function TheSetup(): Setup {
      Setup(outbox.json, if producer == null then None else Some(producer.p), projector, host, sourceInstanceId)
    }

    /** The sink takes whatever a connection's events emit. */
    ghost predicate SinkTakes(c: nat) {
      producer == null || forall k: nat :: host.sinkReady(c, k)
    }

    /** It takes them on every connection, and after a recovery. */
    ghost predicate SinkAlwaysTakes() {
      producer == null || (host.recoverySinkReady && forall c: nat, k: nat :: host.sinkReady(c, k))
    }

    /** The tables are what the events of the connection leave. */
    predicate Stored(c: nat, ack: Ack, gap: bool, fed: seq<Frame>, log: Log)
      reads outbox
    {
      TakenLog(TheSetup(), c, ack, gap, fed, log) == Some(outbox.Tables())
    }

    /** Without a gap, outbox, memory and receipts are what feeding these events left. */
    ghost predicate Reached(bootId: string, gap: bool, frames: seq<Frame>, start: Flow)
      reads this, outbox, producer, if producer == null then {} else {producer.emitter, producer.core}
    {
      producer != null && !gap ==> FedAll(outbox.json, producer.p, projector, bootId, false, frames, start) == Some(CurrentFlow())
    }

    /** The same, audit rows aside. */
    ghost predicate Followed(ack: Ack, gap: bool, frames: seq<Frame>, start: Flow)
      reads this, outbox, producer, if producer == null then {} else {producer.emitter, producer.core}
    {
      producer != null && !gap ==>
        FedAll(outbox.json, producer.p, projector, ack.bootId, false, frames, start) == Some(WithAudit(CurrentFlow(), start.log.audit))
    }

    constructor (sourceInstanceId: string, host: Host, projector: Projector, outbox: EventOutbox, producer: DerivedEventReceiptProducer?)
      requires producer != null ==> producer.Valid()
      ensures Valid() && this.host == host && this.outbox == outbox && this.producer == producer
      ensures this.sourceInstanceId == sourceInstanceId && this.projector == projector
    {
      this.sourceInstanceId, this.host, this.projector, this.outbox, this.producer := sourceInstanceId, host, projector, outbox, producer;
    }

    /** Feeds the receipt plane, then commits the event with its cursor. Whatever fails, the outbox is as
        before, so the event stays replayable. */
    method Ingest(f: Frame, bootId: string, gap: bool, ready: bool) returns (outcome: Either<RunError, CommitDisposition>)
      requires Valid()
      modifies outbox, if producer == null then {} else {producer, producer.emitter, producer.core}
      ensures Valid() && (producer != null ==> producer.emitter == old(producer.emitter))
      ensures outcome.Left? ==> outbox.Tables() == old(outbox.Tables())
      ensures outcome.Right? ==>
                && Project(projector, f, bootId).Some?
                && CommitEvent(outbox.json, old(outbox.Tables()), Project(projector, f, bootId).value, gap)
                   == Committed(outbox.Tables(), outcome.result)
      ensures Project(projector, f, bootId).Some?
              && (producer != null ==> ready && Translate(producer.p, Project(projector, f, bootId).value).Some?)
              && CommitEvent(outbox.json, old(outbox.Tables()), Project(projector, f, bootId).value, gap).Committed?
              ==> outcome.Right?
      ensures outcome.Right? && producer != null ==>
                Fed(outbox.json, producer.p, projector, bootId, gap, f, old(CurrentFlow())) == Some(CurrentFlow())
    {
      var projected := Project(projector, f, bootId);
      if projected.None? {
        return Left(EventInvalid);
      }
      if producer != null {
        var ok := producer.Observe(projected.value, ready);
        if !ok {
          return Left(ProducerFailed);
        }
      }
      var committed := outbox.Commit(projected.value, gap);
      outcome := if committed.Left? then Left(OutboxFailed(committed.error)) else Right(committed.result);
    }

    method Resnapshot(c: nat, at: Position, replayCount: nat) returns (outcome: Either<RunError, seq<string>>)
      modifies outbox
      ensures outbox.rows == old(outbox.rows)
      ensures outcome.Left? ==> outbox.Tables() == old(outbox.Tables())
      ensures outcome.Right? ==>
                && host.snapshots(c).Some? && outcome.result == CommandsOf(host.snapshots(c).value)
                && outbox.audit == old(outbox.audit) + [GapResnapshot(sourceInstanceId, at, outcome.result, replayCount)]
                && CursorOf(outbox.Tables(), sourceInstanceId) == Some(at)
      ensures outcome.Right? <==> Resnapped(TheSetup(), c, at, replayCount, old(outbox.Tables())).Some?
      ensures outcome.Right? ==> Resnapped(TheSetup(), c, at, replayCount, old(outbox.Tables())) == Some(outbox.Tables())
    {
      var snapshots := host.snapshots(c);
      if snapshots.None? {
        return Left(SnapshotsFailed);
      }
      var error := outbox.Resnapshot(sourceInstanceId, at, snapshots.value, replayCount);
      outcome := if error.Some? then Left(OutboxFailed(error.value)) else Right(CommandsOf(snapshots.value));
    }

    /** One event frame; the one that completes the replay of a gap also closes the gap. */
    method TakeEvent(c: nat, f: Frame, ack: Ack, gap: bool, closes: bool, ready: bool, ghost fed: seq<Frame>, ghost start: Flow)
      returns (outcome: Either<RunError, CommitDisposition>, commands: seq<string>)
      requires Valid() && f.EventFrame? && (closes <==> gap && |fed| + 1 == ack.replayCount) && Reached(ack.bootId, gap, fed, start)
      requires Stored(c, ack, gap, fed, start.log)
      modifies outbox, if producer == null then {} else {producer, producer.emitter, producer.core}
      ensures Valid() && (producer != null ==> producer.emitter == old(producer.emitter))
      ensures old(outbox.rows) <= outbox.rows
      ensures outcome.Right? ==>
                && Placed(ack.bootId, [f])
                && (closes ==> CursorOf(outbox.Tables(), sourceInstanceId) == Some(Position(ack.bootId, f.seqNo.value)))
                && |outbox.rows| == |old(outbox.rows)| + (if outcome.result.Inserted? then 1 else 0)
                && (closes ==> host.snapshots(c).Some? && commands == CommandsOf(host.snapshots(c).value))
                && (!closes ==> commands == [])
                && outbox.audit == old(outbox.audit)
                   + if closes then [GapResnapshot(sourceInstanceId, Position(ack.bootId, f.seqNo.value), commands, ack.replayCount)] else []
      ensures outcome.Right? ==> Reached(ack.bootId, gap, fed + [f], start)
      ensures outcome.Right? ==> Stored(c, ack, gap, fed + [f], start.log)
      ensures (producer == null || ready) && TakenLog(TheSetup(), c, ack, gap, fed + [f], start.log).Some? ==> outcome.Right?
    {
      commands := [];
      TakenOneMore(TheSetup(), c, ack, gap, fed, f, start.log);
      if producer != null && !gap {
        FedOneMore(outbox.json, producer.p, projector, ack.bootId, false, fed, f, start, CurrentFlow());
      }
      outcome := Ingest(f, ack.bootId, gap, ready);
      if outcome.Right? && closes {
        var taken := Resnapshot(c, Position(ack.bootId, f.seqNo.value), ack.replayCount);
        if taken.Left? {
          return Left(taken.error), commands;
        }
        commands := taken.result;
      }
    }

    /** The counts of a connection agree with the events it has taken so far: rows, replay still due, and the
        gap closed once none is due. */
    ghost predicate Counted(c: nat, ack: Ack, gap: bool, fed: seq<Frame>, n: Counts, rowsAtStart: nat, auditAtStart: seq<AuditEntry>)
      reads outbox
    {
      && n.inserted + n.duplicates == |fed|
      && n.remaining == (if ack.replayCount <= |fed| then 0 else ack.replayCount - |fed|)
      && |outbox.rows| == rowsAtStart + n.inserted
      && (if gap && n.remaining == 0 then host.snapshots(c).Some? && n.commands == CommandsOf(host.snapshots(c).value) else n.commands == [])
      && outbox.audit == auditAtStart + (if n.remaining == 0 then GapRows(host, sourceInstanceId, c, ack, gap, fed) else [])
      && Placed(ack.bootId, fed) && ClosedAt(ack, gap, fed, CursorOf(outbox.Tables(), sourceInstanceId))
    }

    method CountEvent(
      c: nat, f: Frame, ack: Ack, gap: bool, n: Counts,
      ghost fed: seq<Frame>, ghost start: Flow, ghost rowsAtStart: nat, ghost auditAtStart: seq<AuditEntry>)
      returns (outcome: Either<RunError, Counts>)
      requires Valid() && f.EventFrame?
      requires Counted(c, ack, gap, fed, n, rowsAtStart, auditAtStart) && Reached(ack.bootId, gap, fed, start)
      requires Stored(c, ack, gap, fed, start.log)
      modifies outbox, if producer == null then {} else {producer, producer.emitter, producer.core}
      ensures Valid() && (producer != null ==> producer.emitter == old(producer.emitter))
      ensures old(outbox.rows) <= outbox.rows
      ensures outcome.Right? ==> Counted(c, ack, gap, fed + [f], outcome.result, rowsAtStart, auditAtStart)
                                 && Reached(ack.bootId, gap, fed + [f], start) && Stored(c, ack, gap, fed + [f], start.log)
      ensures SinkTakes(c) && TakenLog(TheSetup(), c, ack, gap, fed + [f], start.log).Some? ==> outcome.Right?
    {
      var taken, shots := TakeEvent(c, f, ack, gap, gap && n.remaining == 1, host.sinkReady(c, n.inserted + n.duplicates), fed, start);
      if taken.Left? {
        return Left(taken.error);
      }
      var m := if taken.result.Inserted? then n.(inserted := n.inserted + 1) else n.(duplicates := n.duplicates + 1);
      if n.remaining > 0 {
        m := m.(remaining := n.remaining - 1);
        if m.remaining == 0 && gap {
          m := m.(commands := shots);
        }
      }
      outcome := Right(m);
    }

    /** One frame: a drop ends the connection, a heartbeat is passed over, an event is counted, and anything
        else is an error. */
    method TakeFrame(
      c: nat, f: Frame, ack: Ack, gap: bool, n: Counts,
      ghost fed: seq<Frame>, ghost start: Flow, ghost rowsAtStart: nat, ghost auditAtStart: seq<AuditEntry>)
      returns (outcome: Either<RunError, Counts>, dropped: Option<int>)
      requires Valid() && Counted(c, ack, gap, fed, n, rowsAtStart, auditAtStart) && Reached(ack.bootId, gap, fed, start)
      requires Stored(c, ack, gap, fed, start.log)
      modifies outbox, if producer == null then {} else {producer, producer.emitter, producer.core}
      ensures Valid() && (producer != null ==> producer.emitter == old(producer.emitter))
      ensures old(outbox.rows) <= outbox.rows
      ensures outcome.Right? ==>
                var more := if f.EventFrame? then fed + [f] else fed;
                && Counted(c, ack, gap, more, outcome.result, rowsAtStart, auditAtStart) && Reached(ack.bootId, gap, more, start)
                && (f.ErrorFrame? <==> dropped.Some?) && (f.ErrorFrame? ==> dropped == f.latestSeq)
                && FrameFine(f) && Stored(c, ack, gap, more, start.log)
      ensures SinkTakes(c) && FrameFine(f) && (f.EventFrame? ==> TakenLog(TheSetup(), c, ack, gap, fed + [f], start.log).Some?) ==> outcome.Right?
    {
      dropped := None;
      outcome := Right(n);
      match f {
        case ErrorFrame(code, latestSeq) =>
          if code != Some("slow_consumer") {
            return Left(StreamFailed(code)), None;
          }
          if latestSeq.None? || latestSeq.value < 0 {
            return Left(SlowConsumerMalformed), None;
          }
          dropped := latestSeq;
        case HeartbeatFrame =>
        case EventFrame(_, _, _, _, _, _) =>
          outcome := CountEvent(c, f, ack, gap, n, fed, start, rowsAtStart, auditAtStart);
        case _ =>
          outcome := Left(UnexpectedFrame);
      }
    }

    /** The frame at an index. */
    method TakeNext(
      c: nat, rest: seq<Frame>, i: nat, ack: Ack, gap: bool, n: Counts,
      ghost fed: seq<Frame>, ghost start: Flow, ghost rowsAtStart: nat, ghost auditAtStart: seq<AuditEntry>)
      returns (outcome: Either<RunError, Counts>, dropped: Option<int>, ghost more: seq<Frame>)
      requires i < |rest| && FineTo(rest, i, None, fed)
      requires Valid() && Counted(c, ack, gap, fed, n, rowsAtStart, auditAtStart) && Reached(ack.bootId, gap, fed, start)
      requires Stored(c, ack, gap, fed, start.log)
      modifies outbox, if producer == null then {} else {producer, producer.emitter, producer.core}
      ensures Valid() && (producer != null ==> producer.emitter == old(producer.emitter))
      ensures old(outbox.rows) <= outbox.rows
      ensures outcome.Right? ==>
                && FineTo(rest, i + 1, dropped, more)
                && Counted(c, ack, gap, more, outcome.result, rowsAtStart, auditAtStart) && Reached(ack.bootId, gap, more, start)
                && Stored(c, ack, gap, more, start.log)
      ensures outcome.Left? && SinkTakes(c) && FramesFine(rest) ==> TakenLog(TheSetup(), c, ack, gap, ServedEvents(rest), start.log).None?
    {
      more := if rest[i].EventFrame? then fed + [rest[i]] else fed;
      outcome, dropped := TakeFrame(c, rest[i], ack, gap, n, fed, start, rowsAtStart, auditAtStart);
      if outcome.Right? {
        EndsOneOn(rest, i, fed, dropped);
      } else if SinkTakes(c) {
        RefusedFrame(TheSetup(), c, ack, gap, rest, i, fed, start.log);
      }
    }

    /** Counts the events among the frames, up to a drop. */
    method TakeFrames(
      c: nat, rest: seq<Frame>, ack: Ack, gap: bool, zero: Counts, ghost start: Flow, ghost rowsAtStart: nat, ghost auditAtStart: seq<AuditEntry>)
      returns (outcome: Either<RunError, Counts>, dropped: Option<int>)
      requires Valid() && Counted(c, ack, gap, [], zero, rowsAtStart, auditAtStart) && Reached(ack.bootId, gap, [], start)
      requires Stored(c, ack, gap, [], start.log)
      modifies outbox, if producer == null then {} else {producer, producer.emitter, producer.core}
      ensures Valid() && (producer != null ==> producer.emitter == old(producer.emitter))
      ensures old(outbox.rows) <= outbox.rows
      ensures outcome.Right? ==>
                && Counted(c, ack, gap, ServedEvents(rest), outcome.result, rowsAtStart, auditAtStart)
                && Reached(ack.bootId, gap, ServedEvents(rest), start)
                && dropped == DroppedAt(rest, None) && (Dropped(rest) <==> dropped.Some?)
                && FramesFine(rest) && Stored(c, ack, gap, ServedEvents(rest), start.log)
      ensures SinkTakes(c) && FramesFine(rest) && TakenLog(TheSetup(), c, ack, gap, ServedEvents(rest), start.log).Some? ==> outcome.Right?
    {
      var n, i := zero, 0;
      dropped := None;
      ghost var fed := [];
      while i < |rest| && dropped.None?
        invariant 0 <= i <= |rest| && Valid() && (producer != null ==> producer.emitter == old(producer.emitter))
        invariant old(outbox.rows) <= outbox.rows
        invariant FineTo(rest, i, dropped, fed)
        invariant Counted(c, ack, gap, fed, n, rowsAtStart, auditAtStart) && Reached(ack.bootId, gap, fed, start)
        invariant Stored(c, ack, gap, fed, start.log)
      {
        var taken, drop, more := TakeNext(c, rest, i, ack, gap, n, fed, start, rowsAtStart, auditAtStart);
        if taken.Left? {
          return taken, None;
        }
        fed := more;
        n, dropped, i := taken.result, drop, i + 1;
      }
      TakenFramesFine(rest, i, dropped, fed);
      ServedAre(rest, i, dropped, fed);
      outcome := Right(n);
    }

    /** The frames of one connection after its ack: a gap without replay is closed first, and a declared
        replay must have been served in full. */
    method Consume(c: nat, rest: seq<Frame>, ack: Ack, gap: bool, droppedBefore: Option<int>)
      returns (outcome: Either<RunError, Tally>)
      requires Valid()
      modifies outbox, if producer == null then {} else {producer, producer.emitter, producer.core}
      ensures Valid() && (producer != null ==> producer.emitter == old(producer.emitter))
      ensures old(outbox.rows) <= outbox.rows
      ensures outcome.Right? ==>
                var events, tally := ServedEvents(rest), outcome.result;
                && |outbox.rows| == |old(outbox.rows)| + tally.inserted
                && tally.inserted + tally.duplicates == |events|
                && ack.replayCount <= |events|
                && (gap ==> host.snapshots(c).Some? && tally.commands == CommandsOf(host.snapshots(c).value))
                && (!gap ==> tally.commands == [])
                && outbox.audit == old(outbox.audit) + GapRows(host, sourceInstanceId, c, ack, gap, events)
                && tally.disconnectAtSeq == DroppedAt(rest, droppedBefore)
                && DropKnown(rest)
                && Placed(ack.bootId, events) && ClosedAt(ack, gap, events, CursorOf(outbox.Tables(), sourceInstanceId))
                && (if tally.slow then tally.disconnectAtSeq.Some? else tally.disconnectAtSeq == droppedBefore)
      ensures outcome.Right? ==> Reached(ack.bootId, gap, ServedEvents(rest), old(CurrentFlow()))
      ensures outcome.Right? ==> FramesFine(rest) && Stored(c, ack, gap, ServedEvents(rest), old(outbox.Tables()))
      ensures SinkTakes(c) && ServedFine(TheSetup(), c, rest, ack, gap, old(outbox.Tables())) ==> outcome.Right?
    {
      ghost var start, rows, audit := CurrentFlow(), |outbox.rows|, outbox.audit;
      var zero := Counts(0, 0, ack.replayCount, []);
      if gap && ack.replayCount == 0 {
        var taken := Resnapshot(c, Position(ack.bootId, ack.latestSeq), 0);
        if taken.Left? {
          TakenNone(TheSetup(), c, ack, gap, ServedEvents(rest), start.log);
          return Left(taken.error);
        }
        zero := zero.(commands := taken.result);
      }
      var taken, dropped := TakeFrames(c, rest, ack, gap, zero, start, rows, audit);
      if taken.Left? {
        return Left(taken.error);
      }
      var n := taken.result;
      if n.remaining != 0 {
        return Left(ReplayIncomplete);
      }
      outcome := Right(Tally(n.inserted, n.duplicates, n.commands, dropped.Some?, if dropped.Some? then dropped else droppedBefore));
    }

    /** The frames of one connection, ack first. */
    method Serve(c: nat, before: Option<Position>, droppedBefore: Option<int>) returns (outcome: Either<RunError, Tally>, ghost part: Part)
      requires Valid() && before == CursorOf(outbox.Tables(), sourceInstanceId)
      modifies outbox, if producer == null then {} else {producer, producer.emitter, producer.core}
      ensures Valid() && (producer != null ==> producer.emitter == old(producer.emitter))
      ensures old(outbox.rows) <= outbox.rows
      ensures outcome.Right? ==>
                && part == Part(before, CursorOf(outbox.Tables(), sourceInstanceId), |old(outbox.rows)|, |outbox.rows|, outcome.result.duplicates)
                && ((before.Some? ==> part.cursor.Some?) ==> PartOk(host, c, part))
      ensures outcome.Right? ==>
                var rest, ack := Rest(FramesOf(host, c, part)), AckOf(FramesOf(host, c, part));
                && ack.Some? && ack.value.replayCount <= |ServedEvents(rest)|
                && outcome.result.inserted == part.rowsAfter - part.rowsBefore
                && outcome.result.disconnectAtSeq == DroppedAt(rest, droppedBefore)
                && (if outcome.result.slow then outcome.result.disconnectAtSeq.Some? else outcome.result.disconnectAtSeq == droppedBefore)
                && outbox.audit == old(outbox.audit) + GapRows(host, sourceInstanceId, c, ack.value, IsGap(ack.value, before), ServedEvents(rest))
                && (if IsGap(ack.value, before) then host.snapshots(c).Some? && outcome.result.commands == CommandsOf(host.snapshots(c).value)
                    else outcome.result.commands == [])
                && Followed(ack.value, IsGap(ack.value, before), ServedEvents(rest), old(CurrentFlow()))
      ensures outcome.Right? ==> Servable(TheSetup(), c, old(outbox.Tables())) && outbox.Tables() == ServedLog(TheSetup(), c, old(outbox.Tables()))
      ensures SinkTakes(c) && Servable(TheSetup(), c, old(outbox.Tables())) ==> outcome.Right?
    {
      part := Part(before, None, |outbox.rows|, |outbox.rows|, 0);
      var frames := host.stream(c, AfterSeq(before));
      if frames == [] {
        return Left(ClosedBeforeAck), part;
      }
      var ack := ParseAck(frames[0]);
      if ack.None? {
        return Left(AckInvalid), part;
      }
      var gap := ack.value.gap || (before.Some? && before.value.bootId != ack.value.bootId);
      outcome := Consume(c, frames[1..], ack.value, gap, droppedBefore);
      if outcome.Right? {
        assert !gap ==> outbox.audit == old(outbox.audit);
        part := Part(before, CursorOf(outbox.Tables(), sourceInstanceId), part.rowsBefore, |outbox.rows|, outcome.result.duplicates);
      }
    }

    /** The audit row of a resumed connection, at the cursor it ends at. */
    method RecordResume(before: Position, replayed: nat, tally: Tally, ghost ack: Ack, ghost gap: bool, ghost fed: seq<Frame>, ghost start: Flow)
      returns (error: Option<RunError>)
      requires Followed(ack, gap, fed, start)
      modifies outbox
      ensures Followed(ack, gap, fed, start)
      ensures error.None? ==>
                && CursorOf(old(outbox.Tables()), sourceInstanceId).Some?
                && var at := CursorOf(old(outbox.Tables()), sourceInstanceId).value;
                   outbox.Tables() == old(outbox.Tables()).(audit := old(outbox.audit) + [
                     ReconnectReplay(sourceInstanceId, at, before.seqNo, replayed, tally.inserted, tally.duplicates, tally.disconnectAtSeq)])
      ensures error.Some? ==> outbox.Tables() == old(outbox.Tables())
      ensures error.Some? ==> var at := CursorOf(old(outbox.Tables()), sourceInstanceId); at.None? || at.value.seqNo < 0
    {
      var cursor := outbox.Cursor(sourceInstanceId);
      if cursor.None? {
        return Some(CursorLost);
      }
      var refused := outbox.ReconnectReplay(
        sourceInstanceId, cursor.value,
        ReconnectReplay(sourceInstanceId, cursor.value, before.seqNo, replayed, tally.inserted, tally.duplicates, tally.disconnectAtSeq));
      error := if refused.Some? then Some(OutboxFailed(refused.value)) else None;
    }

    /** One connection from the durable cursor to its end. */
    method Connection(c: nat, droppedBefore: Option<int>) returns (outcome: Either<RunError, Tally>, replayed: nat, ghost part: Part)
      requires Valid()
      modifies outbox, if producer == null then {} else {producer, producer.emitter, producer.core}
      ensures Valid() && (producer != null ==> producer.emitter == old(producer.emitter))
      ensures old(outbox.rows) <= outbox.rows
      ensures outcome.Right? ==>
                && PartOk(host, c, part)
                && part.before == CursorOf(old(outbox.Tables()), sourceInstanceId)
                && part.cursor == CursorOf(outbox.Tables(), sourceInstanceId)
                && part.rowsBefore == |old(outbox.rows)| && part.rowsAfter == |outbox.rows|
                && outcome.result.inserted == part.rowsAfter - part.rowsBefore && outcome.result.duplicates == part.duplicates
                && replayed == AckOf(FramesOf(host, c, part)).value.replayCount
                && outcome.result.disconnectAtSeq == DroppedAt(Rest(FramesOf(host, c, part)), droppedBefore)
                && outbox.audit == old(outbox.audit) + PartRows(host, sourceInstanceId, c, part, outcome.result.disconnectAtSeq)
                && outcome.result.commands == PartCommands(host, c, part)
                && (if outcome.result.slow then outcome.result.disconnectAtSeq.Some? else outcome.result.disconnectAtSeq == droppedBefore)
      ensures outcome.Right? ==>
                var ack := AckOf(FramesOf(host, c, part)).value;
                Followed(ack, IsGap(ack, part.before), ServedEvents(Rest(FramesOf(host, c, part))), old(CurrentFlow()))
      ensures outcome.Right? ==>
                Servable(TheSetup(), c, old(outbox.Tables())) && SameButAudit(ServedLog(TheSetup(), c, old(outbox.Tables())), outbox.Tables())
      ensures SinkTakes(c) && CursorsOk(old(outbox.Tables())) && Servable(TheSetup(), c, old(outbox.Tables())) ==> outcome.Right?
    {
      var before := outbox.Cursor(sourceInstanceId);
      outcome, part := Serve(c, before, droppedBefore);
      replayed := 0;
      if outcome.Left? {
        return;
      }
      ServedKeepsCursors(TheSetup(), c, old(outbox.Tables()));
      ghost var frames, served := FramesOf(host, c, part), outbox.audit;
      var ack := AckOf(host.stream(c, AfterSeq(before))).value;
      replayed := ack.replayCount;
      if before.Some? {
        var error := RecordResume(before.value, replayed, outcome.result,
                                  ack, IsGap(ack, before), ServedEvents(Rest(frames)), old(CurrentFlow()));
        if error.Some? {
          outcome := Left(error.value);
          return;
        }
      }
      RowsOfPart(host, sourceInstanceId, c, part, outcome.result.disconnectAtSeq, ack, old(outbox.audit), served, outbox.audit);
    }

    /** Rebuilds the producer's memory from the outbox, when there is a producer, and sends its receipts again;
        it succeeds whenever the stored events translate and the sink is ready. */
    method RecoverProducer() returns (ok: bool)
      requires Valid()
      modifies if producer == null then {} else {producer, producer.core}
      ensures Valid() && (producer != null ==> fresh(producer.emitter))
      ensures producer == null ==> ok
      ensures producer != null ==>
                var events := EventsOf(outbox.rows, sourceInstanceId);
                var stored := TranslateAll(producer.p, events);
                && (ok ==>
                      && |stored| == |events|
                      && producer.Current() == Remember(producer.p.wiring, BLANK, stored)
                      && producer.core.received == old(producer.core.received) + Receipts(producer.p.wiring, BLANK, stored))
                && (host.recoverySinkReady && |stored| == |events| ==> ok)
    {
      ok := true;
      if producer != null {
        ok := producer.Recover(EventsOf(outbox.rows, sourceInstanceId), host.recoverySinkReady);
      }
    }

    /** The totals of the connections so far, and what they left in the tables. */
    ghost predicate InBooks(parts: seq<Part>, start: Standing, began: Log, t: Totals)
      reads outbox
    {
      && |parts| == |t.afters| && (forall k | 0 <= k < |parts| :: t.afters[k] == AfterSeq(parts[k].before))
      && Balanced(host, sourceInstanceId, parts, start, StandingOf(outbox.Tables(), sourceInstanceId),
                  t.inserted, t.duplicates, t.replayed, t.disconnectAtSeq)
      && t.commands == SnapshotsTaken(host, parts) && (t.slow <==> t.disconnectAtSeq.Some?)
      && Follows(TheSetup(), |parts|, began, outbox.Tables()) && (CursorsOk(began) ==> CursorsOk(outbox.Tables()))
    }

    /** One connection, entered in the books. */
    method BookedConnection(c: nat, t: Totals, ghost parts: seq<Part>, ghost start: Standing, ghost began: Log)
      returns (outcome: Either<RunError, Totals>, ghost part: Part)
      requires Valid() && |parts| == c && InBooks(parts, start, began, t)
      modifies outbox, if producer == null then {} else {producer, producer.emitter, producer.core}
      ensures Valid() && (producer != null ==> producer.emitter == old(producer.emitter))
      ensures old(outbox.rows) <= outbox.rows
      ensures outcome.Right? ==> InBooks(parts + [part], start, began, outcome.result)
      ensures outcome.Left? && SinkTakes(c) && CursorsOk(began) ==> RunLog(TheSetup(), c + 1, began).None?
    {
      ghost var standing, now := StandingOf(outbox.Tables(), sourceInstanceId), outbox.Tables();
      var before := outbox.Cursor(sourceInstanceId);
      var done, declared, made := Connection(c, t.disconnectAtSeq);
      part := made;
      ConnectionFollows(TheSetup(), c, began, now, outbox.Tables());
      if done.Left? {
        return Left(done.error), part;
      }
      var tally := done.result;
      BooksGrow(host, sourceInstanceId, parts, part, start, standing, StandingOf(outbox.Tables(), sourceInstanceId),
                t.inserted, t.duplicates, t.replayed, t.disconnectAtSeq);
      SnapshotsGrow(host, parts, part);
      outcome := Right(Totals(
                         t.afters + [AfterSeq(before)], t.slow || tally.slow, tally.disconnectAtSeq, t.replayed + declared,
                         t.inserted + tally.inserted, t.duplicates + tally.duplicates, t.commands + tally.commands));
    }

    /** The given number of connections, one after the other. */
    method Connections(n: nat) returns (outcome: Either<RunError, ResidentRun>, ghost parts: seq<Part>)
      requires Valid()
      modifies outbox, if producer == null then {} else {producer, producer.emitter, producer.core}
      ensures Valid() && (producer != null ==> producer.emitter == old(producer.emitter))
      ensures old(outbox.rows) <= outbox.rows
      ensures outcome.Right? ==>
                Accounted(host, sourceInstanceId, n, parts, StandingOf(old(outbox.Tables()), sourceInstanceId),
                          StandingOf(outbox.Tables(), sourceInstanceId), outcome.result)
      ensures outcome.Right? ==> Follows(TheSetup(), n, old(outbox.Tables()), outbox.Tables())
      ensures SinkAlwaysTakes() && CursorsOk(old(outbox.Tables())) && RunLog(TheSetup(), n, old(outbox.Tables())).Some? ==> outcome.Right?
    {
      ghost var start, began := StandingOf(outbox.Tables(), sourceInstanceId), outbox.Tables();
      assert outbox.audit + [] == outbox.audit;
      parts := [];
      var t, c := Totals([], false, None, 0, 0, 0, []), 0;
      while c < n
        invariant 0 <= c <= n && |parts| == c && Valid() && (producer != null ==> producer.emitter == old(producer.emitter))
        invariant old(outbox.rows) <= outbox.rows
        invariant InBooks(parts, start, began, t)
      {
        var done, part := BookedConnection(c, t, parts, start, began);
        if done.Left? {
          if SinkAlwaysTakes() && CursorsOk(began) {
            FailedRun(TheSetup(), n, c + 1, began);
          }
          return Left(done.error), parts;
        }
        parts, t, c := parts + [part], done.result, c + 1;
      }
      outcome := Right(ResidentRun(n, t.afters, t.slow, t.disconnectAtSeq, t.replayed, t.inserted, t.duplicates, t.commands));
    }

    /** A bounded run. While the sink takes everything it succeeds exactly when the stored events translate
        and each connection is acked and served, and the tables are then those of its connections in turn.
        Its totals are those of its connections: inserts are the outbox growth, inserts and duplicates
        together are the events served, the replay total is what the acks declared, the audit gained exactly
        the rows of the gaps and of the resumed cursors, and each connection resumed from the cursor that the
        one before it left. */
    method Run(maxConnections: int) returns (outcome: Either<RunError, ResidentRun>, ghost parts: seq<Part>)
      requires Valid()
      modifies outbox, if producer == null then {} else {producer, producer.core}
      ensures Valid()
      ensures old(outbox.rows) <= outbox.rows
      ensures outcome.Right? ==>
                maxConnections > 0
                && Accounted(host, sourceInstanceId, maxConnections, parts, StandingOf(old(outbox.Tables()), sourceInstanceId),
                             StandingOf(outbox.Tables(), sourceInstanceId), outcome.result)
                && Recoverable(TheSetup(), old(outbox.Tables()))
                && Follows(TheSetup(), maxConnections, old(outbox.Tables()), outbox.Tables())
      ensures SinkAlwaysTakes() && CursorsOk(old(outbox.Tables())) && maxConnections > 0 && Recoverable(TheSetup(), old(outbox.Tables()))
              && RunLog(TheSetup(), maxConnections, old(outbox.Tables())).Some?
              ==> outcome.Right?
    {
      if maxConnections <= 0 {
        return Left(NotPositive), [];
      }
      var recovered := RecoverProducer();
      if !recovered {
        return Left(RecoveryFailed), [];
      }
      outcome, parts := Connections(maxConnections);
    }
  }
}
