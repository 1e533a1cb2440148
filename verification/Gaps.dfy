/** What the stream resident accepts and when a connection of it closes a gap, told from the frames' own
    members. */
module Gaps {
  import opened CoreTypes
  import opened Outbox
  import opened Producer
  import opened Resident

  /** A known protocol, a boot, a replay count, and a resume part with all its members in range. */
  predicate AckWhole(f: Frame) {
    && f.AckFrame? && f.supported && f.bootId.Some? && f.bootId.value != "" && f.replayCount.Some? && f.replayCount.value >= 0
    && f.resume.Some? && f.resume.value.requestedOk && f.resume.value.gap.Some?
    && f.resume.value.oldestSeq.Some? && f.resume.value.oldestSeq.value >= 0
    && f.resume.value.latestSeq.Some? && f.resume.value.latestSeq.value >= 0
    && f.resume.value.nextSeq.Some? && f.resume.value.nextSeq.value >= 0
  }

  /** An ack parses exactly when it is whole, to its own members. */
  lemma AckParsesExactly(f: Frame)
    ensures ParseAck(f).Some? <==> AckWhole(f)
    ensures AckWhole(f) ==>
              && ParseAck(f).value.bootId == f.bootId.value && ParseAck(f).value.replayCount == f.replayCount.value
              && ParseAck(f).value.latestSeq == f.resume.value.latestSeq.value && ParseAck(f).value.gap == f.resume.value.gap.value
  {}

  /** An event frame is taken exactly when its protocol is known, it is of the acked boot, and it has a
      number, an id and a name; what is stored is its own number, id and name, and a text in which only the
      preview is rewritten. */
  lemma ProjectsExactly(p: Projector, f: Frame, bootId: string)
    ensures Project(p, f, bootId).Some?
       <==> && f.EventFrame? && f.supported && f.bootId == Some(bootId)
            && f.seqNo.Some? && f.seqNo.value >= 0 && f.id.Some? && f.id.value != "" && f.name.Some? && f.name.value != OtherEvent("")
    ensures Project(p, f, bootId).Some? ==>
              var body, preview := f.body, if f.body.preview.Some? then p.redact(f.body.preview.value) else None;
              Project(p, f, bootId).value
              == DerivedEvent(
                p.sourceInstanceId, bootId, f.seqNo.value, f.id.value, f.name.value,
                p.render(Projected(f.bootId, f.id, f.name, f.seqNo, body.occurredAt, body.workspaceId, body.sessionId, body.phase, preview),
                         body.rest))
  {}

  /** The row that closes a gap: at the last number of the server without replay, and otherwise at the number
      of the last event of the declared replay. */
  predicate ClosesGap(row: AuditEntry, host: Host, source: string, c: nat, ack: Frame, events: seq<Frame>)
    requires AckWhole(ack)
  {
    && row.GapResnapshot? && row.sourceInstanceId == source && row.replayCount == ack.replayCount.value
    && host.snapshots(c).Some? && row.commands == CommandsOf(host.snapshots(c).value)
    && Some(row.at.bootId) == ack.bootId
    && row.replayCount <= |events|
    && (if ack.replayCount == Some(0) then Some(row.at.seqNo) == ack.resume.value.latestSeq
        else events[row.replayCount - 1].EventFrame? && Some(row.at.seqNo) == events[row.replayCount - 1].seqNo)
  }

  /** A finished connection whose ack declares a gap, or another boot than its cursor's, has taken the host's
      snapshots and has exactly one gap row, first among its rows, at the place that the frames say; if
      nothing more was served the cursor is left there. Any other connection has no gap row and took no
      snapshot. */
  lemma {:induction false} ConnectionGap(host: Host, source: string, c: nat, p: Part, dropped: Option<int>, frames: seq<Frame>)
    requires PartOk(host, c, p)
    requires frames == host.stream(c, if p.before.Some? then Some(p.before.value.seqNo) else None)
    ensures frames != [] && AckWhole(frames[0])
    ensures var rows := PartRows(host, source, c, p, dropped);
            if frames[0].resume.value.gap == Some(true) || (p.before.Some? && Some(p.before.value.bootId) != frames[0].bootId) then
              && rows != [] && ClosesGap(rows[0], host, source, c, frames[0], ServedEvents(frames[1..]))
              && (forall i | 0 < i < |rows| :: !rows[i].GapResnapshot?)
              && (|ServedEvents(frames[1..])| == rows[0].replayCount ==> p.cursor == Some(rows[0].at))
              && PartCommands(host, c, p) == CommandsOf(host.snapshots(c).value)
            else
              && (forall i | 0 <= i < |rows| :: !rows[i].GapResnapshot?)
              && PartCommands(host, c, p) == []
  {
    AckParsesExactly(frames[0]);
    var events := ServedEvents(frames[1..]);
    var n := frames[0].replayCount.value;
    assert n > 0 ==> events[n - 1] in events;
  }

  /** A connection that resumed from a cursor ends with its one replay row, at the cursor it left, which
      counts what the ack declared, the rows it added, and the served events that were stored already. */
  lemma {:induction false} ConnectionResume(host: Host, source: string, c: nat, p: Part, dropped: Option<int>, frames: seq<Frame>)
    requires PartOk(host, c, p)
    requires frames == host.stream(c, if p.before.Some? then Some(p.before.value.seqNo) else None)
    ensures frames != [] && AckWhole(frames[0])
    ensures var rows, events := PartRows(host, source, c, p, dropped), ServedEvents(frames[1..]);
            if p.before.None? then forall i | 0 <= i < |rows| :: !rows[i].ReconnectReplay?
            else
              && rows != [] && (forall i | 0 <= i < |rows| - 1 :: !rows[i].ReconnectReplay?)
              && var row := rows[|rows| - 1];
                 && row.ReconnectReplay? && row.sourceInstanceId == source && Some(row.at) == p.cursor
                 && row.requestedAfterSeq == p.before.value.seqNo && Some(row.replayCount) == frames[0].replayCount
                 && p.rowsBefore + row.insertedCount == p.rowsAfter && row.insertedCount + row.duplicateCount == |events|
                 && row.disconnectAtSeq == dropped
  {
    AckParsesExactly(frames[0]);
  }

  /** Its rows stand in the audit of the run right after those of the connections before it. */
  lemma {:induction false} RowsStand(host: Host, source: string, parts: seq<Part>, c: nat)
    requires EachOk(host, parts) && c < |parts|
    ensures EachOk(host, parts[..c]) && EachOk(host, parts[..c + 1]) && PartOk(host, c, parts[c])
    ensures AuditOf(host, source, parts[..c]) + PartRows(host, source, c, parts[c], LastDrop(host, parts[..c + 1]))
         == AuditOf(host, source, parts[..c + 1]) <= AuditOf(host, source, parts)
  {
    EachOfPrefix(host, parts, c);
    EachOfPrefix(host, parts, c + 1);
    EachMeans(host, parts, c);
    AuditOfPrefix(host, source, parts, c + 1);
    assert parts[..c + 1][..c] == parts[..c];
  }

  /** Over a whole run: the audit holds, at the place of each connection, its gap row exactly when its ack
      declared a gap or another boot. */
  lemma {:induction false} RunGaps(host: Host, source: string, parts: seq<Part>, c: nat, frames: seq<Frame>)
    requires EachOk(host, parts) && c < |parts|
    requires frames == host.stream(c, if parts[c].before.Some? then Some(parts[c].before.value.seqNo) else None)
    ensures EachOk(host, parts[..c]) && EachOk(host, parts[..c + 1])
    ensures frames != [] && AckWhole(frames[0])
    ensures var audit, at, end := AuditOf(host, source, parts), |AuditOf(host, source, parts[..c])|, |AuditOf(host, source, parts[..c + 1])|;
            && at <= end <= |audit|
            && (if frames[0].resume.value.gap == Some(true) || (parts[c].before.Some? && Some(parts[c].before.value.bootId) != frames[0].bootId) then
                  && at < end && ClosesGap(audit[at], host, source, c, frames[0], ServedEvents(frames[1..]))
                  && (forall i | at < i < end :: !audit[i].GapResnapshot?)
                else
                  forall i | at <= i < end :: !audit[i].GapResnapshot?)
  {
    RowsStand(host, source, parts, c);
    ConnectionGap(host, source, c, parts[c], LastDrop(host, parts[..c + 1]), frames);
    var rows, at := PartRows(host, source, c, parts[c], LastDrop(host, parts[..c + 1])), |AuditOf(host, source, parts[..c])|;
    assert forall i | at <= i < at + |rows| :: AuditOf(host, source, parts)[i] == rows[i - at];
  }
}
