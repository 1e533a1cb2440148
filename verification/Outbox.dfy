/** The resident's durable event log: event rows, one cursor per source, snapshot baselines and the
    stream audit. A transaction that raises leaves every table as it was. */
module Outbox {
  import opened CoreTypes
  import opened Producer

  /** A cursor without its source. */
  datatype Position = Position(bootId: string, seqNo: int)

  datatype AuditEntry =
    | GapResnapshot(sourceInstanceId: string, at: Position, commands: seq<string>, replayCount: int)
    | ReconnectReplay(
        sourceInstanceId: string, at: Position, requestedAfterSeq: int, replayCount: int,
        insertedCount: int, duplicateCount: int, disconnectAtSeq: Option<int>)

  datatype Snapshot = Snapshot(command: string, json: string)
  datatype Baseline = Baseline(at: Position, json: string)
  type Baselines = map<(string, string), Baseline>

  datatype Log = Log(rows: seq<DerivedEvent>, cursors: map<string, Position>, audit: seq<AuditEntry>, baselines: Baselines)

  const EMPTY_LOG := Log([], map[], [], map[])

  /** How texts parse: as a JSON object, and as any JSON value. */
  datatype JsonReader = JsonReader(isObject: string -> bool, isValue: string -> bool)

  datatype OutboxError =
    | IdentityIncomplete
    | EventNotJsonObject
    | TripleNamesOtherEvidence
    | SourceEventIdReplayed
    | BootChangedWithoutGap
    | CursorNotAdvanced
    | SnapshotsMissing
    | SnapshotsRepeated
    | SnapshotInvalid
    | CursorWouldRegress
    | NotTheDurableCursor
    | NegativeSeq

  datatype CommitDisposition = Inserted | Duplicate
  datatype CommitOutcome = Committed(log: Log, disposition: CommitDisposition) | Raised(error: OutboxError)
  datatype RecordOutcome = Recorded(log: Log) | NotRecorded(error: OutboxError)

  // ---------------------------------------------------------------- reads

  function At(e: DerivedEvent): Position {
    Position(e.bootId, e.seqNo)
  }

  predicate SameTriple(e: DerivedEvent, f: DerivedEvent) {
    e.sourceInstanceId == f.sourceInstanceId && e.bootId == f.bootId && e.seqNo == f.seqNo
  }

  predicate SameId(e: DerivedEvent, f: DerivedEvent) {
    e.sourceInstanceId == f.sourceInstanceId && e.sourceEventId == f.sourceEventId
  }

  /** The row with the event's cursor triple. */
  function RowAt(rows: seq<DerivedEvent>, e: DerivedEvent): (row: Option<DerivedEvent>)
    ensures row.Some? ==> row.value in rows && SameTriple(row.value, e)
    ensures row.None? ==> forall r | r in rows :: !SameTriple(r, e)
  {
    if rows == [] then None
    else if SameTriple(rows[0], e) then Some(rows[0])
    else RowAt(rows[1..], e)
  }

  predicate IdTaken(rows: seq<DerivedEvent>, e: DerivedEvent) {
    exists r | r in rows :: SameId(r, e)
  }

  function CursorOf(log: Log, source: string): Option<Position> {
    if source in log.cursors then Some(log.cursors[source]) else None
  }

  /** One source's events in their durable order. */
  function EventsOf(rows: seq<DerivedEvent>, source: string): seq<DerivedEvent> {
    if rows == [] then []
    else EventsOf(rows[..|rows| - 1], source)
         + if rows[|rows| - 1].sourceInstanceId == source then [rows[|rows| - 1]] else []
  }

  /** They are the source's rows, each as often. */
  lemma {:induction false} EventsOfExactly(rows: seq<DerivedEvent>, source: string, e: DerivedEvent)
    ensures multiset(EventsOf(rows, source))[e] == if e.sourceInstanceId == source then multiset(rows)[e] else 0
  {
    if rows != [] {
      EventsOfExactly(rows[..|rows| - 1], source, e);
      assert rows == rows[..|rows| - 1] + [rows[|rows| - 1]];
    }
  }

  /** And in row order. */
  lemma {:induction false} EventsOfOrder(rows: seq<DerivedEvent>, source: string, i: nat, j: nat)
    requires i < j < |EventsOf(rows, source)|
    ensures exists p, q :: 0 <= p < q < |rows| && rows[p] == EventsOf(rows, source)[i] && rows[q] == EventsOf(rows, source)[j]
  {
    var front, last := rows[..|rows| - 1], rows[|rows| - 1];
    var events := EventsOf(rows, source);
    if j < |EventsOf(front, source)| {
      EventsOfOrder(front, source, i, j);
      var p, q :| 0 <= p < q < |front| && front[p] == events[i] && front[q] == events[j];
      assert rows[p] == events[i] && rows[q] == events[j];
    } else {
      EventsOfExactly(front, source, events[i]);
      assert events[i] in multiset(EventsOf(front, source));
      var p :| 0 <= p < |front| && front[p] == events[i];
      assert rows[p] == events[i] && rows[|rows| - 1] == events[j];
    }
  }

  // ---------------------------------------------------------------- transactions

  function EventError(json: JsonReader, e: DerivedEvent): Option<OutboxError> {
    if e.sourceInstanceId == "" || e.bootId == "" || e.seqNo < 0 || e.sourceEventId == "" || e.eventName == OtherEvent("") then
      Some(IdentityIncomplete)
    else if !json.isObject(e.eventJson) then Some(EventNotJsonObject)
    else None
  }

  /** Why an event that is not yet stored may not become the cursor. */
  function AdvanceError(cursor: Option<Position>, at: Position, permitBootChange: bool): Option<OutboxError> {
    if cursor.None? then None
    else if cursor.value.bootId != at.bootId then if permitBootChange then None else Some(BootChangedWithoutGap)
    else if at.seqNo <= cursor.value.seqNo then Some(CursorNotAdvanced)
    else None
  }

  function CommitEvent(json: JsonReader, log: Log, e: DerivedEvent, permitBootChange: bool): CommitOutcome {
    var invalid := EventError(json, e);
    if invalid.Some? then Raised(invalid.value)
    else
      var existing := RowAt(log.rows, e);
      if existing.Some? then
        if existing.value == e then Committed(log, Duplicate) else Raised(TripleNamesOtherEvidence)
      else if IdTaken(log.rows, e) then Raised(SourceEventIdReplayed)
      else
        var stuck := AdvanceError(CursorOf(log, e.sourceInstanceId), At(e), permitBootChange);
        if stuck.Some? then Raised(stuck.value)
        else Committed(log.(rows := log.rows + [e], cursors := log.cursors[e.sourceInstanceId := At(e)]), Inserted)
  }

  function CommandsOf(snapshots: seq<Snapshot>): (commands: seq<string>)
    ensures |commands| == |snapshots|
    ensures forall i | 0 <= i < |snapshots| :: commands[i] == snapshots[i].command
  {
    seq(|snapshots|, i requires 0 <= i < |snapshots| => snapshots[i].command)
  }

  /** Later snapshots of one command replace earlier ones. */
  function WithBaselines(baselines: Baselines, source: string, at: Position, snapshots: seq<Snapshot>): Baselines {
    if snapshots == [] then baselines
    else
      var last := snapshots[|snapshots| - 1];
      WithBaselines(baselines, source, at, snapshots[..|snapshots| - 1])[(source, last.command) := Baseline(at, last.json)]
  }

  function SnapshotsError(json: JsonReader, snapshots: seq<Snapshot>): Option<OutboxError> {
    if snapshots == [] then Some(SnapshotsMissing)
    else if exists i, j | 0 <= i < j < |snapshots| :: snapshots[i].command == snapshots[j].command then Some(SnapshotsRepeated)
    else if exists s | s in snapshots :: s.command == "" || !json.isValue(s.json) then Some(SnapshotInvalid)
    else None
  }

  predicate WouldRegress(current: Option<Position>, at: Position) {
    current.Some? && current.value.bootId == at.bootId && at.seqNo < current.value.seqNo
  }

  function RecordResnapshot(json: JsonReader, log: Log, source: string, at: Position, snapshots: seq<Snapshot>, replayCount: int): RecordOutcome
  {
    var invalid := SnapshotsError(json, snapshots);
    if invalid.Some? then NotRecorded(invalid.value)
    else if WouldRegress(CursorOf(log, source), at) then NotRecorded(CursorWouldRegress)
    else if at.seqNo < 0 then NotRecorded(NegativeSeq)
    else Recorded(log.(
                  baselines := WithBaselines(log.baselines, source, at, snapshots),
                  audit := log.audit + [GapResnapshot(source, at, CommandsOf(snapshots), replayCount)],
                  cursors := log.cursors[source := at]))
  }

  function RecordReconnectReplay(log: Log, source: string, at: Position, entry: AuditEntry): RecordOutcome
  {
    if CursorOf(log, source) != Some(at) then NotRecorded(NotTheDurableCursor)
    else if at.seqNo < 0 then NotRecorded(NegativeSeq)
    else Recorded(log.(audit := log.audit + [entry]))
  }

  // ---------------------------------------------------------------- runs

  datatype Operation =
    | Commit(e: DerivedEvent, permitBootChange: bool)
    | Resnapshot(source: string, at: Position, snapshots: seq<Snapshot>, replayCount: int)
    | Reconnect(source: string, at: Position, entry: AuditEntry)

  /** The tables after one call, which may raise. */
  function Apply(json: JsonReader, log: Log, op: Operation): Log {
    match op
    case Commit(e, permit) =>
      var outcome := CommitEvent(json, log, e, permit);
      if outcome.Committed? then outcome.log else log
    case Resnapshot(source, at, snapshots, replayCount) =>
      var outcome := RecordResnapshot(json, log, source, at, snapshots, replayCount);
      if outcome.Recorded? then outcome.log else log
    case Reconnect(source, at, entry) =>
      var outcome := RecordReconnectReplay(log, source, at, entry);
      if outcome.Recorded? then outcome.log else log
  }

  function After(json: JsonReader, ops: seq<Operation>): Log {
    if ops == [] then EMPTY_LOG else Apply(json, After(json, ops[..|ops| - 1]), ops[|ops| - 1])
  }

  /** The boots the cursor has stood in, one entry per change. */
  function BootsOf(json: JsonReader, ops: seq<Operation>, source: string): seq<string> {
    if ops == [] then []
    else
      var earlier := BootsOf(json, ops[..|ops| - 1], source);
      var cursor := CursorOf(After(json, ops), source);
      if cursor.None? || (earlier != [] && earlier[|earlier| - 1] == cursor.value.bootId) then earlier
      else earlier + [cursor.value.bootId]
  }

  /** How far a source has come: the boots so far, then the sequence number within the last. */
  datatype Rank = Rank(boots: nat, seqNo: int)
  {
    predicate Below(other: Rank) {
      boots < other.boots || (boots == other.boots && seqNo < other.seqNo)
    }
  }

  function RankOf(json: JsonReader, ops: seq<Operation>, source: string): Rank {
    var cursor := CursorOf(After(json, ops), source);
    Rank(|BootsOf(json, ops, source)|, if cursor.Some? then cursor.value.seqNo else -1)
  }

  /** The tables' own constraints and what the last boot entry means. */
  ghost predicate TablesOk(json: JsonReader, log: Log) {
    && (forall e | e in log.rows :: EventError(json, e).None? && e.sourceInstanceId in log.cursors)
    && (forall i, j | 0 <= i < j < |log.rows| :: !SameTriple(log.rows[i], log.rows[j]) && !SameId(log.rows[i], log.rows[j]))
    && (forall s | s in log.cursors :: log.cursors[s].seqNo >= 0)
  }

  lemma {:induction false} ApplyKeepsTablesOk(json: JsonReader, log: Log, op: Operation)
    requires TablesOk(json, log)
    ensures TablesOk(json, Apply(json, log, op))
  {
    var after := Apply(json, log, op);
    if op.Commit? && after.rows != log.rows {
      assert after.rows == log.rows + [op.e];
    }
  }

  lemma {:induction false} TablesStayOk(json: JsonReader, ops: seq<Operation>)
    ensures TablesOk(json, After(json, ops))
  {
    if ops != [] {
      TablesStayOk(json, ops[..|ops| - 1]);
      ApplyKeepsTablesOk(json, After(json, ops[..|ops| - 1]), ops[|ops| - 1]);
    }
  }

  lemma {:induction false} LastBootIsTheCursors(json: JsonReader, ops: seq<Operation>, source: string)
    ensures var boots, cursor := BootsOf(json, ops, source), CursorOf(After(json, ops), source);
            if cursor.None? then boots == [] else boots != [] && boots[|boots| - 1] == cursor.value.bootId
  {
    if ops != [] {
      LastBootIsTheCursors(json, ops[..|ops| - 1], source);
    }
  }

  /** A row of this source was added by the i-th call. */
  predicate Inserts(json: JsonReader, ops: seq<Operation>, i: nat, source: string)
    requires i < |ops|
  {
    ops[i].Commit? && ops[i].e.sourceInstanceId == source && |After(json, ops[..i + 1]).rows| > |After(json, ops[..i]).rows|
  }

  /** One call never moves a source back, and an insertion moves it strictly on. */
  lemma {:induction false} StepRaisesRank(json: JsonReader, ops: seq<Operation>, i: nat, source: string)
    requires i < |ops|
    ensures !RankOf(json, ops[..i + 1], source).Below(RankOf(json, ops[..i], source))
    ensures Inserts(json, ops, i, source) ==> RankOf(json, ops[..i], source).Below(RankOf(json, ops[..i + 1], source))
  {
    assert ops[..i + 1][..i] == ops[..i];
    LastBootIsTheCursors(json, ops[..i], source);
    LastBootIsTheCursors(json, ops[..i + 1], source);
    TablesStayOk(json, ops[..i + 1]);
  }

  /** Along every run a source's rank never falls, and it rises wherever a row was inserted. */
  lemma {:induction false} CursorOrder(json: JsonReader, ops: seq<Operation>, i: nat, j: nat, source: string)
    requires i <= j <= |ops|
    ensures !RankOf(json, ops[..j], source).Below(RankOf(json, ops[..i], source))
    ensures (exists k | i <= k < j :: Inserts(json, ops, k, source)) ==> RankOf(json, ops[..i], source).Below(RankOf(json, ops[..j], source))
    decreases j
  {
    if i < j {
      CursorOrder(json, ops, i, j - 1, source);
      StepRaisesRank(json, ops, j - 1, source);
      if k :| i <= k < j && Inserts(json, ops, k, source) {
        if k < j - 1 {
          assert exists l | i <= l < j - 1 :: Inserts(json, ops, l, source);
        }
      }
    }
  }

  /** The source's rows of one boot ascend. */
  ghost predicate RowsAscend(rows: seq<DerivedEvent>, source: string) {
    forall i, j | 0 <= i < j < |rows| ::
      rows[i].sourceInstanceId == source == rows[j].sourceInstanceId && rows[i].bootId == rows[j].bootId
      ==> rows[i].seqNo < rows[j].seqNo
  }

  /** Rows of one boot ascend, and none of the cursor's boot is past the cursor. */
  ghost predicate Ordered(log: Log, source: string) {
    && RowsAscend(log.rows, source)
    && (forall e | e in log.rows && e.sourceInstanceId == source ::
          CursorOf(log, source).Some? && (e.bootId == log.cursors[source].bootId ==> e.seqNo <= log.cursors[source].seqNo))
  }

  /** No stored row of the position's boot is past it. */
  predicate Reaches(rows: seq<DerivedEvent>, source: string, at: Position) {
    forall r | r in rows && r.sourceInstanceId == source && r.bootId == at.bootId :: r.seqNo <= at.seqNo
  }

  predicate Inserting(json: JsonReader, log: Log, e: DerivedEvent, permitBootChange: bool) {
    var outcome := CommitEvent(json, log, e, permitBootChange);
    outcome.Committed? && outcome.disposition.Inserted?
  }

  /** The call leaves the source's cursor alone, or moves it to where the stored rows of that boot ended or
      beyond. */
  predicate CarriesOn(json: JsonReader, log: Log, op: Operation, source: string) {
    match op
    case Commit(e, permit) =>
      e.sourceInstanceId == source && Inserting(json, log, e, permit) ==> Reaches(log.rows, source, At(e))
    case Resnapshot(s, at, snapshots, n) =>
      s == source && RecordResnapshot(json, log, s, at, snapshots, n).Recorded? ==> Reaches(log.rows, source, at)
    case Reconnect(_, _, _) => true
  }

  /** An inserted row ascends exactly when it is past every stored row of its boot. */
  lemma InsertionAscends(rows: seq<DerivedEvent>, e: DerivedEvent)
    requires RowsAscend(rows, e.sourceInstanceId) && forall r | r in rows :: !SameTriple(r, e)
    ensures RowsAscend(rows + [e], e.sourceInstanceId) <==> Reaches(rows, e.sourceInstanceId, At(e))
  {
    var after := rows + [e];
    if RowsAscend(after, e.sourceInstanceId) {
      forall r | r in rows && r.sourceInstanceId == e.sourceInstanceId && r.bootId == e.bootId ensures r.seqNo <= e.seqNo {
        var i :| 0 <= i < |rows| && rows[i] == r;
        assert after[i] == r && after[|rows|] == e;
      }
    }
    if Reaches(rows, e.sourceInstanceId, At(e)) {
      forall i | 0 <= i < |rows| && rows[i].sourceInstanceId == e.sourceInstanceId && rows[i].bootId == e.bootId
        ensures rows[i].seqNo < e.seqNo
      {
        assert rows[i] in rows;
      }
    }
  }

  lemma OthersRowAscends(rows: seq<DerivedEvent>, e: DerivedEvent, source: string)
    requires e.sourceInstanceId != source
    ensures RowsAscend(rows + [e], source) <==> RowsAscend(rows, source)
  {
    assert forall i | 0 <= i < |rows| :: (rows + [e])[i] == rows[i];
  }

  lemma InsertionOrderedExactly(log: Log, e: DerivedEvent, source: string)
    requires Ordered(log, source) && forall r | r in log.rows :: !SameTriple(r, e)
    ensures var after := log.(rows := log.rows + [e], cursors := log.cursors[e.sourceInstanceId := At(e)]);
            Ordered(after, source) <==> (e.sourceInstanceId == source ==> Reaches(log.rows, source, At(e)))
  {
    if e.sourceInstanceId == source {
      InsertionAscends(log.rows, e);
    } else {
      OthersRowAscends(log.rows, e, source);
    }
  }

  /** One call keeps an ordered log ordered exactly when it carries on. */
  lemma {:induction false} CallKeepsOrderExactly(json: JsonReader, log: Log, op: Operation, source: string)
    requires Ordered(log, source)
    ensures Ordered(Apply(json, log, op), source) <==> CarriesOn(json, log, op, source)
  {
    match op
    case Commit(e, permit) =>
      if Inserting(json, log, e, permit) {
        InsertionOrderedExactly(log, e, source);
      }
    case Resnapshot(s, at, snapshots, n) =>
      var outcome := RecordResnapshot(json, log, s, at, snapshots, n);
      if outcome.Recorded? && s == source {
        assert outcome.log.rows == log.rows && CursorOf(outcome.log, source) == Some(at);
      }
    case Reconnect(_, _, _) =>
  }

  /** Along a run the log is ordered all the way exactly when every call carries on. */
  lemma {:induction false} RunOrderedExactly(json: JsonReader, ops: seq<Operation>, source: string)
    ensures (forall n | 0 <= n <= |ops| :: Ordered(After(json, ops[..n]), source))
       <==> (forall n | 0 <= n < |ops| :: CarriesOn(json, After(json, ops[..n]), ops[n], source))
  {
    if forall n | 0 <= n <= |ops| :: Ordered(After(json, ops[..n]), source) {
      forall n | 0 <= n < |ops| ensures CarriesOn(json, After(json, ops[..n]), ops[n], source) {
        assert ops[..n + 1][..n] == ops[..n] && Ordered(After(json, ops[..n + 1]), source);
        CallKeepsOrderExactly(json, After(json, ops[..n]), ops[n], source);
      }
    }
    if forall n | 0 <= n < |ops| :: CarriesOn(json, After(json, ops[..n]), ops[n], source) {
      forall n | 0 <= n <= |ops| ensures Ordered(After(json, ops[..n]), source) {
        CarryingOnOrders(json, ops, n, source);
      }
    }
  }

  lemma {:induction false} CarryingOnOrders(json: JsonReader, ops: seq<Operation>, n: nat, source: string)
    requires n <= |ops| && forall k | 0 <= k < |ops| :: CarriesOn(json, After(json, ops[..k]), ops[k], source)
    ensures Ordered(After(json, ops[..n]), source)
  {
    if n > 0 {
      CarryingOnOrders(json, ops, n - 1, source);
      assert ops[..n][..n - 1] == ops[..n - 1];
      CallKeepsOrderExactly(json, After(json, ops[..n - 1]), ops[n - 1], source);
    }
  }

  /** The n-th call, if it stored a row of the source, stored it past the rows of its boot stored before. */
  predicate StoresPast(json: JsonReader, ops: seq<Operation>, n: nat, source: string)
    requires n < |ops|
  {
    Inserts(json, ops, n, source) ==> Reaches(After(json, ops[..n]).rows, source, At(ops[n].e))
  }

  lemma StoredByPrefix(json: JsonReader, ops: seq<Operation>, m: nat, n: nat, source: string)
    requires n < m <= |ops|
    ensures StoresPast(json, ops[..m], n, source) <==> StoresPast(json, ops, n, source)
  {
    assert ops[..m][..n] == ops[..n] && ops[..m][..n + 1] == ops[..n + 1];
  }

  /** The rows stored at the end ascend exactly when each was past the rows of its boot stored before it. */
  lemma {:induction false} RowsAscendExactly(json: JsonReader, ops: seq<Operation>, source: string)
    ensures RowsAscend(After(json, ops).rows, source) <==> forall n | 0 <= n < |ops| :: StoresPast(json, ops, n, source)
  {
    if ops != [] {
      var m := |ops| - 1;
      RowsAscendExactly(json, ops[..m], source);
      forall n | 0 <= n < m ensures StoresPast(json, ops[..m], n, source) <==> StoresPast(json, ops, n, source) {
        StoredByPrefix(json, ops, m, n, source);
      }
      LastCallAscends(json, ops, source);
    }
  }

  lemma {:induction false} LastCallAscends(json: JsonReader, ops: seq<Operation>, source: string)
    requires ops != []
    ensures RowsAscend(After(json, ops).rows, source)
       <==> RowsAscend(After(json, ops[..|ops| - 1]).rows, source) && StoresPast(json, ops, |ops| - 1, source)
  {
    var m := |ops| - 1;
    assert ops[..m + 1] == ops;
    CallAscendsExactly(json, After(json, ops[..m]), ops[m], source);
  }

  lemma {:induction false} CallAscendsExactly(json: JsonReader, log: Log, op: Operation, source: string)
    ensures RowsAscend(Apply(json, log, op).rows, source)
       <==> RowsAscend(log.rows, source)
            && (op.Commit? && op.e.sourceInstanceId == source && |Apply(json, log, op).rows| > |log.rows|
                ==> Reaches(log.rows, source, At(op.e)))
  {
    var after := Apply(json, log, op);
    if op.Commit? && Inserting(json, log, op.e, op.permitBootChange) {
      assert after.rows == log.rows + [op.e];
      if RowsAscend(after.rows, source) {
        forall i, j | 0 <= i < j < |log.rows| && log.rows[i].sourceInstanceId == source == log.rows[j].sourceInstanceId && log.rows[i].bootId == log.rows[j].bootId
          ensures log.rows[i].seqNo < log.rows[j].seqNo
        {
          assert after.rows[i] == log.rows[i] && after.rows[j] == log.rows[j];
        }
      }
      if op.e.sourceInstanceId != source {
        OthersRowAscends(log.rows, op.e, source);
      } else if RowsAscend(log.rows, source) {
        InsertionAscends(log.rows, op.e);
      }
    }
  }

  // ---------------------------------------------------------------- boots that do not come back

  ghost predicate NeverRecurs(boots: seq<string>) {
    forall i, j | 0 <= i < j < |boots| :: boots[i] != boots[j]
  }

  ghost predicate BootsCover(log: Log, source: string, boots: seq<string>) {
    forall e | e in log.rows && e.sourceInstanceId == source :: e.bootId in boots
  }

  /** A call that keeps the cursor's boot, or enters one never seen, carries on. */
  lemma {:induction false} NewBootCarriesOn(json: JsonReader, log: Log, op: Operation, source: string, boots: seq<string>)
    requires Ordered(log, source) && BootsCover(log, source, boots)
    requires var before, now := CursorOf(log, source), CursorOf(Apply(json, log, op), source);
             now.Some? && (before.None? || before.value.bootId != now.value.bootId) ==> now.value.bootId !in boots
    ensures CarriesOn(json, log, op, source)
    ensures var now := CursorOf(Apply(json, log, op), source);
            BootsCover(Apply(json, log, op), source, if now.Some? then boots + [now.value.bootId] else boots)
  {}

  /** When no boot id comes back, each boot's rows are stored in strictly increasing order and the cursor
      bounds its own boot's rows. */
  lemma {:induction false} RowsFollowTheCursor(json: JsonReader, ops: seq<Operation>, source: string)
    requires NeverRecurs(BootsOf(json, ops, source))
    ensures Ordered(After(json, ops), source) && BootsCover(After(json, ops), source, BootsOf(json, ops, source))
  {
    if ops != [] {
      var front := ops[..|ops| - 1];
      var earlier, boots := BootsOf(json, front, source), BootsOf(json, ops, source);
      assert earlier <= boots;
      EarlierNeverRecurs(earlier, boots);
      RowsFollowTheCursor(json, front, source);
      LastBootIsTheCursors(json, front, source);
      LastBootIsTheCursors(json, ops, source);
      NewBootCarriesOn(json, After(json, front), ops[|ops| - 1], source, earlier);
      CallKeepsOrderExactly(json, After(json, front), ops[|ops| - 1], source);
    }
  }

  lemma EarlierNeverRecurs(earlier: seq<string>, boots: seq<string>)
    requires NeverRecurs(boots) && earlier <= boots
    ensures NeverRecurs(earlier)
    ensures |boots| == |earlier| + 1 ==> boots[|earlier|] !in earlier
  {
    assert forall i | 0 <= i < |earlier| :: earlier[i] == boots[i];
  }
  /** The order does depend on boots not coming back: a boot that returns after a declared gap may store
      a lower sequence number. */
  lemma {:induction false} ReturningBootDisorders(json: JsonReader, text: string)
    requires json.isObject(text)
    ensures var event := (boot, n, id) => DerivedEvent("host", boot, n, id, InputSent, text);
            var ops := [Commit(event("a", 5, "1"), false), Commit(event("b", 0, "2"), true), Commit(event("a", 3, "3"), true)];
            !Ordered(After(json, ops), "host")
  {
    var event := (boot, n, id) => DerivedEvent("host", boot, n, id, InputSent, text);
    var ops := [Commit(event("a", 5, "1"), false), Commit(event("b", 0, "2"), true), Commit(event("a", 3, "3"), true)];
    assert ops[..2] == [ops[0], ops[1]] && ops[..2][..1] == [ops[0]] && ops[..2][..1][..0] == [];
    assert After(json, ops[..2][..1]).rows == [ops[0].e];
    assert After(json, ops[..2]).rows == [ops[0].e, ops[1].e];
    assert After(json, ops).rows == [ops[0].e, ops[1].e, ops[2].e];
    assert After(json, ops).rows[0].bootId == After(json, ops).rows[2].bootId;
  }

  /** In every reachable log, a commit is answered "duplicate" exactly when that very event is stored,
      and it then changes nothing. */
  lemma {:induction false} DuplicateExactlyWhenStored(json: JsonReader, ops: seq<Operation>, e: DerivedEvent, permitBootChange: bool)
    ensures var log := After(json, ops);
            e in log.rows <==> CommitEvent(json, log, e, permitBootChange) == Committed(log, Duplicate)
    ensures var outcome := CommitEvent(json, After(json, ops), e, permitBootChange);
            outcome.Committed? && outcome.disposition.Duplicate? ==> outcome.log == After(json, ops)
  {
    var log := After(json, ops);
    TablesStayOk(json, ops);
    if e in log.rows {
      var i :| 0 <= i < |log.rows| && log.rows[i] == e;
      var row := RowAt(log.rows, e);
      assert row.Some?;
      var j :| 0 <= j < |log.rows| && log.rows[j] == row.value;
      assert i == j;
    }
  }

  /** Committing stored events again, in any order and number, changes nothing. */
  lemma {:induction false} RecommitChangesNothing(json: JsonReader, ops: seq<Operation>, again: seq<Operation>)
    requires forall op | op in again :: op.Commit? && op.e in After(json, ops).rows
    ensures After(json, ops + again) == After(json, ops)
  {
    if again == [] {
      assert ops + again == ops;
    } else {
      var front, last := again[..|again| - 1], again[|again| - 1];
      assert ops + again == (ops + front) + [last] && (ops + again)[..|ops + again| - 1] == ops + front;
      assert last in again;
      RecommitChangesNothing(json, ops, front);
      DuplicateExactlyWhenStored(json, ops, last.e, last.permitBootChange);
    }
  }

  // ---------------------------------------------------------------- what each call accepts

  /** The identity is whole and the text is a JSON object. */
  predicate Storable(json: JsonReader, e: DerivedEvent) {
    && e.sourceInstanceId != "" && e.bootId != "" && e.seqNo >= 0 && e.sourceEventId != "" && e.eventName != OtherEvent("")
    && json.isObject(e.eventJson)
  }

  /** No stored row has the event's place in the stream or its id. */
  predicate Unseen(rows: seq<DerivedEvent>, e: DerivedEvent) {
    forall r | r in rows && r.sourceInstanceId == e.sourceInstanceId ::
      !(r.bootId == e.bootId && r.seqNo == e.seqNo) && r.sourceEventId != e.sourceEventId
  }

  /** An event is inserted exactly when it is storable and unseen, and its source has no cursor, or one in
      this boot and before it, or one in another boot that the caller permits to leave. The insertion
      appends the row and moves that cursor there; any other outcome keeps the tables. */
  lemma {:induction false} InsertsExactly(json: JsonReader, log: Log, e: DerivedEvent, permitBootChange: bool)
    ensures CommitEvent(json, log, e, permitBootChange).Committed? && CommitEvent(json, log, e, permitBootChange).disposition == Inserted
       <==> && Storable(json, e) && Unseen(log.rows, e)
            && (e.sourceInstanceId in log.cursors && log.cursors[e.sourceInstanceId].bootId != e.bootId ==> permitBootChange)
            && (e.sourceInstanceId in log.cursors && log.cursors[e.sourceInstanceId].bootId == e.bootId
                ==> log.cursors[e.sourceInstanceId].seqNo < e.seqNo)
    ensures var after := Apply(json, log, Commit(e, permitBootChange));
            if CommitEvent(json, log, e, permitBootChange).Committed? && CommitEvent(json, log, e, permitBootChange).disposition == Inserted
            then after == Log(log.rows + [e], log.cursors[e.sourceInstanceId := Position(e.bootId, e.seqNo)], log.audit, log.baselines)
            else after == log
  {
    assert Unseen(log.rows, e) <==> (forall r | r in log.rows :: !SameTriple(r, e) && !SameId(r, e));
  }

  /** A source that has not declared a gap cannot change boots: its event is refused and nothing changes. */
  lemma {:induction false} BootChangeNeedsPermit(json: JsonReader, log: Log, e: DerivedEvent)
    requires Storable(json, e) && Unseen(log.rows, e)
    requires e.sourceInstanceId in log.cursors && log.cursors[e.sourceInstanceId].bootId != e.bootId
    ensures CommitEvent(json, log, e, false) == Raised(BootChangedWithoutGap)
    ensures CommitEvent(json, log, e, true).Committed?
  {
    InsertsExactly(json, log, e, true);
    assert forall r | r in log.rows :: !SameTriple(r, e) && !SameId(r, e);
  }

  /** One named command, with a JSON value. */
  predicate SnapshotSound(json: JsonReader, s: Snapshot) {
    s.command != "" && json.isValue(s.json)
  }

  predicate CommandsDiffer(snapshots: seq<Snapshot>) {
    forall i, j | 0 <= i < j < |snapshots| :: snapshots[i].command != snapshots[j].command
  }

  predicate Names(snapshots: seq<Snapshot>, command: string) {
    exists s | s in snapshots :: s.command == command
  }

  /** The i-th snapshot is its command's baseline. */
  lemma {:induction false} BaselineIsTaken(before: Baselines, source: string, at: Position, snapshots: seq<Snapshot>, i: nat)
    requires CommandsDiffer(snapshots) && i < |snapshots|
    ensures var after, key := WithBaselines(before, source, at, snapshots), (source, snapshots[i].command);
            key in after && after[key] == Baseline(at, snapshots[i].json)
  {
    var n := |snapshots| - 1;
    if i < n {
      BaselineIsTaken(before, source, at, snapshots[..n], i);
    }
  }

  /** Every other baseline stays. */
  lemma {:induction false} BaselineStays(before: Baselines, source: string, at: Position, snapshots: seq<Snapshot>, key: (string, string))
    requires key.0 != source || !Names(snapshots, key.1)
    ensures var after := WithBaselines(before, source, at, snapshots);
            (key in after <==> key in before) && (key in before ==> after[key] == before[key])
  {
    if snapshots != [] {
      var n := |snapshots| - 1;
      assert snapshots[n] in snapshots;
      assert forall s | s in snapshots[..n] :: s in snapshots;
      BaselineStays(before, source, at, snapshots[..n], key);
    }
  }

  /** The snapshot of every command is the baseline at the position, and no other baseline changes. */
  ghost predicate BaselinesTaken(before: Baselines, after: Baselines, source: string, at: Position, snapshots: seq<Snapshot>) {
    && (forall i | 0 <= i < |snapshots| ::
          (source, snapshots[i].command) in after && after[(source, snapshots[i].command)] == Baseline(at, snapshots[i].json))
    && (forall key: (string, string) | key.0 != source || !Names(snapshots, key.1) ::
          (key in after <==> key in before) && (key in before ==> after[key] == before[key]))
  }

  lemma {:induction false} BaselinesAreTaken(before: Baselines, source: string, at: Position, snapshots: seq<Snapshot>)
    requires CommandsDiffer(snapshots)
    ensures BaselinesTaken(before, WithBaselines(before, source, at, snapshots), source, at, snapshots)
  {
    var after := WithBaselines(before, source, at, snapshots);
    forall i | 0 <= i < |snapshots|
      ensures (source, snapshots[i].command) in after && after[(source, snapshots[i].command)] == Baseline(at, snapshots[i].json)
    {
      BaselineIsTaken(before, source, at, snapshots, i);
    }
    forall key: (string, string) | key.0 != source || !Names(snapshots, key.1)
      ensures (key in after <==> key in before) && (key in before ==> after[key] == before[key])
    {
      BaselineStays(before, source, at, snapshots, key);
    }
  }

  /** A gap is closed exactly with sound snapshots of distinct commands, at least one, and without moving
      the cursor back within its boot. */
  lemma {:induction false} ResnapshotsExactly(json: JsonReader, log: Log, source: string, at: Position, snapshots: seq<Snapshot>, replayCount: int)
    ensures RecordResnapshot(json, log, source, at, snapshots, replayCount).Recorded?
       <==> && snapshots != [] && CommandsDiffer(snapshots) && (forall s | s in snapshots :: SnapshotSound(json, s))
            && at.seqNo >= 0
            && (source in log.cursors && log.cursors[source].bootId == at.bootId ==> log.cursors[source].seqNo <= at.seqNo)
  {
    assert (forall s | s in snapshots :: SnapshotSound(json, s)) <==> !exists s | s in snapshots :: s.command == "" || !json.isValue(s.json);
  }

  /** The rows stay; every baseline, the cursor and one audit row are written at the position. */
  lemma {:induction false} ResnapshotWrites(json: JsonReader, log: Log, source: string, at: Position, snapshots: seq<Snapshot>, replayCount: int)
    requires RecordResnapshot(json, log, source, at, snapshots, replayCount).Recorded?
    ensures var after := RecordResnapshot(json, log, source, at, snapshots, replayCount).log;
            && after.rows == log.rows && after.cursors == log.cursors[source := at]
            && BaselinesTaken(log.baselines, after.baselines, source, at, snapshots)
            && exists commands: seq<string> ::
                 && after.audit == log.audit + [GapResnapshot(source, at, commands, replayCount)]
                 && |commands| == |snapshots| && forall i | 0 <= i < |snapshots| :: commands[i] == snapshots[i].command
  {
    var after := RecordResnapshot(json, log, source, at, snapshots, replayCount).log;
    BaselinesAreTaken(log.baselines, source, at, snapshots);
    assert after.audit == log.audit + [GapResnapshot(source, at, CommandsOf(snapshots), replayCount)];
  }

  /** A replay is entered exactly at the durable cursor, and the entry is all that changes. */
  lemma {:induction false} ReconnectsExactly(json: JsonReader, log: Log, source: string, at: Position, entry: AuditEntry)
    ensures RecordReconnectReplay(log, source, at, entry).Recorded? <==> source in log.cursors && log.cursors[source] == at && at.seqNo >= 0
    ensures Apply(json, log, Reconnect(source, at, entry))
         == if source in log.cursors && log.cursors[source] == at && at.seqNo >= 0 then log.(audit := log.audit + [entry]) else log
  {}

  // ---------------------------------------------------------------- the outbox object

  class EventOutbox {
    const json: JsonReader
    var rows: seq<DerivedEvent>
    var cursors: map<string, Position>
    var audit: seq<AuditEntry>
    var baselines: Baselines

    function Tables(): Log
      reads this
    {
      Log(rows, cursors, audit, baselines)
    }

    constructor (json: JsonReader)
      ensures this.json == json && Tables() == EMPTY_LOG
    {
      this.json := json;
      rows, cursors, audit, baselines := [], map[], [], map[];
    }

    function Cursor(source: string): Option<Position>
      reads this
    {
      if source in cursors then Some(cursors[source]) else None
    }

    /** `Left` holds the error the call raises; the tables are then unchanged. */
    method Commit(e: DerivedEvent, permitBootChange: bool) returns (outcome: Either<OutboxError, CommitDisposition>)
      modifies this
      ensures match CommitEvent(json, old(Tables()), e, permitBootChange)
              case Committed(log, disposition) => Tables() == log && outcome == Right(disposition)
              case Raised(error) => Tables() == old(Tables()) && outcome == Left(error)
      ensures !permitBootChange && e.sourceInstanceId in old(cursors) && old(cursors)[e.sourceInstanceId].bootId != e.bootId && e !in old(rows)
              ==> outcome.Left? && Tables() == old(Tables())
    {
      var invalid := EventError(json, e);
      if invalid.Some? {
        return Left(invalid.value);
      }
      var existing := RowAt(rows, e);
      if existing.Some? {
        var same := existing.value.sourceEventId == e.sourceEventId && existing.value.eventName == e.eventName
                    && existing.value.eventJson == e.eventJson;
        return if same then Right(Duplicate) else Left(TripleNamesOtherEvidence);
      }
      if IdTaken(rows, e) {
        return Left(SourceEventIdReplayed);
      }
      var cursor := Cursor(e.sourceInstanceId);
      if cursor.Some? {
        if cursor.value.bootId != e.bootId && !permitBootChange {
          return Left(BootChangedWithoutGap);
        }
        if cursor.value.bootId == e.bootId && e.seqNo <= cursor.value.seqNo {
          return Left(CursorNotAdvanced);
        }
      }
      rows := rows + [e];
      cursors := cursors[e.sourceInstanceId := At(e)];
      outcome := Right(Inserted);
    }

    method Resnapshot(source: string, at: Position, snapshots: seq<Snapshot>, replayCount: int) returns (error: Option<OutboxError>)
      modifies this
      ensures match RecordResnapshot(json, old(Tables()), source, at, snapshots, replayCount)
              case Recorded(log) => Tables() == log && error == None
              case NotRecorded(e) => Tables() == old(Tables()) && error == Some(e)
    {
      error := SnapshotsError(json, snapshots);
      if error.Some? {
        return;
      }
      if WouldRegress(Cursor(source), at) {
        return Some(CursorWouldRegress);
      }
      if at.seqNo < 0 {
        return Some(NegativeSeq);
      }
      var i := 0;
      while i < |snapshots|
        modifies this`baselines
        invariant 0 <= i <= |snapshots|
        invariant baselines == WithBaselines(old(baselines), source, at, snapshots[..i])
      {
        assert snapshots[..i + 1][..i] == snapshots[..i];
        baselines := baselines[(source, snapshots[i].command) := Baseline(at, snapshots[i].json)];
        i := i + 1;
      }
      assert snapshots[..i] == snapshots;
      audit := audit + [GapResnapshot(source, at, CommandsOf(snapshots), replayCount)];
      cursors := cursors[source := at];
    }

    method ReconnectReplay(source: string, at: Position, entry: AuditEntry) returns (error: Option<OutboxError>)
      modifies this
      ensures match RecordReconnectReplay(old(Tables()), source, at, entry)
              case Recorded(log) => Tables() == log && error == None
              case NotRecorded(e) => Tables() == old(Tables()) && error == Some(e)
    {
      if Cursor(source) != Some(at) {
        return Some(NotTheDurableCursor);
      }
      if at.seqNo < 0 {
        return Some(NegativeSeq);
      }
      audit := audit + [entry];
      error := None;
    }
  }
}
