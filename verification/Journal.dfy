/** Intent before effect: the injection journal and the injector that writes to it before it touches a
    pane. */
module Journal {
  import opened CoreTypes
  import opened Repeats
  import Sorting

  datatype JournalState = Prepared | Injected | Acked | Ambiguous

  function LegalTransitions(s: JournalState): set<JournalState> {
    match s
    case Prepared => {Injected, Ambiguous}
    case Injected => {Acked}
    case Acked => {}
    case Ambiguous => {}
  }

  datatype JournalRow = JournalRow(
    deliveryId: string, bindingId: string, seatId: string, marker: string, state: JournalState,
    preparedAt: int, settledAt: Option<int>, sourceEvents: seq<string>, detail: string)

  datatype JournalError = AlreadyJournaled | BackToPrepared | NeverPrepared | IllegalTransition

  /** Rows in insertion order; the delivery id is the key. */
  type Rows = seq<JournalRow>

  function Find(rows: Rows, deliveryId: string): (i: Option<nat>)
    ensures i.Some? ==> i.value < |rows| && rows[i.value].deliveryId == deliveryId
    ensures i.None? ==> forall r | r in rows :: r.deliveryId != deliveryId
  {
    if rows == [] then None
    else if rows[|rows| - 1].deliveryId == deliveryId then Some(|rows| - 1)
    else Find(rows[..|rows| - 1], deliveryId)
  }

  datatype Intent = Intent(deliveryId: string, bindingId: string, seatId: string, marker: string, now: int)

  /** `None` is the uniqueness error. */
  function Prepare(rows: Rows, i: Intent): Option<Rows> {
    if Find(rows, i.deliveryId).Some? then None
    else Some(rows + [JournalRow(i.deliveryId, i.bindingId, i.seatId, i.marker, Prepared, i.now, None, [], "")])
  }

  /** What one settlement claims. */
  datatype Outcome = Outcome(deliveryId: string, state: JournalState, now: int, sourceEvents: seq<string>, detail: string)

  function SettleError(rows: Rows, o: Outcome): Option<JournalError> {
    var at := Find(rows, o.deliveryId);
    if o.state.Prepared? then Some(BackToPrepared)
    else if at.None? then Some(NeverPrepared)
    else if rows[at.value].state != o.state && o.state !in LegalTransitions(rows[at.value].state) then Some(IllegalTransition)
    else None
  }

  /** Evidence is appended: what is new, in first-seen order. */
  function Merged(events: seq<string>, more: seq<string>): seq<string> {
    if more == [] then events
    else
      var earlier, last := Merged(events, more[..|more| - 1]), more[|more| - 1];
      if last in earlier then earlier else earlier + [last]
  }

  function SettledRow(row: JournalRow, o: Outcome): JournalRow {
    row.(state := o.state, settledAt := Some(o.now), sourceEvents := Merged(row.sourceEvents, o.sourceEvents),
         detail := if o.detail != "" then o.detail else row.detail)
  }

  function Settle(rows: Rows, o: Outcome): Rows {
    if SettleError(rows, o).Some? then rows
    else
      var i := Find(rows, o.deliveryId).value;
      rows[i := SettledRow(rows[i], o)]
  }

  lemma {:induction false} MergeIsRemovalOfRepeats(given: seq<string>, more: seq<string>)
    ensures Merged(WithoutRepeats(given), more) == WithoutRepeats(given + more)
  {
    if more == [] {
      assert given + more == given;
    } else {
      var n := |more| - 1;
      MergeIsRemovalOfRepeats(given, more[..n]);
      assert given + more == (given + more[..n]) + [more[n]];
      OneMore(given + more[..n], more[n]);
    }
  }

  // ---------------------------------------------------------------- attempts and their crashes

  /** `rows` and `sent` outlive the process: the journal, and the delivery of every attempted send in
      order. `pending` are the attempts that have written their intent and not yet touched the pane. */
  datatype Site = Site(rows: Rows, pending: seq<string>, sent: seq<string>)

  datatype Action =
    | WriteIntent(intent: Intent)
    | SendText(k: nat)
    | SettleOutcome(outcome: Outcome)
    | Crash

  const BARE := Site([], [], [])

  function Step(s: Site, a: Action): Site {
    match a
    case WriteIntent(intent) =>
      var rows := Prepare(s.rows, intent);
      if rows.None? then s else s.(rows := rows.value, pending := s.pending + [intent.deliveryId])
    case SendText(k) =>
      if k < |s.pending| then Site(s.rows, s.pending[..k] + s.pending[k + 1..], s.sent + [s.pending[k]]) else s
    case SettleOutcome(outcome) => s.(rows := Settle(s.rows, outcome))
    case Crash => s.(pending := [])
  }

  function Run(s: Site, actions: seq<Action>): Site {
    if actions == [] then s else Step(Run(s, actions[..|actions| - 1]), actions[|actions| - 1])
  }

  ghost predicate Unique(rows: Rows) {
    forall i, j | 0 <= i < j < |rows| :: rows[i].deliveryId != rows[j].deliveryId
  }

  /** Every attempt past its intent has a row, and no delivery has two of them. */
  ghost predicate SendsCovered(s: Site) {
    && Unique(s.rows)
    && (forall id | id in s.pending + s.sent :: Find(s.rows, id).Some?)
    && (forall i, j | 0 <= i < j < |s.pending + s.sent| :: (s.pending + s.sent)[i] != (s.pending + s.sent)[j])
  }

  lemma FindAppended(rows: Rows, row: JournalRow, id: string)
    ensures Find(rows + [row], id).Some? <==> Find(rows, id).Some? || row.deliveryId == id
  {
    assert (rows + [row])[..|rows|] == rows;
  }

  lemma UniqueFind(rows: Rows, i: nat)
    requires Unique(rows) && i < |rows|
    ensures Find(rows, rows[i].deliveryId) == Some(i)
  {
    assert rows[i] in rows;
  }

  lemma SettleKeepsKeys(rows: Rows, o: Outcome)
    ensures |Settle(rows, o)| == |rows|
    ensures forall i | 0 <= i < |rows| :: Settle(rows, o)[i].deliveryId == rows[i].deliveryId
    ensures forall id :: Find(Settle(rows, o), id).Some? <==> Find(rows, id).Some?
  {
    var after := Settle(rows, o);
    forall id ensures Find(after, id).Some? <==> Find(rows, id).Some? {
      if Find(after, id).Some? {
        assert rows[Find(after, id).value] in rows;
      }
      if Find(rows, id).Some? {
        assert after[Find(rows, id).value] in after;
      }
    }
  }

  lemma WriteKeeps(s: Site, intent: Intent)
    requires SendsCovered(s)
    ensures SendsCovered(Step(s, WriteIntent(intent)))
  {
    var t := Step(s, WriteIntent(intent));
    if Find(s.rows, intent.deliveryId).None? {
      var row := t.rows[|s.rows|];
      forall id | id in t.pending + t.sent ensures Find(t.rows, id).Some? {
        FindAppended(s.rows, row, id);
        if id != intent.deliveryId {
          assert id in s.pending + s.sent;
        }
      }
      assert intent.deliveryId !in s.pending + s.sent;
      assert t.pending + t.sent == s.pending + [intent.deliveryId] + s.sent;
      var before, after := s.pending + s.sent, t.pending + t.sent;
      forall i, j | 0 <= i < j < |after| ensures after[i] != after[j] {
        var old_i, old_j := if i < |s.pending| then i else i - 1, if j < |s.pending| then j else j - 1;
        if i != |s.pending| && j != |s.pending| {
          assert after[i] == before[old_i] && after[j] == before[old_j];
        } else if i == |s.pending| {
          assert after[j] == before[old_j] && before[old_j] in before;
        } else {
          assert after[i] == before[old_i] && before[old_i] in before;
        }
      }
      forall r | r in s.rows ensures r.deliveryId != intent.deliveryId {}
    }
  }

  lemma SendKeeps(s: Site, k: nat)
    requires SendsCovered(s) && k < |s.pending|
    ensures SendsCovered(Step(s, SendText(k)))
  {
    var t := Step(s, SendText(k));
    var before, after := s.pending + s.sent, t.pending + t.sent;
    forall id | id in after ensures Find(t.rows, id).Some? {
      assert id in before;
    }
    forall i, j | 0 <= i < j < |after| ensures after[i] != after[j] {
      var was_i := if i < k then i else i + 1;
      var was_j := if j < k then j else if j + 1 < |before| then j + 1 else k;
      assert after[i] == before[was_i] && after[j] == before[was_j];
    }
  }

  lemma StepKeeps(s: Site, a: Action)
    requires SendsCovered(s)
    ensures SendsCovered(Step(s, a))
  {
    match a
    case WriteIntent(intent) => WriteKeeps(s, intent);
    case SendText(k) =>
      if k < |s.pending| {
        SendKeeps(s, k);
      }
    case SettleOutcome(outcome) => SettleKeepsKeys(s.rows, outcome);
    case Crash =>
      forall id | id in s.sent ensures Find(s.rows, id).Some? {
        assert id in s.pending + s.sent;
      }
      forall i, j | 0 <= i < j < |s.sent| ensures s.sent[i] != s.sent[j] {
        assert (s.pending + s.sent)[|s.pending| + i] == s.sent[i] && (s.pending + s.sent)[|s.pending| + j] == s.sent[j];
      }
  }

  /** At most one send is ever attempted for a delivery, and none without a durable row, whatever
      attempts interleave, crash and are repeated. */
  lemma {:induction false} AtMostOneSend(actions: seq<Action>)
    ensures SendsCovered(Run(BARE, actions))
    ensures var s := Run(BARE, actions);
            && (forall i, j | 0 <= i < j < |s.sent| :: s.sent[i] != s.sent[j])
            && (forall id | id in s.sent :: Find(s.rows, id).Some?)
  {
    if actions != [] {
      AtMostOneSend(actions[..|actions| - 1]);
      StepKeeps(Run(BARE, actions[..|actions| - 1]), actions[|actions| - 1]);
    }
    var s := Run(BARE, actions);
    StepKeeps(s, Crash);
    assert [] + s.sent == s.sent;
  }

  /** Once sent, never sent again, and once journaled, never sent unless already on its way. */
  lemma ResendImpossible(actions: seq<Action>, a: Action, id: string)
    requires id in Run(BARE, actions).sent
    ensures var s, t := Run(BARE, actions), Step(Run(BARE, actions), a);
            t.sent == s.sent || (|t.sent| == |s.sent| + 1 && t.sent[|s.sent|] != id)
    ensures a.WriteIntent? && a.intent.deliveryId == id ==> Step(Run(BARE, actions), a) == Run(BARE, actions)
  {
    var s := Run(BARE, actions);
    AtMostOneSend(actions);
    if a.SendText? && a.k < |s.pending| {
      var i :| 0 <= i < |s.sent| && s.sent[i] == id;
      assert (s.pending + s.sent)[a.k] == s.pending[a.k] && (s.pending + s.sent)[|s.pending| + i] == id;
    }
  }

  // ---------------------------------------------------------------- lifecycle and evidence

  /** One step of a row: its identity stays, its state moves along a legal transition or stays, and its
      evidence only grows. */
  ghost predicate RowFollows(before: JournalRow, after: JournalRow) {
    && after.(state := before.state, settledAt := before.settledAt, sourceEvents := before.sourceEvents, detail := before.detail) == before
    && (after.state == before.state
        || (before.state == Prepared && after.state == Injected)
        || (before.state == Prepared && after.state == Ambiguous)
        || (before.state == Injected && after.state == Acked))
    && before.sourceEvents <= after.sourceEvents
  }

  lemma {:induction false} MergeKeepsPrefix(events: seq<string>, more: seq<string>)
    ensures events <= Merged(events, more)
  {
    if more != [] {
      MergeKeepsPrefix(events, more[..|more| - 1]);
    }
  }

  /** No step removes a row, and each row it touches follows the lifecycle. */
  lemma RowsFollowLifecycle(s: Site, a: Action)
    ensures |s.rows| <= |Step(s, a).rows|
    ensures forall i | 0 <= i < |s.rows| :: RowFollows(s.rows[i], Step(s, a).rows[i])
    ensures forall i | |s.rows| <= i < |Step(s, a).rows| :: Step(s, a).rows[i].state.Prepared? && Step(s, a).rows[i].sourceEvents == []
  {
    if a.SettleOutcome? && SettleError(s.rows, a.outcome).None? {
      MergeKeepsPrefix(s.rows[Find(s.rows, a.outcome.deliveryId).value].sourceEvents, a.outcome.sourceEvents);
    }
  }

  /** A settlement is accepted exactly when it names a state other than prepared and a delivery with a row,
      and either repeats that row's state, or says how a prepared attempt came out, or acknowledges an
      injected one. */
  lemma SettlesExactly(rows: Rows, o: Outcome, i: nat)
    requires Unique(rows) && i < |rows| && rows[i].deliveryId == o.deliveryId
    ensures SettleError(rows, o).None?
       <==> && o.state != Prepared
            && (rows[i].state == o.state
                || (rows[i].state == Prepared && (o.state == Injected || o.state == Ambiguous))
                || (rows[i].state == Injected && o.state == Acked))
    ensures SettleError(rows, o).None? ==>
              && Settle(rows, o)[i].state == o.state && Settle(rows, o)[i].settledAt == Some(o.now)
              && Settle(rows, o)[i].detail == (if o.detail == "" then rows[i].detail else o.detail)
              && forall j | 0 <= j < |rows| && j != i :: Settle(rows, o)[j] == rows[j]
    ensures SettleError(rows, o).Some? ==> Settle(rows, o) == rows
  {
    UniqueFind(rows, i);
  }

  lemma NothingToSettle(rows: Rows, o: Outcome)
    requires forall r | r in rows :: r.deliveryId != o.deliveryId
    ensures SettleError(rows, o).Some? && Settle(rows, o) == rows
  {}

  /** The state of the i-th row after the first `n` actions. */
  predicate WasIn(actions: seq<Action>, n: nat, i: nat, state: JournalState) {
    n <= |actions| && i < |Run(BARE, actions[..n]).rows| && Run(BARE, actions[..n]).rows[i].state == state
  }

  lemma {:induction false} NextAction(actions: seq<Action>, n: nat)
    requires n < |actions|
    ensures Run(BARE, actions[..n + 1]) == Step(Run(BARE, actions[..n]), actions[n])
  {
    assert actions[..n + 1][..n] == actions[..n];
  }

  ghost predicate WasEarlierIn(actions: seq<Action>, n: nat, i: nat, state: JournalState) {
    exists m: nat :: m < n && WasIn(actions, m, i, state)
  }

  /** Along every run, a row that is acknowledged was injected before, and one that is injected or ambiguous
      was prepared before. */
  lemma {:induction false} AckedWasInjected(actions: seq<Action>, n: nat, i: nat)
    ensures WasIn(actions, n, i, Acked) ==> WasEarlierIn(actions, n, i, Injected)
    ensures WasIn(actions, n, i, Injected) || WasIn(actions, n, i, Ambiguous) ==> WasEarlierIn(actions, n, i, Prepared)
  {
    if WasIn(actions, n, i, Acked) {
      WasBefore(actions, n, i, Acked, Injected);
    }
    if WasIn(actions, n, i, Injected) {
      WasBefore(actions, n, i, Injected, Prepared);
    }
    if WasIn(actions, n, i, Ambiguous) {
      WasBefore(actions, n, i, Ambiguous, Prepared);
    }
  }

  lemma {:induction false} WasBefore(actions: seq<Action>, n: nat, i: nat, state: JournalState, earlier: JournalState)
    requires WasIn(actions, n, i, state)
    requires (state == Acked && earlier == Injected) || (state == Injected && earlier == Prepared) || (state == Ambiguous && earlier == Prepared)
    ensures WasEarlierIn(actions, n, i, earlier)
  {
    RowsComeLate(actions, n, i);
    if i < |Run(BARE, actions[..n - 1]).rows| {
      CameFrom(actions, n - 1, i);
      if WasIn(actions, n - 1, i, state) {
        WasBefore(actions, n - 1, i, state, earlier);
      }
      EarlierOneOn(actions, n - 1, i, earlier);
    } else {
      StartsPrepared(actions, n - 1, i);
    }
  }

  lemma {:induction false} RowsComeLate(actions: seq<Action>, n: nat, i: nat)
    requires n <= |actions| && i < |Run(BARE, actions[..n]).rows|
    ensures n > 0
  {
    NoRowsAtFirst();
  }

  lemma NoRowsAtFirst()
    ensures Run(BARE, []).rows == []
  {}

  lemma EarlierOneOn(actions: seq<Action>, n: nat, i: nat, state: JournalState)
    requires WasIn(actions, n, i, state) || WasEarlierIn(actions, n, i, state)
    ensures WasEarlierIn(actions, n + 1, i, state)
  {}

  lemma {:induction false} StartsPrepared(actions: seq<Action>, n: nat, i: nat)
    requires n < |actions| && |Run(BARE, actions[..n]).rows| <= i < |Run(BARE, actions[..n + 1]).rows|
    ensures !WasIn(actions, n + 1, i, Acked) && !WasIn(actions, n + 1, i, Injected) && !WasIn(actions, n + 1, i, Ambiguous)
  {
    NextAction(actions, n);
    RowsFollowLifecycle(Run(BARE, actions[..n]), actions[n]);
  }

  lemma {:induction false} CameFrom(actions: seq<Action>, n: nat, i: nat)
    requires n < |actions| && i < |Run(BARE, actions[..n]).rows|
    ensures WasIn(actions, n + 1, i, Acked) ==> WasIn(actions, n, i, Acked) || WasIn(actions, n, i, Injected)
    ensures WasIn(actions, n + 1, i, Injected) ==> WasIn(actions, n, i, Injected) || WasIn(actions, n, i, Prepared)
    ensures WasIn(actions, n + 1, i, Ambiguous) ==> WasIn(actions, n, i, Ambiguous) || WasIn(actions, n, i, Prepared)
  {
    NextAction(actions, n);
    RowsFollowLifecycle(Run(BARE, actions[..n]), actions[n]);
    assert RowFollows(Run(BARE, actions[..n]).rows[i], Run(BARE, actions[..n + 1]).rows[i]);
  }

  /** And an outcome stays: ambiguous and acknowledged for good, and injected until acknowledged. */
  lemma {:induction false} OutcomesStay(actions: seq<Action>, n: nat, m: nat, i: nat)
    requires n <= m <= |actions| && i < |Run(BARE, actions[..n]).rows|
    ensures WasIn(actions, n, i, Acked) ==> WasIn(actions, m, i, Acked)
    ensures WasIn(actions, n, i, Ambiguous) ==> WasIn(actions, m, i, Ambiguous)
    ensures WasIn(actions, n, i, Injected) ==> WasIn(actions, m, i, Injected) || WasIn(actions, m, i, Acked)
    ensures i < |Run(BARE, actions[..m]).rows|
    decreases m - n
  {
    if n < m {
      OutcomesStay(actions, n, m - 1, i);
      NextAction(actions, m - 1);
      RowsFollowLifecycle(Run(BARE, actions[..m - 1]), actions[m - 1]);
      assert RowFollows(Run(BARE, actions[..m - 1]).rows[i], Run(BARE, actions[..m]).rows[i]);
    }
  }

  /** All evidence that accepted settlements gave for one delivery, in order. */
  function Given(actions: seq<Action>, id: string): seq<string> {
    if actions == [] then []
    else
      var front, last := actions[..|actions| - 1], actions[|actions| - 1];
      Given(front, id)
      + if last.SettleOutcome? && last.outcome.deliveryId == id && SettleError(Run(BARE, front).rows, last.outcome).None?
        then last.outcome.sourceEvents else []
  }

  ghost predicate EvidenceComplete(rows: Rows, actions: seq<Action>) {
    && (forall i | 0 <= i < |rows| :: rows[i].sourceEvents == WithoutRepeats(Given(actions, rows[i].deliveryId)))
    && (forall id | Find(rows, id).None? :: Given(actions, id) == [])
  }

  lemma PrepareKeepsEvidence(rows: Rows, front: seq<Action>, actions: seq<Action>, intent: Intent)
    requires Unique(rows) && EvidenceComplete(rows, front) && Prepare(rows, intent).Some?
    requires forall id :: Given(actions, id) == Given(front, id)
    ensures EvidenceComplete(Prepare(rows, intent).value, actions)
  {
    var after := Prepare(rows, intent).value;
    forall id ensures Find(after, id).Some? <==> Find(rows, id).Some? || intent.deliveryId == id {
      FindAppended(rows, after[|rows|], id);
    }
  }

  lemma SettleKeepsEvidence(rows: Rows, front: seq<Action>, actions: seq<Action>, o: Outcome)
    requires Unique(rows) && EvidenceComplete(rows, front) && SettleError(rows, o).None?
    requires forall id :: Given(actions, id) == Given(front, id) + if id == o.deliveryId then o.sourceEvents else []
    ensures EvidenceComplete(Settle(rows, o), actions)
  {
    SettleKeepsKeys(rows, o);
    var after, at := Settle(rows, o), Find(rows, o.deliveryId).value;
    MergeIsRemovalOfRepeats(Given(front, o.deliveryId), o.sourceEvents);
    forall i | 0 <= i < |after| ensures after[i].sourceEvents == WithoutRepeats(Given(actions, after[i].deliveryId)) {
      if i != at {
        UniqueFind(rows, i);
        assert rows[i].deliveryId != o.deliveryId;
        assert Given(front, rows[i].deliveryId) + [] == Given(front, rows[i].deliveryId);
      }
    }
    forall id | Find(after, id).None? ensures Given(actions, id) == [] {
      assert id != o.deliveryId;
      assert Given(front, id) + [] == Given(front, id);
    }
  }

  predicate Accepts(rows: Rows, a: Action) {
    a.SettleOutcome? && SettleError(rows, a.outcome).None?
  }

  lemma GivenGrows(front: seq<Action>, a: Action)
    requires Accepts(Run(BARE, front).rows, a)
    ensures forall id :: Given(front + [a], id) == Given(front, id) + if id == a.outcome.deliveryId then a.outcome.sourceEvents else []
  {
    assert (front + [a])[..|front|] == front;
  }

  lemma GivenStays(front: seq<Action>, a: Action)
    requires !Accepts(Run(BARE, front).rows, a)
    ensures forall id :: Given(front + [a], id) == Given(front, id)
  {
    assert (front + [a])[..|front|] == front;
    forall id ensures Given(front, id) + [] == Given(front, id) {}
  }

  lemma SameGivenComplete(rows: Rows, front: seq<Action>, actions: seq<Action>)
    requires EvidenceComplete(rows, front) && forall id :: Given(actions, id) == Given(front, id)
    ensures EvidenceComplete(rows, actions)
  {}

  lemma StepKeepsEvidence(rows: Rows, front: seq<Action>, a: Action)
    requires rows == Run(BARE, front).rows && Unique(rows) && EvidenceComplete(rows, front)
    ensures EvidenceComplete(Step(Run(BARE, front), a).rows, front + [a])
  {
    if Accepts(rows, a) {
      GivenGrows(front, a);
      SettleKeepsEvidence(rows, front, front + [a], a.outcome);
    } else {
      GivenStays(front, a);
      if a.WriteIntent? && Prepare(rows, a.intent).Some? {
        PrepareKeepsEvidence(rows, front, front + [a], a.intent);
      } else {
        SameGivenComplete(rows, front, front + [a]);
      }
    }
  }

  /** A row's evidence is exactly everything ever given for it, in first-given order. */
  lemma {:induction false} EvidenceIsEverythingGiven(actions: seq<Action>)
    ensures EvidenceComplete(Run(BARE, actions).rows, actions)
  {
    if actions != [] {
      var front, last := actions[..|actions| - 1], actions[|actions| - 1];
      EvidenceIsEverythingGiven(front);
      AtMostOneSend(front);
      StepKeepsEvidence(Run(BARE, front).rows, front, last);
      assert actions == front + [last];
    }
  }

  // ---------------------------------------------------------------- the journal object

  class InjectionJournal {
    var rows: seq<JournalRow>

    constructor ()
      ensures rows == []
    {
      rows := [];
    }

    method PrepareRow(i: Intent) returns (ok: bool)
      modifies this
      ensures match Prepare(old(rows), i)
              case Some(after) => ok && rows == after
              case None => !ok && rows == old(rows)
      ensures ok <==> forall r | r in old(rows) :: r.deliveryId != i.deliveryId
      ensures ok ==>
                && |rows| == |old(rows)| + 1 && old(rows) <= rows
                && var row := rows[|old(rows)|];
                   && row.deliveryId == i.deliveryId && row.bindingId == i.bindingId && row.seatId == i.seatId && row.marker == i.marker
                   && row.state == Prepared && row.preparedAt == i.now && row.settledAt == None && row.sourceEvents == [] && row.detail == ""
    {
      if Find(rows, i.deliveryId).Some? {
        assert rows[Find(rows, i.deliveryId).value] in rows;
        return false;
      }
      rows := rows + [JournalRow(i.deliveryId, i.bindingId, i.seatId, i.marker, Prepared, i.now, None, [], "")];
      ok := true;
    }

    method SettleRow(o: Outcome) returns (error: Option<JournalError>)
      modifies this
      ensures error == SettleError(old(rows), o) && rows == Settle(old(rows), o)
    {
      error := SettleError(rows, o);
      if error.Some? {
        return;
      }
      var at := Find(rows, o.deliveryId).value;
      var merged := rows[at].sourceEvents;
      var i := 0;
      while i < |o.sourceEvents|
        invariant 0 <= i <= |o.sourceEvents|
        invariant merged == Merged(rows[at].sourceEvents, o.sourceEvents[..i])
      {
        assert o.sourceEvents[..i + 1][..i] == o.sourceEvents[..i];
        if o.sourceEvents[i] !in merged {
          merged := merged + [o.sourceEvents[i]];
        }
        i := i + 1;
      }
      assert o.sourceEvents[..i] == o.sourceEvents;
      var detail := if o.detail != "" then o.detail else rows[at].detail;
      rows := rows[at := rows[at].(state := o.state, settledAt := Some(o.now), sourceEvents := merged, detail := detail)];
    }

    /** The rows left at prepared, in preparation order. */
    method Unsettled() returns (found: seq<JournalRow>)
      ensures forall r :: multiset(found)[r] == if r.state == Prepared then multiset(rows)[r] else 0
      ensures Sorting.Sorted(found, (a: JournalRow, b: JournalRow) => a.preparedAt <= b.preparedAt)
    {
      var leq := (a: JournalRow, b: JournalRow) => a.preparedAt <= b.preparedAt;
      found := Sorting.Sort(PreparedRows(rows), leq);
      Sorting.SortSorts(PreparedRows(rows), leq);
    }
  }

  function PreparedRows(rows: Rows): (found: Rows)
    ensures forall r :: multiset(found)[r] == if r.state == Prepared then multiset(rows)[r] else 0
  {
    if rows == [] then []
    else
      assert rows == rows[..|rows| - 1] + [rows[|rows| - 1]];
      PreparedRows(rows[..|rows| - 1]) + if rows[|rows| - 1].state.Prepared? then [rows[|rows| - 1]] else []
  }

  // ---------------------------------------------------------------- the injector

  datatype SubmitOutcome = Submitted | NotSubmitted | Unknown
  datatype SubmitResult = SubmitResult(outcome: SubmitOutcome, deliveryId: string, sourceEvents: seq<EventName>)

  /** The socket took the input, and the composer submitted it. */
  predicate BothSeen(names: seq<EventName>) {
    InputSent in names && PromptSubmitted in names
  }

  /** Surface, text and keys handed to the terminal. */
  datatype Effect = Text(deliveryId: string, surface: string, text: string) | Key(deliveryId: string, surface: string, key: string)

  /** The terminal. Every attempted effect is on the list, even one that then raises. */
  class Transport {
    var effects: seq<Effect>

    constructor ()
      ensures effects == []
    {
      effects := [];
    }

    method Attempt(e: Effect, succeeds: bool) returns (ok: bool)
      modifies this
      ensures effects == old(effects) + [e] && ok == succeeds
    {
      effects := effects + [e];
      ok := succeeds;
    }
  }

  function Sends(effects: seq<Effect>): seq<string> {
    if effects == [] then []
    else Sends(effects[..|effects| - 1]) + if effects[|effects| - 1].Text? then [effects[|effects| - 1].deliveryId] else []
  }

  /** What one attempt meets outside: the rendered text or a mint or profile error, the resolved surface
      or none, which effects succeed, the host events observed, and the external step at which the
      process dies, if it does. */
  datatype Circumstances = Circumstances(
    text: Option<string>, keys: seq<string>, surface: Option<string>, effectSucceeds: nat -> bool, observed: seq<EventName>, dies: Option<nat>)

  datatype Ending = Verdict(result: SubmitResult) | JournalRaised | Died

  lemma OneMoreEffect(effects: seq<Effect>, e: Effect)
    ensures Sends(effects + [e]) == Sends(effects) + if e.Text? then [e.deliveryId] else []
  {
    assert (effects + [e])[..|effects|] == effects;
  }

  /** The text, then the first `n` submit keys, all to one surface. */
  function EffectsUpTo(deliveryId: string, surface: string, text: string, keys: seq<string>, n: nat): (effects: seq<Effect>)
    requires n <= |keys|
    ensures |effects| == n + 1 && Sends(effects) == [deliveryId]
  {
    if n == 0 then [Text(deliveryId, surface, text)]
    else
      OneMoreEffect(EffectsUpTo(deliveryId, surface, text, keys, n - 1), Key(deliveryId, surface, keys[n - 1]));
      EffectsUpTo(deliveryId, surface, text, keys, n - 1) + [Key(deliveryId, surface, keys[n - 1])]
  }

  lemma {:induction false} SendsAdd(a: seq<Effect>, b: seq<Effect>)
    ensures Sends(a + b) == Sends(a) + Sends(b)
  {
    if b == [] {
      assert a + b == a;
    } else {
      assert (a + b)[..|a + b| - 1] == a + b[..|b| - 1];
      SendsAdd(a, b[..|b| - 1]);
    }
  }

  predicate AllEffects(c: Circumstances) {
    forall k | 0 <= k <= |c.keys| :: c.effectSucceeds(k)
  }

  /** The verdict on an attempt that touched the pane: an effect that failed leaves it unknown; otherwise
      the observed events decide. */
  ghost predicate Answers(c: Circumstances, result: SubmitResult) {
    if !AllEffects(c) then result.outcome.Unknown? && result.sourceEvents == []
    else
      && (result.outcome.Submitted? <==> InputSent in c.observed && PromptSubmitted in c.observed)
      && (result.outcome.NotSubmitted? <==> c.observed == [])
      && (if BothSeen(c.observed) then exists n :: Concludes(c.observed, n) && result.sourceEvents == WithoutRepeats(c.observed[..n])
          else result.sourceEvents == WithoutRepeats(c.observed))
  }

  class Injector {
    const journal: InjectionJournal
    const transport: Transport

    constructor (journal: InjectionJournal, transport: Transport)
      ensures this.journal == journal && this.transport == transport
    {
      this.journal, this.transport := journal, transport;
    }

    /** One attempt. The pane is touched only after this very call has written the delivery's row, and
        a delivery that already has a row is never touched again. */
    method Deliver(intent: Intent, c: Circumstances) returns (ending: Ending)
      modifies journal, transport
      ensures ghost var actions := AttemptActions(old(journal.rows), intent, c);
              && journal.rows == Run(Site(old(journal.rows), [], []), actions).rows
              && Sends(transport.effects) == Sends(old(transport.effects)) + Run(Site(old(journal.rows), [], []), actions).sent
      ensures transport.effects != old(transport.effects) ==>
                && Prepare(old(journal.rows), intent) == Some(journal.rows)
                && c.text.Some? && c.surface.Some?
                && exists n | 0 <= n <= |c.keys| ::
                     transport.effects == old(transport.effects) + EffectsUpTo(intent.deliveryId, c.surface.value, c.text.value, c.keys, n)
      ensures c.text.None? || c.surface.None? ==>
                ending == Verdict(SubmitResult(NotSubmitted, intent.deliveryId, [])) && transport.effects == old(transport.effects)
      ensures ending.JournalRaised? <==>
                c.text.Some? && c.surface.Some? && c.dies != Some(0) && Prepare(old(journal.rows), intent).None?
      ensures ending.Verdict? && c.text.Some? && c.surface.Some? ==> ending.result.deliveryId == intent.deliveryId && Answers(c, ending.result)
      ensures c.dies.None? ==> !ending.Died?
    {
      AttemptRuns(journal.rows, intent, c);
      if c.text.None? || c.surface.None? {
        return Verdict(SubmitResult(NotSubmitted, intent.deliveryId, []));
      }
      if c.dies == Some(0) {
        return Died;
      }
      var prepared := journal.PrepareRow(intent);
      if !prepared {
        return JournalRaised;
      }
      if c.dies == Some(1) {
        return Died;
      }
      ending := Effects(intent.deliveryId, c.surface.value, c.text.value, c);
    }

    /** Send, then the submit keys in order, up to the first failure or the death of the process. */
    method Touch(deliveryId: string, surface: string, text: string, c: Circumstances) returns (n: nat, ok: bool, died: bool)
      modifies transport
      ensures n <= |c.keys| && transport.effects == old(transport.effects) + EffectsUpTo(deliveryId, surface, text, c.keys, n)
      ensures ok && !died ==> n == |c.keys| && AllEffects(c)
      ensures !ok ==> !AllEffects(c)
      ensures died ==> c.dies.Some?
    {
      n, died := 0, c.dies == Some(2);
      ok := transport.Attempt(Text(deliveryId, surface, text), c.effectSucceeds(0));
      assert transport.effects == old(transport.effects) + EffectsUpTo(deliveryId, surface, text, c.keys, 0);
      while ok && !died && n < |c.keys|
        invariant 0 <= n <= |c.keys| && (died ==> c.dies.Some?)
        invariant transport.effects == old(transport.effects) + EffectsUpTo(deliveryId, surface, text, c.keys, n)
        invariant ok ==> forall j | 0 <= j <= n :: c.effectSucceeds(j)
        invariant !ok ==> !c.effectSucceeds(n)
        decreases |c.keys| - n
      {
        ok := transport.Attempt(Key(deliveryId, surface, c.keys[n]), c.effectSucceeds(n + 1));
        assert transport.effects == old(transport.effects) + EffectsUpTo(deliveryId, surface, text, c.keys, n + 1);
        n, died := n + 1, c.dies == Some(n + 3);
      }
    }

    /** The effects and the verdict on them; any failure from here on is ambiguous. */
    method Effects(deliveryId: string, surface: string, text: string, c: Circumstances) returns (ending: Ending)
      modifies transport
      ensures exists n | 0 <= n <= |c.keys| ::
                && transport.effects == old(transport.effects) + EffectsUpTo(deliveryId, surface, text, c.keys, n)
                && (ending.Verdict? && !ending.result.outcome.Unknown? ==> n == |c.keys|)
      ensures Sends(transport.effects) == Sends(old(transport.effects)) + [deliveryId]
      ensures ending.Verdict? ==> ending.result.deliveryId == deliveryId && Answers(c, ending.result)
      ensures !ending.JournalRaised? && (c.dies.None? ==> ending.Verdict?)
    {
      var n, ok, died := Touch(deliveryId, surface, text, c);
      SendsAdd(old(transport.effects), EffectsUpTo(deliveryId, surface, text, c.keys, n));
      if died {
        return Died;
      }
      if !ok {
        return Verdict(SubmitResult(Unknown, deliveryId, []));
      }
      var result := AwaitProof(deliveryId, c.observed);
      ending := Verdict(result);
    }

    /** Submitted exactly when both required events were observed, with the evidence up to the moment
        both were; nothing observed is a clean negative, and anything else is unknown. */
    method AwaitProof(deliveryId: string, observed: seq<EventName>) returns (result: SubmitResult)
      ensures result.deliveryId == deliveryId
      ensures result.outcome.Submitted? <==> InputSent in observed && PromptSubmitted in observed
      ensures result.outcome.NotSubmitted? <==> observed == []
      ensures !BothSeen(observed) ==> result.sourceEvents == WithoutRepeats(observed)
      ensures BothSeen(observed) ==> exists n :: Concludes(observed, n) && result.sourceEvents == WithoutRepeats(observed[..n])
    {
      var seen, i := [], 0;
      while i < |observed|
        invariant 0 <= i <= |observed|
        invariant seen == WithoutRepeats(observed[..i]) && !BothSeen(observed[..i])
      {
        OneMoreName(observed, i);
        if observed[i] !in seen {
          seen := seen + [observed[i]];
        }
        if InputSent in seen && PromptSubmitted in seen {
          assert Concludes(observed, i + 1);
          return SubmitResult(Submitted, deliveryId, seen);
        }
        i := i + 1;
      }
      assert observed[..i] == observed;
      result := SubmitResult(if seen == [] then NotSubmitted else Unknown, deliveryId, seen);
    }
  }

  /** Both events are seen after `n` names, and not before. */
  predicate Concludes(observed: seq<EventName>, n: int) {
    0 < n <= |observed| && BothSeen(observed[..n]) && !BothSeen(observed[..n - 1])
  }

  lemma OneMoreName(observed: seq<EventName>, i: nat)
    requires i < |observed|
    ensures WithoutRepeats(observed[..i + 1])
         == WithoutRepeats(observed[..i]) + if observed[i] in WithoutRepeats(observed[..i]) then [] else [observed[i]]
    ensures BothSeen(observed[..i + 1]) ==> BothSeen(observed)
  {
    OneMore(observed[..i], observed[i]);
    assert observed[..i] + [observed[i]] == observed[..i + 1];
    assert forall x | x in observed[..i + 1] :: x in observed;
  }

  /** The journal and pane steps of one attempt. */
  function AttemptActions(rows: Rows, intent: Intent, c: Circumstances): seq<Action> {
    if c.text.None? || c.surface.None? || c.dies == Some(0) then []
    else if Prepare(rows, intent).None? || c.dies == Some(1) then [WriteIntent(intent)]
    else [WriteIntent(intent), SendText(0)]
  }

  lemma AttemptRuns(rows: Rows, intent: Intent, c: Circumstances)
    ensures var actions, s := AttemptActions(rows, intent, c), Site(rows, [], []);
            && (actions == [] ==> Run(s, actions) == s)
            && (|actions| == 1 ==> Run(s, actions) == Step(s, actions[0]))
            && (|actions| == 2 ==> Prepare(rows, intent).Some? && Run(s, actions) == Site(Prepare(rows, intent).value, [], [intent.deliveryId]))
  {
    var actions, s := AttemptActions(rows, intent, c), Site(rows, [], []);
    if actions != [] {
      assert [WriteIntent(intent)][..0] == [];
      assert Run(s, [WriteIntent(intent)]) == Step(s, WriteIntent(intent));
      if |actions| == 2 {
        assert actions[..1] == [WriteIntent(intent)];
        assert [] + [intent.deliveryId] == [intent.deliveryId] && [intent.deliveryId][..0] + [intent.deliveryId][1..] == [];
      }
    }
  }
}
