/** The table side of publishing: what expires, what a claim takes or inserts, and what the seat cap
    evicts. */
module Seats {
  import opened CoreTypes
  import opened Notifications
  import Sorting

  datatype Settings = Settings(
    cap: nat, ttl: int, digest: (string, string) -> string, textLeq: (string, string) -> bool)

  ghost predicate SettingsOk(s: Settings) {
    && s.cap >= 1 && s.ttl > 0
    && (forall e, d :: |s.digest(e, d)| == 64)
    && Sorting.TotalPreorder(s.textLeq)
  }

  /** What `publish` is asked to show. */
  datatype Claim = Claim(
    eventId: string, deliveryId: string, seatId: string, workspaceId: string, surfaceId: string, title: string, subtitle: string, body: string)

  predicate SameClaim(r: Row, c: Claim, shown: string) {
    && r.eventId == c.eventId && r.deliveryId == c.deliveryId && r.seatId == c.seatId
    && r.workspaceId == c.workspaceId && r.surfaceId == c.surfaceId
    && r.title == c.title && r.subtitle == shown && r.body == c.body
  }

  function ShownFor(s: Settings, c: Claim): string
    requires |s.digest(c.eventId, c.deliveryId)| == 64
  {
    DisplaySubtitle(c.subtitle, Token(s.digest, c.eventId, c.deliveryId))
  }

  // ---------------------------------------------------------------- expiry

  /** The live rows whose time is up. */
  function Due(rows: Rows, now: int): Rows {
    if rows == [] then []
    else Due(rows[..|rows| - 1], now)
         + if Live(rows[|rows| - 1]) && rows[|rows| - 1].expiresAt <= now then [rows[|rows| - 1]] else []
  }

  /** They are exactly those, each once. */
  lemma {:induction false} DueRows(rows: Rows, now: int)
    ensures forall r :: r in Due(rows, now) <==> r in rows && (r.state == Prepared || r.state == RowState.Active) && r.expiresAt <= now
    ensures DistinctDeliveries(rows) ==> DistinctDeliveries(Due(rows, now))
  {
    if rows != [] {
      DueRows(rows[..|rows| - 1], now);
      assert rows == rows[..|rows| - 1] + [rows[|rows| - 1]];
    }
  }

  function ExpiryOrder(textLeq: (string, string) -> bool, rows: Rows, now: int): seq<string> {
    IdsOf(Sorting.Sort(Due(rows, now), OlderFirst(textLeq)))
  }

  /** What expiry leaves of each row. */
  lemma {:induction false} ExpiredExactly(textLeq: (string, string) -> bool, rows: Rows, now: int, i: nat)
    requires DistinctDeliveries(rows) && i < |rows|
    ensures RetireAll(rows, ExpiryOrder(textLeq, rows, now), Expired, "expired")[i]
         == if Live(rows[i]) && rows[i].expiresAt <= now then rows[i].(state := Expired, reason := Some("expired")) else rows[i]
  {
    RetireAllRow(rows, ExpiryOrder(textLeq, rows, now), Expired, "expired", i);
    ExpiryOrderIsDue(textLeq, rows, now, i);
  }

  lemma {:induction false} ExpiryOrderIsDue(textLeq: (string, string) -> bool, rows: Rows, now: int, i: nat)
    requires DistinctDeliveries(rows) && i < |rows|
    ensures rows[i].deliveryId in ExpiryOrder(textLeq, rows, now) <==> Live(rows[i]) && rows[i].expiresAt <= now
  {
    DueRows(rows, now);
    Sorting.SortKeepsMembers(Due(rows, now), OlderFirst(textLeq));
    ListedIds(Sorting.Sort(Due(rows, now), OlderFirst(textLeq)), rows, i);
  }

  lemma ListedIds(listed: Rows, rows: Rows, i: nat)
    requires DistinctDeliveries(rows) && i < |rows| && forall r | r in listed :: r in rows
    ensures rows[i].deliveryId in IdsOf(listed) <==> rows[i] in listed
  {
    var ids := IdsOf(listed);
    if rows[i].deliveryId in ids {
      var k :| 0 <= k < |ids| && ids[k] == rows[i].deliveryId;
      assert listed[k] in listed;
      var j :| 0 <= j < |rows| && rows[j] == listed[k];
      assert j == i;
    }
    if rows[i] in listed {
      var k :| 0 <= k < |listed| && listed[k] == rows[i];
      assert ids[k] == rows[i].deliveryId;
    }
  }

  // ---------------------------------------------------------------- the seat cap

  predicate ActiveOn(r: Row, seatId: string) {
    r.seatId == seatId && r.state.Active?
  }

  /** The active rows of a seat. */
  function ActiveRows(rows: Rows, seatId: string): (found: Rows)
    ensures forall r :: r in found <==> r in rows && ActiveOn(r, seatId)
    ensures |found| <= |rows|
  {
    if rows == [] then []
    else
      assert rows == rows[..|rows| - 1] + [rows[|rows| - 1]];
      ActiveRows(rows[..|rows| - 1], seatId) + if ActiveOn(rows[|rows| - 1], seatId) then [rows[|rows| - 1]] else []
  }

  function OlderFirst(textLeq: (string, string) -> bool): (Row, Row) -> bool {
    (a: Row, b: Row) => a.createdAt < b.createdAt || (a.createdAt == b.createdAt && textLeq(a.eventId, b.eventId))
  }

  lemma {:induction false} OlderFirstOrders(textLeq: (string, string) -> bool)
    requires Sorting.TotalPreorder(textLeq)
    ensures Sorting.TotalPreorder(OlderFirst(textLeq))
  {
    var leq := OlderFirst(textLeq);
    forall x, y ensures leq(x, y) || leq(y, x) {
      assert textLeq(x.eventId, y.eventId) || textLeq(y.eventId, x.eventId);
    }
    forall x, y, z | leq(x, y) && leq(y, z) ensures leq(x, z) {
      assert textLeq(x.eventId, y.eventId) && textLeq(y.eventId, z.eventId) ==> textLeq(x.eventId, z.eventId);
    }
  }

  /** All but the one kept, in order. */
  function Without(rows: Rows, deliveryId: string): (rest: Rows)
    ensures forall r :: r in rest <==> r in rows && r.deliveryId != deliveryId
  {
    if rows == [] then []
    else
      assert rows == rows[..|rows| - 1] + [rows[|rows| - 1]];
      Without(rows[..|rows| - 1], deliveryId) + if rows[|rows| - 1].deliveryId != deliveryId then [rows[|rows| - 1]] else []
  }

  function IdsOf(rows: Rows): (ids: seq<string>)
    ensures |ids| == |rows| && forall i | 0 <= i < |rows| :: ids[i] == rows[i].deliveryId
  {
    seq(|rows|, i requires 0 <= i < |rows| => rows[i].deliveryId)
  }

  /** The seat's active rows in age order without the one kept. */
  function Evictable(rows: Rows, textLeq: (string, string) -> bool, seatId: string, keep: string): Rows {
    Without(Sorting.Sort(ActiveRows(rows, seatId), OlderFirst(textLeq)), keep)
  }

  /** The deliveries that the cap evicts when one row has just become active. */
  function Evictions(rows: Rows, textLeq: (string, string) -> bool, seatId: string, keep: string, cap: nat): seq<string> {
    var excess, evictable := Excess(rows, seatId, cap), Evictable(rows, textLeq, seatId, keep);
    IdsOf(if excess <= |evictable| then evictable[..excess] else evictable)
  }

  function IdSet(rows: Rows): set<string> {
    set r | r in rows :: r.deliveryId
  }

  lemma {:induction false} DistinctCount(rows: Rows)
    ensures |IdSet(rows)| <= |rows|
    ensures DistinctDeliveries(rows) <==> |IdSet(rows)| == |rows|
  {
    if rows != [] {
      var front, last := rows[..|rows| - 1], rows[|rows| - 1];
      assert rows == front + [last];
      DistinctCount(front);
      assert IdSet(rows) == IdSet(front) + {last.deliveryId};
      if DistinctDeliveries(rows) {
        assert last.deliveryId !in IdSet(front);
      } else if DistinctDeliveries(front) {
        assert last.deliveryId in IdSet(front);
      }
    }
  }

  lemma ReorderedDistinct(xs: Rows, ys: Rows)
    requires DistinctDeliveries(xs) && multiset(ys) == multiset(xs)
    ensures DistinctDeliveries(ys) && IdSet(ys) == IdSet(xs)
  {
    DistinctCount(xs);
    DistinctCount(ys);
    assert |multiset(ys)| == |ys| && |multiset(xs)| == |xs|;
    forall r ensures r in ys <==> r in xs {
      assert r in ys <==> r in multiset(ys);
    }
    assert IdSet(ys) == IdSet(xs);
  }

  lemma {:induction false} ActiveRowsDistinct(rows: Rows, seatId: string)
    requires DistinctDeliveries(rows)
    ensures DistinctDeliveries(ActiveRows(rows, seatId))
  {
    if rows != [] {
      var front, last := rows[..|rows| - 1], rows[|rows| - 1];
      ActiveRowsDistinct(front, seatId);
      forall r | r in ActiveRows(front, seatId) ensures r.deliveryId != last.deliveryId {
        assert r in front;
      }
    }
  }

  /** Any order in which the rows stand, the rest stand too. */
  lemma {:induction false} WithoutKeepsOrder(rows: Rows, deliveryId: string, leq: (Row, Row) -> bool)
    requires Sorting.Sorted(rows, leq)
    ensures Sorting.Sorted(Without(rows, deliveryId), leq)
  {
    if rows != [] {
      var front, last := rows[..|rows| - 1], rows[|rows| - 1];
      WithoutKeepsOrder(front, deliveryId, leq);
      forall r | r in Without(front, deliveryId) ensures leq(r, last) {
        var i :| 0 <= i < |front| && front[i] == r;
        assert leq(rows[i], rows[|front|]);
      }
    }
  }

  lemma WithoutDistinct(rows: Rows, deliveryId: string)
    requires DistinctDeliveries(rows)
    ensures DistinctDeliveries(Without(rows, deliveryId))
  {
    WithoutKeepsOrder(rows, deliveryId, (a: Row, b: Row) => a.deliveryId != b.deliveryId);
  }

  lemma WithoutIds(rows: Rows, deliveryId: string)
    ensures IdSet(Without(rows, deliveryId)) == IdSet(rows) - {deliveryId}
  {}

  lemma {:induction false} EvictableRows(rows: Rows, textLeq: (string, string) -> bool, seatId: string, keep: nat)
    requires DistinctDeliveries(rows) && Sorting.TotalPreorder(textLeq)
    requires keep < |rows| && ActiveOn(rows[keep], seatId)
    ensures var rest, active := Evictable(rows, textLeq, seatId, rows[keep].deliveryId), ActiveRows(rows, seatId);
            && DistinctDeliveries(rest) && Sorting.Sorted(rest, OlderFirst(textLeq))
            && |rest| == |active| - 1
            && IdSet(rest) == IdSet(active) - {rows[keep].deliveryId}
            && (forall r :: r in rest <==> r in active && r.deliveryId != rows[keep].deliveryId)
  {
    var leq, active := OlderFirst(textLeq), ActiveRows(rows, seatId);
    var sorted := Sorting.Sort(active, leq);
    OlderFirstOrders(textLeq);
    Sorting.SortSorts(active, leq);
    ActiveRowsDistinct(rows, seatId);
    ReorderedDistinct(active, sorted);
    WithoutKeepsOrder(sorted, rows[keep].deliveryId, leq);
    WithoutDistinct(sorted, rows[keep].deliveryId);
    WithoutIds(sorted, rows[keep].deliveryId);
    DistinctCount(Without(sorted, rows[keep].deliveryId));
    DistinctCount(sorted);
    assert rows[keep] in active;
    forall r ensures r in sorted <==> r in active {
      assert r in multiset(sorted) <==> r in multiset(active);
    }
  }

  function Excess(rows: Rows, seatId: string, cap: nat): nat {
    var active := |ActiveRows(rows, seatId)|;
    if active > cap then active - cap else 0
  }

  /** The eviction list: distinct active deliveries of the seat, never the one kept, exactly as many as
      exceed the cap. */
  lemma {:induction false} EvictionsCount(rows: Rows, textLeq: (string, string) -> bool, seatId: string, keep: nat, cap: nat)
    requires DistinctDeliveries(rows) && Sorting.TotalPreorder(textLeq) && cap >= 1
    requires keep < |rows| && ActiveOn(rows[keep], seatId)
    ensures var ids := Evictions(rows, textLeq, seatId, rows[keep].deliveryId, cap);
            && rows[keep].deliveryId !in ids
            && |set id | id in ids| == |ids| == Excess(rows, seatId, cap)
            && (forall id | id in ids :: id in IdSet(ActiveRows(rows, seatId)))
  {
    var rest := Evictable(rows, textLeq, seatId, rows[keep].deliveryId);
    EvictableRows(rows, textLeq, seatId, keep);
    EvictedPrefix(rest, Excess(rows, seatId, cap));
  }

  /** No evicted row is younger than an active row that stays, the kept one aside. */
  lemma {:induction false} EvictionsAreOldest(rows: Rows, textLeq: (string, string) -> bool, seatId: string, keep: nat, cap: nat, e: Row, s: Row)
    requires DistinctDeliveries(rows) && Sorting.TotalPreorder(textLeq) && cap >= 1
    requires keep < |rows| && ActiveOn(rows[keep], seatId)
    requires e in rows && ActiveOn(e, seatId) && s in rows && ActiveOn(s, seatId) && s.deliveryId != rows[keep].deliveryId
    requires e.deliveryId in Evictions(rows, textLeq, seatId, rows[keep].deliveryId, cap)
    requires s.deliveryId !in Evictions(rows, textLeq, seatId, rows[keep].deliveryId, cap)
    ensures e.createdAt < s.createdAt || (e.createdAt == s.createdAt && textLeq(e.eventId, s.eventId))
  {
    EvictableRows(rows, textLeq, seatId, keep);
    EvictionsCount(rows, textLeq, seatId, keep, cap);
    PrefixComesFirst(Evictable(rows, textLeq, seatId, rows[keep].deliveryId), Excess(rows, seatId, cap), OlderFirst(textLeq), e, s);
  }

  lemma {:induction false} PrefixComesFirst(rest: Rows, n: nat, leq: (Row, Row) -> bool, e: Row, s: Row)
    requires DistinctDeliveries(rest) && Sorting.Sorted(rest, leq) && n <= |rest|
    requires e in rest && s in rest && e.deliveryId in IdsOf(rest[..n]) && s.deliveryId !in IdsOf(rest[..n])
    ensures leq(e, s)
  {
    var i :| 0 <= i < |rest| && rest[i] == e;
    var j :| 0 <= j < |rest| && rest[j] == s;
    var ids := IdsOf(rest[..n]);
    assert forall m | 0 <= m < n :: ids[m] == rest[m].deliveryId;
    var k :| 0 <= k < n && ids[k] == e.deliveryId;
    assert rest[k].deliveryId == rest[i].deliveryId;
    assert j >= n;
  }

  lemma EvictedPrefix(rest: Rows, n: nat)
    requires DistinctDeliveries(rest) && n <= |rest|
    ensures var ids := IdsOf(rest[..n]);
            |set id | id in ids| == n && forall id | id in ids :: id in IdSet(rest)
  {
    var ids := IdsOf(rest[..n]);
    DistinctCount(rest[..n]);
    assert (set id | id in ids) == IdSet(rest[..n]) by {
      forall id | id in IdSet(rest[..n]) ensures id in ids {
        var r :| r in rest[..n] && r.deliveryId == id;
        var i :| 0 <= i < n && rest[..n][i] == r;
        assert ids[i] == id;
      }
    }
    forall id | id in ids ensures id in IdSet(rest) {
      var i :| 0 <= i < |ids| && ids[i] == id;
      assert rest[..n][i] == rest[i] && rest[i] in rest;
    }
  }

  lemma SameRowsSameIds(rows: Rows, after: Rows, ids: seq<string>, seatId: string)
    requires DistinctDeliveries(rows) && after == RetireAll(rows, ids, Evicted, "per-seat-cap")
    ensures IdSet(ActiveRows(after, seatId)) == IdSet(ActiveRows(rows, seatId)) - set id | id in ids
  {
    forall id ensures id in IdSet(ActiveRows(after, seatId)) <==> id in IdSet(ActiveRows(rows, seatId)) && id !in ids {
      if id in IdSet(ActiveRows(after, seatId)) {
        var r :| r in ActiveRows(after, seatId) && r.deliveryId == id;
        var i :| 0 <= i < |after| && after[i] == r;
        RetireAllRow(rows, ids, Evicted, "per-seat-cap", i);
        assert rows[i] in ActiveRows(rows, seatId);
      }
      if id in IdSet(ActiveRows(rows, seatId)) && id !in ids {
        var r :| r in ActiveRows(rows, seatId) && r.deliveryId == id;
        var i :| 0 <= i < |rows| && rows[i] == r;
        RetireAllRow(rows, ids, Evicted, "per-seat-cap", i);
        assert after[i] in ActiveRows(after, seatId);
      }
    }
  }

  lemma FewerById(rows: Rows, after: Rows, seatId: string, gone: set<string>)
    requires DistinctDeliveries(rows) && DistinctDeliveries(after)
    requires gone <= IdSet(ActiveRows(rows, seatId))
    requires IdSet(ActiveRows(after, seatId)) == IdSet(ActiveRows(rows, seatId)) - gone
    ensures |ActiveRows(after, seatId)| == |ActiveRows(rows, seatId)| - |gone|
  {
    ActiveRowsDistinct(rows, seatId);
    ActiveRowsDistinct(after, seatId);
    DistinctCount(ActiveRows(rows, seatId));
    DistinctCount(ActiveRows(after, seatId));
  }

  lemma EvictedCount(rows: Rows, after: Rows, ids: seq<string>, seatId: string)
    requires DistinctDeliveries(rows) && after == RetireAll(rows, ids, Evicted, "per-seat-cap")
    requires |set id | id in ids| == |ids| && forall id | id in ids :: id in IdSet(ActiveRows(rows, seatId))
    ensures |ActiveRows(after, seatId)| == |ActiveRows(rows, seatId)| - |ids|
  {
    SameRowsSameIds(rows, after, ids, seatId);
    FewerById(rows, after, seatId, set id | id in ids);
  }

  /** Evicting that list leaves the seat within its cap, full if it was over, and keeps the new row. */
  lemma {:induction false} CapHolds(rows: Rows, textLeq: (string, string) -> bool, seatId: string, keep: nat, cap: nat)
    requires DistinctDeliveries(rows) && Sorting.TotalPreorder(textLeq) && cap >= 1
    requires keep < |rows| && ActiveOn(rows[keep], seatId)
    ensures var ids := Evictions(rows, textLeq, seatId, rows[keep].deliveryId, cap);
            var after := RetireAll(rows, ids, Evicted, "per-seat-cap");
            && |ActiveRows(after, seatId)| == (if |ActiveRows(rows, seatId)| > cap then cap else |ActiveRows(rows, seatId)|)
            && after[keep] == rows[keep]
  {
    var ids := Evictions(rows, textLeq, seatId, rows[keep].deliveryId, cap);
    EvictionsCount(rows, textLeq, seatId, keep, cap);
    EvictedCount(rows, RetireAll(rows, ids, Evicted, "per-seat-cap"), ids, seatId);
    RetireAllRow(rows, ids, Evicted, "per-seat-cap", keep);
  }

  lemma EvictedWasActive(rows: Rows, seatId: string, ids: seq<string>, j: nat)
    requires DistinctDeliveries(rows) && j < |rows| && rows[j].deliveryId in ids && forall id | id in ids :: id in IdSet(ActiveRows(rows, seatId))
    ensures ActiveOn(rows[j], seatId)
  {
    var r :| r in ActiveRows(rows, seatId) && r.deliveryId == rows[j].deliveryId;
    var k :| 0 <= k < |rows| && rows[k] == r;
    assert k == j;
  }

  lemma FoundByKey(rows: Rows, i: nat)
    requires DistinctDeliveries(rows) && i < |rows|
    ensures Find(rows, rows[i].deliveryId) == Some(i)
  {
    assert rows[i] in rows;
  }

  lemma {:induction false} DueInOrder(textLeq: (string, string) -> bool, rows: Rows, now: int)
    requires DistinctDeliveries(rows) && Sorting.TotalPreorder(textLeq)
    ensures var sorted := Sorting.Sort(Due(rows, now), OlderFirst(textLeq));
            && DistinctDeliveries(sorted) && Sorting.Sorted(sorted, OlderFirst(textLeq))
            && forall r :: r in sorted <==> r in rows && Live(r) && r.expiresAt <= now
  {
    var due := Due(rows, now);
    OlderFirstOrders(textLeq);
    Sorting.SortSorts(due, OlderFirst(textLeq));
    Sorting.SortKeepsMembers(due, OlderFirst(textLeq));
    DueRows(rows, now);
    ReorderedDistinct(due, Sorting.Sort(due, OlderFirst(textLeq)));
  }

  /** An expiry that is cut short has retired the oldest: no retired row is younger than one still due. */
  lemma {:induction false} InterruptedExpiry(textLeq: (string, string) -> bool, rows: Rows, now: int, n: nat, i: nat, j: nat)
    requires DistinctDeliveries(rows) && Sorting.TotalPreorder(textLeq) && n <= |ExpiryOrder(textLeq, rows, now)|
    requires i < |rows| && j < |rows|
    requires var after := RetireAll(rows, ExpiryOrder(textLeq, rows, now)[..n], Expired, "expired");
             after[i] != rows[i] && Live(after[j]) && after[j].expiresAt <= now
    ensures rows[i].createdAt < rows[j].createdAt || (rows[i].createdAt == rows[j].createdAt && textLeq(rows[i].eventId, rows[j].eventId))
  {
    var sorted := Sorting.Sort(Due(rows, now), OlderFirst(textLeq));
    var ids := ExpiryOrder(textLeq, rows, now)[..n];
    RetireAllRow(rows, ids, Expired, "expired", i);
    RetireAllRow(rows, ids, Expired, "expired", j);
    DueInOrder(textLeq, rows, now);
    assert ids == IdsOf(sorted[..n]);
    ExpiryOrderIsDue(textLeq, rows, now, i);
    assert rows[i].deliveryId in ExpiryOrder(textLeq, rows, now);
    PrefixComesFirst(sorted, n, OlderFirst(textLeq), rows[i], rows[j]);
  }

  // ---------------------------------------------------------------- steps on the table

  /** Each row stays as it is, or is live and is retired. */
  ghost predicate OnlyRetires(before: Rows, after: Rows) {
    && |after| == |before|
    && forall i | 0 <= i < |before| ::
         after[i] == before[i] || (Live(before[i]) && !Live(after[i]) && RowEvolves(before[i], after[i]))
  }

  lemma RetireAllOnlyRetires(rows: Rows, ids: seq<string>, state: RowState, reason: string)
    requires DistinctDeliveries(rows) && !state.Prepared? && !state.Active?
    ensures OnlyRetires(rows, RetireAll(rows, ids, state, reason))
  {
    forall i | 0 <= i < |rows|
      ensures var after := RetireAll(rows, ids, state, reason)[i];
              after == rows[i] || (Live(rows[i]) && !Live(after) && RowEvolves(rows[i], after))
    {
      RetireAllRow(rows, ids, state, reason, i);
    }
  }

  lemma RetireOneOnlyRetires(rows: Rows, deliveryId: string, state: RowState, reason: string)
    requires DistinctDeliveries(rows) && !state.Prepared? && !state.Active?
    ensures OnlyRetires(rows, RetireOne(rows, deliveryId, state, reason))
  {
    forall i | 0 <= i < |rows|
      ensures var after := RetireOne(rows, deliveryId, state, reason)[i];
              after == rows[i] || (Live(rows[i]) && !Live(after) && RowEvolves(rows[i], after))
    {
      RetireOneRow(rows, deliveryId, state, reason, i);
    }
  }

  lemma OnlyRetiresEvolves(before: Rows, after: Rows)
    requires OnlyRetires(before, after)
    ensures Evolves(before, after)
  {}

  lemma PrefixEvolves(before: Rows, middle: Rows, after: Rows)
    requires Evolves(before, middle) && middle <= after
    ensures Evolves(before, after)
  {}

  lemma ActivationEvolves(before: Rows, i: nat, id: nat, after: Rows)
    requires i < |before| && before[i].state.Prepared? && OnlyRetires(Activated(before, i, id), after)
    ensures Evolves(before, after)
  {
    forall j | 0 <= j < |before| ensures RowEvolves(before[j], after[j]) {
      assert RowEvolves(before[j], Activated(before, i, id)[j]);
    }
  }

  // ---------------------------------------------------------------- every seat's cap

  ghost predicate CapsHold(rows: Rows, cap: nat) {
    forall seatId :: |ActiveRows(rows, seatId)| <= cap
  }

  lemma {:induction false} FewerActive(before: Rows, after: Rows, seatId: string)
    requires |after| == |before| && forall i | 0 <= i < |before| && ActiveOn(after[i], seatId) :: ActiveOn(before[i], seatId)
    ensures |ActiveRows(after, seatId)| <= |ActiveRows(before, seatId)|
  {
    if before != [] {
      FewerActive(before[..|before| - 1], after[..|before| - 1], seatId);
    }
  }

  /** Retirement relieves every seat. */
  lemma RetirementKeepsCaps(before: Rows, after: Rows, cap: nat)
    requires OnlyRetires(before, after) && CapsHold(before, cap)
    ensures CapsHold(after, cap)
  {
    forall seatId ensures |ActiveRows(after, seatId)| <= cap {
      FewerActive(before, after, seatId);
    }
  }

  lemma InsertionKeepsCaps(before: Rows, after: Rows, cap: nat)
    requires CapsHold(before, cap) && |after| == |before| + 1 && before <= after && after[|before|].state.Prepared?
    ensures CapsHold(after, cap)
  {
    assert after[..|before|] == before;
  }

  lemma {:induction false} OtherSeatsKeep(before: Rows, i: nat, id: nat, ids: seq<string>, seatId: string)
    requires DistinctDeliveries(before) && i < |before| && seatId != before[i].seatId
    ensures |ActiveRows(RetireAll(Activated(before, i, id), ids, Evicted, "per-seat-cap"), seatId)| <= |ActiveRows(before, seatId)|
  {
    var active := Activated(before, i, id);
    var after := RetireAll(active, ids, Evicted, "per-seat-cap");
    forall j | 0 <= j < |before| && ActiveOn(after[j], seatId) ensures ActiveOn(before[j], seatId) {
      RetireAllRow(active, ids, Evicted, "per-seat-cap", j);
    }
    FewerActive(before, after, seatId);
  }

  /** An activation concerns its own seat only, and enforcement then brings that seat within the cap. */
  lemma {:induction false} EnforcementRestoresCaps(s: Settings, before: Rows, i: nat, id: nat)
    requires SettingsOk(s) && DistinctDeliveries(before) && i < |before| && before[i].state.Prepared? && CapsHold(before, s.cap)
    ensures CapsHold(Capped(s, Activated(before, i, id), before[i].seatId, before[i].deliveryId), s.cap)
  {
    var active := Activated(before, i, id);
    var ids := Evictions(active, s.textLeq, before[i].seatId, before[i].deliveryId, s.cap);
    CapHolds(active, s.textLeq, before[i].seatId, i, s.cap);
    forall seatId ensures |ActiveRows(Capped(s, active, before[i].seatId, before[i].deliveryId), seatId)| <= s.cap {
      if seatId != before[i].seatId {
        OtherSeatsKeep(before, i, id, ids, seatId);
      }
    }
  }

  // ---------------------------------------------------------------- publishing

  function ExpiredRows(s: Settings, rows: Rows, now: int): Rows {
    RetireAll(rows, ExpiryOrder(s.textLeq, rows, now), Expired, "expired")
  }

  function Capped(s: Settings, rows: Rows, seatId: string, keep: string): Rows {
    RetireAll(rows, Evictions(rows, s.textLeq, seatId, keep, s.cap), Evicted, "per-seat-cap")
  }

  function NewRow(s: Settings, c: Claim, now: int): Row
    requires |s.digest(c.eventId, c.deliveryId)| == 64
  {
    Row(c.eventId, c.deliveryId, c.seatId, None, c.workspaceId, c.surfaceId, Token(s.digest, c.eventId, c.deliveryId), c.title,
        ShownFor(s, c), c.body, Prepared, now, now + s.ttl, None)
  }

  /** The table in which a claim finds its row: what is due has expired, and the row was inserted if there
      was none. */
  function Taken(s: Settings, rows: Rows, c: Claim, now: int): Rows
    requires |s.digest(c.eventId, c.deliveryId)| == 64
  {
    var expired := ExpiredRows(s, rows, now);
    if Find(expired, c.deliveryId).Some? then expired else expired + [NewRow(s, c, now)]
  }

  /** A finished publication: the claim's row was active already and nothing more happened, or it was
      prepared, became active under some notification, and the seat was capped around it. */
  ghost predicate Published(s: Settings, before: Rows, c: Claim, now: int, after: Rows, record: Row)
    requires |s.digest(c.eventId, c.deliveryId)| == 64
  {
    var taken := Taken(s, before, c, now);
    var at := Find(taken, c.deliveryId);
    at.Some? && SameClaim(taken[at.value], c, ShownFor(s, c)) && Finished(s, taken, at.value, after, record)
  }

  ghost predicate Finished(s: Settings, taken: Rows, i: nat, after: Rows, record: Row)
    requires i < |taken|
  {
    || (taken[i].state.Active? && after == taken && record == taken[i])
    || (taken[i].state.Prepared? && exists id :: ShownAs(s, taken, i, id, after, record))
  }

  ghost predicate ShownAs(s: Settings, taken: Rows, i: nat, id: nat, after: Rows, record: Row)
    requires i < |taken|
  {
    var active := Activated(taken, i, id);
    after == Capped(s, active, taken[i].seatId, taken[i].deliveryId) && record == active[i]
  }

  lemma {:induction false} TakenDistinct(s: Settings, rows: Rows, c: Claim, now: int)
    requires SettingsOk(s) && DistinctDeliveries(rows)
    ensures DistinctDeliveries(Taken(s, rows, c, now)) && |rows| <= |Taken(s, rows, c, now)| <= |rows| + 1
  {
    var expired := ExpiredRows(s, rows, now);
    if Find(expired, c.deliveryId).None? {
      forall k | 0 <= k < |expired| ensures expired[k].deliveryId != c.deliveryId {
        assert expired[k] in expired;
      }
    }
  }

  function Aged(r: Row, now: int): Row {
    if Live(r) && r.expiresAt <= now then r.(state := Expired, reason := Some("expired")) else r
  }

  lemma {:induction false} TakenRow(s: Settings, rows: Rows, c: Claim, now: int, j: nat)
    requires SettingsOk(s) && DistinctDeliveries(rows) && j < |rows|
    ensures j < |Taken(s, rows, c, now)| && Taken(s, rows, c, now)[j] == Aged(rows[j], now)
  {
    ExpiredExactly(s.textLeq, rows, now, j);
  }

  /** What capping does to the row at an index, and against which rows it was chosen. */
  lemma {:induction false} CappedRow(s: Settings, active: Rows, i: nat, j: nat)
    requires SettingsOk(s) && DistinctDeliveries(active) && i < |active| && active[i].state.Active? && j < |active|
    ensures var after := Capped(s, active, active[i].seatId, active[i].deliveryId);
            && after[i] == active[i]
            && (after[j] == active[j] || (ActiveOn(active[j], active[i].seatId) && after[j].state.Evicted?))
            && (after[j] != active[j] ==>
                  forall k | 0 <= k < |active| && k != i && ActiveOn(after[k], active[i].seatId) ::
                    OlderFirst(s.textLeq)(active[j], active[k]))
  {
    var seatId := active[i].seatId;
    var ids := Evictions(active, s.textLeq, seatId, active[i].deliveryId, s.cap);
    var after := Capped(s, active, seatId, active[i].deliveryId);
    EvictionsCount(active, s.textLeq, seatId, i, s.cap);
    RetireAllRow(active, ids, Evicted, "per-seat-cap", i);
    RetireAllRow(active, ids, Evicted, "per-seat-cap", j);
    if after[j] != active[j] {
      EvictedWasActive(active, seatId, ids, j);
      forall k | 0 <= k < |active| && k != i && ActiveOn(after[k], seatId) ensures OlderFirst(s.textLeq)(active[j], active[k]) {
        RetireAllRow(active, ids, Evicted, "per-seat-cap", k);
        EvictionsAreOldest(active, s.textLeq, seatId, i, s.cap, active[j], active[k]);
      }
    }
  }

  /** Seen from the table in which the claim found its row. */
  lemma {:induction false} ShownRow(s: Settings, taken: Rows, i: nat, id: nat, after: Rows, record: Row, j: nat, k: nat)
    requires SettingsOk(s) && DistinctDeliveries(taken) && i < |taken| && taken[i].state.Prepared?
    requires ShownAs(s, taken, i, id, after, record) && j < |taken| && j != i && k < |taken| && k != i
    ensures |after| == |taken| && after[i] == record
    ensures after[j] == taken[j] || (ActiveOn(taken[j], taken[i].seatId) && after[j].state.Evicted?)
    ensures after[j] != taken[j] && ActiveOn(after[k], taken[i].seatId) ==> OlderFirst(s.textLeq)(taken[j], taken[k])
  {
    CappedRow(s, Activated(taken, i, id), i, j);
    CappedRow(s, Activated(taken, i, id), i, k);
  }

  /** What a publication does to a row that was there before: if it is the claim's own it is the one
      returned; otherwise it ages, and it may be evicted if it was active on the claim's seat and not due,
      and then no other row of the seat that was there before and stays active is older. */
  lemma {:induction false} PublishedRow(s: Settings, before: Rows, c: Claim, now: int, after: Rows, record: Row, j: nat, k: nat)
    requires SettingsOk(s) && DistinctDeliveries(before) && Published(s, before, c, now, after, record)
    requires j < |before| && k < |before| && before[k].deliveryId != c.deliveryId
    ensures |before| <= |after| <= |before| + 1
    ensures before[j].deliveryId == c.deliveryId ==> after[j] == record
    ensures before[j].deliveryId != c.deliveryId ==>
              after[j] == Aged(before[j], now) || (ActiveOn(before[j], c.seatId) && before[j].expiresAt > now && after[j].state.Evicted?)
    ensures before[j].deliveryId != c.deliveryId && after[j] != Aged(before[j], now) && ActiveOn(after[k], c.seatId) ==>
              || before[j].createdAt < before[k].createdAt
              || (before[j].createdAt == before[k].createdAt && s.textLeq(before[j].eventId, before[k].eventId))
  {
    var taken := Taken(s, before, c, now);
    var i := Find(taken, c.deliveryId).value;
    TakenDistinct(s, before, c, now);
    TakenRow(s, before, c, now, j);
    TakenRow(s, before, c, now, k);
    FoundByKey(taken, j);
    if taken[i].state.Prepared? {
      var id :| ShownAs(s, taken, i, id, after, record);
      ShownRow(s, taken, i, id, after, record, k, k);
      if j != i {
        ShownRow(s, taken, i, id, after, record, j, k);
      }
    }
  }

  lemma {:induction false} TakenFirst(s: Settings, before: Rows, c: Claim, now: int)
    requires SettingsOk(s) && DistinctDeliveries(before) && forall r | r in before :: r.deliveryId != c.deliveryId
    ensures var taken := Taken(s, before, c, now);
            |taken| == |before| + 1 && taken[|before|] == NewRow(s, c, now) && Find(taken, c.deliveryId) == Some(|before|)
  {
    var expired := ExpiredRows(s, before, now);
    forall r | r in expired ensures r.deliveryId != c.deliveryId {
      var j :| 0 <= j < |expired| && expired[j] == r;
      assert before[j] in before;
    }
    TakenDistinct(s, before, c, now);
    FoundByKey(Taken(s, before, c, now), |before|);
  }

  lemma {:induction false} FinishedRecord(s: Settings, taken: Rows, i: nat, after: Rows, record: Row)
    requires SettingsOk(s) && DistinctDeliveries(taken) && i < |taken| && Finished(s, taken, i, after, record)
    ensures |after| == |taken| && after[i] == record
    ensures record == taken[i].(state := RowState.Active, notificationId := record.notificationId)
    ensures if taken[i].state.Active? then record == taken[i] else taken[i].state.Prepared? && record.notificationId.Some?
  {
    if taken[i].state.Prepared? {
      var id :| ShownAs(s, taken, i, id, after, record);
      ShownRecord(s, taken, i, id, after, record);
    }
  }

  lemma {:induction false} ShownRecord(s: Settings, taken: Rows, i: nat, id: nat, after: Rows, record: Row)
    requires SettingsOk(s) && DistinctDeliveries(taken) && i < |taken| && ShownAs(s, taken, i, id, after, record)
    ensures |after| == |taken| && after[i] == record && record == taken[i].(state := RowState.Active, notificationId := Some(id))
  {
    CappedRow(s, Activated(taken, i, id), i, i);
  }

  /** A finished publication of a delivery that had no row returns the row it added: made now, to live for
      the settings' time, with the claim's own texts and a subtitle that ends in the delivery's token. */
  lemma {:induction false} PublishedFirst(s: Settings, before: Rows, c: Claim, now: int, after: Rows, record: Row)
    requires SettingsOk(s) && DistinctDeliveries(before) && Published(s, before, c, now, after, record)
    requires forall r | r in before :: r.deliveryId != c.deliveryId
    ensures |after| == |before| + 1 && after[|before|] == record
    ensures record.createdAt == now && record.expiresAt == now + s.ttl
    ensures record.state == RowState.Active && record.notificationId.Some? && record.reason == None
    ensures record.eventId == c.eventId && record.deliveryId == c.deliveryId && record.seatId == c.seatId
    ensures record.workspaceId == c.workspaceId && record.surfaceId == c.surfaceId && record.title == c.title && record.body == c.body
    ensures record.token == "YGR-" + s.digest(c.eventId, c.deliveryId)[..16]
    ensures record.subtitle == (if c.subtitle == "" then record.token else c.subtitle + " · " + record.token)
  {
    TakenFirst(s, before, c, now);
    TakenDistinct(s, before, c, now);
    FinishedRecord(s, Taken(s, before, c, now), |before|, after, record);
  }

  lemma {:induction false} PublishedTimes(s: Settings, before: Rows, c: Claim, now: int, after: Rows, record: Row)
    requires SettingsOk(s) && DistinctDeliveries(before) && Published(s, before, c, now, after, record)
    ensures Find(before, c.deliveryId).None? ==> record.createdAt == now && record.expiresAt == now + s.ttl
  {
    if Find(before, c.deliveryId).None? {
      PublishedFirst(s, before, c, now, after, record);
    }
  }

  /** One that had a row returns that row, which was live and not due, with its own times. */
  lemma {:induction false} PublishedAgain(s: Settings, before: Rows, c: Claim, now: int, after: Rows, record: Row, j: nat)
    requires SettingsOk(s) && DistinctDeliveries(before) && Published(s, before, c, now, after, record)
    requires j < |before| && before[j].deliveryId == c.deliveryId
    ensures |after| == |before| && after[j] == record && record.state == RowState.Active
    ensures (before[j].state == Prepared || before[j].state == RowState.Active) && now < before[j].expiresAt
    ensures record == before[j].(state := RowState.Active, notificationId := record.notificationId)
    ensures before[j].state == RowState.Active ==> record == before[j]
  {
    TakenAgain(s, before, c, now, j);
    TakenDistinct(s, before, c, now);
    FinishedRecord(s, Taken(s, before, c, now), j, after, record);
  }

  /** Whatever row it returns makes the claim. */
  lemma {:induction false} PublishedClaim(s: Settings, before: Rows, c: Claim, now: int, after: Rows, record: Row)
    requires SettingsOk(s) && DistinctDeliveries(before) && Published(s, before, c, now, after, record)
    ensures record.eventId == c.eventId && record.deliveryId == c.deliveryId && record.seatId == c.seatId
    ensures record.workspaceId == c.workspaceId && record.surfaceId == c.surfaceId && record.title == c.title && record.body == c.body
    ensures exists token :: token == "YGR-" + s.digest(c.eventId, c.deliveryId)[..16]
                            && record.subtitle == (if c.subtitle == "" then token else c.subtitle + " · " + token)
  {
    var taken := Taken(s, before, c, now);
    TakenDistinct(s, before, c, now);
    FinishedRecord(s, taken, Find(taken, c.deliveryId).value, after, record);
  }

  lemma {:induction false} TakenAgain(s: Settings, before: Rows, c: Claim, now: int, j: nat)
    requires SettingsOk(s) && DistinctDeliveries(before) && j < |before| && before[j].deliveryId == c.deliveryId
    ensures var taken := Taken(s, before, c, now);
            |taken| == |before| && Find(taken, c.deliveryId) == Some(j) && taken[j] == Aged(before[j], now)
  {
    TakenDistinct(s, before, c, now);
    TakenRow(s, before, c, now, j);
    FoundByKey(Taken(s, before, c, now), j);
    FoundByKey(ExpiredRows(s, before, now), j);
  }

  /** Until its time is up, no expiry touches a published row; from then on any does. */
  lemma {:induction false} PublishedLives(s: Settings, before: Rows, c: Claim, now: int, after: Rows, record: Row, later: int)
    requires SettingsOk(s) && DistinctDeliveries(before) && DistinctDeliveries(after) && Published(s, before, c, now, after, record)
    requires forall r | r in before :: r.deliveryId != c.deliveryId
    ensures |after| == |before| + 1
    ensures ExpiredRows(s, after, later)[|before|]
         == if later < now + s.ttl then record else record.(state := Expired, reason := Some("expired"))
  {
    PublishedFirst(s, before, c, now, after, record);
    ExpiredExactly(s.textLeq, after, later, |before|);
  }

  /** A publication that shows a banner leaves its seat with one more active row than it found, or full. */
  lemma {:induction false} PublishedCount(s: Settings, taken: Rows, i: nat, id: nat, after: Rows, record: Row)
    requires SettingsOk(s) && DistinctDeliveries(taken) && i < |taken| && taken[i].state.Prepared?
    requires ShownAs(s, taken, i, id, after, record)
    ensures |ActiveRows(after, taken[i].seatId)|
         == if |ActiveRows(taken, taken[i].seatId)| + 1 > s.cap then s.cap else |ActiveRows(taken, taken[i].seatId)| + 1
  {
    CapHolds(Activated(taken, i, id), s.textLeq, taken[i].seatId, i, s.cap);
    OneMoreActive(taken, i, id);
  }

  lemma {:induction false} OneMoreActive(rows: Rows, i: nat, id: nat)
    requires i < |rows| && rows[i].state.Prepared?
    ensures |ActiveRows(Activated(rows, i, id), rows[i].seatId)| == |ActiveRows(rows, rows[i].seatId)| + 1
  {
    var n := |rows| - 1;
    if i == n {
      assert Activated(rows, i, id)[..n] == rows[..n];
    } else {
      assert Activated(rows, i, id)[..n] == Activated(rows[..n], i, id);
      OneMoreActive(rows[..n], i, id);
    }
  }
}
