/** The notification lifecycle: a prepared row before any banner, reconciliation by a unique token, exact
    retirement, and a cap per seat, with a process that may die before any durable or external step. */
module Banners {
  import opened CoreTypes
  import opened Notifications
  import opened Seats
  import opened Desktops

  datatype Failure =
    | Crashed
    | ListFailed
    | DismissFailed
    | CreateFailed
    | CorrelationAmbiguous
    | NotificationIdMissing
    | ClaimContradiction
    | ClaimConflict
    | RetiredAlready(state: RowState)

  /** The failures that can strike while banners are being retired. */
  predicate Interrupts(f: Failure) {
    f.Crashed? || f.ListFailed? || f.DismissFailed?
  }

  /** Why a claim finds no usable row: the process died first, the delivery's row makes another claim or is
      retired, or another delivery owns the token. */
  ghost predicate ClaimRefused(s: Settings, rows: Rows, c: Claim, f: Failure)
    requires |s.digest(c.eventId, c.deliveryId)| == 64
  {
    match f
    case Crashed => Find(rows, c.deliveryId).None?
    case ClaimContradiction => exists r | r in rows :: r.deliveryId == c.deliveryId && !SameClaim(r, c, ShownFor(s, c))
    case RetiredAlready(state) =>
      exists r | r in rows :: SameClaim(r, c, ShownFor(s, c)) && !Live(r) && r.state == state
    case ClaimConflict =>
      Find(rows, c.deliveryId).None? && exists r | r in rows :: r.token == Token(s.digest, c.eventId, c.deliveryId)
    case _ => false
  }

  predicate Shown(banners: set<Banner>, r: Row) {
    exists b | b in banners :: b.subtitle == r.subtitle
  }

  lemma BlinderSafe(rows: Rows, banners: set<Banner>, issued: nat, blind: set<string>, deliveryId: string)
    requires Safe(rows, banners, issued, blind)
    ensures Safe(rows, banners, issued, blind + {deliveryId})
  {
    forall b | b in banners && Ours(b.subtitle) ensures HasRow(rows, b, blind + {deliveryId}) {
      assert HasRow(rows, b, blind);
    }
  }

  /** A banner with a row's subtitle shows that row. */
  lemma SubtitleShows(rows: Rows, banners: set<Banner>, issued: nat, blind: set<string>, i: nat, b: Banner)
    requires Safe(rows, banners, issued, blind) && i < |rows| && b in banners && b.subtitle == rows[i].subtitle
    ensures Shows(b, rows[i])
  {
    assert Ours(rows[i].subtitle);
    assert HasRow(rows, b, blind);
    var j :| 0 <= j < |rows| && Shows(b, rows[j]);
    SubtitlesDiffer(rows, i, j);
  }

  /** The ids a retirement dismisses: the recorded one, or the texts that a listing gives for the banners
      showing the row. */
  function IdsFor(w: World, t: nat, row: Row, listed: set<Banner>): set<ItemId> {
    if row.notificationId.Some? then {Id(row.notificationId.value)}
    else set b | b in listed && Shows(b, row) && !ItemIdOf(w, t, b).NoId? :: ItemIdOf(w, t, b)
  }

  /** Without a recorded id they are the ids of the named banners that show the row, and the empty text if
      one of them is listed under it; one whose id is no text is passed over. */
  lemma IdsForExactly(w: World, t: nat, row: Row, listed: set<Banner>)
    requires row.notificationId == None
    ensures forall n: nat :: Id(n) in IdsFor(w, t, row, listed) <==> exists b | b in listed && Shows(b, row) :: w.naming(t, b) == Named && b.id == n
    ensures EmptyId in IdsFor(w, t, row, listed) <==> exists b | b in listed && Shows(b, row) :: w.naming(t, b) == EmptyText
    ensures NoId !in IdsFor(w, t, row, listed)
  {
    forall n: nat, b | b in listed && Shows(b, row) && w.naming(t, b) == Named && b.id == n ensures Id(n) in IdsFor(w, t, row, listed) {
      assert ItemIdOf(w, t, b) == Id(n);
    }
    forall b | b in listed && Shows(b, row) && w.naming(t, b) == EmptyText ensures EmptyId in IdsFor(w, t, row, listed) {
      assert ItemIdOf(w, t, b) == EmptyId;
    }
  }

  ghost predicate AtMostOneId(ids: set<ItemId>) {
    forall x, y | x in ids && y in ids :: x == y
  }

  /** At most one banner shows a row, so there is at most one id. */
  lemma OneId(w: World, t: nat, rows: Rows, banners: set<Banner>, issued: nat, blind: set<string>, i: nat)
    requires Safe(rows, banners, issued, blind) && i < |rows|
    ensures AtMostOneId(IdsFor(w, t, rows[i], banners))
  {
    OneBannerPerDelivery(rows, banners, issued, blind, i);
  }

  /** Every id was dismissed, one a step, and counted as settled. */
  ghost predicate DismissedAll(w: World, from: nat, ids: set<ItemId>, listed: set<Banner>, left: set<Banner>) {
    && (ids == {} ==> left == listed)
    && forall id | id in ids ::
         left == AfterDismissal(w, from + 1, Remaining(w, from + 1, listed), id) && Settled(w, from + 1, left, id)
  }

  /** The banners of a row that are left are those that survive. */
  ghost predicate LeftOf(w: World, from: nat, to: nat, row: Row, start: set<Banner>, left: set<Banner>) {
    forall b | b in start && b.subtitle == row.subtitle :: b in left <==> Survives(w, from, to, row, b)
  }

  lemma KeptOneMore(w: World, from: nat, to: nat, row: Row, start: set<Banner>, left: set<Banner>)
    requires from < to && LeftOf(w, from, to - 1, row, start, left) && left <= start
    ensures LeftOf(w, from, to, row, start, Remaining(w, to, left))
  {
    forall b | b in start && b.subtitle == row.subtitle
      ensures b in Remaining(w, to, left) <==> Survives(w, from, to, row, b)
    {
      assert b in left <==> Survives(w, from, to - 1, row, b);
    }
  }

  /** What a retirement of the row has listed and means to dismiss. */
  ghost predicate MeansToDismiss(w: World, from: nat, row: Row, start: set<Banner>, listed: set<Banner>, ids: set<ItemId>) {
    && listed == (if row.notificationId.Some? then start else Remaining(w, from + 1, start))
    && ids == IdsFor(w, from + 1, row, listed)
  }

  /** Which banner of a row survives its retirement, from the first step on: exactly one that the user kept
      and the host's answers overlooked. */
  lemma SurvivesExactly(
    w: World, from: nat, to: nat, rows: Rows, banners: set<Banner>, issued: nat, blind: set<string>, i: nat,
    listed: set<Banner>, ids: set<ItemId>, dismissed: set<Banner>)
    requires Safe(rows, banners, issued, blind) && i < |rows|
    requires MeansToDismiss(w, from, rows[i], banners, listed, ids)
    requires var start := if rows[i].notificationId.Some? then from else from + 1;
             to == start + (if ids == {} then 0 else 1) && DismissedAll(w, start, ids, listed, dismissed)
    ensures LeftOf(w, from, to, rows[i], banners, dismissed)
  {
    forall b | b in banners && b.subtitle == rows[i].subtitle
      ensures b in dismissed <==> Survives(w, from, to, rows[i], b)
    {
      BannerSurvives(w, from, to, rows, banners, issued, blind, i, b, listed, ids, dismissed);
    }
  }

  lemma BannerSurvives(
    w: World, from: nat, to: nat, rows: Rows, banners: set<Banner>, issued: nat, blind: set<string>, i: nat, b: Banner,
    listed: set<Banner>, ids: set<ItemId>, dismissed: set<Banner>)
    requires Safe(rows, banners, issued, blind) && i < |rows| && b in banners && b.subtitle == rows[i].subtitle
    requires MeansToDismiss(w, from, rows[i], banners, listed, ids)
    requires var start := if rows[i].notificationId.Some? then from else from + 1;
             to == start + (if ids == {} then 0 else 1) && DismissedAll(w, start, ids, listed, dismissed)
    ensures b in dismissed <==> Survives(w, from, to, rows[i], b)
  {
    var row := rows[i];
    SubtitleShows(rows, banners, issued, blind, i, b);
    var start := if row.notificationId.Some? then from else from + 1;
    if row.notificationId.Some? {
      assert Id(b.id) in ids;
    } else if b in listed && !ItemIdOf(w, from + 1, b).NoId? {
      assert ItemIdOf(w, from + 1, b) in ids;
    } else if b in listed {
      forall c | c in listed && Shows(c, row) ensures c == b {
        OneBannerPerDelivery(rows, banners, issued, blind, i);
      }
      assert ids == {};
    }
    if Id(b.id) in ids && b in Remaining(w, start + 1, listed) {
      SettledExactly(w, start + 1, Remaining(w, start + 1, listed), b);
    }
  }

  /** Retiring and then inserting a prepared row evolves the table and keeps every cap. */
  lemma TakingKeeps(s: Settings, before: Rows, expired: Rows, after: Rows)
    requires OnlyRetires(before, expired)
    requires after == expired || (|after| == |expired| + 1 && expired <= after && after[|expired|].state.Prepared?)
    ensures Evolves(before, after) && (CapsHold(before, s.cap) ==> CapsHold(after, s.cap))
  {
    OnlyRetiresEvolves(before, expired);
    PrefixEvolves(before, expired, after);
    if CapsHold(before, s.cap) {
      RetirementKeepsCaps(before, expired, s.cap);
      if after != expired {
        InsertionKeepsCaps(expired, after, s.cap);
      }
    }
  }

  /** Activating a row and capping its seat shows the row and keeps every cap. */
  lemma {:induction false} CappedAround(s: Settings, before: Rows, i: nat, id: nat, after: Rows)
    requires SettingsOk(s) && DistinctDeliveries(before) && i < |before| && before[i].state.Prepared?
    requires after == Capped(s, Activated(before, i, id), before[i].seatId, before[i].deliveryId)
    ensures i < |after| && ShownAs(s, before, i, id, after, after[i])
    ensures CapsHold(before, s.cap) ==> CapsHold(after, s.cap)
  {
    CappedRow(s, Activated(before, i, id), i, i);
    if CapsHold(before, s.cap) {
      EnforcementRestoresCaps(s, before, i, id);
    }
  }

  /** What a retirement does to the screen and the mark: a banner of the row is left exactly when the user
      kept it and the host's answers overlooked it, and the delivery is marked exactly when one is left. */
  ghost predicate RetiredExactly(
    w: World, from: nat, to: nat, rows: Rows, deliveryId: string, start: set<Banner>, left: set<Banner>, before: set<string>, after: set<string>)
  {
    forall i | 0 <= i < |rows| && rows[i].deliveryId == deliveryId ::
      && after == before + (if Shown(left, rows[i]) then {deliveryId} else {})
      && LeftOf(w, from, to, rows[i], start, left)
  }

  lemma RetirementExcused(
    w: World, from: nat, to: nat, rows: Rows, i: nat, after: Rows, start: set<Banner>, left: set<Banner>, blind: set<string>)
    requires i < |rows| && |after| == |rows| && from + 2 <= to && left <= start
    requires after[i].deliveryId == rows[i].deliveryId && after[i].subtitle == rows[i].subtitle
    requires LeftOf(w, from, to, rows[i], start, left)
    ensures Excused(w, from, to, after, blind, blind + (if Shown(left, rows[i]) then {rows[i].deliveryId} else {}))
  {
    if Shown(left, rows[i]) {
      var b :| b in left && b.subtitle == rows[i].subtitle;
      assert Outlived(w, from, to, rows[i], b, rows[i].subtitle);
      assert ExcusedRow(w, from, to, after, i, rows[i].deliveryId);
    }
  }

  /** One more retirement, done or not, is excused with those before it. */
  lemma ExcusedRetiring(
    w: World, a: nat, b: nat, c: nat, rows: Rows, after: Rows, deliveryId: string, state: RowState, reason: string,
    x: set<string>, y: set<string>, z: set<string>)
    requires DistinctDeliveries(rows) && !state.Prepared? && !state.Active?
    requires after == rows || after == RetireOne(rows, deliveryId, state, reason)
    requires a <= b <= c && Excused(w, a, b, rows, x, y) && Excused(w, b, c, after, y, z)
    ensures Excused(w, a, c, after, x, z)
  {
    RetireOneOnlyRetires(rows, deliveryId, state, reason);
    OnlyRetiresEvolves(rows, RetireOne(rows, deliveryId, state, reason));
    ExcusesAdd(w, a, b, c, rows, after, x, y, z);
  }

  lemma {:induction false} RetireAllOneMore(rows: Rows, ids: seq<string>, n: nat, state: RowState, reason: string)
    requires n < |ids|
    ensures RetireAll(rows, ids[..n + 1], state, reason) == RetireOne(RetireAll(rows, ids[..n], state, reason), ids[n], state, reason)
  {
    assert ids[..n + 1][..n] == ids[..n];
  }

  lemma OnlyRow(rows: Rows, i: nat)
    requires DistinctDeliveries(rows) && i < |rows|
    ensures forall j | 0 <= j < |rows| && rows[j].deliveryId == rows[i].deliveryId :: j == i
  {}

  /** No live row is the delivery's. */
  lemma NotLive(rows: Rows, deliveryId: string)
    requires DistinctDeliveries(rows) && (Find(rows, deliveryId).None? || !Live(rows[Find(rows, deliveryId).value]))
    ensures forall i | 0 <= i < |rows| && rows[i].deliveryId == deliveryId :: !Live(rows[i])
  {
    forall i | 0 <= i < |rows| && rows[i].deliveryId == deliveryId ensures !Live(rows[i]) {
      FoundByKey(rows, i);
    }
  }

  lemma AtMostOneShown(rows: Rows, banners: set<Banner>, issued: nat, blind: set<string>, i: nat, found: set<Banner>)
    requires Safe(rows, banners, issued, blind) && i < |rows| && forall b | b in found :: b in banners && Shows(b, rows[i])
    ensures |found| <= 1
  {
    OneBannerPerDelivery(rows, banners, issued, blind, i);
    if found != {} {
      var b :| b in found;
      assert found == {b};
    }
  }

  /** The delivery's row is prepared, and a banner shows it. */
  ghost predicate LeftShown(rows: Rows, banners: set<Banner>, deliveryId: string) {
    exists i | 0 <= i < |rows| ::
      rows[i].deliveryId == deliveryId && rows[i].state.Prepared? && exists b | b in banners :: Shows(b, rows[i])
  }

  /** The banner shows the claim's row, which was absent or prepared before. */
  ghost predicate NewFor(before: Rows, after: Rows, c: Claim, b: Banner) {
    exists i | 0 <= i < |after| ::
      && Shows(b, after[i]) && after[i].deliveryId == c.deliveryId
      && (i < |before| ==> before[i].state.Prepared?)
  }

  lemma NewBanners(before: Rows, taken: Rows, after: Rows, c: Claim, i: nat, start: set<Banner>, middle: set<Banner>, end: set<Banner>)
    requires i < |taken| && taken[i].deliveryId == c.deliveryId && Evolves(taken, after)
    requires i < |before| ==> taken[i] == before[i]
    requires middle <= start && forall b | b in end && b !in middle :: Shows(b, taken[i]) && taken[i].state.Prepared?
    ensures forall b | b in end && b !in start :: NewFor(before, after, c, b)
  {
    assert RowEvolves(taken[i], after[i]);
  }

  ghost predicate ActiveFor(rows: Rows, deliveryId: string) {
    exists r | r in rows :: r.deliveryId == deliveryId && r.state.Active?
  }

  lemma FoundActive(before: Rows, taken: Rows, deliveryId: string, i: nat)
    requires i < |taken| && taken[i].deliveryId == deliveryId && (i < |before| ==> taken[i] == before[i])
    requires i >= |before| ==> taken[i].state.Prepared?
    ensures taken[i].state.Active? ==> ActiveFor(before, deliveryId)
  {
    assert i < |before| ==> before[i] in before;
  }

  lemma NewRowIsFound(s: Settings, rows: Rows, c: Claim, now: int)
    requires SettingsOk(s)
    ensures var more := rows + [NewRow(s, c, now)];
            Find(more, c.deliveryId) == Some(|rows|) && SameClaim(more[|rows|], c, ShownFor(s, c)) && Live(more[|rows|])
  {}

  lemma FoundIsMember(rows: Rows, deliveryId: string)
    requires Find(rows, deliveryId).Some?
    ensures rows[Find(rows, deliveryId).value] in rows
  {}

  lemma NewRowSafe(s: Settings, rows: Rows, banners: set<Banner>, issued: nat, blind: set<string>, c: Claim, now: int)
    requires SettingsOk(s) && Safe(rows, banners, issued, blind) && Find(rows, c.deliveryId).None?
    requires forall r | r in rows :: r.token != Token(s.digest, c.eventId, c.deliveryId)
    ensures Safe(rows + [NewRow(s, c, now)], banners, issued, blind)
  {
    DisplayedTokenEnds(c.subtitle, Token(s.digest, c.eventId, c.deliveryId));
    InsertedRowSafe(rows, banners, issued, blind, NewRow(s, c, now));
  }

  /** If no banner shows a row exactly, none carries its subtitle. */
  lemma NobodyShows(rows: Rows, banners: set<Banner>, issued: nat, blind: set<string>, i: nat)
    requires Safe(rows, banners, issued, blind) && i < |rows| && forall b | b in banners :: !Shows(b, rows[i])
    ensures forall b | b in banners :: b.subtitle != rows[i].subtitle
  {
    assert Ours(rows[i].subtitle);
    forall b | b in banners ensures b.subtitle != rows[i].subtitle {
      if b.subtitle == rows[i].subtitle {
        assert HasRow(rows, b, blind);
        var j :| 0 <= j < |rows| && Shows(b, rows[j]);
        SubtitlesDiffer(rows, i, j);
      }
    }
  }

  class NotificationLifecycle {
    const desktop: Desktop
    const settings: Settings
    var rows: Rows
    /** Deliveries retired while a banner of theirs was still on screen. */
    ghost var blind: set<string>

    ghost predicate Valid()
      reads this, desktop
    {
      SettingsOk(settings) && Safe(rows, desktop.banners, desktop.issued, blind)
    }

    constructor (desktop: Desktop, settings: Settings)
      requires SettingsOk(settings) && desktop.banners == {}
      ensures this.desktop == desktop && this.settings == settings && rows == [] && blind == {} && Valid()
    {
      this.desktop, this.settings, rows, blind := desktop, settings, [], {};
    }

    /** The banners showing a row, as a readable listing has them. */
    method Matching(row: Row) returns (found: Either<Failure, set<Banner>>)
      requires Valid()
      modifies desktop
      ensures Valid() && desktop.clock == old(desktop.clock) + 1 && desktop.issued == old(desktop.issued)
      ensures desktop.banners == Remaining(desktop.world, desktop.clock, old(desktop.banners))
      ensures found.Left? ==> Interrupts(found.error) && Hinders(desktop.world, desktop.clock)
      ensures found.Right? ==> found.result == set b | b in desktop.banners && Shows(b, row)
      ensures found.Right? ==>
                forall b | b in desktop.banners ::
                  b in found.result <==> b.workspaceId == row.workspaceId && b.surfaceId == row.surfaceId && b.subtitle == row.subtitle
    {
      var alive := desktop.Tick();
      FewerBannersSafe(rows, old(desktop.banners), desktop.banners, desktop.issued, blind);
      if !alive {
        return Left(Crashed);
      }
      if desktop.world.listing(desktop.clock) != Readable {
        return Left(ListFailed);
      }
      found := Right(set b | b in desktop.banners && Shows(b, row));
    }

    /** Dismisses one id: none if that settles it, or the failure. */
    method DismissOne(id: ItemId) returns (failure: Option<Failure>)
      requires Valid()
      modifies desktop
      ensures Valid() && desktop.clock == old(desktop.clock) + 1 && desktop.issued == old(desktop.issued)
      ensures desktop.banners <= old(desktop.banners)
      ensures failure.Some? ==> Interrupts(failure.value) && Hinders(desktop.world, desktop.clock)
      ensures failure.None? ==>
                && desktop.banners == AfterDismissal(desktop.world, desktop.clock,
                                                     Remaining(desktop.world, desktop.clock, old(desktop.banners)), id)
                && Settled(desktop.world, desktop.clock, desktop.banners, id)
      ensures var w, t := desktop.world, desktop.clock;
              failure.None? <==>
                && !w.dies(t)
                && (w.dismissal(t).Done?
                    || (w.dismissal(t).ProtocolError?
                        && (w.listing(t) == Misshapen
                            || (w.listing(t) == Readable && forall b | b in desktop.banners :: ItemIdOf(w, t, b) != id))))
    {
      var alive := desktop.Tick();
      FewerBannersSafe(rows, old(desktop.banners), desktop.banners, desktop.issued, blind);
      if !alive {
        return Some(Crashed);
      }
      ghost var shown := desktop.banners;
      var reply := desktop.Dismiss(id);
      FewerBannersSafe(rows, shown, desktop.banners, desktop.issued, blind);
      if reply.Done? {
        return None;
      }
      if reply.OtherError? {
        return Some(DismissFailed);
      }
      var listing := desktop.world.listing(desktop.clock);
      if listing.ListingFails? {
        return Some(ListFailed);
      }
      if listing.Readable? && ListsId(desktop.world, desktop.clock, desktop.banners, id) {
        return Some(DismissFailed);
      }
      failure := None;
    }

    /** The ids to dismiss for a live row. */
    method IdsToDismiss(i: nat) returns (ids: Either<Failure, set<ItemId>>)
      requires Valid() && i < |rows|
      modifies desktop
      ensures Valid() && desktop.issued == old(desktop.issued)
      ensures desktop.clock == old(desktop.clock) + (if rows[i].notificationId.Some? then 0 else 1)
      ensures desktop.banners <= old(desktop.banners)
      ensures ids.Left? ==> Interrupts(ids.error) && Hindered(desktop.world, old(desktop.clock), desktop.clock)
      ensures ids.Right? ==> AtMostOneId(ids.result)
                             && MeansToDismiss(desktop.world, old(desktop.clock), rows[i], old(desktop.banners), desktop.banners, ids.result)
    {
      if rows[i].notificationId.Some? {
        return Right({Id(rows[i].notificationId.value)});
      }
      var matches := Matching(rows[i]);
      if matches.Left? {
        return Left(matches.error);
      }
      OneId(desktop.world, desktop.clock, rows, desktop.banners, desktop.issued, blind, i);
      ids := Right(set b | b in matches.result && !ItemIdOf(desktop.world, desktop.clock, b).NoId? ::
                     ItemIdOf(desktop.world, desktop.clock, b));
    }

    /** Dismisses the ids in turn up to the first failure; there is at most one. */
    method DismissAll(ids: set<ItemId>) returns (failure: Option<Failure>)
      requires Valid() && AtMostOneId(ids)
      modifies desktop
      ensures Valid() && desktop.banners <= old(desktop.banners) && desktop.issued == old(desktop.issued)
      ensures desktop.clock == old(desktop.clock) + (if ids == {} then 0 else 1)
      ensures failure.Some? ==> Interrupts(failure.value) && Hindered(desktop.world, old(desktop.clock), desktop.clock)
      ensures failure.None? ==> DismissedAll(desktop.world, old(desktop.clock), ids, old(desktop.banners), desktop.banners)
    {
      var todo := ids;
      while todo != {}
        invariant todo <= ids && Valid() && desktop.issued == old(desktop.issued)
        invariant todo == ids || todo == {}
        invariant todo == ids ==> desktop.clock == old(desktop.clock) && desktop.banners == old(desktop.banners)
        invariant todo != ids ==>
                    && desktop.clock == old(desktop.clock) + 1 && desktop.banners <= old(desktop.banners)
                    && DismissedAll(desktop.world, old(desktop.clock), ids, old(desktop.banners), desktop.banners)
        decreases |todo|
      {
        var id :| id in todo;
        var stopped := DismissOne(id);
        if stopped.Some? {
          return stopped;
        }
        todo := todo - {id};
      }
      failure := None;
    }

    /** The durable step of a retirement. */
    method RecordRetirement(i: nat, reason: string, state: RowState)
      requires Valid() && i < |rows| && !state.Prepared? && !state.Active?
      modifies this`rows, this`blind
      ensures Valid() && rows == Retired(old(rows), i, state, reason)
      ensures blind == old(blind) + (if Shown(desktop.banners, old(rows)[i]) then {old(rows)[i].deliveryId} else {})
    {
      if Shown(desktop.banners, rows[i]) {
        BlinderSafe(rows, desktop.banners, desktop.issued, blind, rows[i].deliveryId);
        blind := blind + {rows[i].deliveryId};
      }
      RetiredRowSafe(rows, desktop.banners, desktop.issued, blind, i, state, reason);
      rows := rows[i := rows[i].(state := state, reason := Some(reason))];
    }

    /** Dismisses what a row's banner is listed under. It is then gone, unless the user kept it and the host's
        answers overlooked it. */
    method DismissBanner(i: nat) returns (failure: Option<Failure>)
      requires Valid() && i < |rows|
      modifies desktop
      ensures Valid() && old(desktop.clock) <= desktop.clock
      ensures desktop.banners <= old(desktop.banners) && desktop.issued == old(desktop.issued)
      ensures failure.Some? ==> Interrupts(failure.value) && Hindered(desktop.world, old(desktop.clock), desktop.clock)
      ensures failure.None? ==> old(desktop.clock) < desktop.clock
                                && LeftOf(desktop.world, old(desktop.clock), desktop.clock, rows[i], old(desktop.banners), desktop.banners)
    {
      var ids := IdsToDismiss(i);
      if ids.Left? {
        return Some(ids.error);
      }
      ghost var listed := desktop.banners;
      failure := DismissAll(ids.result);
      if failure.None? {
        SurvivesExactly(desktop.world, old(desktop.clock), desktop.clock, rows, old(desktop.banners), desktop.issued, blind, i,
                        listed, ids.result, desktop.banners);
      }
    }

    /** The same, once the process has reached the durable step. */
    method ClearBanner(i: nat) returns (failure: Option<Failure>)
      requires Valid() && i < |rows|
      modifies desktop
      ensures Valid() && old(desktop.clock) <= desktop.clock
      ensures desktop.banners <= old(desktop.banners) && desktop.issued == old(desktop.issued)
      ensures failure.Some? ==> Interrupts(failure.value) && Hindered(desktop.world, old(desktop.clock), desktop.clock)
      ensures failure.None? ==> old(desktop.clock) + 2 <= desktop.clock
                                && LeftOf(desktop.world, old(desktop.clock), desktop.clock, rows[i], old(desktop.banners), desktop.banners)
    {
      failure := DismissBanner(i);
      if failure.Some? {
        return;
      }
      ghost var dismissed := desktop.banners;
      var alive := desktop.Tick();
      FewerBannersSafe(rows, dismissed, desktop.banners, desktop.issued, blind);
      if !alive {
        assert Hinders(desktop.world, desktop.clock);
        return Some(Crashed);
      }
      KeptOneMore(desktop.world, old(desktop.clock), desktop.clock, rows[i], old(desktop.banners), dismissed);
    }

    /** Retires a live row: true, and exactly that row has changed. Its banner is then gone, unless the user
        kept it and the host's answers overlooked it, and exactly then the delivery is marked. A failure or
        a crash leaves the table as it was, and the call can be made again. */
    method RetireDelivery(deliveryId: string, reason: string, state: RowState) returns (done: Either<Failure, bool>)
      requires Valid() && !state.Prepared? && !state.Active?
      modifies this, desktop
      ensures Valid() && old(desktop.clock) <= desktop.clock
      ensures desktop.banners <= old(desktop.banners) && desktop.issued == old(desktop.issued)
      ensures done.Left? ==> rows == old(rows) && Interrupts(done.error) && Hindered(desktop.world, old(desktop.clock), desktop.clock)
      ensures done.Right? ==> rows == RetireOne(old(rows), deliveryId, state, reason)
                              && (done.result <==> exists i | 0 <= i < |old(rows)| :: old(rows)[i].deliveryId == deliveryId && Live(old(rows)[i]))
      ensures done != Right(true) ==> blind == old(blind)
      ensures done == Right(true) ==>
                RetiredExactly(desktop.world, old(desktop.clock), desktop.clock, old(rows), deliveryId,
                               old(desktop.banners), desktop.banners, old(blind), blind)
      ensures Excused(desktop.world, old(desktop.clock), desktop.clock, rows, old(blind), blind)
    {
      var at := Find(rows, deliveryId);
      if at.None? || !Live(rows[at.value]) {
        NotLive(rows, deliveryId);
        return Right(false);
      }
      var i := at.value;
      var failure := ClearBanner(i);
      if failure.Some? {
        return Left(failure.value);
      }
      RecordRetirement(i, reason, state);
      RetirementExcused(desktop.world, old(desktop.clock), desktop.clock, old(rows), i, rows, old(desktop.banners), desktop.banners, old(blind));
      OnlyRow(old(rows), i);
      done := Right(true);
    }

    /** One more retirement of a list begun at step `from`, when `marked` were the deliveries marked. */
    method RetireNext(deliveryId: string, reason: string, state: RowState, ghost from: nat, ghost marked: set<string>)
      returns (failure: Option<Failure>)
      requires Valid() && !state.Prepared? && !state.Active?
      requires from <= desktop.clock && Excused(desktop.world, from, desktop.clock, rows, marked, blind)
      modifies this, desktop
      ensures Valid() && from <= desktop.clock
      ensures desktop.banners <= old(desktop.banners) && desktop.issued == old(desktop.issued)
      ensures rows == if failure.None? then RetireOne(old(rows), deliveryId, state, reason) else old(rows)
      ensures failure.Some? ==> Interrupts(failure.value) && Hindered(desktop.world, from, desktop.clock)
      ensures Excused(desktop.world, from, desktop.clock, rows, marked, blind)
    {
      ghost var before, middle, at := rows, blind, desktop.clock;
      var done := RetireDelivery(deliveryId, reason, state);
      ExcusedRetiring(desktop.world, from, at, desktop.clock, before, rows, deliveryId, state, reason, marked, middle, blind);
      if done.Left? {
        HinderedLonger(desktop.world, from, at, desktop.clock, desktop.clock);
        return Some(done.error);
      }
      failure := None;
    }

    /** Retires listed deliveries in turn up to the first failure. */
    method RetireSome(ids: seq<string>, reason: string, state: RowState) returns (n: nat, failure: Option<Failure>)
      requires Valid() && !state.Prepared? && !state.Active?
      modifies this, desktop
      ensures Valid() && old(desktop.clock) <= desktop.clock
      ensures desktop.banners <= old(desktop.banners) && desktop.issued == old(desktop.issued)
      ensures n <= |ids| && rows == RetireAll(old(rows), ids[..n], state, reason)
      ensures if failure.None? then n == |ids|
              else Interrupts(failure.value) && Hindered(desktop.world, old(desktop.clock), desktop.clock)
      ensures Excused(desktop.world, old(desktop.clock), desktop.clock, rows, old(blind), blind)
    {
      n, failure := 0, None;
      while n < |ids|
        invariant 0 <= n <= |ids| && failure.None? && Valid() && old(desktop.clock) <= desktop.clock
        invariant desktop.banners <= old(desktop.banners) && desktop.issued == old(desktop.issued)
        invariant rows == RetireAll(old(rows), ids[..n], state, reason)
        invariant Excused(desktop.world, old(desktop.clock), desktop.clock, rows, old(blind), blind)
      {
        failure := RetireNext(ids[n], reason, state, old(desktop.clock), old(blind));
        if failure.Some? {
          return;
        }
        RetireAllOneMore(old(rows), ids, n, state, reason);
        n := n + 1;
      }
    }

    /** Retires each listed delivery in turn; a failure leaves the rest live. */
    method RetireEach(ids: seq<string>, reason: string, state: RowState) returns (failure: Option<Failure>)
      requires Valid() && !state.Prepared? && !state.Active?
      modifies this, desktop
      ensures Valid() && old(desktop.clock) <= desktop.clock
      ensures desktop.banners <= old(desktop.banners) && desktop.issued == old(desktop.issued)
      ensures OnlyRetires(old(rows), rows)
      ensures if failure.None? then rows == RetireAll(old(rows), ids, state, reason)
              else Interrupts(failure.value) && Hindered(desktop.world, old(desktop.clock), desktop.clock)
      ensures exists n | 0 <= n <= |ids| :: rows == RetireAll(old(rows), ids[..n], state, reason)
      ensures Excused(desktop.world, old(desktop.clock), desktop.clock, rows, old(blind), blind)
    {
      ghost var before := rows;
      var n, stopped := RetireSome(ids, reason, state);
      failure := stopped;
      RetireAllOnlyRetires(before, ids[..n], state, reason);
      assert failure.None? ==> ids[..n] == ids;
    }

    /** Expires exactly the live rows whose time is up, oldest first. */
    method Expire(now: int) returns (done: Either<Failure, nat>)
      requires Valid()
      modifies this, desktop
      ensures Valid() && old(desktop.clock) <= desktop.clock
      ensures desktop.banners <= old(desktop.banners) && desktop.issued == old(desktop.issued)
      ensures OnlyRetires(old(rows), rows)
      ensures if done.Right? then done.result == |Due(old(rows), now)| && rows == ExpiredRows(settings, old(rows), now)
              else Interrupts(done.error) && Hindered(desktop.world, old(desktop.clock), desktop.clock)
      ensures var ids := ExpiryOrder(settings.textLeq, old(rows), now);
              exists n | 0 <= n <= |ids| :: rows == RetireAll(old(rows), ids[..n], Expired, "expired")
      ensures Excused(desktop.world, old(desktop.clock), desktop.clock, rows, old(blind), blind)
    {
      var due := Due(rows, now);
      var failure := RetireEach(ExpiryOrder(settings.textLeq, rows, now), "expired", Expired);
      done := if failure.Some? then Left(failure.value) else Right(|due|);
    }

    /** Keeps the new row and evicts the oldest others beyond the cap. */
    method EnforceCap(seatId: string, keep: string) returns (failure: Option<Failure>)
      requires Valid()
      modifies this, desktop
      ensures Valid() && old(desktop.clock) <= desktop.clock
      ensures desktop.banners <= old(desktop.banners) && desktop.issued == old(desktop.issued)
      ensures OnlyRetires(old(rows), rows)
      ensures if failure.None? then rows == Capped(settings, old(rows), seatId, keep)
              else Interrupts(failure.value) && Hindered(desktop.world, old(desktop.clock), desktop.clock)
      ensures Excused(desktop.world, old(desktop.clock), desktop.clock, rows, old(blind), blind)
    {
      failure := RetireEach(Evictions(rows, settings.textLeq, seatId, keep, settings.cap), "per-seat-cap", Evicted);
    }

    /** Retires on an accepted receipt that proves entry into the session, and on nothing less. */
    method OnReceipt(eventId: string, deliveryId: string, accepted: bool, state: DeliveryState, evidence: EvidenceClass)
      returns (done: Either<Failure, bool>)
      requires Valid()
      modifies this, desktop
      ensures Valid() && old(desktop.clock) <= desktop.clock && desktop.banners <= old(desktop.banners)
      ensures done.Right? ==>
                (done.result <==> accepted && state.InSession? && IsEntryEvidence(evidence)
                                  && exists r | r in old(rows) :: r.deliveryId == deliveryId && r.eventId == eventId && Live(r))
      ensures rows == if done == Right(true) then RetireOne(old(rows), deliveryId, Dismissed, "in-session-receipt") else old(rows)
      ensures done == Right(true) ==>
                RetiredExactly(desktop.world, old(desktop.clock), desktop.clock, old(rows), deliveryId,
                               old(desktop.banners), desktop.banners, old(blind), blind)
      ensures done.Left? ==> Interrupts(done.error) && Hindered(desktop.world, old(desktop.clock), desktop.clock)
      ensures Excused(desktop.world, old(desktop.clock), desktop.clock, rows, old(blind), blind)
    {
      if !accepted || !state.InSession? || !IsEntryEvidence(evidence) {
        return Right(false);
      }
      var at := Find(rows, deliveryId);
      if at.None? || rows[at.value].eventId != eventId {
        forall r | r in rows ensures !(r.deliveryId == deliveryId && r.eventId == eventId) {
          var i :| 0 <= i < |rows| && rows[i] == r;
          if r.deliveryId == deliveryId {
            FoundByKey(rows, i);
          }
        }
        return Right(false);
      }
      ghost var row := rows[at.value];
      done := RetireDelivery(deliveryId, "in-session-receipt", Dismissed);
      if done == Right(true) {
        assert row in old(rows) && Live(row);
      } else if done == Right(false) {
        assert !Live(row);
        forall r | r in rows && r.deliveryId == deliveryId ensures r == row {
          var i :| 0 <= i < |rows| && rows[i] == r;
          FoundByKey(rows, i);
        }
      }
    }

    /** Retires the active row that a mark-read names by its exact notification. */
    method OnNotificationRead(notificationId: nat) returns (done: Either<Failure, bool>)
      requires Valid()
      modifies this, desktop
      ensures Valid() && old(desktop.clock) <= desktop.clock && desktop.banners <= old(desktop.banners)
      ensures done == Right(true) ==>
                exists r | r in old(rows) ::
                  && r.state.Active? && r.notificationId == Some(notificationId)
                  && rows == RetireOne(old(rows), r.deliveryId, Dismissed, "explicit-mark-read")
                  && RetiredExactly(desktop.world, old(desktop.clock), desktop.clock, old(rows), r.deliveryId,
                                    old(desktop.banners), desktop.banners, old(blind), blind)
      ensures done == Right(false) ==> forall r | r in old(rows) :: !(r.state.Active? && r.notificationId == Some(notificationId))
      ensures done != Right(true) ==> rows == old(rows)
      ensures done.Left? ==> Interrupts(done.error) && Hindered(desktop.world, old(desktop.clock), desktop.clock)
      ensures Excused(desktop.world, old(desktop.clock), desktop.clock, rows, old(blind), blind)
    {
      var i := 0;
      while i < |rows| && !(rows[i].state.Active? && rows[i].notificationId == Some(notificationId))
        invariant 0 <= i <= |rows|
        invariant forall j | 0 <= j < i :: !(rows[j].state.Active? && rows[j].notificationId == Some(notificationId))
      {
        i := i + 1;
      }
      if i == |rows| {
        return Right(false);
      }
      ghost var row := rows[i];
      done := RetireDelivery(rows[i].deliveryId, "explicit-mark-read", Dismissed);
      assert row in old(rows) && Live(row);
    }

    /** Inserts the prepared row of a claim that has none. */
    method InsertRow(c: Claim, now: int) returns (at: Either<Failure, nat>)
      requires Valid() && Find(rows, c.deliveryId).None?
      modifies this`rows, desktop
      ensures Valid() && desktop.clock == old(desktop.clock) + 1
      ensures desktop.banners <= old(desktop.banners) && desktop.issued == old(desktop.issued)
      ensures at.Right? ==> rows == old(rows) + [NewRow(settings, c, now)] && at.result == |old(rows)|
      ensures at.Left? ==> rows == old(rows) && ClaimRefused(settings, rows, c, at.error)
                           && (at.error.Crashed? ==> Hinders(desktop.world, desktop.clock))
    {
      var alive := desktop.Tick();
      FewerBannersSafe(rows, old(desktop.banners), desktop.banners, desktop.issued, blind);
      if !alive {
        return Left(Crashed);
      }
      var row := NewRow(settings, c, now);
      if exists r | r in rows :: r.token == row.token {
        return Left(ClaimConflict);
      }
      NewRowSafe(settings, rows, desktop.banners, desktop.issued, blind, c, now);
      rows := rows + [row];
      at := Right(|rows| - 1);
    }

    /** The delivery's live row, inserted if there is none. */
    method PrepareRow(c: Claim, now: int) returns (at: Either<Failure, nat>)
      requires Valid()
      modifies this`rows, desktop
      ensures Valid() && old(desktop.clock) <= desktop.clock
      ensures desktop.banners <= old(desktop.banners) && desktop.issued == old(desktop.issued)
      ensures at.Right? && Find(old(rows), c.deliveryId).None? ==>
                && |rows| == |old(rows)| + 1 && at.result == |old(rows)| && rows[at.result].state == RowState.Prepared
                && rows[at.result].createdAt == now && rows[at.result].expiresAt == now + settings.ttl
      ensures at.Right? ==>
                && rows == (if Find(old(rows), c.deliveryId).Some? then old(rows) else old(rows) + [NewRow(settings, c, now)])
                && Find(rows, c.deliveryId) == Some(at.result)
                && SameClaim(rows[at.result], c, ShownFor(settings, c)) && Live(rows[at.result])
      ensures at.Left? ==> rows == old(rows) && ClaimRefused(settings, rows, c, at.error)
                           && (at.error.Crashed? ==> Hindered(desktop.world, old(desktop.clock), desktop.clock))
      ensures forall i | 0 <= i < |old(rows)| && old(rows)[i].deliveryId == c.deliveryId ::
                at.Right? <==>
                  && (old(rows)[i].state == RowState.Prepared || old(rows)[i].state == RowState.Active)
                  && old(rows)[i].eventId == c.eventId && old(rows)[i].seatId == c.seatId && old(rows)[i].workspaceId == c.workspaceId
                  && old(rows)[i].surfaceId == c.surfaceId && old(rows)[i].title == c.title && old(rows)[i].body == c.body
                  && old(rows)[i].subtitle == ShownFor(settings, c)
    {
      forall i | 0 <= i < |rows| && rows[i].deliveryId == c.deliveryId ensures Find(rows, c.deliveryId) == Some(i) {
        FoundByKey(rows, i);
      }
      var existing := Find(rows, c.deliveryId);
      if existing.None? {
        NewRowIsFound(settings, rows, c, now);
        at := InsertRow(c, now);
        return;
      }
      var row := rows[existing.value];
      FoundIsMember(rows, c.deliveryId);
      if !SameClaim(row, c, ShownFor(settings, c)) {
        return Left(ClaimContradiction);
      }
      if !row.state.Active? && !row.state.Prepared? {
        return Left(RetiredAlready(row.state));
      }
      at := Right(existing.value);
    }

    /** The banners showing a row; if a first listing shows none, one is created and listed. */
    method ListOrCreate(i: nat) returns (found: Either<Failure, set<Banner>>)
      requires Valid() && i < |rows| && rows[i].state.Prepared?
      modifies desktop
      ensures Valid() && old(desktop.clock) < desktop.clock
      ensures forall b | b in desktop.banners && b !in old(desktop.banners) :: Shows(b, rows[i])
      ensures Shown(Remaining(desktop.world, old(desktop.clock) + 1, old(desktop.banners)), rows[i]) ==>
                desktop.issued == old(desktop.issued) && desktop.banners <= old(desktop.banners)
      ensures desktop.issued <= old(desktop.issued) + 1
      ensures found.Right? ==> found.result == set b | b in desktop.banners && Shows(b, rows[i])
      ensures found.Left? ==> !found.error.NotificationIdMissing?
      ensures found.Left? && Interrupts(found.error) ==> Hindered(desktop.world, old(desktop.clock), desktop.clock)
      ensures found.Left? || found.result == {} ==> Obstructed(desktop.world, old(desktop.clock), desktop.clock)
    {
      ghost var from := desktop.clock;
      found := Matching(rows[i]);
      if found.Left? {
        NotObliging(desktop.world, from, desktop.clock, desktop.clock);
        return;
      }
      if found.result != {} {
        return;
      }
      forall b | b in desktop.banners ensures !Shows(b, rows[i]) {
        assert b !in found.result;
      }
      NobodyShows(rows, desktop.banners, desktop.issued, blind, i);
      found := CreateBanner(i);
      if found.Left? || found.result == {} {
        ObstructedLonger(desktop.world, from, from + 1, desktop.clock, desktop.clock);
      }
    }

    /** The id under which the host lists the only banner showing the row. A crash or a failed call after the
        banner appeared is met again here: nothing is created while one is shown. */
    method Reconcile(i: nat) returns (id: Either<Failure, nat>)
      requires Valid() && i < |rows| && rows[i].state.Prepared?
      modifies desktop
      ensures Valid() && old(desktop.clock) < desktop.clock
      ensures forall b | b in desktop.banners && b !in old(desktop.banners) :: Shows(b, rows[i])
      ensures Shown(Remaining(desktop.world, old(desktop.clock) + 1, old(desktop.banners)), rows[i]) ==>
                desktop.issued == old(desktop.issued) && desktop.banners <= old(desktop.banners)
      ensures desktop.issued <= old(desktop.issued) + 1
      ensures id.Right? ==> exists b | b in desktop.banners ::
                b.id == id.result && Shows(b, rows[i]) && desktop.world.naming(desktop.clock, b).Named?
      ensures id.Left? && Interrupts(id.error) ==> Hindered(desktop.world, old(desktop.clock), desktop.clock)
      ensures id.Left? ==> id.error.NotificationIdMissing? || Obstructed(desktop.world, old(desktop.clock), desktop.clock)
      ensures id == Left(NotificationIdMissing) ==>
                exists b | b in desktop.banners :: Shows(b, rows[i]) && !desktop.world.naming(desktop.clock, b).Named?
    {
      var found := ListOrCreate(i);
      if found.Left? {
        return Left(found.error);
      }
      AtMostOneShown(rows, desktop.banners, desktop.issued, blind, i, found.result);
      if |found.result| != 1 {
        return Left(CorrelationAmbiguous);
      }
      var b :| b in found.result;
      if !desktop.world.naming(desktop.clock, b).Named? {
        return Left(NotificationIdMissing);
      }
      id := Right(b.id);
    }

    /** Creates the banner of a row that nothing shows, and lists again. */
    method CreateBanner(i: nat) returns (found: Either<Failure, set<Banner>>)
      requires Valid() && i < |rows| && rows[i].state.Prepared? && forall b | b in desktop.banners :: !Shows(b, rows[i])
      modifies desktop
      ensures Valid() && old(desktop.clock) < desktop.clock && desktop.issued <= old(desktop.issued) + 1
      ensures forall b | b in desktop.banners && b !in old(desktop.banners) :: Shows(b, rows[i])
      ensures found.Left? && Interrupts(found.error) ==> Hindered(desktop.world, old(desktop.clock), desktop.clock)
      ensures found.Left? || found.result == {} ==> Obstructed(desktop.world, old(desktop.clock), desktop.clock)
      ensures found.Left? ==> !found.error.NotificationIdMissing?
      ensures found.Right? ==> found.result == set b | b in desktop.banners && Shows(b, rows[i])
    {
      var alive := desktop.Tick();
      FewerBannersSafe(rows, old(desktop.banners), desktop.banners, desktop.issued, blind);
      if !alive {
        assert Hinders(desktop.world, desktop.clock);
        NotObliging(desktop.world, old(desktop.clock), desktop.clock, desktop.clock);
        return Left(Crashed);
      }
      NobodyShows(rows, desktop.banners, desktop.issued, blind, i);
      ghost var shown, issued := desktop.banners, desktop.issued;
      var ok := desktop.Create(rows[i]);
      CreatedBannerSafe(rows, shown, issued, blind, i, BannerFor(issued, rows[i]));
      if !ok {
        NotObliging(desktop.world, old(desktop.clock), desktop.clock, desktop.clock);
        return Left(CreateFailed);
      }
      ghost var created, made := desktop.clock, desktop.banners;
      found := Matching(rows[i]);
      if found.Left? {
        NotObliging(desktop.world, old(desktop.clock), desktop.clock, desktop.clock);
      } else if found.result == {} {
        assert BannerFor(issued, rows[i]) !in desktop.banners by {
          assert BannerFor(issued, rows[i]) !in found.result;
        }
        VanishedIsObstruction(desktop.world, old(desktop.clock), created, BannerFor(issued, rows[i]), made);
      }
    }

    /** Records the banner and activates the row. */
    method Activate(i: nat) returns (failure: Option<Failure>)
      requires Valid() && i < |rows| && rows[i].state.Prepared?
      modifies this`rows, desktop
      ensures Valid() && old(desktop.clock) <= desktop.clock
      ensures forall b | b in desktop.banners && b !in old(desktop.banners) :: Shows(b, old(rows)[i])
      ensures failure.Some? ==> rows == old(rows)
      ensures failure.Some? && Interrupts(failure.value) ==> Hindered(desktop.world, old(desktop.clock), desktop.clock)
      ensures failure == Some(NotificationIdMissing) ==> exists b | b in desktop.banners :: Shows(b, rows[i])
      ensures failure.Some? ==> failure.value.NotificationIdMissing? || Obstructed(desktop.world, old(desktop.clock), desktop.clock)
      ensures failure.None? ==> (exists id :: rows == Activated(old(rows), i, id))
                                && NamedOnce(desktop.world, old(desktop.clock), desktop.clock)
    {
      ghost var from := desktop.clock;
      var id := Reconcile(i);
      if id.Left? {
        return Some(id.error);
      }
      ghost var b: Banner :| b in desktop.banners && b.id == id.result && Shows(b, rows[i])
                             && desktop.world.naming(desktop.clock, b).Named?;
      NamedThen(desktop.world, from, desktop.clock, desktop.clock + 1, b);
      ActivatedRowSafe(rows, desktop.banners, desktop.issued, blind, i, b);
      ghost var shown := desktop.banners;
      var alive := desktop.Tick();
      FewerBannersSafe(rows, shown, desktop.banners, desktop.issued, blind);
      if !alive {
        assert Hinders(desktop.world, desktop.clock);
        NotObliging(desktop.world, from, desktop.clock, desktop.clock);
        return Some(Crashed);
      }
      FewerBannersSafe(Activated(rows, i, id.result), shown, desktop.banners, desktop.issued, blind);
      rows := rows[i := rows[i].(state := RowState.Active, notificationId := Some(id.result))];
      failure := None;
    }

    /** The first half of publishing: expire what is due, then find or insert the claim's row. */
    method TakeClaim(c: Claim, now: int) returns (at: Either<Failure, nat>)
      requires Valid()
      modifies this, desktop
      ensures Valid() && old(desktop.clock) <= desktop.clock && desktop.banners <= old(desktop.banners)
      ensures Evolves(old(rows), rows)
      ensures at.Right? ==>
                && rows == Taken(settings, old(rows), c, now) && Find(rows, c.deliveryId) == Some(at.result)
                && SameClaim(rows[at.result], c, ShownFor(settings, c)) && Live(rows[at.result])
                && (if at.result < |old(rows)| then rows[at.result] == old(rows)[at.result] else rows[at.result].state.Prepared?)
      ensures CapsHold(old(rows), settings.cap) ==> CapsHold(rows, settings.cap)
      ensures at.Left? && Interrupts(at.error) ==> Hindered(desktop.world, old(desktop.clock), desktop.clock)
      ensures at.Left? && !Interrupts(at.error) ==> rows == ExpiredRows(settings, old(rows), now) && ClaimRefused(settings, rows, c, at.error)
      ensures Excused(desktop.world, old(desktop.clock), desktop.clock, rows, old(blind), blind)
    {
      ghost var before, from := rows, desktop.clock;
      var expired := Expire(now);
      ghost var afterExpiry, middle := rows, desktop.clock;
      if expired.Left? {
        TakingKeeps(settings, before, afterExpiry, rows);
        return Left(expired.error);
      }
      at := PrepareRow(c, now);
      TakingKeeps(settings, before, afterExpiry, rows);
      ExcusedPrefix(desktop.world, from, middle, desktop.clock, afterExpiry, rows, old(blind), blind);
      if at.Left? && Interrupts(at.error) {
        HinderedLonger(desktop.world, from, middle, desktop.clock, desktop.clock);
      }
    }

    /** Reconciles and activates a prepared row, and enforces the cap around it. */
    method ShowPrepared(i: nat) returns (done: Either<Failure, Row>)
      requires Valid() && i < |rows| && rows[i].state.Prepared?
      modifies this, desktop
      ensures Valid() && old(desktop.clock) <= desktop.clock && Evolves(old(rows), rows)
      ensures forall b | b in desktop.banners && b !in old(desktop.banners) :: Shows(b, old(rows)[i])
      ensures done.Right? ==> Finished(settings, old(rows), i, rows, done.result)
                              && NamedOnce(desktop.world, old(desktop.clock), desktop.clock)
      ensures done.Left? ==> done.error.NotificationIdMissing? || Obstructed(desktop.world, old(desktop.clock), desktop.clock)
      ensures CapsHold(old(rows), settings.cap) && (done.Right? || !Interrupts(done.error)) ==> CapsHold(rows, settings.cap)
      ensures done.Left? && Interrupts(done.error) ==> Hindered(desktop.world, old(desktop.clock), desktop.clock)
      ensures done == Left(NotificationIdMissing) ==> rows == old(rows) && exists b | b in desktop.banners :: Shows(b, rows[i])
      ensures Excused(desktop.world, old(desktop.clock), desktop.clock, rows, old(blind), blind)
    {
      ghost var before, from := rows, desktop.clock;
      var failure := Activate(i);
      if failure.Some? {
        return Left(failure.value);
      }
      ghost var id :| rows == Activated(before, i, id);
      ghost var middle := desktop.clock;
      failure := EnforceCap(rows[i].seatId, rows[i].deliveryId);
      ActivationEvolves(before, i, id, rows);
      ExcusedLonger(desktop.world, from, middle, desktop.clock, rows, old(blind), blind);
      if failure.Some? {
        HinderedLonger(desktop.world, from, middle, desktop.clock, desktop.clock);
        ObstructedLonger(desktop.world, from, middle, desktop.clock, desktop.clock);
        return Left(failure.value);
      }
      CappedAround(settings, before, i, id, rows);
      done := Right(rows[i]);
    }

    /** The second half of publishing: a row already active is returned, a prepared one is shown. */
    method FinishClaim(i: nat) returns (done: Either<Failure, Row>)
      requires Valid() && i < |rows| && Live(rows[i])
      modifies this, desktop
      ensures Valid() && old(desktop.clock) <= desktop.clock && Evolves(old(rows), rows)
      ensures forall b | b in desktop.banners && b !in old(desktop.banners) :: Shows(b, old(rows)[i]) && old(rows)[i].state.Prepared?
      ensures done.Right? ==> Finished(settings, old(rows), i, rows, done.result)
                              && (old(rows)[i].state.Active? || NamedOnce(desktop.world, old(desktop.clock), desktop.clock))
      ensures done.Left? ==> done.error.NotificationIdMissing? || Obstructed(desktop.world, old(desktop.clock), desktop.clock)
      ensures CapsHold(old(rows), settings.cap) && (done.Right? || !Interrupts(done.error)) ==> CapsHold(rows, settings.cap)
      ensures done.Left? && Interrupts(done.error) ==> Hindered(desktop.world, old(desktop.clock), desktop.clock)
      ensures done == Left(NotificationIdMissing) ==>
                rows == old(rows) && rows[i].state.Prepared? && exists b | b in desktop.banners :: Shows(b, rows[i])
      ensures Excused(desktop.world, old(desktop.clock), desktop.clock, rows, old(blind), blind)
    {
      if rows[i].state.Active? {
        return Right(rows[i]);
      }
      done := ShowPrepared(i);
    }

    /** Shows a claim once. A finished publication is exactly the one specified; a new banner can only be
        this delivery's, and only while its row was absent or prepared; an obliging host is refused only for
        the ids it does not give, or for the claim itself. */
    method Publish(c: Claim, now: int) returns (done: Either<Failure, Row>)
      requires Valid()
      modifies this, desktop
      ensures Valid() && old(desktop.clock) <= desktop.clock && Evolves(old(rows), rows)
      ensures forall b | b in desktop.banners && b !in old(desktop.banners) :: NewFor(old(rows), rows, c, b)
      ensures done.Right? ==> Published(settings, old(rows), c, now, rows, done.result)
      ensures done.Right? && Find(old(rows), c.deliveryId).None? ==>
                done.result.createdAt == now && done.result.expiresAt == now + settings.ttl
      ensures done.Right? ==> NamedOnce(desktop.world, old(desktop.clock), desktop.clock) || ActiveFor(old(rows), c.deliveryId)
      ensures done.Left? ==> done.error.NotificationIdMissing? || Obstructed(desktop.world, old(desktop.clock), desktop.clock)
                             || (rows == ExpiredRows(settings, old(rows), now) && ClaimRefused(settings, rows, c, done.error))
      ensures CapsHold(old(rows), settings.cap) && (done.Right? || !Interrupts(done.error)) ==> CapsHold(rows, settings.cap)
      ensures done.Left? && Interrupts(done.error) ==> Hindered(desktop.world, old(desktop.clock), desktop.clock)
      ensures done == Left(NotificationIdMissing) ==>
                rows == Taken(settings, old(rows), c, now) && LeftShown(rows, desktop.banners, c.deliveryId)
      ensures Excused(desktop.world, old(desktop.clock), desktop.clock, rows, old(blind), blind)
    {
      ghost var before, from := rows, desktop.clock;
      var at := TakeClaim(c, now);
      if at.Left? {
        if Interrupts(at.error) {
          ObstructedLonger(desktop.world, from, from, desktop.clock, desktop.clock);
        }
        return Left(at.error);
      }
      ghost var taken, marked, middle, banners := rows, blind, desktop.clock, desktop.banners;
      done := FinishClaim(at.result);
      EvolvesOn(before, taken, rows);
      ExcusesAdd(desktop.world, from, middle, desktop.clock, taken, rows, old(blind), marked, blind);
      NewBanners(before, taken, rows, c, at.result, old(desktop.banners), banners, desktop.banners);
      if done.Right? {
        PublishedTimes(settings, before, c, now, rows, done.result);
        FoundActive(before, taken, c.deliveryId, at.result);
        NamedLonger(desktop.world, from, middle, desktop.clock);
      } else {
        LaterLonger(desktop.world, from, middle, desktop.clock);
      }
    }
  }
}
