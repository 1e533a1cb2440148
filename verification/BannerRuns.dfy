/** Whole runs of the notification lifecycle, and the answers of a host under which a banner outlives its
    row. */
module BannerRuns {
  import opened CoreTypes
  import opened Notifications
  import opened Seats
  import opened Desktops
  import opened Banners

  /** One call of the lifecycle, or another program showing a banner of its own. */
  datatype Call =
    | Publishing(claim: Claim, now: int)
    | Receipt(eventId: string, deliveryId: string, accepted: bool, state: DeliveryState, evidence: EvidenceClass)
    | MarkRead(notificationId: nat)
    | Expiring(now: int)
    | Foreign(workspaceId: string, surfaceId: string, title: string, subtitle: string, body: string)

  /** At most one live banner per delivery, and none for a retired delivery that is not marked. */
  ghost predicate BannersMatchRows(rows: Rows, banners: set<Banner>, blind: set<string>) {
    forall i | 0 <= i < |rows| ::
      && (forall b, c | b in banners && c in banners && b.subtitle == rows[i].subtitle && c.subtitle == rows[i].subtitle :: b == c)
      && (!Live(rows[i]) && rows[i].deliveryId !in blind ==> forall b | b in banners :: b.subtitle != rows[i].subtitle)
  }

  lemma SafeMatches(rows: Rows, banners: set<Banner>, issued: nat, blind: set<string>)
    requires Safe(rows, banners, issued, blind)
    ensures BannersMatchRows(rows, banners, blind)
  {
    forall i | 0 <= i < |rows|
      ensures (forall b, c | b in banners && c in banners && b.subtitle == rows[i].subtitle && c.subtitle == rows[i].subtitle :: b == c)
              && (!Live(rows[i]) && rows[i].deliveryId !in blind ==> forall b | b in banners :: b.subtitle != rows[i].subtitle)
    {
      OneBannerPerDelivery(rows, banners, issued, blind, i);
    }
  }

  /** What a stretch of a run keeps. An interruption is a publication that a crash or an unhelpful host cut
      short. */
  ghost predicate RunKeeps(
    w: World, cap: nat, from: nat, to: nat, before: Rows, after: Rows, marked: set<string>, blind: set<string>, interrupted: bool)
  {
    && from <= to && Evolves(before, after)
    && Excused(w, from, to, after, marked, blind)
    && (CapsHold(before, cap) && !interrupted ==> CapsHold(after, cap))
    && (interrupted ==> Hindered(w, from, to))
  }

  lemma RunKeepsOn(
    w: World, cap: nat, a: nat, b: nat, c: nat, x: Rows, y: Rows, z: Rows, p: set<string>, q: set<string>, r: set<string>,
    early: bool, late: bool)
    requires RunKeeps(w, cap, a, b, x, y, p, q, early) && RunKeeps(w, cap, b, c, y, z, q, r, late)
    ensures RunKeeps(w, cap, a, c, x, z, p, r, early || late)
  {
    EvolvesOn(x, y, z);
    ExcusesAdd(w, a, b, c, y, z, p, q, r);
    if early {
      HinderedLonger(w, a, a, b, c);
    } else if late {
      HinderedLonger(w, a, b, c, c);
    }
  }

  lemma RetiringKeeps(w: World, cap: nat, from: nat, to: nat, before: Rows, after: Rows, marked: set<string>, blind: set<string>)
    requires from <= to && OnlyRetires(before, after) && Excused(w, from, to, after, marked, blind)
    ensures RunKeeps(w, cap, from, to, before, after, marked, blind, false)
  {
    OnlyRetiresEvolves(before, after);
    if CapsHold(before, cap) {
      RetirementKeepsCaps(before, after, cap);
    }
  }

  /** Whatever calls are made in whatever order, and wherever each of them fails or the process dies: the
      screen matches the table, except for deliveries marked at a retirement that the host's answers misled;
      what was retired stays exactly as it was; and every seat stays within its cap unless a publication was
      interrupted. */
  method RunCalls(l: NotificationLifecycle, calls: seq<Call>) returns (interrupted: bool)
    requires l.Valid()
    requires forall c | c in calls :: c.Foreign? ==> !Ours(c.subtitle)
    modifies l, l.desktop
    ensures l.Valid() && BannersMatchRows(l.rows, l.desktop.banners, l.blind)
    ensures RunKeeps(l.desktop.world, l.settings.cap, old(l.desktop.clock), l.desktop.clock, old(l.rows), l.rows, old(l.blind), l.blind, interrupted)
    ensures Evident(l.desktop.world, old(l.desktop.clock), l.desktop.clock) ==> l.blind == old(l.blind)
  {
    var n := 0;
    interrupted := false;
    ghost var w, cap, from, start, marked := l.desktop.world, l.settings.cap, l.desktop.clock, l.rows, l.blind;
    while n < |calls|
      invariant 0 <= n <= |calls| && l.Valid()
      invariant RunKeeps(w, cap, from, l.desktop.clock, start, l.rows, marked, l.blind, interrupted)
    {
      ghost var at, before, mid := l.desktop.clock, l.rows, l.blind;
      var cut := RunCall(l, calls[n]);
      RunKeepsOn(w, cap, from, at, l.desktop.clock, start, before, l.rows, marked, mid, l.blind, interrupted, cut);
      interrupted := interrupted || cut;
      n := n + 1;
    }
    SafeMatches(l.rows, l.desktop.banners, l.desktop.issued, l.blind);
    if Evident(w, from, l.desktop.clock) {
      EvidentExcusesNothing(w, from, l.desktop.clock, l.rows, marked, l.blind);
    }
  }

  method RunCall(l: NotificationLifecycle, c: Call) returns (interrupted: bool)
    requires l.Valid() && (c.Foreign? ==> !Ours(c.subtitle))
    modifies l, l.desktop
    ensures l.Valid()
    ensures RunKeeps(l.desktop.world, l.settings.cap, old(l.desktop.clock), l.desktop.clock, old(l.rows), l.rows, old(l.blind), l.blind, interrupted)
  {
    interrupted := false;
    ghost var before := l.rows;
    match c {
      case Publishing(claim, now) =>
        var done := l.Publish(claim, now);
        interrupted := done.Left? && Interrupts(done.error);
        return;
      case Receipt(eventId, deliveryId, accepted, state, evidence) =>
        var done := l.OnReceipt(eventId, deliveryId, accepted, state, evidence);
        RetireOneOnlyRetires(before, deliveryId, Dismissed, "in-session-receipt");
      case MarkRead(id) =>
        var done := l.OnNotificationRead(id);
        if done == Right(true) {
          ghost var r :| r in before && l.rows == RetireOne(before, r.deliveryId, Dismissed, "explicit-mark-read");
          RetireOneOnlyRetires(before, r.deliveryId, Dismissed, "explicit-mark-read");
        }
      case Expiring(now) =>
        var _ := l.Expire(now);
      case Foreign(workspaceId, surfaceId, title, subtitle, body) =>
        ForeignBannerSafe(l.rows, l.desktop.banners, l.desktop.issued, l.blind, Banner(l.desktop.issued, workspaceId, surfaceId, title, subtitle, body));
        l.desktop.ShowForeign(workspaceId, surfaceId, title, subtitle, body);
    }
    RetiringKeeps(l.desktop.world, l.settings.cap, old(l.desktop.clock), l.desktop.clock, before, l.rows, old(l.blind), l.blind);
  }

  /** From a fresh start under a host that names what it lists and never follows a protocol error with a
      misshapen answer, no retired delivery has a live banner. */
  method RunFromStart(desktop: Desktop, settings: Settings, calls: seq<Call>) returns (l: NotificationLifecycle)
    requires SettingsOk(settings) && desktop.banners == {}
    requires forall c | c in calls :: c.Foreign? ==> !Ours(c.subtitle)
    modifies desktop
    ensures fresh(l) && l.desktop == desktop
    ensures Evident(desktop.world, old(desktop.clock), desktop.clock) ==> BannersMatchRows(l.rows, desktop.banners, {})
    ensures !Hindered(desktop.world, old(desktop.clock), desktop.clock) ==> CapsHold(l.rows, settings.cap)
  {
    l := new NotificationLifecycle(desktop, settings);
    assert CapsHold(l.rows, settings.cap);
    var interrupted := RunCalls(l, calls);
  }

  // ---------------------------------------------------------------- a banner that outlives its row

  /** A host that does everything it is asked to, but gives no id that is a text. */
  function NamelessWorld(): World {
    World((t, b) => true, t => Readable, (t, b) => NotText, t => true, t => false, t => Done, t => false)
  }

  lemma NamelessHelps(from: nat, to: nat)
    ensures !Obstructed(NamelessWorld(), from, to) && !Hindered(NamelessWorld(), from, to) && !NamedOnce(NamelessWorld(), from, to)
  {}

  lemma FirstClaim(s: Settings, c: Claim, now: int, f: Failure)
    requires SettingsOk(s)
    ensures ExpiredRows(s, [], now) == [] && Taken(s, [], c, now) == [NewRow(s, c, now)]
    ensures ClaimRefused(s, [], c, f) ==> f.Crashed?
  {}

  /** Under that host the first publication leaves its row prepared with the banner on screen. */
  method PublishNameless(desktop: Desktop, settings: Settings, c: Claim, now: int) returns (l: NotificationLifecycle)
    requires SettingsOk(settings) && desktop.banners == {} && desktop.world == NamelessWorld()
    modifies desktop
    ensures fresh(l) && l.desktop == desktop && l.settings == settings && l.Valid()
    ensures l.rows == [NewRow(settings, c, now)] && LeftShown(l.rows, desktop.banners, c.deliveryId)
  {
    l := new NotificationLifecycle(desktop, settings);
    ghost var from := desktop.clock;
    var shown := l.Publish(c, now);
    NamelessHelps(from, desktop.clock);
    FirstClaim(settings, c, now, if shown.Left? then shown.error else Crashed);
  }

  /** A receipt then retires the row and dismisses nothing: with no protocol error and no misshapen listing,
      a retired delivery has a live banner. */
  method BannerOutlivesItsRow(settings: Settings, c: Claim, now: int) returns (l: NotificationLifecycle, done: Either<Failure, bool>)
    requires SettingsOk(settings)
    ensures l.desktop.world == NamelessWorld()
    ensures done == Right(true) && |l.rows| == 1 && l.rows[0].deliveryId == c.deliveryId && l.rows[0].state.Dismissed?
    ensures Shown(l.desktop.banners, l.rows[0]) && c.deliveryId in l.blind
  {
    var desktop := new Desktop(NamelessWorld());
    l := PublishNameless(desktop, settings, c, now);
    ghost var from, row, shown := desktop.clock, l.rows[0], desktop.banners;
    assert row in l.rows;
    ghost var b :| b in shown && Shows(b, row);
    done := l.OnReceipt(c.eventId, c.deliveryId, true, InSession, HarnessPromptAccepted);
    NamelessHelps(from, desktop.clock);
    RetireOneRow([row], c.deliveryId, Dismissed, "in-session-receipt", 0);
    assert Survives(NamelessWorld(), from, desktop.clock, row, b);
  }
}
