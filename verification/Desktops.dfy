/** The host's notifications, which a user also touches, and how its answers bear on whether a banner is
    gone. */
module Desktops {
  import opened CoreTypes
  import opened Notifications

  datatype Listing = Readable | Misshapen | ListingFails
  datatype Dismissal = Done | ProtocolError(gone: bool) | OtherError(gone: bool)

  /** How a readable listing shows a banner's id: as it is, as an empty text, or not as a text at all. */
  datatype Naming = Named | EmptyText | NotText

  /** Everything outside the process, by a step counter: which banners a user leaves on screen, how the
      host answers, and when the process dies. */
  datatype World = World(
    keeps: (nat, Banner) -> bool,
    listing: nat -> Listing,
    naming: (nat, Banner) -> Naming,
    creates: nat -> bool,
    creationFails: nat -> bool,
    dismissal: nat -> Dismissal,
    dies: nat -> bool)

  /** The id member of a listed item. */
  datatype ItemId = Id(n: nat) | EmptyId | NoId

  function ItemIdOf(w: World, t: nat, b: Banner): ItemId {
    match w.naming(t, b)
    case Named => Id(b.id)
    case EmptyText => EmptyId
    case NotText => NoId
  }

  function Remaining(w: World, t: nat, banners: set<Banner>): set<Banner> {
    set b | b in banners && w.keeps(t, b)
  }

  /** A dismissal that is acknowledged has removed the banner it names; one that fails may have. An empty
      id names nothing. */
  function AfterDismissal(w: World, t: nat, banners: set<Banner>, id: ItemId): set<Banner> {
    var reply := w.dismissal(t);
    if id.Id? && (reply.Done? || reply.gone) then set b | b in banners && b.id != id.n else banners
  }

  /** A readable listing shows an item with this id. */
  predicate ListsId(w: World, t: nat, banners: set<Banner>, id: ItemId) {
    exists b | b in banners :: ItemIdOf(w, t, b) == id
  }

  /** Whether a dismissal counts as settled: the host's protocol error is overruled when the following
      listing does not show the id, and a misshapen listing shows nothing. */
  predicate Settled(w: World, t: nat, banners: set<Banner>, id: ItemId) {
    || w.dismissal(t).Done?
    || (w.dismissal(t).ProtocolError? && !w.listing(t).ListingFails? && (w.listing(t).Misshapen? || !ListsId(w, t, banners, id)))
  }

  class Desktop {
    const world: World
    var banners: set<Banner>
    var issued: nat
    var clock: nat

    constructor (world: World)
      ensures this.world == world && banners == {} && issued == 0
    {
      this.world, banners, issued, clock := world, {}, 0, 0;
    }

    /** Time passes: the user may dismiss banners, and the process may die. */
    method Tick() returns (alive: bool)
      modifies this
      ensures clock == old(clock) + 1 && issued == old(issued)
      ensures banners == Remaining(world, clock, old(banners)) && alive == !world.dies(clock)
    {
      clock := clock + 1;
      banners := set b | b in banners && world.keeps(clock, b);
      alive := !world.dies(clock);
    }

    /** Another program shows a banner of its own. */
    method ShowForeign(workspaceId: string, surfaceId: string, title: string, subtitle: string, body: string)
      requires !Ours(subtitle)
      modifies this
      ensures banners == old(banners) + {Banner(old(issued), workspaceId, surfaceId, title, subtitle, body)}
      ensures issued == old(issued) + 1 && clock == old(clock)
    {
      banners := banners + {Banner(issued, workspaceId, surfaceId, title, subtitle, body)};
      issued := issued + 1;
    }

    /** Ids are never given twice. */
    method Create(row: Row) returns (ok: bool)
      modifies this
      ensures clock == old(clock) && ok == !world.creationFails(clock)
      ensures banners == if world.creates(clock) then old(banners) + {BannerFor(old(issued), row)} else old(banners)
      ensures issued == if world.creates(clock) then old(issued) + 1 else old(issued)
    {
      if world.creates(clock) {
        banners := banners + {BannerFor(issued, row)};
        issued := issued + 1;
      }
      ok := !world.creationFails(clock);
    }

    method Dismiss(id: ItemId) returns (reply: Dismissal)
      modifies this
      ensures clock == old(clock) && issued == old(issued) && reply == world.dismissal(clock)
      ensures banners == AfterDismissal(world, clock, old(banners), id)
    {
      reply := world.dismissal(clock);
      if id.Id? && (reply.Done? || reply.gone) {
        banners := set b | b in banners && b.id != id.n;
      }
    }
  }

  function BannerFor(id: nat, row: Row): Banner {
    Banner(id, row.workspaceId, row.surfaceId, row.title, row.subtitle, row.body)
  }

  // ---------------------------------------------------------------- what proves a banner gone

  predicate Kept(w: World, b: Banner, from: nat, to: nat) {
    forall t | from < t <= to :: w.keeps(t, b)
  }

  /** The dismissal of a banner failed, it is still there, and the listing asked for afterwards does not
      show it under its id. */
  predicate DismissalMissed(w: World, t: nat, b: Banner) {
    && w.dismissal(t) == ProtocolError(false)
    && (w.listing(t).Misshapen? || (w.listing(t).Readable? && !w.naming(t, b).Named?))
  }

  /** The answers that let a row retire, starting after step `from`, while its banner stays: a recorded id
      whose dismissal was missed; or, without one, a listing that does not name the banner, or that does
      and whose dismissal was missed. */
  predicate Overlooked(w: World, from: nat, row: Row, b: Banner) {
    if row.notificationId.Some? then DismissalMissed(w, from + 1, b)
    else !w.naming(from + 1, b).Named? || DismissalMissed(w, from + 2, b)
  }

  /** A banner outlives the retirement of the row it shows. */
  predicate Survives(w: World, from: nat, to: nat, row: Row, b: Banner) {
    Kept(w, b, from, to) && Overlooked(w, from, row, b)
  }

  /** Settling the dismissal of a banner's own id leaves the banner exactly when it was missed. */
  lemma SettledExactly(w: World, t: nat, banners: set<Banner>, b: Banner)
    requires b in banners && forall c | c in banners && c.id == b.id :: c == b
    requires Settled(w, t, AfterDismissal(w, t, banners, Id(b.id)), Id(b.id))
    ensures b in AfterDismissal(w, t, banners, Id(b.id)) <==> DismissalMissed(w, t, b)
  {
    var after := AfterDismissal(w, t, banners, Id(b.id));
    if DismissalMissed(w, t, b) {
      assert b in after;
    }
    if b in after && w.listing(t).Readable? {
      assert ItemIdOf(w, t, b) == Id(b.id) ==> ListsId(w, t, after, Id(b.id));
    }
  }

  // ---------------------------------------------------------------- causes over time

  /** Between two steps a banner with the subtitle outlived the retirement of a row with the subtitle. */
  ghost predicate Outlived(w: World, from: nat, to: nat, row: Row, b: Banner, subtitle: string) {
    from + 2 <= to && row.subtitle == subtitle == b.subtitle && Survives(w, from, to, row, b)
  }

  ghost predicate HasCause(w: World, from: nat, to: nat, subtitle: string) {
    exists f: nat, g: nat, row: Row, b: Banner :: from <= f && g <= to && Outlived(w, f, g, row, b, subtitle)
  }

  lemma CauseLonger(w: World, from: nat, f: nat, g: nat, to: nat, subtitle: string)
    requires from <= f && g <= to && HasCause(w, f, g, subtitle)
    ensures HasCause(w, from, to, subtitle)
  {
    var x: nat, y: nat, row: Row, b: Banner :| f <= x && y <= g && Outlived(w, x, y, row, b, subtitle);
    assert from <= x && y <= to;
  }

  /** Every delivery newly marked has a row, and a cause within the interval. */
  ghost predicate Excused(w: World, from: nat, to: nat, rows: Rows, before: set<string>, after: set<string>) {
    && before <= after
    && forall id | id in after && id !in before :: exists i: nat :: ExcusedRow(w, from, to, rows, i, id)
  }

  ghost predicate ExcusedRow(w: World, from: nat, to: nat, rows: Rows, i: nat, id: string) {
    i < |rows| && rows[i].deliveryId == id && HasCause(w, from, to, rows[i].subtitle)
  }

  lemma NothingNewExcused(w: World, from: nat, to: nat, rows: Rows, blind: set<string>)
    ensures Excused(w, from, to, rows, blind, blind)
  {}

  lemma ExcusesAdd(w: World, a: nat, b: nat, c: nat, rows: Rows, later: Rows, x: set<string>, y: set<string>, z: set<string>)
    requires a <= b <= c && Excused(w, a, b, rows, x, y) && Excused(w, b, c, later, y, z) && Evolves(rows, later)
    ensures Excused(w, a, c, later, x, z)
  {
    forall id | id in z && id !in x ensures exists i: nat :: ExcusedRow(w, a, c, later, i, id) {
      if id in y {
        var i: nat :| ExcusedRow(w, a, b, rows, i, id);
        assert RowEvolves(rows[i], later[i]);
        CauseLonger(w, a, a, b, c, rows[i].subtitle);
        assert ExcusedRow(w, a, c, later, i, id);
      } else {
        var i: nat :| ExcusedRow(w, b, c, later, i, id);
        CauseLonger(w, a, b, c, c, later[i].subtitle);
        assert ExcusedRow(w, a, c, later, i, id);
      }
    }
  }

  lemma ExcusedLonger(w: World, a: nat, b: nat, c: nat, rows: Rows, before: set<string>, after: set<string>)
    requires a <= b <= c && Excused(w, b, c, rows, before, after)
    ensures Excused(w, a, c, rows, before, after)
  {
    NothingNewExcused(w, a, b, rows, before);
    ExcusesAdd(w, a, b, c, rows, rows, before, before, after);
  }

  lemma ExcusedPrefix(w: World, a: nat, b: nat, c: nat, rows: Rows, more: Rows, before: set<string>, after: set<string>)
    requires a <= b <= c && rows <= more && Excused(w, a, b, rows, before, after)
    ensures Excused(w, a, c, more, before, after)
  {
    NothingNewExcused(w, b, c, more, after);
    ExcusesAdd(w, a, b, c, rows, more, before, after, after);
  }

  /** The host names every banner it lists, and does not follow a protocol error with a misshapen answer. */
  ghost predicate EvidentAt(w: World, t: nat) {
    (forall b: Banner :: w.naming(t, b).Named?) && !(w.dismissal(t).ProtocolError? && w.listing(t).Misshapen?)
  }

  ghost predicate Evident(w: World, from: nat, to: nat) {
    forall t: nat | from < t <= to :: EvidentAt(w, t)
  }

  lemma EvidentHasNoCause(w: World, from: nat, to: nat, row: Row, b: Banner, subtitle: string)
    requires Evident(w, from, to)
    ensures !Outlived(w, from, to, row, b, subtitle)
  {
    if from + 2 <= to {
      assert EvidentAt(w, from + 1) && EvidentAt(w, from + 2);
    }
  }

  lemma EvidentWithin(w: World, from: nat, f: nat, g: nat, to: nat)
    requires from <= f && g <= to && Evident(w, from, to)
    ensures Evident(w, f, g)
  {}

  /** Such a host leaves nothing to excuse. */
  lemma EvidentExcusesNothing(w: World, from: nat, to: nat, rows: Rows, before: set<string>, after: set<string>)
    requires Evident(w, from, to) && Excused(w, from, to, rows, before, after)
    ensures after == before
  {
    forall id | id in after ensures id in before {
      if id !in before {
        var i: nat :| ExcusedRow(w, from, to, rows, i, id);
        var f: nat, g: nat, row: Row, b: Banner :| from <= f && g <= to && Outlived(w, f, g, row, b, rows[i].subtitle);
        EvidentWithin(w, from, f, g, to);
        EvidentHasNoCause(w, f, g, row, b, rows[i].subtitle);
      }
    }
  }

  // ---------------------------------------------------------------- hindrances

  /** The process died, a listing was not readable, or a dismissal was not acknowledged. */
  predicate Hinders(w: World, t: nat) {
    w.dies(t) || !w.listing(t).Readable? || !w.dismissal(t).Done?
  }

  ghost predicate Hindered(w: World, from: nat, to: nat) {
    exists t: nat | from < t <= to :: Hinders(w, t)
  }

  lemma HinderedLonger(w: World, a: nat, b: nat, c: nat, d: nat)
    requires a <= b <= c <= d && Hindered(w, b, c)
    ensures Hindered(w, a, d)
  {
    var t: nat :| b < t <= c && Hinders(w, t);
  }

  /** The host answers as asked, and nobody else touches a banner. */
  ghost predicate Obliging(w: World, t: nat) {
    !Hinders(w, t) && w.creates(t) && !w.creationFails(t) && forall b: Banner :: w.keeps(t, b)
  }

  ghost predicate Obstructed(w: World, from: nat, to: nat) {
    exists t: nat | from < t <= to :: !Obliging(w, t)
  }

  lemma ObstructedLonger(w: World, a: nat, b: nat, c: nat, d: nat)
    requires a <= b <= c <= d && (Hindered(w, b, c) || Obstructed(w, b, c))
    ensures Obstructed(w, a, d)
  {
    if Hindered(w, b, c) {
      var t: nat :| b < t <= c && Hinders(w, t);
      assert !Obliging(w, t);
    } else {
      var t: nat :| b < t <= c && !Obliging(w, t);
      assert a < t <= d;
    }
  }

  /** Some banner was listed under its id. */
  ghost predicate NamedOnce(w: World, from: nat, to: nat) {
    exists t: nat, b: Banner | from < t <= to :: w.naming(t, b).Named?
  }

  lemma NotObliging(w: World, from: nat, t: nat, to: nat)
    requires from < t <= to && !Obliging(w, t)
    ensures Obstructed(w, from, to)
  {}

  /** A banner that is not there after its creation was asked for was not created or not kept. */
  lemma VanishedIsObstruction(w: World, from: nat, t: nat, b: Banner, made: set<Banner>)
    requires from < t && (w.creates(t) ==> b in made) && b !in Remaining(w, t + 1, made)
    ensures Obstructed(w, from, t + 1)
  {
    if Obliging(w, t) {
      assert !w.keeps(t + 1, b);
      NotObliging(w, from, t + 1, t + 1);
    } else {
      NotObliging(w, from, t, t + 1);
    }
  }

  lemma NamedThen(w: World, from: nat, t: nat, to: nat, b: Banner)
    requires from < t <= to && w.naming(t, b).Named?
    ensures NamedOnce(w, from, to)
  {}

  lemma NamedLonger(w: World, a: nat, b: nat, c: nat)
    requires a <= b <= c
    ensures NamedOnce(w, b, c) ==> NamedOnce(w, a, c)
  {
    if NamedOnce(w, b, c) {
      var t: nat, shown: Banner :| b < t <= c && w.naming(t, shown).Named?;
      NamedThen(w, a, t, c, shown);
    }
  }

  lemma LaterLonger(w: World, a: nat, b: nat, c: nat)
    requires a <= b <= c
    ensures Hindered(w, b, c) ==> Hindered(w, a, c)
    ensures Obstructed(w, b, c) ==> Obstructed(w, a, c)
  {
    if Hindered(w, b, c) {
      HinderedLonger(w, a, b, c, c);
    }
    if Obstructed(w, b, c) {
      ObstructedLonger(w, a, b, c, c);
    }
  }
}
