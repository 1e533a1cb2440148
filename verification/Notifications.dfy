/** The crash-safe banner lifecycle: a prepared row before any banner, reconciliation by a unique token,
    exact retirement, and a cap per seat. */
module Notifications {
  import opened CoreTypes

  datatype RowState = Prepared | Active | Dismissed | Expired | Evicted

  datatype Row = Row(
    eventId: string, deliveryId: string, seatId: string, notificationId: Option<nat>, workspaceId: string, surfaceId: string,
    token: string, title: string, subtitle: string, body: string, state: RowState, createdAt: int, expiresAt: int, reason: Option<string>)

  datatype Banner = Banner(id: nat, workspaceId: string, surfaceId: string, title: string, subtitle: string, body: string)

  /** Rows in insertion order; the delivery id is the key. */
  type Rows = seq<Row>

  const TOKEN_CHARS := 20

  predicate Live(r: Row) {
    r.state.Prepared? || r.state.Active?
  }

  /** A subtitle that ends like a correlation token; nobody else's does. */
  predicate Ours(subtitle: string) {
    |subtitle| >= TOKEN_CHARS && subtitle[|subtitle| - TOKEN_CHARS..|subtitle| - 16] == "YGR-"
  }

  function Token(digest: (string, string) -> string, eventId: string, deliveryId: string): (token: string)
    requires |digest(eventId, deliveryId)| == 64
    ensures |token| == TOKEN_CHARS && Ours(token)
  {
    "YGR-" + digest(eventId, deliveryId)[..16]
  }

  function DisplaySubtitle(subtitle: string, token: string): string {
    if subtitle != "" then subtitle + " · " + token else token
  }

  /** The token is the last twenty characters of what is displayed. */
  predicate TokenEnds(subtitle: string, token: string) {
    |token| == TOKEN_CHARS && |subtitle| >= TOKEN_CHARS && subtitle[|subtitle| - TOKEN_CHARS..] == token
  }

  lemma DisplayedTokenEnds(subtitle: string, token: string)
    requires |token| == TOKEN_CHARS && Ours(token)
    ensures TokenEnds(DisplaySubtitle(subtitle, token), token) && Ours(DisplaySubtitle(subtitle, token))
  {
    var shown := DisplaySubtitle(subtitle, token);
    assert shown[|shown| - TOKEN_CHARS..] == token;
    assert shown[|shown| - TOKEN_CHARS..|shown| - 16] == shown[|shown| - TOKEN_CHARS..][..4] == token[..4];
  }

  function Find(rows: Rows, deliveryId: string): (i: Option<nat>)
    ensures i.Some? ==> i.value < |rows| && rows[i.value].deliveryId == deliveryId
    ensures i.None? ==> forall r | r in rows :: r.deliveryId != deliveryId
  {
    if rows == [] then None
    else if rows[|rows| - 1].deliveryId == deliveryId then Some(|rows| - 1)
    else Find(rows[..|rows| - 1], deliveryId)
  }

  // ---------------------------------------------------------------- safety

  /** Keys, tokens and states of the table. */
  ghost predicate RowsOk(rows: Rows) {
    && (forall i, j | 0 <= i < j < |rows| :: rows[i].deliveryId != rows[j].deliveryId && rows[i].token != rows[j].token)
    && (forall i | 0 <= i < |rows| :: TokenEnds(rows[i].subtitle, rows[i].token) && Ours(rows[i].subtitle))
    && (forall i | 0 <= i < |rows| :: (rows[i].state.Prepared? ==> rows[i].notificationId.None?)
                                      && (rows[i].state.Active? ==> rows[i].notificationId.Some?))
  }

  predicate Shows(b: Banner, r: Row) {
    b.workspaceId == r.workspaceId && b.surfaceId == r.surfaceId && b.subtitle == r.subtitle
  }

  ghost predicate HasRow(rows: Rows, b: Banner, blind: set<string>) {
    exists i | 0 <= i < |rows| :: Shows(b, rows[i]) && (Live(rows[i]) || rows[i].deliveryId in blind)
  }

  /** Banners on screen against rows. `blind` are the deliveries retired without evidence that their
      banner is gone. */
  ghost predicate BannersOk(rows: Rows, banners: set<Banner>, issued: nat, blind: set<string>) {
    && (forall b | b in banners :: b.id < issued && (Ours(b.subtitle) ==> HasRow(rows, b, blind)))
    && (forall b, c | b in banners && c in banners :: b.id == c.id || (Ours(b.subtitle) && b.subtitle == c.subtitle) ==> b == c)
    && (forall i | 0 <= i < |rows| && rows[i].notificationId.Some? :: rows[i].notificationId.value < issued)
    && (forall i, b | 0 <= i < |rows| && rows[i].notificationId.Some? && b in banners ::
          b.subtitle == rows[i].subtitle <==> b.id == rows[i].notificationId.value)
  }

  ghost predicate Safe(rows: Rows, banners: set<Banner>, issued: nat, blind: set<string>) {
    RowsOk(rows) && BannersOk(rows, banners, issued, blind)
  }

  /** Tokens are fixed-length suffixes, so no two deliveries ever show the same subtitle. */
  lemma SubtitlesDiffer(rows: Rows, i: nat, j: nat)
    requires RowsOk(rows) && i < |rows| && j < |rows| && rows[i].subtitle == rows[j].subtitle
    ensures i == j
  {
    assert TokenEnds(rows[i].subtitle, rows[i].token) && TokenEnds(rows[j].subtitle, rows[j].token);
  }

  /** The promise: at most one live banner carries a delivery's subtitle, and none carries a retired
      delivery's, unless it was retired without evidence. */
  lemma OneBannerPerDelivery(rows: Rows, banners: set<Banner>, issued: nat, blind: set<string>, i: nat)
    requires Safe(rows, banners, issued, blind) && i < |rows|
    ensures forall b, c | b in banners && c in banners && b.subtitle == rows[i].subtitle && c.subtitle == rows[i].subtitle :: b == c
    ensures !Live(rows[i]) && rows[i].deliveryId !in blind ==> forall b | b in banners :: b.subtitle != rows[i].subtitle
  {
    assert Ours(rows[i].subtitle);
    if !Live(rows[i]) && rows[i].deliveryId !in blind {
      forall b | b in banners ensures b.subtitle != rows[i].subtitle {
        if b.subtitle == rows[i].subtitle {
          assert HasRow(rows, b, blind);
          var j :| 0 <= j < |rows| && Shows(b, rows[j]) && (Live(rows[j]) || rows[j].deliveryId in blind);
          SubtitlesDiffer(rows, i, j);
        }
      }
    }
  }

  /** Banners disappearing, by anyone's hand, endanger nothing. */
  lemma FewerBannersSafe(rows: Rows, banners: set<Banner>, fewer: set<Banner>, issued: nat, blind: set<string>)
    requires Safe(rows, banners, issued, blind) && fewer <= banners
    ensures Safe(rows, fewer, issued, blind)
  {}

  /** Nor does a banner that is not ours. */
  lemma ForeignBannerSafe(rows: Rows, banners: set<Banner>, issued: nat, blind: set<string>, b: Banner)
    requires Safe(rows, banners, issued, blind) && !Ours(b.subtitle) && b.id == issued
    ensures Safe(rows, banners + {b}, issued + 1, blind)
  {
    forall i | 0 <= i < |rows| ensures rows[i].subtitle != b.subtitle {
      assert Ours(rows[i].subtitle);
    }
  }

  /** A banner created for a prepared row whose subtitle nobody shows. */
  lemma CreatedBannerSafe(rows: Rows, banners: set<Banner>, issued: nat, blind: set<string>, i: nat, b: Banner)
    requires Safe(rows, banners, issued, blind) && i < |rows| && rows[i].state.Prepared?
    requires b.id == issued && Shows(b, rows[i]) && forall c | c in banners :: c.subtitle != b.subtitle
    ensures Safe(rows, banners + {b}, issued + 1, blind)
  {
    assert HasRow(rows, b, blind);
    forall j | 0 <= j < |rows| && rows[j].notificationId.Some? ensures rows[j].subtitle != b.subtitle {
      if rows[j].subtitle == b.subtitle {
        SubtitlesDiffer(rows, i, j);
      }
    }
  }

  lemma InsertedRowOk(rows: Rows, row: Row)
    requires RowsOk(rows)
    requires row.state.Prepared? && row.notificationId.None? && TokenEnds(row.subtitle, row.token) && Ours(row.subtitle)
    requires forall r | r in rows :: r.deliveryId != row.deliveryId && r.token != row.token
    ensures RowsOk(rows + [row])
  {}

  lemma InsertedRowSafe(rows: Rows, banners: set<Banner>, issued: nat, blind: set<string>, row: Row)
    requires Safe(rows, banners, issued, blind)
    requires row.state.Prepared? && row.notificationId.None? && TokenEnds(row.subtitle, row.token) && Ours(row.subtitle)
    requires forall r | r in rows :: r.deliveryId != row.deliveryId && r.token != row.token
    ensures Safe(rows + [row], banners, issued, blind)
  {
    InsertedRowOk(rows, row);
    var more := rows + [row];
    forall b | b in banners && Ours(b.subtitle) ensures HasRow(more, b, blind) {
      assert HasRow(rows, b, blind);
      var j :| 0 <= j < |rows| && Shows(b, rows[j]) && (Live(rows[j]) || rows[j].deliveryId in blind);
      assert more[j] == rows[j];
    }
  }

  function Activated(rows: Rows, i: nat, id: nat): Rows
    requires i < |rows|
  {
    rows[i := rows[i].(state := RowState.Active, notificationId := Some(id))]
  }

  /** The row takes the id of the only banner showing it. */
  lemma ActivatedRowSafe(rows: Rows, banners: set<Banner>, issued: nat, blind: set<string>, i: nat, b: Banner)
    requires Safe(rows, banners, issued, blind) && i < |rows| && rows[i].state.Prepared? && b in banners && Shows(b, rows[i])
    ensures Safe(Activated(rows, i, b.id), banners, issued, blind)
    ensures forall j | 0 <= j < |rows| :: j != i ==> rows[j].notificationId != Some(b.id)
  {
    var after := Activated(rows, i, b.id);
    assert Ours(rows[i].subtitle);
    forall j | 0 <= j < |rows| && j != i ensures rows[j].notificationId != Some(b.id) {
      if rows[j].notificationId == Some(b.id) {
        SubtitlesDiffer(rows, i, j);
      }
    }
    forall c | c in banners && Ours(c.subtitle) ensures HasRow(after, c, blind) {
      assert HasRow(rows, c, blind);
      var j :| 0 <= j < |rows| && Shows(c, rows[j]) && (Live(rows[j]) || rows[j].deliveryId in blind);
      assert Shows(c, after[j]) && (Live(after[j]) || after[j].deliveryId in blind);
    }
  }

  function Retired(rows: Rows, i: nat, state: RowState, reason: string): Rows
    requires i < |rows|
  {
    rows[i := rows[i].(state := state, reason := Some(reason))]
  }

  lemma RetiredRowSafe(rows: Rows, banners: set<Banner>, issued: nat, blind: set<string>, i: nat, state: RowState, reason: string)
    requires Safe(rows, banners, issued, blind) && i < |rows| && !state.Prepared? && !state.Active?
    requires rows[i].deliveryId in blind || forall b | b in banners :: b.subtitle != rows[i].subtitle
    ensures Safe(Retired(rows, i, state, reason), banners, issued, blind)
  {
    var after := Retired(rows, i, state, reason);
    forall b | b in banners && Ours(b.subtitle) ensures HasRow(after, b, blind) {
      assert HasRow(rows, b, blind);
      var j :| 0 <= j < |rows| && Shows(b, rows[j]) && (Live(rows[j]) || rows[j].deliveryId in blind);
      assert Shows(b, after[j]) && (Live(after[j]) || after[j].deliveryId in blind);
    }
  }

  // ---------------------------------------------------------------- evolution

  /** A row keeps its claim and its place in time; a retired one keeps everything. */
  ghost predicate RowEvolves(before: Row, after: Row) {
    && after.(notificationId := before.notificationId, state := before.state, reason := before.reason) == before
    && (!Live(before) ==> after == before)
    && (before.state.Active? ==> after.notificationId == before.notificationId && !after.state.Prepared?)
  }

  ghost predicate Evolves(before: Rows, after: Rows) {
    |before| <= |after| && forall i | 0 <= i < |before| :: RowEvolves(before[i], after[i])
  }

  lemma EvolvesOn(a: Rows, b: Rows, c: Rows)
    requires Evolves(a, b) && Evolves(b, c)
    ensures Evolves(a, c)
  {
    forall i | 0 <= i < |a| ensures RowEvolves(a[i], c[i]) {
      assert RowEvolves(a[i], b[i]) && RowEvolves(b[i], c[i]);
    }
  }

  // ---------------------------------------------------------------- retiring several

  ghost predicate DistinctDeliveries(rows: Rows) {
    forall i, j | 0 <= i < j < |rows| :: rows[i].deliveryId != rows[j].deliveryId
  }

  /** The delivery's row, if it is still live, moves to the state. */
  function RetireOne(rows: Rows, deliveryId: string, state: RowState, reason: string): (after: Rows)
    ensures |after| == |rows| && forall i | 0 <= i < |rows| :: after[i].deliveryId == rows[i].deliveryId
  {
    var at := Find(rows, deliveryId);
    if at.Some? && Live(rows[at.value]) then Retired(rows, at.value, state, reason) else rows
  }

  function RetireAll(rows: Rows, ids: seq<string>, state: RowState, reason: string): (after: Rows)
    ensures |after| == |rows| && forall i | 0 <= i < |rows| :: after[i].deliveryId == rows[i].deliveryId
  {
    if ids == [] then rows else RetireOne(RetireAll(rows, ids[..|ids| - 1], state, reason), ids[|ids| - 1], state, reason)
  }

  lemma RetireOneRow(rows: Rows, deliveryId: string, state: RowState, reason: string, i: nat)
    requires DistinctDeliveries(rows) && i < |rows|
    ensures RetireOne(rows, deliveryId, state, reason)[i]
         == if Live(rows[i]) && rows[i].deliveryId == deliveryId then rows[i].(state := state, reason := Some(reason)) else rows[i]
  {
    assert rows[i] in rows;
  }

  /** Retiring a list touches exactly the listed live rows. */
  lemma {:induction false} RetireAllRow(rows: Rows, ids: seq<string>, state: RowState, reason: string, i: nat)
    requires DistinctDeliveries(rows) && i < |rows| && !state.Prepared? && !state.Active?
    ensures RetireAll(rows, ids, state, reason)[i]
         == if Live(rows[i]) && rows[i].deliveryId in ids then rows[i].(state := state, reason := Some(reason)) else rows[i]
  {
    if ids != [] {
      var front, last := ids[..|ids| - 1], ids[|ids| - 1];
      assert ids == front + [last];
      RetireAllRow(rows, front, state, reason, i);
      RetireOneRow(RetireAll(rows, front, state, reason), last, state, reason, i);
    }
  }
}
