/**
 * The player routes: `GET /player/{tag}` fetches, normalises and stores a
 * snapshot; `GET /player/{tag}/history` lists the stored snapshots of a tag.
 * The JSON encoder of the stored raw player is a parameter.
 */
module PlayerApi {
  import opened Wrappers
  import opened Text
  import opened Failures
  import opened Player
  import opened CocClient
  import opened Repository

  /** The clan entry of the stored raw player. */
  datatype ClanDump = ClanDump(name: string, tag: string)

  /** The dict the routes pass to `json.dumps` as a snapshot's raw JSON. */
  datatype PlayerDump = PlayerDump(
    tag: string,
    name: string,
    townHallLevel: int,
    expLevel: int,
    trophies: int,
    bestTrophies: int,
    warStars: int,
    attackWins: int,
    defenseWins: int,
    clan: Option<ClanDump>,
    league: Option<string>)

  /** `json.dumps` on the dict above. */
  type Encoder = PlayerDump -> string

  /**
   * The dict built from the game API's player: the town hall goes through the
   * same `town_hall`, then `town_hall_level`, then 1 fallback as the snapshot.
   */
  function DumpOf(p: RawPlayer): (d: PlayerDump)
    ensures d.townHallLevel == Normalized(p).townHallLevel
    ensures d.tag == p.tag && d.name == p.name && d.trophies == p.trophies
    ensures && d.expLevel == p.expLevel && d.bestTrophies == p.bestTrophies
            && d.warStars == p.warStars && d.attackWins == p.attackWins && d.defenseWins == p.defenseWins
    ensures d.clan.Some? <==> p.clan.Some?
    ensures p.clan.Some? ==> d.clan.value.name == p.clan.value.name && d.clan.value.tag == p.clan.value.tag
    ensures d.league == Normalized(p).league
  {
    PlayerDump(
      p.tag, p.name, TownHallOf(p),
      p.expLevel, p.trophies, p.bestTrophies, p.warStars, p.attackWins, p.defenseWins,
      if p.clan.Some? then Some(ClanDump(p.clan.value.name, p.clan.value.tag)) else None,
      if p.league.Some? then Some(p.league.value.name) else None)
  }

  /**
   * The stored raw player and the returned snapshot describe the same player:
   * every field the dict holds has the snapshot's value.
   */
  lemma DumpMatchesSnapshot(p: RawPlayer)
    ensures var d, s := DumpOf(p), Normalized(p);
            && d.tag == s.tag && d.name == s.name && d.townHallLevel == s.townHallLevel
            && d.expLevel == s.expLevel && d.trophies == s.trophies && d.bestTrophies == s.bestTrophies
            && d.warStars == s.warStars && d.attackWins == s.attackWins && d.defenseWins == s.defenseWins
            && (d.clan.None? <==> s.clanName.None?)
            && (d.clan.Some? ==> Some(d.clan.value.name) == s.clanName && Some(d.clan.value.tag) == s.clanTag)
            && d.league == s.league
  {
  }

  /** An `HTTPException`: the status code and the detail text. */
  datatype HttpError = HttpError(status: int, detail: string)

  const MaintenanceDetail := "Clash of Clans API is in maintenance"
  const ForbiddenDetail := "Invalid API key or access denied"

  /** The 404 detail, quoting the tag as the request gave it. */
  function NotFoundDetail(tag: string): string
  {
    "Player with tag " + tag + " not found"
  }

  /**
   * The `except Exception` handler of `get_player`: only the name chain, so a
   * `ValueError` is a 500 here.
   */
  function PlayerErrorResponse(tag: string, e: Exception): (h: HttpError)
    ensures h.status == StatusByName(e.typeName)
    ensures h.status == 404 ==> h.detail == NotFoundDetail(tag)
    ensures h.status == 503 ==> h.detail == MaintenanceDetail
    ensures h.status == 403 ==> h.detail == ForbiddenDetail
    ensures h.status == 500 ==> h.detail == "Error fetching player: " + e.message
  {
    var status := StatusByName(e.typeName);
    HttpError(status,
      if status == 404 then NotFoundDetail(tag)
      else if status == 503 then MaintenanceDetail
      else if status == 403 then ForbiddenDetail
      else "Error fetching player: " + e.message)
  }

  /** The game API's not-found signal maps to 404. */
  lemma NotFoundStatus(m: string)
    ensures StatusByName(Raised(FetchOutcome.NotFound(m)).typeName) == 404
  {
    assert OccursAt("NotFound", "NotFound", 0);
  }

  /** The maintenance signal maps to 503. */
  lemma MaintenanceStatus(m: string)
    ensures StatusByName(Raised(FetchOutcome.Maintenance(m)).typeName) == 503
  {
    assert OccursAt("Maintenance", "Maintenance", 0);
    ContainsInitial("Maintenance", "NotFound");
  }

  /** The access-denied signal maps to 403. */
  lemma ForbiddenStatus(m: string)
    ensures StatusByName(Raised(FetchOutcome.Forbidden(m)).typeName) == 403
  {
    assert OccursAt("Forbidden", "Forbidden", 0);
    ContainsInitial("Forbidden", "NotFound");
    ContainsInitial("Forbidden", "Maintenance");
  }

  /** A `ValueError`, such as a failed validation, is a 500 on the player route. */
  lemma PlayerRouteValueErrorIs500(tag: string, m: string)
    ensures PlayerErrorResponse(tag, ValueError(m)) == HttpError(500, "Error fetching player: " + m)
  {
    ValueErrorStatus();
  }

  /** The history limit the route asks for. */
  const HistoryRouteLimit := 20

  /** A `PlayerHistoryItem`; the timestamp's ISO formatting is not modelled. */
  datatype HistoryItem = HistoryItem(id: int, timestamp: int, townHallLevel: int)

  /** The projection of the stored rows: same order and count, a missing town hall shown as 0. */
  function HistoryItems(rows: seq<SnapshotRow>): (items: seq<HistoryItem>)
    ensures |items| == |rows|
    ensures forall k :: 0 <= k < |rows| ==>
              items[k].id == rows[k].id && items[k].timestamp == rows[k].timestamp
              && items[k].townHallLevel == rows[k].townHallLevel.GetOr(0)
  {
    seq(|rows|, k requires 0 <= k < |rows| => HistoryItem(rows[k].id, rows[k].timestamp, rows[k].townHallLevel.GetOr(0)))
  }

  /** `get_player_history`: the normalised tag's newest 20 snapshots, projected. */
  method GetPlayerHistory(tag: string, repo: PlayerRepository) returns (items: seq<HistoryItem>)
    ensures items == HistoryItems(History(repo.rows, NormalizeTag(tag), HistoryRouteLimit))
  {
    var t := tag;
    if !StartsWith(t, "#") {
      t := "#" + t;
    }
    var snapshots := repo.GetSnapshotHistory(t, HistoryRouteLimit);
    items := HistoryItems(snapshots);
  }

  /**
   * What the history route lists: at most 20 items, every one from a stored
   * snapshot of the normalised tag, newest first.
   */
  lemma HistoryRouteShape(rows: seq<SnapshotRow>, tag: string)
    ensures var h := History(rows, NormalizeTag(tag), HistoryRouteLimit);
            var items := HistoryItems(h);
            && |items| <= HistoryRouteLimit
            && (forall k :: 0 <= k < |items| ==> h[k] in rows && h[k].playerTag == NormalizeTag(tag))
            && (forall i, j :: 0 <= i < j < |items| ==> items[i].timestamp >= items[j].timestamp)
  {
  }

  /** The row `get_player` stores for a fetched player. */
  function StoredSnapshot(p: RawPlayer, dumps: Encoder, id: nat, now: int): (row: SnapshotRow)
    ensures row.playerTag == Normalized(p).tag && row.townHallLevel == Some(Normalized(p).townHallLevel)
    ensures row.rawJson == dumps(DumpOf(p)) && row.id == id && row.timestamp == now
  {
    SnapshotRow(id, Normalized(p).tag, now, dumps(DumpOf(p)), Some(Normalized(p).townHallLevel))
  }

  /** What the session block hands on: the normalised snapshot and its row's id. */
  datatype Stored = Stored(snapshot: PlayerSnapshot, snapshotId: nat)

  /**
   * The `async with CocClient()` block both routes open with: logs in, fetches
   * with retries, normalises, stores one snapshot, and closes the client, on
   * failure too. `events` is what the client did.
   */
  method FetchAndStore(tag: string, outcomes: seq<FetchOutcome>, repo: PlayerRepository, dumps: Encoder, now: int)
    returns (r: Result<Stored, Exception>, ghost events: seq<ClientEvent>)
    requires MaxRetries <= |outcomes| && repo.Valid()
    modifies repo
    ensures repo.Valid()
    ensures var fetched := Retry(NormalizeTag(tag), outcomes, 0);
            && events == [Login] + fetched.events + [Disconnect]
            && (fetched.result.Err? ==> r == Err(fetched.result.error) && repo.rows == old(repo.rows))
            && (fetched.result.Ok? ==>
                  && r == Ok(Stored(Normalized(fetched.result.value), |old(repo.rows)| + 1))
                  && repo.rows == old(repo.rows) + [StoredSnapshot(fetched.result.value, dumps, |old(repo.rows)| + 1, now)])
  {
    var client := new Client();
    client.Initialize();
    var fetched := client.GetPlayer(tag, outcomes);
    ghost var attempts := Retry(NormalizeTag(tag), outcomes, 0);
    assert fetched == attempts.result && client.log == [Login] + attempts.events;
    if fetched.Err? {
      client.Close();
      return Err(fetched.error), client.log;
    }
    var player := fetched.value;
    var snapshot := NormalizePlayer(player);
    var rawJson := dumps(DumpOf(player));
    var row := repo.SaveSnapshot(snapshot.tag, rawJson, Some(snapshot.townHallLevel), now);
    assert row == StoredSnapshot(player, dumps, |old(repo.rows)| + 1, now);
    client.Close();
    events := client.log;
    r := Ok(Stored(snapshot, row.id));
  }

  /** `get_player`: the session block, then the snapshot or the error response. */
  method GetPlayer(tag: string, outcomes: seq<FetchOutcome>, repo: PlayerRepository, dumps: Encoder, now: int)
    returns (r: Result<PlayerSnapshot, HttpError>, ghost events: seq<ClientEvent>)
    requires MaxRetries <= |outcomes| && repo.Valid()
    modifies repo
    ensures repo.Valid()
    ensures var fetched := Retry(NormalizeTag(tag), outcomes, 0);
            && events == [Login] + fetched.events + [Disconnect]
            && (fetched.result.Ok? ==>
                  && r == Ok(Normalized(fetched.result.value))
                  && repo.rows == old(repo.rows) + [StoredSnapshot(fetched.result.value, dumps, |old(repo.rows)| + 1, now)])
            && (fetched.result.Err? ==>
                  && r == Err(PlayerErrorResponse(tag, fetched.result.error))
                  && repo.rows == old(repo.rows))
  {
    var stored, ev := FetchAndStore(tag, outcomes, repo, dumps, now);
    events := ev;
    if stored.Err? {
      return Err(PlayerErrorResponse(tag, stored.error)), events;
    }
    r := Ok(stored.value.snapshot);
  }
}
