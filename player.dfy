/**
 * The normalised player profile and `normalize_player`, which turns the game
 * API's loosely typed player object into a `PlayerSnapshot`.
 */
module Player {
  import opened Wrappers

  /**
   * A hero, troop or spell as the game API hands it over. Depending on the
   * client library version it may carry an `is_home_base` flag, a `village`
   * string, both or neither (`hasattr` checks in the source).
   */
  datatype RawUnit = RawUnit(
    name: string,
    level: int,
    maxLevel: int,
    isHomeBase: Option<bool>,
    village: Option<string>)

  datatype RawClan = RawClan(name: string, tag: string)

  datatype RawLeague = RawLeague(name: string)

  /**
   * The game API's player object. `townHall` and `townHallLevel` are the two
   * attribute names the town-hall level may appear under; `clan` and `league`
   * are absent for players without them.
   */
  datatype RawPlayer = RawPlayer(
    tag: string,
    name: string,
    townHall: Option<int>,
    townHallLevel: Option<int>,
    expLevel: int,
    trophies: int,
    bestTrophies: int,
    warStars: int,
    attackWins: int,
    defenseWins: int,
    clan: Option<RawClan>,
    league: Option<RawLeague>,
    heroes: seq<RawUnit>,
    troops: seq<RawUnit>,
    spells: seq<RawUnit>)

  /** `HeroInfo`, `TroopInfo` and `SpellInfo`: three records with the same four fields. */
  datatype UnitInfo = UnitInfo(name: string, level: int, maxLevel: int, village: string)

  /** An upgrade still open to the player; `kind` is the source's `type` field. */
  datatype UpgradeState = UpgradeState(name: string, currentLevel: int, maxLevel: int, kind: string)

  datatype PlayerSnapshot = PlayerSnapshot(
    tag: string,
    name: string,
    townHallLevel: int,
    expLevel: int,
    trophies: int,
    bestTrophies: int,
    warStars: int,
    attackWins: int,
    defenseWins: int,
    clanName: Option<string>,
    clanTag: Option<string>,
    league: Option<string>,
    heroes: seq<UnitInfo>,
    troops: seq<UnitInfo>,
    spells: seq<UnitInfo>,
    availableUpgrades: seq<UpgradeState>)

  /**
   * The village of one unit: the `is_home_base` flag wins when present, then
   * the `village` attribute, then "home".
   */
  function ResolveVillage(u: RawUnit): string
  {
    match u.isHomeBase
    case Some(home) => if home then "home" else "builderBase"
    case None => u.village.GetOr("home")
  }

  /** One loop iteration of the hero, troop and spell extraction. */
  function ToUnitInfo(u: RawUnit): UnitInfo
  {
    UnitInfo(u.name, u.level, u.maxLevel, ResolveVillage(u))
  }

  /** The list each extraction loop builds. */
  function NormalizeUnits(us: seq<RawUnit>): (r: seq<UnitInfo>)
    ensures |r| == |us|
    ensures forall i :: 0 <= i < |us| ==>
              && r[i].name == us[i].name
              && r[i].level == us[i].level
              && r[i].maxLevel == us[i].maxLevel
              && r[i].village == (if us[i].isHomeBase.Some? then
                                    (if us[i].isHomeBase.value then "home" else "builderBase")
                                  else if us[i].village.Some? then us[i].village.value
                                  else "home")
  {
    seq(|us|, i requires 0 <= i < |us| => ToUnitInfo(us[i]))
  }

  /** The upgrade entry a unit contributes when it is below its maximum level. */
  function UpgradeOf(u: UnitInfo, kind: string): UpgradeState
  {
    UpgradeState(u.name, u.level, u.maxLevel, kind)
  }

  /** The under-levelled units of one list, in list order, tagged with `kind`. */
  function UnderLevelled(us: seq<UnitInfo>, kind: string): (r: seq<UpgradeState>)
    ensures |r| <= |us|
    ensures forall k :: 0 <= k < |r| ==> r[k].kind == kind && r[k].currentLevel < r[k].maxLevel
  {
    if us == [] then []
    else (if us[0].level < us[0].maxLevel then [UpgradeOf(us[0], kind)] else [])
         + UnderLevelled(us[1..], kind)
  }

  /** `available_upgrades` as a function of the three collections: troops, then heroes, then spells. */
  function DerivedUpgrades(heroes: seq<UnitInfo>, troops: seq<UnitInfo>, spells: seq<UnitInfo>): seq<UpgradeState>
  {
    UnderLevelled(troops, "troop") + UnderLevelled(heroes, "hero") + UnderLevelled(spells, "spell")
  }

  /** `getattr(player, "town_hall", getattr(player, "town_hall_level", 1))`. */
  function TownHallOf(p: RawPlayer): int
  {
    match p.townHall
    case Some(th) => th
    case None => p.townHallLevel.GetOr(1)
  }

  /** The snapshot `normalize_player` returns, as a value. */
  function Normalized(p: RawPlayer): (s: PlayerSnapshot)
    ensures s.tag == p.tag && s.name == p.name
    ensures s.townHallLevel == (if p.townHall.Some? then p.townHall.value
                                else if p.townHallLevel.Some? then p.townHallLevel.value
                                else 1)
    ensures && s.expLevel == p.expLevel && s.trophies == p.trophies
            && s.bestTrophies == p.bestTrophies && s.warStars == p.warStars
            && s.attackWins == p.attackWins && s.defenseWins == p.defenseWins
    ensures s.clanName.None? <==> p.clan.None?
    ensures s.clanTag.None? <==> p.clan.None?
    ensures p.clan.Some? ==> s.clanName == Some(p.clan.value.name) && s.clanTag == Some(p.clan.value.tag)
    ensures s.league.None? <==> p.league.None?
    ensures p.league.Some? ==> s.league == Some(p.league.value.name)
    ensures s.heroes == NormalizeUnits(p.heroes)
    ensures s.troops == NormalizeUnits(p.troops)
    ensures s.spells == NormalizeUnits(p.spells)
    ensures s.availableUpgrades == DerivedUpgrades(s.heroes, s.troops, s.spells)
  {
    var heroes, troops, spells := NormalizeUnits(p.heroes), NormalizeUnits(p.troops), NormalizeUnits(p.spells);
    PlayerSnapshot(
      p.tag, p.name, TownHallOf(p),
      p.expLevel, p.trophies, p.bestTrophies, p.warStars, p.attackWins, p.defenseWins,
      if p.clan.Some? then Some(p.clan.value.name) else None,
      if p.clan.Some? then Some(p.clan.value.tag) else None,
      if p.league.Some? then Some(p.league.value.name) else None,
      heroes, troops, spells,
      DerivedUpgrades(heroes, troops, spells))
  }

  /** One of the three extraction loops (heroes, troops or spells). */
  method ExtractUnits(us: seq<RawUnit>) returns (infos: seq<UnitInfo>)
    ensures infos == NormalizeUnits(us)
  {
    infos := [];
    for i := 0 to |us|
      invariant infos == NormalizeUnits(us[..i])
    {
      var village := "home";
      if us[i].isHomeBase.Some? {
        village := if us[i].isHomeBase.value then "home" else "builderBase";
      } else if us[i].village.Some? {
        village := us[i].village.value;
      }
      infos := infos + [UnitInfo(us[i].name, us[i].level, us[i].maxLevel, village)];
    }
    assert us[..|us|] == us;
  }

  /** `UnderLevelled` of a list extended by one unit. */
  lemma {:induction false} UnderLevelledSnoc(us: seq<UnitInfo>, u: UnitInfo, kind: string)
    ensures UnderLevelled(us + [u], kind)
         == UnderLevelled(us, kind) + (if u.level < u.maxLevel then [UpgradeOf(u, kind)] else [])
  {
    if us == [] {
      assert us + [u] == [u];
    } else {
      assert (us + [u])[1..] == us[1..] + [u];
      UnderLevelledSnoc(us[1..], u, kind);
    }
  }

  /**
   * One of the three upgrade loops: appends to `acc` the under-levelled units
   * of `us`, read off the game API's objects.
   */
  method AppendUpgrades(acc: seq<UpgradeState>, us: seq<RawUnit>, kind: string) returns (out: seq<UpgradeState>)
    ensures out == acc + UnderLevelled(NormalizeUnits(us), kind)
  {
    out := acc;
    for i := 0 to |us|
      invariant out == acc + UnderLevelled(NormalizeUnits(us[..i]), kind)
    {
      assert NormalizeUnits(us[..i + 1]) == NormalizeUnits(us[..i]) + [ToUnitInfo(us[i])];
      UnderLevelledSnoc(NormalizeUnits(us[..i]), ToUnitInfo(us[i]), kind);
      if us[i].level < us[i].maxLevel {
        out := out + [UpgradeState(us[i].name, us[i].level, us[i].maxLevel, kind)];
      }
    }
    assert us[..|us|] == us;
  }

  /** `normalize_player`: the six loops, then the snapshot record. */
  method NormalizePlayer(p: RawPlayer) returns (s: PlayerSnapshot)
    ensures s == Normalized(p)
  {
    var heroes := ExtractUnits(p.heroes);
    var troops := ExtractUnits(p.troops);
    var spells := ExtractUnits(p.spells);
    var upgrades := AppendUpgrades([], p.troops, "troop");
    assert upgrades == UnderLevelled(troops, "troop");
    upgrades := AppendUpgrades(upgrades, p.heroes, "hero");
    upgrades := AppendUpgrades(upgrades, p.spells, "spell");
    assert upgrades == DerivedUpgrades(heroes, troops, spells);
    var townHall := match p.townHall
      case Some(th) => th
      case None => (match p.townHallLevel case Some(th) => th case None => 1);
    assert townHall == TownHallOf(p);
    s := PlayerSnapshot(
      p.tag, p.name, townHall,
      p.expLevel, p.trophies, p.bestTrophies, p.warStars, p.attackWins, p.defenseWins,
      if p.clan.Some? then Some(p.clan.value.name) else None,
      if p.clan.Some? then Some(p.clan.value.tag) else None,
      if p.league.Some? then Some(p.league.value.name) else None,
      heroes, troops, spells, upgrades);
  }

  // ---------------------------------------------------------------------------
  // What `available_upgrades` contains.

  /** The upgrade list of a concatenation is the concatenation of the upgrade lists: source order is kept. */
  lemma {:induction false} UnderLevelledAppend(a: seq<UnitInfo>, b: seq<UnitInfo>, kind: string)
    ensures UnderLevelled(a + b, kind) == UnderLevelled(a, kind) + UnderLevelled(b, kind)
  {
    if a == [] {
      assert a + b == b;
    } else {
      assert (a + b)[1..] == a[1..] + b;
      UnderLevelledAppend(a[1..], b, kind);
    }
  }

  /** Every entry is an under-levelled unit of the list, carrying that unit's name and levels and the list's kind. */
  lemma {:induction false} UnderLevelledSound(us: seq<UnitInfo>, kind: string)
    ensures forall x :: x in UnderLevelled(us, kind) ==>
              x.currentLevel < x.maxLevel && x.kind == kind &&
              exists i :: 0 <= i < |us| && us[i].level < us[i].maxLevel && x == UpgradeOf(us[i], kind)
  {
    if us != [] {
      UnderLevelledSound(us[1..], kind);
      forall x | x in UnderLevelled(us, kind)
        ensures exists i :: 0 <= i < |us| && us[i].level < us[i].maxLevel && x == UpgradeOf(us[i], kind)
      {
        if x !in UnderLevelled(us[1..], kind) {
          assert us[0].level < us[0].maxLevel && x == UpgradeOf(us[0], kind);
        } else {
          var i :| 0 <= i < |us[1..]| && us[1..][i].level < us[1..][i].maxLevel && x == UpgradeOf(us[1..][i], kind);
          assert us[i + 1] == us[1..][i];
        }
      }
    }
  }

  /** Every under-levelled unit of the list has its entry. */
  lemma {:induction false} UnderLevelledComplete(us: seq<UnitInfo>, kind: string)
    ensures forall i :: 0 <= i < |us| && us[i].level < us[i].maxLevel ==> UpgradeOf(us[i], kind) in UnderLevelled(us, kind)
  {
    if us != [] {
      UnderLevelledComplete(us[1..], kind);
      forall i | 0 <= i < |us| && us[i].level < us[i].maxLevel
        ensures UpgradeOf(us[i], kind) in UnderLevelled(us, kind)
      {
        if i > 0 {
          assert us[i] == us[1..][i - 1];
        }
      }
    }
  }

  /**
   * A unit at or above its maximum level contributes nothing: the upgrade list
   * is the same as if that unit were not in the list at all.
   */
  lemma MaxedUnitNotListed(us: seq<UnitInfo>, kind: string, j: int)
    requires 0 <= j < |us| && us[j].level >= us[j].maxLevel
    ensures UnderLevelled(us, kind) == UnderLevelled(us[..j] + us[j + 1..], kind)
  {
    assert us == us[..j] + [us[j]] + us[j + 1..];
    UnderLevelledAppend(us[..j] + [us[j]], us[j + 1..], kind);
    UnderLevelledAppend(us[..j], [us[j]], kind);
    UnderLevelledAppend(us[..j], us[j + 1..], kind);
  }

  /**
   * The shape of `available_upgrades`: first the under-levelled troops, then
   * heroes, then spells, each block tagged with its kind and every entry below
   * its maximum level.
   */
  lemma AvailableUpgradesShape(s: PlayerSnapshot)
    requires s.availableUpgrades == DerivedUpgrades(s.heroes, s.troops, s.spells)
    ensures var nt, nh := |UnderLevelled(s.troops, "troop")|, |UnderLevelled(s.heroes, "hero")|;
            && nt + nh <= |s.availableUpgrades|
            && (forall k :: 0 <= k < nt ==> s.availableUpgrades[k].kind == "troop")
            && (forall k :: nt <= k < nt + nh ==> s.availableUpgrades[k].kind == "hero")
            && (forall k :: nt + nh <= k < |s.availableUpgrades| ==> s.availableUpgrades[k].kind == "spell")
            && (forall k :: 0 <= k < |s.availableUpgrades| ==>
                  s.availableUpgrades[k].currentLevel < s.availableUpgrades[k].maxLevel)
  {
    var t, h, sp := UnderLevelled(s.troops, "troop"), UnderLevelled(s.heroes, "hero"), UnderLevelled(s.spells, "spell");
    UnderLevelledSound(s.troops, "troop");
    UnderLevelledSound(s.heroes, "hero");
    UnderLevelledSound(s.spells, "spell");
    var all := s.availableUpgrades;
    assert all == t + h + sp;
    forall k | 0 <= k < |all|
      ensures all[k].currentLevel < all[k].maxLevel
      ensures k < |t| ==> all[k].kind == "troop"
      ensures |t| <= k < |t| + |h| ==> all[k].kind == "hero"
      ensures |t| + |h| <= k ==> all[k].kind == "spell"
    {
      if k < |t| {
        assert all[k] == t[k] && t[k] in t;
      } else if k < |t| + |h| {
        assert all[k] == h[k - |t|] && h[k - |t|] in h;
      } else {
        assert all[k] == sp[k - |t| - |h|] && sp[k - |t| - |h|] in sp;
      }
    }
  }
}
