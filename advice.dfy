/**
 * The advice records and the field checks pydantic performs when one of them
 * is built from a decoded JSON object (`UpgradeAdvice(**item)`, ...). A field
 * without a default must be present and of the declared type; keys the record
 * does not declare are ignored.
 */
module Advice {
  import opened Wrappers
  import opened Failures
  import opened Json

  datatype UpgradeAdvice = UpgradeAdvice(itemName: string, priority: int, reason: string)

  datatype AttackStrategyAdvice = AttackStrategyAdvice(
    strategyName: string,
    description: string,
    recommendedTroops: seq<string>,
    recommendedSpells: seq<string>,
    difficulty: string)

  /** `war_tips` is `None` unless set: absence is distinct from an empty list. */
  datatype PlayerAdvice = PlayerAdvice(
    upgradePriorities: seq<UpgradeAdvice>,
    attackStrategies: seq<AttackStrategyAdvice>,
    generalTips: seq<string>,
    warTips: Option<seq<string>>)

  /** `PlayerAdvice()` with every field left at its default. */
  function DefaultAdvice(): (a: PlayerAdvice)
    ensures a.upgradePriorities == [] && a.attackStrategies == [] && a.generalTips == []
    ensures a.warTips == None && a.warTips != Some([])
  {
    PlayerAdvice([], [], [], None)
  }

  // ---------------------------------------------------------------------------
  // pydantic's (lax mode) conversion of one JSON value to a field type.

  /** A `str` field accepts only a JSON string. */
  function AsStr(j: Json): Option<string>
  {
    if j.JString? then Some(j.s) else None
  }

  /** An `int` field accepts an integer, a float with no fractional part, or a boolean. */
  function AsInt(j: Json): Option<int>
  {
    match j
    case JInt(i) => Some(i)
    case JFloat(f) => if f.Floor as real == f then Some(f.Floor) else None
    case JBool(b) => Some(if b then 1 else 0)
    case _ => None
  }

  /** A `List[str]` field accepts a JSON array of strings. */
  function AsStrList(j: Json): (r: Option<seq<string>>)
    ensures r.Some? <==> j.JArray? && forall k :: 0 <= k < |j.items| ==> j.items[k].JString?
    ensures r.Some? ==> |r.value| == |j.items| && forall k :: 0 <= k < |j.items| ==> r.value[k] == j.items[k].s
  {
    if j.JArray? && forall k :: 0 <= k < |j.items| ==> j.items[k].JString? then
      Some(seq(|j.items|, k requires 0 <= k < |j.items| && j.items[k].JString? => j.items[k].s))
    else
      None
  }

  /** The JSON array of strings a `List[str]` field is written as. */
  function StrListJson(xs: seq<string>): (j: Json)
    ensures AsStrList(j) == Some(xs)
  {
    var j := JArray(seq(|xs|, k requires 0 <= k < |xs| => JString(xs[k])));
    assert AsStrList(j).value == xs;
    j
  }

  // ---------------------------------------------------------------------------
  // Building the records from decoded objects.

  /** `UpgradeAdvice(**fields)`: all three fields are required and have no default. */
  function UpgradeAdviceFrom(fields: map<string, Json>): (r: Result<UpgradeAdvice, Exception>)
    ensures r.Ok? <==> && "item_name" in fields && AsStr(fields["item_name"]).Some?
                       && "priority" in fields && AsInt(fields["priority"]).Some?
                       && "reason" in fields && AsStr(fields["reason"]).Some?
    ensures r.Ok? ==> && r.value.itemName == fields["item_name"].s
                      && Some(r.value.priority) == AsInt(fields["priority"])
                      && r.value.reason == fields["reason"].s
    ensures r.Err? ==> r.error == ValidationError("UpgradeAdvice")
  {
    if && "item_name" in fields && AsStr(fields["item_name"]).Some?
       && "priority" in fields && AsInt(fields["priority"]).Some?
       && "reason" in fields && AsStr(fields["reason"]).Some?
    then
      Ok(UpgradeAdvice(fields["item_name"].s, AsInt(fields["priority"]).value, fields["reason"].s))
    else
      Err(ValidationError("UpgradeAdvice"))
  }

  /** `AttackStrategyAdvice(**fields)`: all five fields are required; the two lists hold strings. */
  function AttackStrategyAdviceFrom(fields: map<string, Json>): (r: Result<AttackStrategyAdvice, Exception>)
    ensures r.Ok? <==> && "strategy_name" in fields && fields["strategy_name"].JString?
                       && "description" in fields && fields["description"].JString?
                       && "recommended_troops" in fields && AsStrList(fields["recommended_troops"]).Some?
                       && "recommended_spells" in fields && AsStrList(fields["recommended_spells"]).Some?
                       && "difficulty" in fields && fields["difficulty"].JString?
    ensures r.Ok? ==> && r.value.strategyName == fields["strategy_name"].s
                      && r.value.description == fields["description"].s
                      && Some(r.value.recommendedTroops) == AsStrList(fields["recommended_troops"])
                      && Some(r.value.recommendedSpells) == AsStrList(fields["recommended_spells"])
                      && r.value.difficulty == fields["difficulty"].s
    ensures r.Err? ==> r.error == ValidationError("AttackStrategyAdvice")
  {
    if && "strategy_name" in fields && AsStr(fields["strategy_name"]).Some?
       && "description" in fields && AsStr(fields["description"]).Some?
       && "recommended_troops" in fields && AsStrList(fields["recommended_troops"]).Some?
       && "recommended_spells" in fields && AsStrList(fields["recommended_spells"]).Some?
       && "difficulty" in fields && AsStr(fields["difficulty"]).Some?
    then
      Ok(AttackStrategyAdvice(
        fields["strategy_name"].s, fields["description"].s,
        AsStrList(fields["recommended_troops"]).value, AsStrList(fields["recommended_spells"]).value,
        fields["difficulty"].s))
    else
      Err(ValidationError("AttackStrategyAdvice"))
  }

  /**
   * `PlayerAdvice(upgrade_priorities=..., attack_strategies=..., general_tips=tips, war_tips=war)`
   * where `tips` and `war` are still raw JSON values: `general_tips` must be a
   * list of strings, `war_tips` a list of strings or `None`.
   */
  function PlayerAdviceFrom(ups: seq<UpgradeAdvice>, strategies: seq<AttackStrategyAdvice>, tips: Json, war: Json)
    : (r: Result<PlayerAdvice, Exception>)
    ensures r.Ok? <==> AsStrList(tips).Some? && (war.JNull? || AsStrList(war).Some?)
    ensures r.Ok? ==> && r.value.upgradePriorities == ups && r.value.attackStrategies == strategies
                      && Some(r.value.generalTips) == AsStrList(tips)
                      && r.value.warTips == (if war.JNull? then None else AsStrList(war))
    ensures r.Err? ==> r.error == ValidationError("PlayerAdvice")
  {
    var warTips := if war.JNull? then Some(None) else if AsStrList(war).Some? then Some(AsStrList(war)) else None;
    if AsStrList(tips).Some? && warTips.Some? then
      Ok(PlayerAdvice(ups, strategies, AsStrList(tips).value, warTips.value))
    else
      Err(ValidationError("PlayerAdvice"))
  }

  // ---------------------------------------------------------------------------
  // The records written back as JSON objects, and the round trips.

  function UpgradeAdviceJson(u: UpgradeAdvice): Json
  {
    JObject(map["item_name" := JString(u.itemName), "priority" := JInt(u.priority), "reason" := JString(u.reason)])
  }

  function AttackStrategyAdviceJson(a: AttackStrategyAdvice): Json
  {
    JObject(map[
      "strategy_name" := JString(a.strategyName),
      "description" := JString(a.description),
      "recommended_troops" := StrListJson(a.recommendedTroops),
      "recommended_spells" := StrListJson(a.recommendedSpells),
      "difficulty" := JString(a.difficulty)])
  }

  /** An `UpgradeAdvice` written as JSON is rebuilt unchanged, whatever its priority (no 1-10 range check). */
  lemma UpgradeAdviceRoundTrip(u: UpgradeAdvice)
    ensures UpgradeAdviceFrom(UpgradeAdviceJson(u).fields) == Ok(u)
  {
  }

  /** An `AttackStrategyAdvice` written as JSON is rebuilt unchanged, whatever its difficulty string. */
  lemma AttackStrategyAdviceRoundTrip(a: AttackStrategyAdvice)
    ensures AttackStrategyAdviceFrom(AttackStrategyAdviceJson(a).fields) == Ok(a)
  {
  }

  /** Leaving out any one required field of an `UpgradeAdvice` makes construction fail. */
  lemma UpgradeAdviceMissingField(fields: map<string, Json>, key: string)
    requires key in {"item_name", "priority", "reason"} && key !in fields
    ensures UpgradeAdviceFrom(fields) == Err(ValidationError("UpgradeAdvice"))
  {
  }
}
