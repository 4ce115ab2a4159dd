/**
 * The advice generator: the prompt built from a snapshot, the decoding of the
 * model's reply (direct, then from a ```json fence) and its mapping onto the
 * advice records, and `generate_advice`, which strings them around one
 * completion call.
 */
module AdviceGenerator {
  import opened Wrappers
  import opened Text
  import opened Failures
  import opened Json
  import opened Player
  import opened Advice

  // ===========================================================================
  // The prompt.

  const Intro := "You are an expert Clash of Clans advisor. Analyze the following player data and provide structured advice."

  /** Troop lines are limited to this many home-village troops. */
  const MaxTroopLines := 10
  /** Spell lines are limited to this many spells. */
  const MaxSpellLines := 10
  /** Upgrade lines are limited to this many upgrades. */
  const MaxUpgradeLines := 15

  /** `"  - {name}: Level {level}/{max_level}"`. */
  function UnitLine(u: UnitInfo): string
  {
    "  - " + u.name + ": Level " + IntToString(u.level) + "/" + IntToString(u.maxLevel)
  }

  /** `"  - {name} ({type}): {current_level} -> {max_level}"`. */
  function UpgradeLine(x: UpgradeState): string
  {
    "  - " + x.name + " (" + x.kind + "): " + IntToString(x.currentLevel) + " -> " + IntToString(x.maxLevel)
  }

  /** A line per unit, in order. */
  function UnitLines(us: seq<UnitInfo>): (r: seq<string>)
    ensures |r| == |us|
  {
    if us == [] then [] else UnitLines(us[..|us| - 1]) + [UnitLine(us[|us| - 1])]
  }

  /** A line per upgrade, in order. */
  function UpgradeLines(xs: seq<UpgradeState>): (r: seq<string>)
    ensures |r| == |xs|
  {
    if xs == [] then [] else UpgradeLines(xs[..|xs| - 1]) + [UpgradeLine(xs[|xs| - 1])]
  }

  /** Line `i` of a unit block describes unit `i`. */
  lemma {:induction false} UnitLinesAt(us: seq<UnitInfo>, i: int)
    requires 0 <= i < |us|
    ensures UnitLines(us)[i] == UnitLine(us[i])
  {
    if i < |us| - 1 {
      UnitLinesAt(us[..|us| - 1], i);
    }
  }

  /** Line `i` of the upgrade block describes upgrade `i`. */
  lemma {:induction false} UpgradeLinesAt(xs: seq<UpgradeState>, i: int)
    requires 0 <= i < |xs|
    ensures UpgradeLines(xs)[i] == UpgradeLine(xs[i])
  {
    if i < |xs| - 1 {
      UpgradeLinesAt(xs[..|xs| - 1], i);
    }
  }

  /** `[t for t in troops if t.village == "home"]`. */
  function HomeUnits(us: seq<UnitInfo>): seq<UnitInfo>
  {
    if us == [] then []
    else (if us[0].village == "home" then [us[0]] else []) + HomeUnits(us[1..])
  }

  /** Python's `value or fallback` on an optional string: `None` and `""` both give the fallback. */
  function OrElse(value: Option<string>, fallback: string): string
  {
    if value.None? || value.value == "" then fallback else value.value
  }

  /** The first nine lines, up to the "Heroes:" heading. */
  function HeaderLines(p: PlayerSnapshot): seq<string>
  {
    [ Intro,
      "",
      "Player: " + p.name + " (" + p.tag + ")",
      "Town Hall Level: " + IntToString(p.townHallLevel),
      "Trophies: " + IntToString(p.trophies),
      "League: " + OrElse(p.league, "Unranked"),
      "Clan: " + OrElse(p.clanName, "No clan"),
      "",
      "Heroes:" ]
  }

  function FocusLine(warFocus: bool): string
  {
    if warFocus then "Focus: War attacks and defense" else "Focus: General progression and farming"
  }

  /**
   * The schema example `json.dumps(..., indent=2)` prints, up to its
   * `war_tips` entry. The source writes the example priority as the Python
   * expression `1-10`, so the example shows `-9`.
   */
  const SchemaHead :=
    "{\n" +
    "  \"upgrade_priorities\": [\n" +
    "    {\n" +
    "      \"item_name\": \"Troop/Hero/Spell name\",\n" +
    "      \"priority\": -9,\n" +
    "      \"reason\": \"Why this upgrade is important\"\n" +
    "    }\n" +
    "  ],\n" +
    "  \"attack_strategies\": [\n" +
    "    {\n" +
    "      \"strategy_name\": \"Strategy name\",\n" +
    "      \"description\": \"How to use this strategy\",\n" +
    "      \"recommended_troops\": [\n" +
    "        \"troop1\",\n" +
    "        \"troop2\"\n" +
    "      ],\n" +
    "      \"recommended_spells\": [\n" +
    "        \"spell1\",\n" +
    "        \"spell2\"\n" +
    "      ],\n" +
    "      \"difficulty\": \"easy|medium|hard\"\n" +
    "    }\n" +
    "  ],\n" +
    "  \"general_tips\": [\n" +
    "    \"tip1\",\n" +
    "    \"tip2\"\n" +
    "  ],\n"

  /** The `war_tips` entry of the example under war focus: a list of one tip. */
  const WarTipsList := "  \"war_tips\": [\n    \"war tip1\"\n  ]"
  /** The `war_tips` entry of the example without war focus. */
  const WarTipsNull := "  \"war_tips\": null"

  /** The schema example for a focus value. */
  function SchemaExample(warFocus: bool): string
  {
    SchemaHead + (if warFocus then WarTipsList else WarTipsNull) + "\n}"
  }

  /** The five closing lines: focus sentence, request, schema example. */
  function FooterLines(warFocus: bool): seq<string>
  {
    ["", FocusLine(warFocus), "", "Please provide advice in the following JSON format:", SchemaExample(warFocus)]
  }

  /** The blank line and "Key Troops:" heading, then the first ten home-village troops. */
  function TroopPart(p: PlayerSnapshot): seq<string>
  {
    ["", "Key Troops:"] + UnitLines(Take(HomeUnits(p.troops), MaxTroopLines))
  }

  /** The blank line and "Spells:" heading, then the first ten spells. */
  function SpellPart(p: PlayerSnapshot): seq<string>
  {
    ["", "Spells:"] + UnitLines(Take(p.spells, MaxSpellLines))
  }

  /** The blank line and "Available Upgrades:" heading, then the first fifteen upgrades. */
  function UpgradePart(p: PlayerSnapshot): seq<string>
  {
    ["", "Available Upgrades:"] + UpgradeLines(Take(p.availableUpgrades, MaxUpgradeLines))
  }

  /** Every entry of `prompt_parts`, in order. */
  function PromptLines(p: PlayerSnapshot, warFocus: bool): seq<string>
  {
    HeaderLines(p) + UnitLines(p.heroes) + TroopPart(p) + SpellPart(p) + UpgradePart(p) + FooterLines(warFocus)
  }

  /** The prompt text `_build_prompt` returns. */
  function PromptText(p: PlayerSnapshot, warFocus: bool): string
  {
    JoinLines(PromptLines(p, warFocus))
  }

  /** One of the unit loops of `_build_prompt`: a line per unit appended to `parts`. */
  method AppendUnitLines(parts: seq<string>, us: seq<UnitInfo>) returns (out: seq<string>)
    ensures out == parts + UnitLines(us)
  {
    out := parts;
    for i := 0 to |us|
      invariant out == parts + UnitLines(us[..i])
    {
      assert us[..i + 1][..i] == us[..i];
      out := out + [UnitLine(us[i])];
    }
    assert us[..|us|] == us;
  }

  /** A blank line, a heading, then a line per unit. */
  method AppendUnitSection(parts: seq<string>, heading: string, us: seq<UnitInfo>) returns (out: seq<string>)
    ensures out == parts + (["", heading] + UnitLines(us))
  {
    out := AppendUnitLines(parts + ["", heading], us);
  }

  /** The upgrade loop of `_build_prompt`: a line per upgrade appended to `parts`. */
  method AppendUpgradeLines(parts: seq<string>, xs: seq<UpgradeState>) returns (out: seq<string>)
    ensures out == parts + UpgradeLines(xs)
  {
    out := parts;
    for i := 0 to |xs|
      invariant out == parts + UpgradeLines(xs[..i])
    {
      assert xs[..i + 1][..i] == xs[..i];
      out := out + [UpgradeLine(xs[i])];
    }
    assert xs[..|xs|] == xs;
  }

  /** A blank line, a heading, then a line per upgrade. */
  method AppendUpgradeSection(parts: seq<string>, heading: string, xs: seq<UpgradeState>) returns (out: seq<string>)
    ensures out == parts + (["", heading] + UpgradeLines(xs))
  {
    out := AppendUpgradeLines(parts + ["", heading], xs);
  }

  /** The focus sentence and the schema example. */
  method AppendFooter(parts: seq<string>, warFocus: bool) returns (out: seq<string>)
    ensures out == parts + FooterLines(warFocus)
  {
    out := parts + [""];
    if warFocus {
      out := out + ["Focus: War attacks and defense"];
    } else {
      out := out + ["Focus: General progression and farming"];
    }
    assert out == parts + ["", FocusLine(warFocus)];
    out := out + ["", "Please provide advice in the following JSON format:", SchemaExample(warFocus)];
  }

  /** `_build_prompt`: appends the lines section by section, then joins them. */
  method BuildPrompt(p: PlayerSnapshot, warFocus: bool) returns (prompt: string)
    ensures prompt == PromptText(p, warFocus)
  {
    var parts := HeaderLines(p);
    parts := AppendUnitLines(parts, p.heroes);
    var importantTroops := Take(HomeUnits(p.troops), MaxTroopLines);
    parts := AppendUnitSection(parts, "Key Troops:", importantTroops);
    parts := AppendUnitSection(parts, "Spells:", Take(p.spells, MaxSpellLines));
    parts := AppendUpgradeSection(parts, "Available Upgrades:", Take(p.availableUpgrades, MaxUpgradeLines));
    parts := AppendFooter(parts, warFocus);
    prompt := JoinLines(parts);
  }

  // ---------------------------------------------------------------------------
  // What the prompt contains.

  /** The home-unit filter distributes over concatenation: it keeps source order. */
  lemma {:induction false} HomeUnitsAppend(a: seq<UnitInfo>, b: seq<UnitInfo>)
    ensures HomeUnits(a + b) == HomeUnits(a) + HomeUnits(b)
  {
    if a == [] {
      assert a + b == b;
    } else {
      var head := if a[0].village == "home" then [a[0]] else [];
      assert (a + b)[0] == a[0] && (a + b)[1..] == a[1..] + b;
      assert HomeUnits(a + b) == head + HomeUnits(a[1..] + b);
      HomeUnitsAppend(a[1..], b);
      assert head + (HomeUnits(a[1..]) + HomeUnits(b)) == (head + HomeUnits(a[1..])) + HomeUnits(b);
    }
  }

  /** The home-unit filter keeps exactly the units whose village is "home". */
  lemma {:induction false} HomeUnitsMembers(us: seq<UnitInfo>)
    ensures forall u :: u in HomeUnits(us) <==> u in us && u.village == "home"
  {
    if us != [] {
      HomeUnitsMembers(us[1..]);
      assert us == [us[0]] + us[1..];
    }
  }

  /**
   * The header: the league and clan lines fall back to "Unranked" and
   * "No clan" on `None` and on the empty string; the hero heading closes it.
   */
  lemma HeaderShape(p: PlayerSnapshot)
    ensures var lines := HeaderLines(p);
            && |lines| == 9
            && lines[5] == "League: " + (if p.league.None? || p.league == Some("") then "Unranked" else p.league.value)
            && lines[6] == "Clan: " + (if p.clanName.None? || p.clanName == Some("") then "No clan" else p.clanName.value)
            && lines[8] == "Heroes:"
  {
  }

  /** The hero block: one line per hero, all of them, in snapshot order. */
  lemma HeroSection(p: PlayerSnapshot)
    ensures |UnitLines(p.heroes)| == |p.heroes|
    ensures forall i :: 0 <= i < |p.heroes| ==> UnitLines(p.heroes)[i] == UnitLine(p.heroes[i])
  {
    forall i | 0 <= i < |p.heroes|
      ensures UnitLines(p.heroes)[i] == UnitLine(p.heroes[i])
    {
      UnitLinesAt(p.heroes, i);
    }
  }

  /**
   * The troop section: after its heading, exactly min(10, number of home
   * troops) lines, describing the first home-village troops in source order.
   */
  lemma TroopSection(p: PlayerSnapshot)
    ensures var part, home := TroopPart(p), HomeUnits(p.troops);
            var n := if |home| < MaxTroopLines then |home| else MaxTroopLines;
            && |part| == 2 + n
            && part[1] == "Key Troops:"
            && (forall i :: 0 <= i < n ==> part[2 + i] == UnitLine(home[i]))
  {
    var shown := Take(HomeUnits(p.troops), MaxTroopLines);
    forall i | 0 <= i < |shown|
      ensures TroopPart(p)[2 + i] == UnitLine(HomeUnits(p.troops)[i])
    {
      UnitLinesAt(shown, i);
    }
  }

  /** The spell section: the first min(10, number of spells) spells, of either village. */
  lemma SpellSection(p: PlayerSnapshot)
    ensures var part := SpellPart(p);
            var n := if |p.spells| < MaxSpellLines then |p.spells| else MaxSpellLines;
            && |part| == 2 + n
            && part[1] == "Spells:"
            && (forall i :: 0 <= i < n ==> part[2 + i] == UnitLine(p.spells[i]))
  {
    var shown := Take(p.spells, MaxSpellLines);
    forall i | 0 <= i < |shown|
      ensures SpellPart(p)[2 + i] == UnitLine(p.spells[i])
    {
      UnitLinesAt(shown, i);
    }
  }

  /** The upgrade section: the first min(15, number of upgrades) upgrades. */
  lemma UpgradeSection(p: PlayerSnapshot)
    ensures var part := UpgradePart(p);
            var n := if |p.availableUpgrades| < MaxUpgradeLines then |p.availableUpgrades| else MaxUpgradeLines;
            && |part| == 2 + n
            && part[1] == "Available Upgrades:"
            && (forall i :: 0 <= i < n ==> part[2 + i] == UpgradeLine(p.availableUpgrades[i]))
  {
    var shown := Take(p.availableUpgrades, MaxUpgradeLines);
    forall i | 0 <= i < |shown|
      ensures UpgradePart(p)[2 + i] == UpgradeLine(p.availableUpgrades[i])
    {
      UpgradeLinesAt(shown, i);
    }
  }

  /** The focus line names war exactly under war focus. */
  lemma FocusLineIff(warFocus: bool)
    ensures FocusLine(warFocus) == "Focus: War attacks and defense" <==> warFocus
    ensures FocusLine(warFocus) == "Focus: General progression and farming" <==> !warFocus
  {
  }

  /**
   * The two schema examples share everything before `war_tips`, whose value
   * is `null` exactly when there is no war focus.
   */
  lemma SchemaWarTips(warFocus: bool)
    ensures SchemaExample(warFocus)[..|SchemaHead|] == SchemaExample(!warFocus)[..|SchemaHead|]
    ensures var k := |SchemaHead|;
            SchemaExample(warFocus)[k..k + |WarTipsNull|] == WarTipsNull <==> !warFocus
  {
    var k := |SchemaHead|;
    assert SchemaExample(true)[k + 14] == WarTipsList[14] != WarTipsNull[14];
  }

  // ===========================================================================
  // The reply.

  /** The marker that opens a fenced JSON block. */
  const Fence := "```json"
  /** The marker that closes it. */
  const FenceEnd := "```"
  /** The prefix of the error raised when the reply is neither JSON nor fenced. */
  const InvalidReply := "Invalid JSON response from AI: "
  /** The excerpt of an undecodable reply is at most this long. */
  const ExcerptLength := 200
  /** Stands in for the message Python gives when `**` is applied to something that is not a mapping. */
  const NotMapping := "argument after ** must be a mapping"

  /**
   * The fenced fallback: from seven characters after the first "```json" to
   * the next "```" after that, stripped. With no closing fence `find` gives
   * -1, and Python's `s[start:-1]` then stops one character short of the end.
   */
  function FencedPayload(raw: string): (r: string)
    requires Contains(raw, Fence)
    ensures |r| <= |raw|
    ensures r == [] || (!IsSpace(r[0]) && !IsSpace(r[|r| - 1]))
  {
    var start := Find(raw, Fence, 0) + |Fence|;
    Strip(PySlice(raw, start, Find(raw, FenceEnd, start)))
  }

  /** A decoded reply, with the text it was decoded from (`raw_response` after the fallback). */
  datatype Decoded = Decoded(value: Json, text: string)

  /**
   * The decoding step of `generate_advice`: the whole reply, then the fenced
   * payload, then a `ValueError` quoting the first 200 characters. Whatever it
   * returns was decoded from the text it returns with it, and every failure is
   * a `ValueError` (`JSONDecodeError` is one).
   */
  function ExtractPayload(raw: string, decode: Decoder): (r: Result<Decoded, Exception>)
    ensures r.Ok? ==> decode(r.value.text) == Ok(r.value.value)
    ensures r.Ok? ==> r.value.text == raw || (Contains(raw, Fence) && r.value.text == FencedPayload(raw))
    ensures r.Err? ==> r.error.isValueError
  {
    match decode(raw)
    case Ok(j) => Ok(Decoded(j, raw))
    case Err(_) =>
      if Contains(raw, Fence) then
        var payload := FencedPayload(raw);
        match decode(payload)
        case Ok(j) => Ok(Decoded(j, payload))
        case Err(m) => Err(JsonDecodeError(m))
      else
        Err(ValueError(InvalidReply + Take(raw, ExcerptLength)))
  }

  /**
   * Iterating a decoded value in a `for`: a list yields its items; an empty
   * dict or string yields nothing; a non-empty dict yields its keys and a
   * non-empty string its characters, on which `**` fails; anything else is
   * not iterable. Either way a non-list that yields something is a `TypeError`.
   */
  function Iterate(j: Json): (r: Result<seq<Json>, Exception>)
    ensures r.Ok? <==> j.JArray? || j == JObject(map[]) || j == JString("")
    ensures r.Ok? && j.JArray? ==> r.value == j.items
    ensures r.Ok? && !j.JArray? ==> r.value == []
    ensures r.Err? ==> r.error.typeName == "TypeError"
  {
    match j
    case JArray(items) => Ok(items)
    case JObject(fields) => if fields == map[] then Ok([]) else Err(TypeError(NotMapping))
    case JString(s) => if s == "" then Ok([]) else Err(TypeError(NotMapping))
    case _ => Err(TypeError("object is not iterable"))
  }

  /**
   * A list comprehension over `items` that stops at the first failing
   * conversion: every item converted, in order, or the first item's error.
   */
  function MapItems<T>(items: seq<Json>, conv: Json -> Result<T, Exception>): (r: Result<seq<T>, Exception>)
    ensures r.Ok? <==> forall k :: 0 <= k < |items| ==> conv(items[k]).Ok?
    ensures r.Ok? ==> |r.value| == |items| && forall k :: 0 <= k < |items| ==> r.value[k] == conv(items[k]).value
    ensures r.Err? ==> exists k :: && 0 <= k < |items| && conv(items[k]) == Err(r.error)
                                   && forall m :: 0 <= m < k ==> conv(items[m]).Ok?
  {
    if items == [] then Ok([])
    else
      match conv(items[0])
      case Err(e) => Err(e)
      case Ok(x) =>
        var rest := MapItems(items[1..], conv);
        assert forall k :: 1 <= k < |items| ==> items[k] == items[1..][k - 1];
        match rest
        case Err(e) =>
          ghost var k :| && 0 <= k < |items[1..]| && conv(items[1..][k]) == Err(e)
                         && forall m :: 0 <= m < k ==> conv(items[1..][m]).Ok?;
          assert conv(items[k + 1]) == Err(e);
          Err(e)
        case Ok(xs) => Ok([x] + xs)
  }

  /** `UpgradeAdvice(**item)`: the item must be a dict. */
  function UpgradeItem(item: Json): (r: Result<UpgradeAdvice, Exception>)
    ensures !item.JObject? ==> r.Err? && r.error.typeName == "TypeError"
    ensures item.JObject? ==> r == UpgradeAdviceFrom(item.fields)
  {
    if item.JObject? then UpgradeAdviceFrom(item.fields) else Err(TypeError(NotMapping))
  }

  /** `AttackStrategyAdvice(**item)`: the item must be a dict. */
  function StrategyItem(item: Json): (r: Result<AttackStrategyAdvice, Exception>)
    ensures !item.JObject? ==> r.Err? && r.error.typeName == "TypeError"
    ensures item.JObject? ==> r == AttackStrategyAdviceFrom(item.fields)
  {
    if item.JObject? then AttackStrategyAdviceFrom(item.fields) else Err(TypeError(NotMapping))
  }

  /**
   * The mapping of a decoded reply onto `PlayerAdvice`: upgrades first, then
   * strategies, then the record itself; missing lists default to empty, and
   * `war_tips` is read only under war focus.
   */
  function AdviceFrom(j: Json, warFocus: bool): (r: Result<PlayerAdvice, Exception>)
    ensures !j.JObject? ==> r.Err? && r.error.typeName == "AttributeError"
    ensures r.Ok? && !warFocus ==> r.value.warTips == None
    ensures r.Ok? && "upgrade_priorities" !in j.fields ==> r.value.upgradePriorities == []
    ensures r.Ok? && "attack_strategies" !in j.fields ==> r.value.attackStrategies == []
    ensures r.Ok? && "general_tips" !in j.fields ==> r.value.generalTips == []
  {
    if !j.JObject? then Err(AttributeError("object has no attribute 'get'"))
    else
      var m := j.fields;
      var upItems :- Iterate(Get(m, "upgrade_priorities", JArray([])));
      var ups :- MapItems(upItems, UpgradeItem);
      var strategyItems :- Iterate(Get(m, "attack_strategies", JArray([])));
      var strategies :- MapItems(strategyItems, StrategyItem);
      PlayerAdviceFrom(ups, strategies, Get(m, "general_tips", JArray([])),
                       if warFocus then Get(m, "war_tips", JNull) else JNull)
  }

  /** What `generate_advice` returns: the advice and the raw response it was read from. */
  datatype Reply = Reply(advice: PlayerAdvice, rawResponse: string)

  /**
   * The decode-and-map section of `generate_advice`. A reply it accepts
   * carries a raw response that decodes to JSON mapping to that very advice.
   */
  function ParseReply(raw: string, warFocus: bool, decode: Decoder): (r: Result<Reply, Exception>)
    ensures r.Ok? ==> && decode(r.value.rawResponse).Ok?
                      && AdviceFrom(decode(r.value.rawResponse).value, warFocus) == Ok(r.value.advice)
    ensures r.Ok? && !warFocus ==> r.value.advice.warTips == None
  {
    var d :- ExtractPayload(raw, decode);
    var advice :- AdviceFrom(d.value, warFocus);
    Ok(Reply(advice, d.text))
  }

  // ---------------------------------------------------------------------------
  // What the parser accepts.

  /** The whole reply is decoded first; when that succeeds, no fallback is tried. */
  lemma ExtractDirect(raw: string, decode: Decoder)
    requires decode(raw).Ok?
    ensures ExtractPayload(raw, decode) == Ok(Decoded(decode(raw).value, raw))
  {
  }

  /**
   * An undecodable reply without a fence fails with a `ValueError` whose
   * message quotes the first 200 characters of the reply.
   */
  lemma ExtractNoFence(raw: string, decode: Decoder)
    requires decode(raw).Err? && !Contains(raw, Fence)
    ensures var r := ExtractPayload(raw, decode);
            && r.Err? && r.error.typeName == "ValueError"
            && r.error.message == InvalidReply + raw[..if |raw| < ExcerptLength then |raw| else ExcerptLength]
  {
  }

  /**
   * An undecodable fenced reply succeeds exactly when its payload decodes; the
   * payload becomes the raw response, and a payload that does not decode
   * raises the decoder's own error.
   */
  lemma ExtractFenced(raw: string, decode: Decoder)
    requires decode(raw).Err? && Contains(raw, Fence)
    ensures var r, payload := ExtractPayload(raw, decode), FencedPayload(raw);
            && (r.Ok? <==> decode(payload).Ok?)
            && (r.Ok? ==> r.value.text == payload)
            && (r.Err? ==> r.error == JsonDecodeError(decode(payload).error))
  {
  }

  /** `FencedPayload` once both `find` calls are known. */
  lemma FencedPayloadAt(raw: string, open: nat, close: int, payload: string)
    requires Find(raw, Fence, 0) == open && Find(raw, FenceEnd, open + |Fence|) == close
    requires PySlice(raw, open + |Fence|, close) == payload
    ensures Contains(raw, Fence) && FencedPayload(raw) == Strip(payload)
  {
    assert Contains(raw, Fence);
    assert FencedPayload(raw) == Strip(PySlice(raw, open + |Fence|, close)) by {
      var start := Find(raw, Fence, 0) + |Fence|;
      assert start == open + |Fence|;
    }
  }

  /**
   * A closed fenced block: when `pre` holds no earlier "```json" and `body`
   * no "```" (a single or double backquote is fine, as long as `body` does not
   * end in one), the payload is exactly the stripped text between the markers.
   */
  lemma FencedPayloadBetween(pre: string, body: string, post: string)
    requires Find(pre + Fence, Fence, 0) == |pre|
    requires Find(body + FenceEnd, FenceEnd, 0) == |body|
    ensures var raw := pre + Fence + body + FenceEnd + post;
            Contains(raw, Fence) && FencedPayload(raw) == Strip(body)
  {
    SliceBetween(pre, Fence, body, FenceEnd, post);
    FencedPayloadAt(pre + Fence + body + FenceEnd + post, |pre|, |pre| + |Fence| + |body|, body);
  }

  /**
   * An unclosed fence: with no "```" after the opening marker, `find` gives -1
   * for the closing one, so the payload loses the reply's last character.
   */
  lemma FencedPayloadUnclosed(pre: string, body: string)
    requires Find(pre + Fence, Fence, 0) == |pre|
    requires Find(body, FenceEnd, 0) == -1
    ensures var raw := pre + Fence + body;
            && Contains(raw, Fence)
            && FencedPayload(raw) == Strip(if body == [] then [] else body[..|body| - 1])
  {
    FindExtend(pre + Fence, body, Fence, 0);
    FindShift(pre + Fence, body, FenceEnd, 0);
    SliceDropLast(pre + Fence, body);
    FencedPayloadAt(pre + Fence + body, |pre|, -1, if body == [] then [] else body[..|body| - 1]);
  }

  /** Four backquotes read as a closing fence followed by one more backquote. */
  lemma TickFirst(x: string, y: string)
    ensures x + "`" + FenceEnd + y == x + FenceEnd + ("`" + y)
  {
    assert "`" + FenceEnd == FenceEnd + "`";
  }

  /**
   * A payload that ends in a backquote loses it: in the four backquotes that
   * close such a block, `find` stops at the first, so the payload is cut one
   * character short.
   */
  lemma FencedPayloadTrailingTick(pre: string, body: string, post: string)
    requires Find(pre + Fence, Fence, 0) == |pre|
    requires Find(body + FenceEnd, FenceEnd, 0) == |body|
    ensures var raw := pre + Fence + body + "`" + FenceEnd + post;
            Contains(raw, Fence) && FencedPayload(raw) == Strip(body)
  {
    FencedPayloadBetween(pre, body, "`" + post);
    TickFirst(pre + Fence + body, post);
  }

  // ---------------------------------------------------------------------------
  // What the mapping accepts.

  /** Without war focus, whatever the reply says under `war_tips` is ignored. */
  lemma WarTipsIgnoredWithoutWarFocus(m: map<string, Json>)
    ensures AdviceFrom(JObject(m), false) == AdviceFrom(JObject(m - {"war_tips"}), false)
  {
    var m' := m - {"war_tips"};
    assert Get(m, "upgrade_priorities", JArray([])) == Get(m', "upgrade_priorities", JArray([]));
    assert Get(m, "attack_strategies", JArray([])) == Get(m', "attack_strategies", JArray([]));
    assert Get(m, "general_tips", JArray([])) == Get(m', "general_tips", JArray([]));
  }

  /** An empty object maps to the record's defaults: empty lists and no war tips. */
  lemma EmptyReplyGivesDefaults(warFocus: bool)
    ensures AdviceFrom(JObject(map[]), warFocus) == Ok(DefaultAdvice())
  {
  }

  /** Under war focus, a `war_tips` entry that is not a list of strings or null rejects the reply. */
  lemma WarTipsChecked(m: map<string, Json>)
    requires "war_tips" in m && !m["war_tips"].JNull? && AsStrList(m["war_tips"]).None?
    ensures AdviceFrom(JObject(m), true).Err?
  {
  }

  /** A top-level value that is not an object fails on `.get`; a list item that is not an object fails on `**`. */
  lemma NonObjectsRejected(j: Json, m: map<string, Json>, bad: Json, warFocus: bool)
    requires !bad.JObject?
    ensures !j.JObject? ==> AdviceFrom(j, warFocus).Err?
    ensures AdviceFrom(JObject(m["upgrade_priorities" := JArray([bad])]), warFocus) == Err(TypeError(NotMapping))
  {
  }

  /** A list of records written as JSON, item by item. */
  function EncodeAll<T>(xs: seq<T>, enc: T -> Json): (r: seq<Json>)
    ensures |r| == |xs| && forall k :: 0 <= k < |xs| ==> r[k] == enc(xs[k])
  {
    seq(|xs|, k requires 0 <= k < |xs| => enc(xs[k]))
  }

  /** A converter that inverts an encoder item by item inverts it on the whole list. */
  lemma MapEncoded<T>(xs: seq<T>, enc: T -> Json, conv: Json -> Result<T, Exception>)
    requires forall k :: 0 <= k < |xs| ==> conv(enc(xs[k])) == Ok(xs[k])
    ensures MapItems(EncodeAll(xs, enc), conv) == Ok(xs)
  {
    var r := MapItems(EncodeAll(xs, enc), conv);
    assert r.Ok?;
    assert r.value == xs;
  }

  /** `PlayerAdvice` written as the JSON object the prompt asks for. */
  function AdviceJson(a: PlayerAdvice): Json
  {
    JObject(map[
      "upgrade_priorities" := JArray(EncodeAll(a.upgradePriorities, UpgradeAdviceJson)),
      "attack_strategies" := JArray(EncodeAll(a.attackStrategies, AttackStrategyAdviceJson)),
      "general_tips" := StrListJson(a.generalTips),
      "war_tips" := if a.warTips.Some? then StrListJson(a.warTips.value) else JNull])
  }

  /**
   * Advice written as JSON maps back to itself, provided its war tips are
   * absent or war focus is on (otherwise they are dropped).
   */
  lemma AdviceRoundTrip(a: PlayerAdvice, warFocus: bool)
    requires warFocus || a.warTips.None?
    ensures AdviceFrom(AdviceJson(a), warFocus) == Ok(a)
  {
    var m := AdviceJson(a).fields;
    assert Get(m, "upgrade_priorities", JArray([])) == JArray(EncodeAll(a.upgradePriorities, UpgradeAdviceJson));
    assert Get(m, "attack_strategies", JArray([])) == JArray(EncodeAll(a.attackStrategies, AttackStrategyAdviceJson));
    assert Get(m, "general_tips", JArray([])) == StrListJson(a.generalTips);
    UpgradeListRoundTrip(a.upgradePriorities);
    StrategyListRoundTrip(a.attackStrategies);
  }

  /** A list of upgrade records written as JSON is read back unchanged. */
  lemma UpgradeListRoundTrip(us: seq<UpgradeAdvice>)
    ensures MapItems(EncodeAll(us, UpgradeAdviceJson), UpgradeItem) == Ok(us)
  {
    forall k | 0 <= k < |us|
      ensures UpgradeItem(UpgradeAdviceJson(us[k])) == Ok(us[k])
    {
      UpgradeAdviceRoundTrip(us[k]);
    }
    MapEncoded(us, UpgradeAdviceJson, UpgradeItem);
  }

  /** A list of strategy records written as JSON is read back unchanged. */
  lemma StrategyListRoundTrip(sts: seq<AttackStrategyAdvice>)
    ensures MapItems(EncodeAll(sts, AttackStrategyAdviceJson), StrategyItem) == Ok(sts)
  {
    forall k | 0 <= k < |sts|
      ensures StrategyItem(AttackStrategyAdviceJson(sts[k])) == Ok(sts[k])
    {
      AttackStrategyAdviceRoundTrip(sts[k]);
    }
    MapEncoded(sts, AttackStrategyAdviceJson, StrategyItem);
  }

  /** A reply that is exactly the requested JSON is read back as the advice it encodes, and kept verbatim. */
  lemma ParseRoundTrip(raw: string, a: PlayerAdvice, warFocus: bool, decode: Decoder)
    requires decode(raw) == Ok(AdviceJson(a)) && (warFocus || a.warTips.None?)
    ensures ParseReply(raw, warFocus, decode) == Ok(Reply(a, raw))
  {
    AdviceRoundTrip(a, warFocus);
  }

  /**
   * The same JSON inside a "```json" fence, in a reply that does not decode
   * as a whole, is read back as the same advice; the raw response kept is the
   * stripped payload.
   */
  lemma FencedRoundTrip(pre: string, body: string, post: string, a: PlayerAdvice, warFocus: bool, decode: Decoder)
    requires Find(pre + Fence, Fence, 0) == |pre|
    requires Find(body + FenceEnd, FenceEnd, 0) == |body|
    requires decode(pre + Fence + body + FenceEnd + post).Err?
    requires decode(Strip(body)) == Ok(AdviceJson(a)) && (warFocus || a.warTips.None?)
    ensures ParseReply(pre + Fence + body + FenceEnd + post, warFocus, decode) == Ok(Reply(a, Strip(body)))
  {
    var raw := pre + Fence + body + FenceEnd + post;
    FencedPayloadBetween(pre, body, post);
    ExtractFenced(raw, decode);
    AdviceRoundTrip(a, warFocus);
  }

  /**
   * Every parse failure is a `ValueError` (bad JSON, a failed validation) or a
   * `TypeError`/`AttributeError` from applying `**` or `.get` to the wrong kind
   * of value.
   */
  lemma ParseErrorKinds(raw: string, warFocus: bool, decode: Decoder)
    ensures var r := ParseReply(raw, warFocus, decode);
            r.Err? ==> r.error.isValueError || r.error.typeName in {"TypeError", "AttributeError"}
  {
  }

  // ===========================================================================
  // `generate_advice`.

  /**
   * The chat completion call, given the model and the prompt: the reply's
   * message content, or the exception raised by the HTTP request or by
   * reading the response.
   */
  type Completion = (string, string) -> Result<string, Exception>

  /** The outcome of `generate_advice` once its prompt is built: the completion, then the parse. */
  function Generated(prompt: string, warFocus: bool, model: string, complete: Completion, decode: Decoder)
    : Result<Reply, Exception>
  {
    var raw :- complete(model, prompt);
    ParseReply(raw, warFocus, decode)
  }

  /** `generate_advice`: builds the prompt, asks for a completion, parses the reply. */
  method GenerateAdvice(p: PlayerSnapshot, warFocus: bool, model: string, complete: Completion, decode: Decoder)
    returns (r: Result<Reply, Exception>)
    ensures r == Generated(PromptText(p, warFocus), warFocus, model, complete, decode)
  {
    var prompt := BuildPrompt(p, warFocus);
    var reply := complete(model, prompt);
    if reply.Err? {
      return Err(reply.error);
    }
    r := ParseReply(reply.value, warFocus, decode);
  }
}
