# clashAI core in Dafny

This project models the backend pipeline of clashAI, a Clash of Clans advice
service. The pipeline fetches a player from the game API with a bounded retry
loop and normalises the player into a `PlayerSnapshot`. It then builds a
prompt from the snapshot, sends it to a chat-completion service and parses the
reply into `PlayerAdvice`. The snapshot and the raw reply are stored in two
append-only tables. The model also covers the two HTTP routes that run the
pipeline and their mapping from exceptions to status codes.

Modules, one per source file or concern:

- `Wrappers`: `Option` and `Result`.
- `Text`: the Python string operations the source relies on (`find`, `in`,
  `startswith`, `strip`, slicing with negative bounds, `str(int)`, `"\n".join`).
- `Failures`: a Python exception, seen only through its class name, whether it
  is a `ValueError`, and its message. Also the shared "NotFound / Maintenance /
  Forbidden" name chain.
- `Json`: decoded JSON values. The decoder itself is a function parameter.
- `Player`: `backend/models/player.py`. The six loops of `normalize_player`
  are methods proved against the function `Normalized`.
- `Advice`: `backend/models/advice.py`, with pydantic's required-field and
  field-type checks written out as partial constructors.
- `AdviceGenerator`: the prompt builder (imperative, over a `seq<string>` that
  grows line by line) and the reply parser (functions).
- `CocClient`: the client class with its login flag. Its retry loop runs over a
  sequence of fetch outcomes and records logins, fetches, sleeps and closes in
  a ghost log.
- `Repository`: the two repository classes over in-memory row sequences.
- `PlayerApi`, `AdviceApi`: the routes.

Points where the code differs from what its names and comments suggest, and where
this model follows the code:

- The advice route saves the snapshot before it generates advice. A failed
  generation leaves that snapshot stored, and no advice row is added.
- A fenced reply whose payload does not decode raises the decoder's own
  `JSONDecodeError`. A reply with no fence raises a plain `ValueError` quoting
  at most 200 characters. Both are `ValueError`s, so the advice route answers
  400 for both.
- The player route has no `ValueError` branch: a `ValueError` there is a 500.
- A reply item that is not an object fails with a `TypeError` on `**`. A
  decoded reply that is not an object fails with an `AttributeError` on
  `.get`. Both are 500 on the advice route, not 400.
- `priority` is not checked against 1-10, and `difficulty` is not checked
  against its three values: those are comments only.
- The schema example in the prompt is `json.dumps` of a dict whose priority is
  the Python expression `1-10`, so the example shows `-9`. Without war focus
  the example still has the `war_tips` key, with value `null`.
- The league and clan lines fall back to "Unranked" and "No clan" on an empty
  string as well as on `None`, because the code uses `or`.
- With a "```json" marker but no closing "```", `find` returns -1. The slice
  `[start:-1]` then drops the reply's last character.
- A fenced payload that ends in a backquote loses it: of the four backquotes
  before the end of the block, `find` stops at the first.
- The retry loop makes three attempts and sleeps 1 then 2 seconds. The third
  transient failure is re-raised without a sleep.
- SQL leaves the order of snapshots with equal timestamps open. The model fixes
  one order for such rows.

## Model

| member | source | states |
|---|---|---|
| Text.Find | backend/services/advice_generator.py:162-163 | `str.find`: -1 exactly when there is no occurrence from `start` on; otherwise the first occurrence from `start` |
| Text.FindExtend | backend/services/advice_generator.py:162-163 | text appended after an occurrence does not change what `find` returns |
| Text.FindShift | backend/services/advice_generator.py:162-163 | `find` from inside the second part of a concatenation is `find` in that part, shifted by the first part's length, and -1 stays -1 |
| Text.ContainsIff | backend/services/advice_generator.py:161 | `pat in s` holds exactly when `pat` occurs somewhere in `s` |
| Text.ContainsInitial | backend/api/player.py:74-85 | a string that contains a nonempty pattern contains the pattern's first character |
| Text.StripStart | backend/services/advice_generator.py:164 | `lstrip`: a suffix of the input that does not start with whitespace, and only whitespace is removed |
| Text.StripEnd | backend/services/advice_generator.py:164 | `rstrip`: a prefix of the input that does not end with whitespace, and only whitespace is removed |
| Text.Strip | backend/services/advice_generator.py:164 | `strip()` is never longer than its input and leaves no white space at either end |
| Text.StripEmpty | backend/services/advice_generator.py:164 | `strip()` leaves nothing exactly when the string is all white space |
| Text.StripTrimmed | backend/services/advice_generator.py:164 | a string with no white space at either end is its own `strip()` |
| Text.SliceBound | backend/services/advice_generator.py:164 | a slice bound within the string is kept; a negative one counts from the end; the result never passes the end |
| Text.PySlice | backend/services/advice_generator.py:164 | `s[a:b]` is never longer than `s` |
| Text.PySliceIs | backend/services/advice_generator.py:164 | `s[a:b]`: in general the characters between the two normalised bounds, empty when they cross; within the string `s[a..b]`; with a negative `b`, up to `len + b` |
| Text.SliceDropLast | backend/services/advice_generator.py:164 | a slice from the end of a prefix to -1 is the rest without its last character, and empty when there is no rest |
| Text.SliceBetween | backend/services/advice_generator.py:162-164 | when `open` first occurs at the end of `pre` and `close` first occurs at the end of `body`, the two `find` calls on `pre + open + body + close + post` land on the markers and the slice between them is `body` |
| Text.Take | backend/services/advice_generator.py:74 | `xs[:n]`: the first `min(n, len)` elements |
| Text.NatToString | backend/services/advice_generator.py:58 | `str(n)` of a natural number (`NatToString`, and `IntToString` for any `int`) is a nonempty string of decimal digits with no leading zero unless `n` is 0 |
| Text.NatToStringValue | backend/services/advice_generator.py:58 | the decimal value of `str(n)` is `n` |
| Text.NatToStringInjective | backend/services/advice_generator.py:58 | different numbers print differently |
| Text.IntToStringValue | backend/services/advice_generator.py:58 | `str(i)` starts with '-' exactly when `i` is negative, and its digits read back as the absolute value of `i` |
| Text.JoinLines | backend/services/advice_generator.py:106 | `"\n".join(parts)` is as long as the parts plus one newline between each two |
| Text.JoinLinesEnds | backend/services/advice_generator.py:106 | the joined text starts with the first part, followed by a newline when more follow, and ends with the last part |
| Failures.StatusByName | backend/api/player.py:73-89 | 404 exactly when the class name contains "NotFound"; 503 when it contains "Maintenance" but not "NotFound"; 403 when only "Forbidden" matches; 500 otherwise |
| Failures.NoSignal | backend/api/advice.py:92-109 | a class name without the letters N, M and F at all falls through to 500 |
| Failures.ValueErrorStatus | backend/api/player.py:72-89 | "ValueError" matches none of the three names, so it maps to 500 |
| Failures.TypeErrorStatus | backend/api/advice.py:92-109 | "TypeError" maps to 500 |
| Failures.AttributeErrorStatus | backend/api/advice.py:92-109 | "AttributeError" maps to 500 |
| Player.NormalizeUnits | backend/models/player.py:86-137 | the same length and order as the input; name, level and max level copied; village (`ResolveVillage`) from `is_home_base`, else `village`, else "home" |
| Player.Normalized | backend/models/player.py:75-195 | tag, name and stats copied; town hall (`TownHallOf`) from `town_hall`, else `town_hall_level`, else 1; clan name and tag `None` exactly without a clan; league `None` exactly without a league; upgrades derived from the three lists |
| Player.ExtractUnits | backend/models/player.py:86-101 | the extraction loop builds exactly `NormalizeUnits` of its input |
| Player.UnderLevelled | backend/models/player.py:141-172 | at most one entry per unit, each tagged with the list's kind and below its maximum level |
| Player.UnderLevelledSnoc | backend/models/player.py:141-150 | one more unit adds its upgrade entry at the end exactly when it is below its maximum level |
| Player.AppendUpgrades | backend/models/player.py:140-172 | an upgrade loop appends exactly the under-levelled units of its list, tagged with the list's kind, in source order |
| Player.NormalizePlayer | backend/models/player.py:75-195 | the six loops and the record build exactly `Normalized(p)` |
| Player.UnderLevelledAppend | backend/models/player.py:139-172 | the upgrade list of a concatenation is the concatenation of the upgrade lists |
| Player.UnderLevelledSound | backend/models/player.py:141-150 | every entry comes from a unit of the list below its maximum level, with that unit's name and levels and the list's kind |
| Player.UnderLevelledComplete | backend/models/player.py:141-150 | every unit below its maximum level has its entry |
| Player.MaxedUnitNotListed | backend/models/player.py:142 | a unit at or above its maximum level changes nothing: the list is the same without it |
| Player.AvailableUpgradesShape | backend/models/player.py:139-172 | the troop entries come first, then hero entries, then spell entries, and every entry is below its maximum level |
| Advice.DefaultAdvice | backend/models/advice.py:24-36 | the three lists default to empty and `war_tips` to `None`, which differs from an empty list |
| Advice.AsStrList | backend/models/advice.py:19-20 | a `List[str]` field accepts exactly arrays of strings, keeping every element in order |
| Advice.StrListJson | backend/models/advice.py:19-20 | a list of strings written as JSON is accepted back unchanged |
| Advice.UpgradeAdviceFrom | backend/models/advice.py:8-12 | succeeds exactly when `item_name`, `priority` and `reason` are present with the right types, copying them; otherwise a validation error |
| Advice.AttackStrategyAdviceFrom | backend/models/advice.py:15-21 | succeeds exactly when all five fields are present, the two lists holding strings, copying them; otherwise a validation error |
| Advice.PlayerAdviceFrom | backend/models/advice.py:24-36 | succeeds exactly when the tips are a string list and the war tips a string list or null; null war tips become `None` |
| Advice.UpgradeAdviceRoundTrip | backend/models/advice.py:8-12 | an `UpgradeAdvice` written as JSON is rebuilt unchanged, whatever its priority |
| Advice.AttackStrategyAdviceRoundTrip | backend/models/advice.py:15-21 | an `AttackStrategyAdvice` written as JSON is rebuilt unchanged, whatever its difficulty |
| Advice.UpgradeAdviceMissingField | backend/models/advice.py:8-12 | leaving out any required field makes construction fail |
| AdviceGenerator.UnitLines | backend/services/advice_generator.py:57-58 | one line per unit |
| AdviceGenerator.UpgradeLines | backend/services/advice_generator.py:74-75 | one line per upgrade |
| AdviceGenerator.UnitLinesAt | backend/services/advice_generator.py:57-58 | line `i` of a unit block is `UnitLine` of unit `i`: "  - name: Level l/m" |
| AdviceGenerator.UpgradeLinesAt | backend/services/advice_generator.py:74-75 | line `i` of the upgrade block is `UpgradeLine` of upgrade `i`: "  - name (type): cur -> max" |
| AdviceGenerator.AppendUnitLines | backend/services/advice_generator.py:57-58 | the hero loop appends exactly the unit lines of its list |
| AdviceGenerator.AppendUnitSection | backend/services/advice_generator.py:60-70 | a blank line, the heading, then the unit lines are appended |
| AdviceGenerator.AppendUpgradeLines | backend/services/advice_generator.py:74-75 | the upgrade loop appends exactly the upgrade lines of its list |
| AdviceGenerator.AppendUpgradeSection | backend/services/advice_generator.py:72-75 | a blank line, the heading, then the upgrade lines are appended |
| AdviceGenerator.AppendFooter | backend/services/advice_generator.py:77-104 | the focus line for the flag, the request line and the schema example for the flag are appended |
| AdviceGenerator.BuildPrompt | backend/services/advice_generator.py:43-106 | `_build_prompt` returns exactly `PromptText(p, warFocus)`, the lines joined with newlines |
| AdviceGenerator.HomeUnitsAppend | backend/services/advice_generator.py:63 | the home-troop filter keeps source order across a concatenation |
| AdviceGenerator.HomeUnitsMembers | backend/services/advice_generator.py:63 | the home-troop filter `HomeUnits` keeps exactly the units whose village is "home" |
| AdviceGenerator.HeaderShape | backend/services/advice_generator.py:45-55 | nine header lines; "Unranked" and "No clan" replace `None` and the empty string (`OrElse`, Python's `or`); "Heroes:" closes the header |
| AdviceGenerator.HeroSection | backend/services/advice_generator.py:57-58 | one line for every hero, in snapshot order |
| AdviceGenerator.TroopSection | backend/services/advice_generator.py:60-65 | after "Key Troops:", exactly min(10, number of home troops) lines for the first home-village troops in source order |
| AdviceGenerator.SpellSection | backend/services/advice_generator.py:67-70 | after "Spells:", exactly min(10, number of spells) lines for the first spells of either village |
| AdviceGenerator.UpgradeSection | backend/services/advice_generator.py:72-75 | after "Available Upgrades:", exactly min(15, number of upgrades) lines for the first upgrades |
| AdviceGenerator.FocusLineIff | backend/services/advice_generator.py:77-81 | the war focus sentence appears exactly under war focus, the farming sentence exactly without it |
| AdviceGenerator.SchemaWarTips | backend/services/advice_generator.py:85-104 | the two schema examples agree up to `war_tips`, whose value is `null` exactly without war focus |
| AdviceGenerator.ExtractPayload | backend/services/advice_generator.py:157-167 | a decoded result comes from the reply or from its fenced payload, and is what the decoder returns for that text; every failure is a `ValueError` |
| AdviceGenerator.ExtractDirect | backend/services/advice_generator.py:157-158 | a reply that decodes as a whole is used as it is, with no fallback |
| AdviceGenerator.ExtractNoFence | backend/services/advice_generator.py:166-167 | an undecodable reply without "```json" fails with a `ValueError` quoting its first 200 characters |
| AdviceGenerator.ExtractFenced | backend/services/advice_generator.py:159-165 | an undecodable fenced reply succeeds exactly when its payload decodes; the payload becomes the raw response; otherwise the decoder's error is raised |
| AdviceGenerator.FencedPayload | backend/services/advice_generator.py:161-164 | the fenced payload is never longer than the reply and has no white space at either end |
| AdviceGenerator.FencedPayloadAt | backend/services/advice_generator.py:161-164 | once the two `find` results and the slice between them are known, the payload is that slice stripped |
| AdviceGenerator.FencedPayloadBetween | backend/services/advice_generator.py:161-164 | when "```json" first occurs where the fence opens and "```" first occurs where it closes, the payload is exactly the stripped text between the markers |
| AdviceGenerator.FencedPayloadUnclosed | backend/services/advice_generator.py:162-164 | when "```json" first occurs where the fence opens and no "```" follows it, the payload loses the reply's last character |
| AdviceGenerator.FencedPayloadTrailingTick | backend/services/advice_generator.py:162-164 | a fenced body ending in a backquote loses that backquote, because `find` stops at the first of the four backquotes |
| AdviceGenerator.Iterate | backend/services/advice_generator.py:170-176 | iterating a list yields its items; an empty dict or string yields nothing; anything else fails with a `TypeError` |
| AdviceGenerator.MapItems | backend/services/advice_generator.py:170-176 | a comprehension succeeds exactly when every item converts, keeping order; otherwise it raises the first failing item's error |
| AdviceGenerator.UpgradeItem | backend/services/advice_generator.py:170-172 | `UpgradeAdvice(**item)`: a non-object item is a `TypeError`; an object goes through the field checks |
| AdviceGenerator.StrategyItem | backend/services/advice_generator.py:174-176 | `AttackStrategyAdvice(**item)`: a non-object item is a `TypeError`; an object goes through the field checks |
| AdviceGenerator.AdviceFrom | backend/services/advice_generator.py:169-183 | a non-object is an `AttributeError`; `war_tips` is `None` without war focus; missing lists give empty lists |
| AdviceGenerator.ParseReply | backend/services/advice_generator.py:156-185 | an accepted reply's raw response decodes to JSON that maps to exactly the returned advice; `war_tips` is `None` without war focus |
| AdviceGenerator.WarTipsIgnoredWithoutWarFocus | backend/services/advice_generator.py:182 | without war focus the reply's `war_tips` entry has no effect at all |
| AdviceGenerator.EmptyReplyGivesDefaults | backend/services/advice_generator.py:170-183 | an empty object maps to the record's defaults |
| AdviceGenerator.WarTipsChecked | backend/services/advice_generator.py:178-183 | under war focus, `war_tips` that is neither null nor a string list rejects the reply |
| AdviceGenerator.NonObjectsRejected | backend/services/advice_generator.py:170-172 | a non-object reply fails, and a non-object upgrade item fails with a `TypeError` |
| AdviceGenerator.EncodeAll | backend/services/advice_generator.py:170-176 | a list of records written as JSON, item for item |
| AdviceGenerator.MapEncoded | backend/services/advice_generator.py:170-176 | a converter that inverts an encoder item by item inverts it on whole lists |
| AdviceGenerator.AdviceRoundTrip | backend/services/advice_generator.py:169-183 | advice written as JSON maps back to itself when its war tips are absent or war focus is on |
| AdviceGenerator.UpgradeListRoundTrip | backend/services/advice_generator.py:170-172 | a list of upgrade records written as JSON is read back unchanged |
| AdviceGenerator.StrategyListRoundTrip | backend/services/advice_generator.py:174-176 | a list of strategy records written as JSON is read back unchanged |
| AdviceGenerator.ParseRoundTrip | backend/services/advice_generator.py:156-185 | a reply that is exactly the advice's JSON parses to that advice and is kept verbatim |
| AdviceGenerator.FencedRoundTrip | backend/services/advice_generator.py:159-185 | the same JSON inside a closed fence, under the same `find` conditions, parses to the same advice, keeping the stripped payload as the raw response |
| AdviceGenerator.ParseErrorKinds | backend/services/advice_generator.py:156-183 | every parse failure is a `ValueError`, a `TypeError` or an `AttributeError` |
| AdviceGenerator.GenerateAdvice | backend/services/advice_generator.py:108-185 | the built prompt goes to the completion call with the model; a failed call propagates; otherwise the reply is parsed |
| CocClient.Raised | backend/services/coc_client.py:66-69 | the three API signals raise exceptions named "NotFound", "Maintenance" and "Forbidden", none of them a `ValueError`; other failures raise their own exception |
| CocClient.NormalizeTag | backend/services/coc_client.py:56-58 | "#" is prepended exactly when the tag does not start with "#" |
| CocClient.NormalizeTagIdempotent | backend/services/coc_client.py:56-58 | normalising twice is normalising once |
| CocClient.Retry | backend/services/coc_client.py:61-74 | the retry loop from one attempt on: an odd number of events, at most five from the first attempt, starting and ending with a fetch; a returned player is one of the fetched outcomes |
| CocClient.Pow2 | backend/services/coc_client.py:72 | `2**n` is positive |
| CocClient.FailedAttempts | backend/services/coc_client.py:70-73 | `n` transient failures: fetch `i` is followed by a sleep of `2**i` seconds |
| CocClient.RetryContinues | backend/services/coc_client.py:70-73 | a transient failure before the last attempt sleeps and retries with the same result |
| CocClient.RetryStops | backend/services/coc_client.py:63-69 | a success, a signal, or a failure on the last attempt ends the loop after one fetch |
| CocClient.RetryFrom | backend/services/coc_client.py:62-74 | from any attempt on, the first attempt that is not a transient failure (or the last) decides the result |
| CocClient.RetryOutcome | backend/services/coc_client.py:61-74 | the whole loop: the result of the deciding attempt, after fetches and sleeps of 1 then 2 seconds |
| CocClient.RetryBounded | backend/services/coc_client.py:61-62 | at most three fetches and two sleeps, whatever the outcomes |
| CocClient.Client.constructor | backend/services/coc_client.py:27-28 | a new client is not logged in |
| CocClient.Client.Initialize | backend/services/coc_client.py:30-37 | logs in only when not logged in, then sets the flag |
| CocClient.Client.Close | backend/services/coc_client.py:76-80 | closes and clears the flag only when it is set |
| CocClient.Client.GetPlayer | backend/services/coc_client.py:39-74 | logs in if needed, then returns the retry loop's result for the normalised tag and logs its fetches and sleeps |
| Repository.Matching | backend/storage/repository.py:58-59 | keeps exactly the rows of the tag |
| Repository.ConsNewestFirst | backend/storage/repository.py:60 | a row no older than the head of a newest-first sequence keeps it newest first when put in front |
| Repository.Insert | backend/storage/repository.py:60 | inserting into a newest-first list keeps it newest-first and adds exactly one row |
| Repository.HeadIsNewest | backend/storage/repository.py:45-46 | the head of a newest-first list is at least as new as every row |
| Repository.SortNewestFirst | backend/storage/repository.py:60 | the sort is newest-first and a permutation of its input |
| Repository.Limit | backend/storage/repository.py:61 | `.limit(n)`: the first `n` rows, all of them when `n` is negative or large enough, never repeating a row |
| Repository.History | backend/storage/repository.py:50-64 | only rows of the tag, each no more often than in the table, newest first, at most `limit` of them and exactly that many when enough match |
| Repository.Latest | backend/storage/repository.py:39-48 | `None` exactly when no row matches; otherwise a matching row no older than any matching row |
| Repository.HistoryIsNewest | backend/storage/repository.py:58-62 | a matching row left out of the history is no newer than any row in it |
| Repository.HistoryComplete | backend/storage/repository.py:58-62 | with a large enough or negative limit, the history holds every matching row |
| Repository.LatestIsHistoryHead | backend/storage/repository.py:39-62 | the latest snapshot is the head of the history, under the model's tie order (see Repository.History under "## Left out") |
| Repository.FocusFlag | backend/storage/repository.py:88 | the stored flag is 1 exactly under war focus, else 0 |
| Repository.PlayerRepository.constructor | backend/storage/repository.py:13-15 | opens the table with the rows the database file already holds |
| Repository.PlayerRepository.SaveSnapshot | backend/storage/repository.py:17-35 | appends exactly one row with the next id, the given fields and the given time, and returns it; earlier rows are unchanged |
| Repository.PlayerRepository.GetLatestSnapshot | backend/storage/repository.py:39-48 | returns `Latest` of the table |
| Repository.PlayerRepository.GetSnapshotHistory | backend/storage/repository.py:50-64 | returns `History` of the table, with the limit 10 when none is given |
| Repository.AdviceRepository.constructor | backend/storage/repository.py:70-72 | opens the table with the rows the database file already holds |
| Repository.AdviceRepository.SaveAdvice | backend/storage/repository.py:74-96 | appends exactly one row with the snapshot id, raw response, model, the focus as 0 or 1 and the given time |
| PlayerApi.DumpOf | backend/api/player.py:42-63 | the stored raw player uses the same town hall fallback as the snapshot, copies tag, name, levels, trophies, war stars and attack and defence wins, and has a clan, with the player's clan name and tag, exactly when the player does; the league is the snapshot's |
| PlayerApi.DumpMatchesSnapshot | backend/api/player.py:42-68 | the stored raw player agrees with the returned snapshot on every field it holds |
| PlayerApi.PlayerErrorResponse | backend/api/player.py:72-89 | the status comes from the name chain alone; each status has its fixed detail, and 500 carries the message |
| PlayerApi.NotFoundStatus | backend/api/player.py:74-77 | the not-found signal maps to 404 |
| PlayerApi.MaintenanceStatus | backend/api/player.py:78-81 | the maintenance signal maps to 503 |
| PlayerApi.ForbiddenStatus | backend/api/player.py:82-85 | the access-denied signal maps to 403 |
| PlayerApi.PlayerRouteValueErrorIs500 | backend/api/player.py:72-89 | a `ValueError` is a 500 on the player route |
| PlayerApi.HistoryItems | backend/api/player.py:105-112 | the same count and order; ids and timestamps copied; a missing town hall shown as 0 |
| PlayerApi.GetPlayerHistory | backend/api/player.py:99-112 | the projection of the newest 20 snapshots of the normalised tag |
| PlayerApi.HistoryRouteShape | backend/api/player.py:99-112 | at most 20 items, all from stored rows of the normalised tag, newest first |
| PlayerApi.StoredSnapshot | backend/api/player.py:64-68 | the stored row has the snapshot's tag and town hall and the encoded raw player |
| PlayerApi.FetchAndStore | backend/api/player.py:34-68 | login, the retry loop, then close; on success exactly one snapshot row is added and the normalised snapshot returned; on failure nothing is stored |
| PlayerApi.GetPlayer | backend/api/player.py:25-89 | the normalised snapshot after one stored row, or the error response with nothing stored; the client is closed either way |
| AdviceApi.ChooseModel | backend/api/advice.py:74 | the request's model when it is set and nonempty, otherwise the default model |
| AdviceApi.AdviceErrorResponse | backend/api/advice.py:90-109 | a `ValueError` is a 400 with its message, checked first; everything else goes through the name chain |
| AdviceApi.RoutesAgree | backend/api/advice.py:92-109 | outside `ValueError`, both routes give the same status and, except for 500, the same detail |
| AdviceApi.AdviceSignalStatuses | backend/api/advice.py:94-105 | the three API signals give 404, 503 and 403 with their fixed details |
| AdviceApi.ReplyFailureStatus | backend/api/advice.py:90-109 | an unusable reply gives 400 or 500, never a signal status |
| AdviceApi.GoodReply | backend/api/advice.py:76-78 | a completion that is the JSON of some advice yields that advice and that text |
| AdviceApi.StoredAdvice | backend/api/advice.py:81-86 | the stored row carries the snapshot id, raw response, model and focus flag |
| AdviceApi.AdviseAndStore | backend/api/advice.py:73-88 | generates advice with the chosen model; on success exactly one advice row is added for the snapshot; on failure none |
| AdviceApi.GetAdvice | backend/api/advice.py:28-109 | fetch, store the snapshot, close, generate, store the advice; a failed fetch stores nothing; a failed generation keeps the snapshot and adds no advice row |

## Left out

- The chat-completion HTTP call is the parameter `complete`, from model and prompt to reply text or exception. The headers, system message, temperature, response format, timeout and `raise_for_status` are not modelled.
- `json.loads` and `json.dumps` are parameters: the decoder returns a `Json` value or an error message, and the encoder of the stored raw player is a function. No JSON text is produced or parsed. The schema example in the prompt is written out as fixed text.
- pydantic's coercions are modelled only for the field types used: a `str` accepts a JSON string, an `int` accepts an integer, an integral float or a boolean, and a `List[str]` accepts an array of strings. Numeric strings are not accepted as integers, although lax mode would accept them.
- The validation pydantic performs when `normalize_player` builds its records is left out. The raw player's fields are already typed here.
- The coc.py library is left out. Login always succeeds, and each `get_player` call's outcome comes from an input sequence. `asyncio.sleep` is recorded in the ghost log and not waited.
- Environment and key reads are left out, and so is the `ValueError` each client constructor raises when its key is missing.
- The database is left out: sessions, schema creation and database errors. Row ids are the rowids of a table nobody deletes from, that is position plus one. Timestamps are parameters, and the history's ISO formatting is not modelled.
- Repository.History: SQL leaves the order of equal timestamps unspecified; this model fixes one order for them and states only that timestamps never increase.
- FastAPI wiring, request validation of the body, `main.py` and the frontend are left out. Each route module builds its own repository over one database file; the model passes one `PlayerRepository` to both routes, as parameters.
- `async`/`await` is left out: every path is sequential.
- AdviceGenerator.UnitLines: its contract states only the line count; the content of each line is stated by AdviceGenerator.UnitLinesAt.
- AdviceGenerator.UpgradeLines: its contract states only the line count; the content of each line is stated by AdviceGenerator.UpgradeLinesAt.
- Exception messages from pydantic and Python are stand-ins, not the libraries' texts: `ValidationError("UpgradeAdvice")`, `ValidationError("AttackStrategyAdvice")` and `ValidationError("PlayerAdvice")` stand for pydantic's "1 validation error for …" reports, and `NotMapping`, "object is not iterable" and "object has no attribute 'get'" for Python's own messages. Their text still reaches the client as the 400 or 500 detail, so the exact detail of those responses is not modelled.
- AdviceGenerator.AdviceFrom: its contract states the error kind for non-objects, the `war_tips` gate and the list defaults. Acceptance as a whole is stated by the round-trip and rejection lemmas.
