# gokz.js core in Dafny

This project models the core of gokz.js, a TypeScript client for the KZ GlobalAPI. The GlobalAPI is the registry of maps, players, modes and timed runs for the KZ game modes. The project proves properties of the model.

The model has three parts.

- **Module `Prelude`** models the value logic of `src/prelude.ts`:
  - the error model (`ErrorKind`, `Error` and `Result`);
  - the unanchored SteamID pattern test;
  - the three game modes and their conversions to and from ids and strings;
  - the map and player identifiers;
  - the table-driven points-to-rank classifier and the rank labels.
- **Module `GlobalApi`** models the newer client in `src/global_api/main.ts`:
  - `ApiRequest` sorts one HTTP outcome into ok, NoData, Parsing or a GlobalAPI failure.
  - Every single-call wrapper has two parts. The request (`...Request`) holds the route and the query parameters. The handling of the answer appends " > name" to a failure's origin and turns an empty list into NoData. Every schema a wrapper uses is an object schema, which rejects `[]`, so an empty answer already fails inside `api_request`. Callers then see "No data found." with origin "api_request > name", and the wrapper's own "No ... found." branch is not reached (`ObjectSchemaEmptyIsApiNoData`).
  - The composite queries `get_unfinished`, `get_recent`, `health_check` and `is_global` are methods with loops. They take the results of their sub-requests as parameters.
- **Module `LegacyApi`** models the older client in `src/api.ts`:
  - A mutable `APIResponse` class is filled by `APIRequest`, by the last-match scans `validateMap` and `getTier`, and by `getFilters`, which marks an icon per mode.
  - It also covers the `modeMap` bijection, the mode mapping and stage path of `getTop`, the selection in `getRecent`, `validateCourse`, and the choice between the SteamID and name parameters.

Two modules support them:

- **`Js`** holds the runtime values the code works on: JSON payloads, property reads that throw on null and undefined, truthiness, `toLowerCase`, `includes`, `startsWith`, and integers in template literals. It also holds `Settled` for a promise that resolves or rejects.
- **`Http`** holds the transport boundary: a response is either a body or a transport error.

The HTTP call, the schema checks and date parsing are inputs:

- A response is `Body(data)` or `TransportError(message)`.
- A zod schema's `safeParse(x).success` is a predicate `accepts: Json -> bool`.
- `Date.parse` is a function `parseDate: string -> int`.

Where a JavaScript runtime error escapes an async function, the model returns `Rejected` with the error text. This happens in four places:

- `health_check` on a status list with fewer than ten entries;
- `health_check` on a status with fewer than two condition results;
- `getFilters` when its data is not an array;
- `getFilters` when a filter entry is null or undefined.

Points where the code's behaviour is easy to misread:

- `get_unfinished` returns a failed sub-result unchanged. It does not append its own name to the origin.
- `get_unfinished` skips `kzpro_` maps when `runtype` (`has_teleports`) is true.
- `get_recent` compares each date with the stored index, not with the stored date (see Findings).

## Model

| member | source | states |
|---|---|---|
| Prelude.SteamIdTest | src/prelude.ts:34-37 | true exactly when `STEAM_[0-1]:[0-1]:[0-9]` occurs at some position of the input (the pattern is unanchored) |
| Prelude.SteamIdTestUnanchored | src/prelude.ts:34-37 | surrounding a passing text with any prefix and suffix keeps it passing |
| Prelude.SteamIdTestExamples | src/prelude.ts:34-37 | full and embedded SteamIDs pass; lower-case `steam_` and universe digit 2 fail |
| Prelude.FromId | src/prelude.ts:53-80 | Ok exactly for ids 200, 201 and 202; every other id gives the Input error with origin "Mode.from_id()" and the message naming the id |
| Prelude.AsId | src/prelude.ts:82-92 | `from_id` of a mode's id gives back that mode's kind |
| Prelude.FromString | src/prelude.ts:130-165 | Ok exactly when the lower-cased input is one of the three registry keys, and the mode's `to_string` is that key; otherwise the Input error with origin "Mode.from_string()" quoting the input |
| Prelude.ModeIdRoundTrip | src/prelude.ts:53-92 | for every kind, `from_id(as_id)` is Ok with that kind and the id is 200, 201 or 202 |
| Prelude.IdKindRoundTrip | src/prelude.ts:53-92 | each of the ids 200, 201 and 202 is accepted by `from_id`, and `as_id` of the mode it gives is that id again |
| Prelude.ModeStringRoundTrip | src/prelude.ts:118-165 | for every mode, `from_string(to_string)` is Ok with that mode |
| Prelude.FromStringCaseInsensitive | src/prelude.ts:130-131 | an input and its lower-case form are accepted alike and give the same mode |
| Prelude.FromStringAliasesRejected | src/prelude.ts:132-162 | upper- or mixed-case keys are accepted; the aliases kztimer, kzt, simplekz, skz, vanilla and vnl are rejected with kind Input |
| Prelude.ModeProjectionsInjective | src/prelude.ts:82-128 | `as_id`, `to_string`, `fancy` and `fancy_short` each distinguish the three modes |
| Prelude.RankAt | src/prelude.ts:188-212 | the rank at position k of the enum order has position k |
| Prelude.Thresholds | src/prelude.ts:221-373 | each mode's cascade has 22 non-negative thresholds ending in 0 |
| Prelude.Classify | src/prelude.ts:221-373 | the position found is the first whose threshold the score strictly exceeds, or the table's end |
| Prelude.FromPoints | src/prelude.ts:221-373 | New exactly when points <= 0; any other rank's threshold is strictly exceeded and the next higher rank's threshold is not |
| Prelude.FromPointsMonotone | src/prelude.ts:188-373 | more points never give a lower rank in enum order |
| Prelude.ThresholdsDescending | src/prelude.ts:221-373 | every mode's thresholds strictly decrease from Legend to BeginnerMinus |
| Prelude.ThresholdsFallStepwise | src/prelude.ts:221-373 | in every mode each threshold is below the one before it |
| Prelude.StepwiseDescending | src/prelude.ts:221-373 | a table that falls at every step falls between any two positions, which is why the first exceeded threshold decides the rank |
| Prelude.RankByThreshold | src/prelude.ts:221-373 | a score above threshold k and at most threshold k - 1 gets rank k |
| Prelude.ThresholdIsStrict | src/prelude.ts:221-373 | a score equal to a threshold falls into the rank below; one point more reaches the rank |
| Prelude.KZTimerLegendBoundary | src/prelude.ts:224-227 | KZTimer: 1_000_001 points is Legend, 1_000_000 is Master |
| Prelude.SimpleKZLegendBoundary | src/prelude.ts:274-275 | SimpleKZ: 800_001 points is Legend, 800_000 is Master |
| Prelude.VanillaLegendBoundary | src/prelude.ts:324-325 | Vanilla: 600_001 points is Legend, 600_000 is Master |
| Prelude.RankLabelInjective | src/prelude.ts:375-424 | distinct ranks have distinct labels |
| GlobalApi.ApiRequest | src/global_api/main.ts:26-84 | Ok with the data unchanged exactly when the schema accepts the data or its element 0. A transport error or a throwing element read gives GlobalAPI with the error text as raw. Otherwise a payload of length 0 gives NoData with raw null and anything else gives Parsing with the payload as raw. Every error has origin "api_request". |
| GlobalApi.GetBans | src/global_api/main.ts:86-120 | a failure keeps kind, tldr and raw and gets " > get_bans" appended to its origin; an empty list is NoData "No bans found."; a non-empty list passes through |
| GlobalApi.GetMaps | src/global_api/main.ts:122-157 | the same with "get_maps" and "No maps found." |
| GlobalApi.GetMap | src/global_api/main.ts:159-211 | the same with "get_map" and "No map found."; a non-empty answer gives its element 0 |
| GlobalApi.GetModes | src/global_api/main.ts:213-243 | the same with "get_modes" and "No modes found." |
| GlobalApi.GetPlayer | src/global_api/main.ts:255-304 | the same with "get_player" and "No player found."; a non-empty answer gives its element 0 |
| GlobalApi.GetFilters | src/global_api/main.ts:306-359 | a map given by name gives the Input error with origin "get_filters" whatever the answer; for an id, the chaining and NoData behaviour with "get_filters" and "No filters found." |
| GlobalApi.GetFilterDist | src/global_api/main.ts:361-401 | failures get " > get_filter_dist"; an empty list is NoData with origin "get_filters" |
| GlobalApi.GetTimes | src/global_api/main.ts:403-457 | the chaining and NoData behaviour with "get_times" and "No records found." |
| GlobalApi.GetWr | src/global_api/main.ts:509-565 | the same with "get_wr" and "No WR found."; element 0 on success |
| GlobalApi.GetPb | src/global_api/main.ts:567-636 | the same with "get_pb" and "No PB found."; element 0 on success |
| GlobalApi.GetMaptop | src/global_api/main.ts:638-692 | the same with "get_maptop" and "Map has 0 completions." |
| GlobalApi.ObjectSchemaEmptyIsApiNoData | src/global_api/main.ts:39-58 | with a schema that accepts only objects, an empty answer reaches `get_times` and `get_map` callers as NoData "No data found." with origin "api_request > get_times" or "api_request > get_map" |
| GlobalApi.TransportFailureThroughGetMaps | src/global_api/main.ts:72-81 | a transport failure reaches the caller of `get_maps` with origin "api_request > get_maps" and the message as raw |
| GlobalApi.MapIdentifierFillsOneParam | src/global_api/main.ts:166-176 | a map identifier fills exactly one of its two query parameters in `get_map`, `get_wr`, `get_pb` and `get_maptop`; `get_filters` builds a request only for an id |
| GlobalApi.PlayerIdentifierFillsOneParam | src/global_api/main.ts:260-270 | a player identifier fills exactly one of its two query parameters in `get_player`, `get_times` and `get_pb` |
| GlobalApi.RequestsNameTheirMode | src/global_api/main.ts:361-371 | the filter request sends an id that `from_id` decodes to the requested mode, and the times, WR, PB and maptop requests send a key that `from_string` decodes to that mode |
| GlobalApi.RunMapIdsMembership | src/global_api/main.ts:476-479 | an id is completed exactly when some run has that map id |
| GlobalApi.UncompletedIdsMembership | src/global_api/main.ts:481-486 | an id is uncompleted exactly when some doable filter has it and it is not completed |
| GlobalApi.UnfinishedNamesMembership | src/global_api/main.ts:493-502 | a name is listed exactly when some catalog entry with that name has an uncompleted id, matches a truthy tier, and is not a `kzpro_` map on a teleport run |
| GlobalApi.UnfinishedNamesAppend | src/global_api/main.ts:493-502 | filtering keeps catalog order: the filter of a concatenation is the concatenation of the filters |
| GlobalApi.UnfinishedExample | src/global_api/main.ts:475-506 | with maps 1 to 5, filters on 1 to 4 and runs on 1 and 3, maps 2 and 4 are unfinished; a tier only map 2 has leaves map 2 |
| GlobalApi.UnfinishedRequestsNameOneMode | src/global_api/main.ts:465-471 | the filter and records requests of `get_unfinished` name the same mode, each in a form the registry decodes back to it, and the same teleport category |
| GlobalApi.GetUnfinished | src/global_api/main.ts:459-507 | checks filters, then runs, then catalog, and returns the first failure unchanged; otherwise the unfinished names of the catalog; no completed runs gives get_times' NoData error |
| GlobalApi.EarliestLatestUnique | src/global_api/main.ts:735-746 | at most one index is the earliest holding the latest date |
| GlobalApi.RecentRequestsCoverCategories | src/global_api/main.ts:704-715 | the six `get_times` calls of `get_recent` cover the main course of every mode in both teleport categories |
| GlobalApi.CollectRecords | src/global_api/main.ts:704-721 | the records of every answer `get_times` lets through, in answer order |
| GlobalApi.GetRecent | src/global_api/main.ts:694-748 | corrected: NoData "No recent record found." when no records; otherwise the earliest record with the latest date above 0, or the first record when no date is above 0 |
| GlobalApi.AsWrittenIndex | src/global_api/main.ts:735-746 | as written: the index the scan ends on lies in range |
| GlobalApi.GetRecentAsWritten | src/global_api/main.ts:694-748 | the record the source returns is the one at `AsWrittenIndex` of the parsed dates |
| GlobalApi.AsWrittenPicksOlderRecord | src/global_api/main.ts:738-742 | on dates 2000 then 1000 the source picks the record dated 1000, which is not the latest |
| GlobalApi.LaterLastAgrees | src/global_api/main.ts:735-746 | when the later of two positive dates comes last, both readings pick it |
| GlobalApi.AsWrittenTakesLast | src/global_api/main.ts:735-746 | when every date is at least the number of records, as millisecond timestamps are, the source returns the last record |
| GlobalApi.TallyCounts | src/global_api/main.ts:777-790 | the tally of condition c is the number of statuses whose condition c succeeded, so at most their number |
| GlobalApi.HealthCheck | src/global_api/main.ts:760-796 | a failure gets " > health_check"; with ten readable statuses, the two counts over the first ten, each at most 10; a shorter list or status rejects |
| GlobalApi.IsGlobal | src/global_api/main.ts:798-837 | Ok exactly when some entry matches, and then it gives the first match. A name matches an entry whose name contains the lower-cased query; an id must be equal. No match gives NoData "This map is not global." with origin "is_global". |
| LegacyApi.APIResponse.constructor | src/api.ts:5-13 | a new response is unsuccessful with no data and no error |
| LegacyApi.UnwrapArrays | src/api.ts:32-34 | several records stay an array, one truthy record is unwrapped, an empty array is stored as it is |
| LegacyApi.LegacyUnwrapsSingleton | src/api.ts:27-35 | for a one-record answer the newer `api_request` keeps the array while the legacy request stores the element |
| LegacyApi.APIRequest | src/api.ts:18-43 | success exactly when the schema accepts element 0 or the data, with the unwrapped data stored. A transport error or a throwing read stores the error text. A rejected payload stores "API Error." with no data. |
| LegacyApi.ValidateMap | src/api.ts:135-145 | success exactly when some name contains the lower-cased query, and then the last such map; otherwise "That map is not global." and no data |
| LegacyApi.GetTier | src/api.ts:147-158 | success exactly when some lower-cased name contains the query, and then the difficulty of the last such map; otherwise "That map is not global." |
| LegacyApi.InitialFilterAgreesWithMode | src/api.ts:206-228 | the filter table's mode, display name, short name and id are the newer Mode's `to_string`, `fancy`, `fancy_short` and `as_id` |
| LegacyApi.GetFilters | src/api.ts:160-247 | A failure stores "This map does not have any filters.". A successful array is replaced by the table, where a mode's icon is ✅ exactly when some filter has its mode id and the other fields are unchanged. A non-array answer, including one unwrapped single filter, or a null entry makes the call reject. |
| LegacyApi.MarkIcons | src/api.ts:230-242 | the forEach completes exactly when every entry can be read, and then each icon is ✅ exactly when some filter has that mode's id |
| LegacyApi.BuildModeMap | src/api.ts:281-288 | six keys, each mapped to a different key that maps back to it; a registry key maps to the mode's `fancy_short` |
| LegacyApi.TopModeId | src/api.ts:360-364 | 200 exactly for "kz_timer", 201 exactly for "kz_simple", 202 for every other string |
| LegacyApi.TopModeIdMatchesAsId | src/api.ts:360-364 | on the three registry keys the id equals the newer Mode's `as_id` |
| LegacyApi.TopModeIdIsExact | src/api.ts:360-364 | unlike `from_string`, the mapping is case-sensitive: "KZ_TIMER" and "KZT" give 202 |
| LegacyApi.JoinedAppend | src/api.ts:367 | appending per-element texts distributes over concatenation |
| LegacyApi.StagesQueryAppend | src/api.ts:367 | the stage query of two lists in a row is the concatenation of their queries |
| LegacyApi.TopParams | src/api.ts:354-364 | mode_ids is set exactly for a mode given as text, to its `TopModeId`; the other keys are always tickrates 128, has_teleports the run type, and limit 100 |
| LegacyApi.TopPath | src/api.ts:366-367 | the path is the world-records route followed by one "stages=h&" per stage, in order |
| LegacyApi.AppendedIsJoined | src/api.ts:366-367 | appending each element's text to a string in turn gives the string followed by the texts joined in order |
| LegacyApi.PlayerParamsPick | src/api.ts:290-296 | getPlayer fills steam_id with the identifier exactly when it contains a SteamID, and `name` otherwise |
| LegacyApi.PbParamsPick | src/api.ts:397-401 | getPB fills steam_id exactly when the identifier contains a SteamID, and player_name otherwise; map_id for a number, map_name for text |
| LegacyApi.TimesParamsPick | src/api.ts:420-421 | getTimes fills steam_id exactly when the identifier contains a SteamID, and player_name otherwise |
| LegacyApi.LastLatestUnique | src/api.ts:462-469 | at most one index is the last holding the latest date |
| LegacyApi.TieBreaksDiffer | src/api.ts:462-469 | on equal dates the legacy client picks the later record, the newer one the earlier |
| LegacyApi.Max | src/api.ts:467 | the maximum is one of the keys and at least every key |
| LegacyApi.LegacyRecentQueriesMatch | src/api.ts:430-443 | the six legacy `getTimes` calls are the newer client's queries in the same order, each mode named by its registry key |
| LegacyApi.CollectLegacy | src/api.ts:445-456 | the records of every answer that is a list, in answer order; an unwrapped single record contributes nothing |
| LegacyApi.KeyByDate | src/api.ts:462-466 | every parsed date is a key; a key holds the stamped copy of the last record with that date; the insertion-order list holds exactly the keys |
| LegacyApi.GetRecent | src/api.ts:427-473 | "This player has no recent times." when no records; otherwise the last record with the latest parsed date, with created_on replaced by that date |
| LegacyApi.ValidateCourseRange | src/api.ts:480-483 | for a map with bonuses >= 0, course 0 and each bonus 1..bonuses are valid and bonuses + 1 is not; every negative course is also accepted, since the comparison has no lower bound |
| LegacyApi.ValidateCourseDownward | src/api.ts:480-483 | every course below a valid one is valid |

## Left out

- HTTP transport, base URLs and the `.then`/`.catch` plumbing: the outcome of a GET is an input, and the address is not assembled. The health route is a full URL, yet `api_request` puts the base URL in front of it.
- Schema validation (zod): a schema is a predicate on JSON values. The typed reading of an accepted payload is the caller-given `decode` of `Decoded`. The wrappers take the already read list, so a scalar payload accepted by a schema is not modelled. The opposite case is dropped too: `GlobalApi.HealthCheck` takes a decoded `HealthReport`, so it cannot represent an array answer whose element 0 passes the schema. On that input the source reads `.results` as undefined and throws when it indexes it.
- Promise.all concurrency: the six answers of `get_recent` and `getRecent` are a sequence in a fixed order.
- Date.parse: an uninterpreted `parseDate` to integers. NaN and fractional times are out of scope.
- JavaScript numbers are integers. Points, ids and dates are never fractional here.
- `toLowerCase` lower-cases only the ASCII letters.
- `length` of an object whose `length` field is not a number is treated as absent. JavaScript would coerce it in `> 1`.
- `get_mode` and `get_place` return `api_request`'s answer unchanged, so what they return is `ApiRequest`. The fixed routes and parameters of `get_bans`, `get_modes`, `get_mode`, `get_place` and `health_check` are not modelled; they hold no choice.
- The legacy thin wrappers (`getMaps`, `getMap`, `getFilterDist`, `getModes`, `getMode`, `getWR`, `getMaptop`, `getPlace`, `custom`) only call `APIRequest`. `getMap` chooses between id and name by `typeof`, the same choice `getPB` makes (`PbParamsPick`), and it is not modelled separately for `getMap`. Their parameter objects are not modelled, except the identifier choice in getPlayer, getPB and getTimes.
- `APIStatus`, `getMapsKZGO`, `getMapKZGO` and `getMapcycle`: raw requests to other services with no logic of their own.
- The schema descriptor files (`src/types.ts` and the per-resource files under `src/global_api/`) declare zod shapes only. Records carry just the fields the queries read.
- `console.log` side effects.
- LegacyApi.GetRecent: the source overwrites `created_on` of the shared record objects in place. The model returns a stamped copy and does not model that aliasing.
- LegacyApi.GetFilters: the rejection reason for a non-array is a fixed TypeError text. JavaScript's exact message depends on the runtime.
- GlobalApi.HealthCheck: a status with fewer than two condition results rejects after the first count was taken. The model does not expose that partial count, since a rejected promise carries none.

## Findings

| source | as written | input that shows it | evidently intended | confidence | as-written member | corrected member |
|---|---|---|---|---|---|---|
| src/global_api/main.ts:735-746 | `get_recent` keeps `recent = [date, i]` but tests `date > recent[1]`, comparing each date with the stored index | two records dated 2000 and then 1000 (any positive dates with the later one first): the record dated 1000 is returned | compare with `recent[0]`, giving the earliest record with the latest date above 0, or `records[0]` | not executed | GlobalApi.GetRecentAsWritten, GlobalApi.AsWrittenPicksOlderRecord | GlobalApi.GetRecent |
