/**
 * The older client. Every call fills a mutable `APIResponse` (success flag,
 * optional data, optional error text) instead of returning a Result, and a
 * successful request unwraps a one-element array into its element.
 */
module LegacyApi {
  import opened Js
  import opened Http
  import opened Prelude
  import GlobalApi

  class APIResponse<D> {
    var success: bool
    var data: Option<D>
    var error: Option<string>

    constructor()
      ensures !success && data == None && error == None
    {
      success := false;
      data := None;
      error := None;
    }
  }

  // -------------------------------------------------------------- APIRequest

  /**
   * What a successful request stores: element 0 when it is truthy, unless the
   * payload's length is a number above 1, in which case the whole payload.
   */
  function Unwrap(data: Json): Json
    requires Index0(data).Got?
  {
    var first := Index0(data).value;
    if Truthy(first) then
      if Length(data).Some? && Length(data).value > 1 then data else first
    else data
  }

  /** On arrays: several records stay an array, a single record is unwrapped, an empty array stays as it is. */
  lemma UnwrapArrays(items: seq<Json>)
    ensures |items| > 1 && Truthy(items[0]) ==> Unwrap(JArray(items)) == JArray(items)
    ensures |items| == 1 && Truthy(items[0]) ==> Unwrap(JArray(items)) == items[0]
    ensures |items| == 0 || !Truthy(items[0]) ==> Unwrap(JArray(items)) == JArray(items)
  {
  }

  /**
   * Where the two clients part: for a one-record answer the newer
   * `api_request` returns the array, the legacy request its element.
   */
  lemma LegacyUnwrapsSingleton(x: Json, accepts: Json -> bool)
    requires Truthy(x) && accepts(x)
    ensures GlobalApi.ApiRequest(Body(JArray([x])), accepts) == Ok(JArray([x]))
    ensures Unwrap(JArray([x])) == x && x != JArray([x])
  {
  }

  /**
   * `APIRequest`. The acceptance test is the newer client's (element 0 or the
   * whole payload); a throwing read of element 0 lands in the catch handler
   * with the transport errors, whose text becomes the error.
   */
  method APIRequest(response: Response, accepts: Json -> bool) returns (res: APIResponse<Json>)
    ensures fresh(res)
    ensures res.success <==> response.Body? && GlobalApi.Accepted(response.data, accepts)
    ensures res.success ==> res.data == Some(Unwrap(response.data)) && res.error == None
    ensures !res.success ==> res.data == None
    ensures response.TransportError? ==> res.error == Some(response.message)
    ensures response.Body? && Index0(response.data).Threw? ==> res.error == Some(Index0(response.data).error)
    ensures response.Body? && Index0(response.data).Got? && !GlobalApi.Accepted(response.data, accepts) ==>
      res.error == Some("API Error.")
  {
    res := new APIResponse<Json>();
    match response {
      case TransportError(message) =>
        res.error := Some(message);
      case Body(data) =>
        match Index0(data) {
          case Threw(why) =>
            res.error := Some(why);
          case Got(first) =>
            if accepts(first) || accepts(data) {
              res.success := true;
              if Truthy(first) {
                res.data := Some(if Length(data).Some? && Length(data).value > 1 then data else first);
              } else {
                res.data := Some(data);
              }
            } else {
              res.error := Some("API Error.");
            }
        }
    }
  }

  // ------------------------------------------------ validateMap and getTier

  /**
   * `validateMap`: every entry whose name contains the lower-cased query
   * overwrites the previous match, so the last one wins.
   */
  method ValidateMap(mapName: string, mapList: seq<GlobalApi.MapRecord>) returns (res: APIResponse<GlobalApi.MapRecord>)
    ensures fresh(res)
    ensures res.success <==> exists i :: 0 <= i < |mapList| && Contains(mapList[i].name, ToLower(mapName))
    ensures res.success ==> res.error == None && exists i :: (0 <= i < |mapList| && res.data == Some(mapList[i])
      && Contains(mapList[i].name, ToLower(mapName))
      && forall j :: i < j < |mapList| ==> !Contains(mapList[j].name, ToLower(mapName)))
    ensures !res.success ==> res.data == None && res.error == Some("That map is not global.")
  {
    res := new APIResponse<GlobalApi.MapRecord>();
    ghost var last := -1;
    for i := 0 to |mapList|
      invariant -1 <= last < i && res.error == None
      invariant res.success <==> last >= 0
      invariant last < 0 ==> res.data == None
      invariant last >= 0 ==> res.data == Some(mapList[last]) && Contains(mapList[last].name, ToLower(mapName))
      invariant forall j :: last < j < i ==> !Contains(mapList[j].name, ToLower(mapName))
    {
      if Contains(mapList[i].name, ToLower(mapName)) {
        res.success := true;
        res.data := Some(mapList[i]);
        last := i;
      }
    }
    if !res.success {
      res.error := Some("That map is not global.");
    }
  }

  /**
   * `getTier`: the catalog name is lower-cased, the query is not; the last
   * containing entry wins and its difficulty is the answer.
   */
  method GetTier(mapName: string, mapList: seq<GlobalApi.MapRecord>) returns (res: APIResponse<int>)
    ensures fresh(res)
    ensures res.success <==> exists i :: 0 <= i < |mapList| && Contains(ToLower(mapList[i].name), mapName)
    ensures res.success ==> res.error == None && exists i :: (0 <= i < |mapList| && res.data == Some(mapList[i].difficulty)
      && Contains(ToLower(mapList[i].name), mapName)
      && forall j :: i < j < |mapList| ==> !Contains(ToLower(mapList[j].name), mapName))
    ensures !res.success ==> res.data == None && res.error == Some("That map is not global.")
  {
    res := new APIResponse<int>();
    ghost var last := -1;
    for i := 0 to |mapList|
      invariant -1 <= last < i && res.error == None
      invariant res.success <==> last >= 0
      invariant last < 0 ==> res.data == None
      invariant last >= 0 ==> res.data == Some(mapList[last].difficulty) && Contains(ToLower(mapList[last].name), mapName)
      invariant forall j :: last < j < i ==> !Contains(ToLower(mapList[j].name), mapName)
    {
      if Contains(ToLower(mapList[i].name), mapName) {
        res.success := true;
        res.data := Some(mapList[i].difficulty);
        last := i;
      }
    }
    if !res.success {
      res.error := Some("That map is not global.");
    }
  }

  // --------------------------------------------------------------- getFilters

  datatype ModeFilter = ModeFilter(mode: string, displayMode: string, abbrMode: string, modeID: int, icon: string)

  const Missing := "❌"
  const Present := "✅"

  /** The entry `getFilters` starts from for each mode, icon unmarked. */
  function InitialFilter(kind: ModeKind): ModeFilter
  {
    match kind
    case KZTimer => ModeFilter("kz_timer", "KZTimer", "KZT", 200, Missing)
    case SimpleKZ => ModeFilter("kz_simple", "SimpleKZ", "SKZ", 201, Missing)
    case Vanilla => ModeFilter("kz_vanilla", "Vanilla", "VNL", 202, Missing)
  }

  /** The literals of the legacy filter table are the newer Mode's projections. */
  lemma InitialFilterAgreesWithMode(kind: ModeKind)
    ensures var m := Mode(kind);
      InitialFilter(kind) == ModeFilter(ToString(m), Fancy(m), FancyShort(m), AsId(m), Missing)
  {
  }

  /** Some of the first n filters carries mode_id `id` (compared as a number, as `switch` does). */
  predicate HasModeId(items: seq<Json>, id: int, n: int)
    requires n <= |items|
  {
    exists j :: 0 <= j < n && Field(items[j], "mode_id") == Got(JNumber(id))
  }

  /** The entry of `kind` after looking at the first n filters. */
  function Marked(kind: ModeKind, items: seq<Json>, n: int): (f: ModeFilter)
    requires n <= |items|
  {
    InitialFilter(kind).(icon := if HasModeId(items, InitialFilter(kind).modeID, n) then Present else Missing)
  }

  /** The object `getFilters` stores as its data. */
  function FilterJson(f: ModeFilter): Json
  {
    JObject(map["mode" := JString(f.mode), "displayMode" := JString(f.displayMode), "abbrMode" := JString(f.abbrMode),
      "modeID" := JNumber(f.modeID), "icon" := JString(f.icon)])
  }

  function FiltersJson(kzt: ModeFilter, skz: ModeFilter, vnl: ModeFilter): Json
  {
    JObject(map["KZT" := FilterJson(kzt), "SKZ" := FilterJson(skz), "VNL" := FilterJson(vnl)])
  }

  /** `forEach` runs only on an array, and reading mode_id throws only on null or undefined entries. */
  predicate Markable(payload: Json)
  {
    payload.JArray? && forall i :: 0 <= i < |payload.items| ==> Field(payload.items[i], "mode_id").Got?
  }

  /**
   * `getFilters`, given the answer to its request. A single filter is
   * unwrapped into a non-array, which has no `forEach`, so the call rejects.
   */
  method GetFilters(response: Response, accepts: Json -> bool) returns (r: Settled<APIResponse<Json>>)
    ensures r.Fulfilled? ==> fresh(r.value)
    ensures !(response.Body? && GlobalApi.Accepted(response.data, accepts)) ==>
      r.Fulfilled? && !r.value.success && r.value.data == None
      && r.value.error == Some("This map does not have any filters.")
    ensures response.Body? && GlobalApi.Accepted(response.data, accepts) ==>
      (r.Fulfilled? <==> Markable(Unwrap(response.data)))
    ensures response.Body? && GlobalApi.Accepted(response.data, accepts) && Markable(Unwrap(response.data)) ==>
      var items := Unwrap(response.data).items;
      r.Fulfilled? && r.value.success && r.value.error == None
      && r.value.data == Some(FiltersJson(Marked(KZTimer, items, |items|), Marked(SimpleKZ, items, |items|),
        Marked(Vanilla, items, |items|)))
    ensures (response.Body? && response.data.JArray? && |response.data.items| == 1 && Truthy(response.data.items[0])
      && !response.data.items[0].JArray? && GlobalApi.Accepted(response.data, accepts)) ==> r.Rejected?
  {
    var res := APIRequest(response, accepts);
    if !res.success {
      res.error := Some("This map does not have any filters.");
      return Fulfilled(res);
    }
    var payload := res.data.value;
    if !payload.JArray? {
      return Rejected("TypeError: res.data.forEach is not a function");
    }
    var marked := MarkIcons(payload.items);
    if marked.Rejected? {
      return Rejected(marked.reason);
    }
    res.data := Some(marked.value);
    return Fulfilled(res);
  }

  /** The `forEach` of `getFilters`: mark the icon of each mode some filter names. */
  method MarkIcons(items: seq<Json>) returns (r: Settled<Json>)
    ensures r.Fulfilled? <==> Markable(JArray(items))
    ensures r.Fulfilled? ==>
      r.value == FiltersJson(Marked(KZTimer, items, |items|), Marked(SimpleKZ, items, |items|),
        Marked(Vanilla, items, |items|))
  {
    var kzt, skz, vnl := InitialFilter(KZTimer), InitialFilter(SimpleKZ), InitialFilter(Vanilla);
    for i := 0 to |items|
      invariant forall j :: 0 <= j < i ==> Field(items[j], "mode_id").Got?
      invariant kzt == Marked(KZTimer, items, i)
      invariant skz == Marked(SimpleKZ, items, i)
      invariant vnl == Marked(Vanilla, items, i)
    {
      match Field(items[i], "mode_id") {
        case Threw(why) =>
          return Rejected(why);
        case Got(modeId) =>
          if modeId == JNumber(200) {
            kzt := kzt.(icon := Present);
          } else if modeId == JNumber(201) {
            skz := skz.(icon := Present);
          } else if modeId == JNumber(202) {
            vnl := vnl.(icon := Present);
          }
      }
    }
    return Fulfilled(FiltersJson(kzt, skz, vnl));
  }

  // ------------------------------------------------------------------ modeMap

  /** `modeMap`: registry keys and short names, each looked up to the other. */
  method BuildModeMap() returns (modeMap: map<string, string>)
    ensures modeMap.Keys == {"kz_timer", "kz_simple", "kz_vanilla", "KZT", "SKZ", "VNL"}
    ensures forall k :: k in modeMap ==> modeMap[k] in modeMap && modeMap[modeMap[k]] == k && modeMap[k] != k
    ensures forall kind: ModeKind :: modeMap[ToString(Mode(kind))] == FancyShort(Mode(kind))
  {
    modeMap := map[];
    modeMap := modeMap["kz_timer" := "KZT"];
    modeMap := modeMap["kz_simple" := "SKZ"];
    modeMap := modeMap["kz_vanilla" := "VNL"];
    modeMap := modeMap["KZT" := "kz_timer"];
    modeMap := modeMap["SKZ" := "kz_simple"];
    modeMap := modeMap["VNL" := "kz_vanilla"];
  }

  // ------------------------------------------------------------------- getTop

  /** `getTop` takes its mode as a registry key or as a number. */
  datatype ModeArg = ModeText(text: string) | ModeNumber(n: int)

  /** The id `getTop` sends for a mode given as text: anything but the first two keys means Vanilla. */
  function TopModeId(mode: string): (id: int)
    ensures id == 200 <==> mode == "kz_timer"
    ensures id == 201 <==> mode == "kz_simple"
    ensures id == 202 <==> mode != "kz_timer" && mode != "kz_simple"
  {
    if mode == "kz_timer" then 200 else if mode == "kz_simple" then 201 else 202
  }

  /** On the three registry keys the mapping is the newer Mode's id. */
  lemma TopModeIdMatchesAsId(kind: ModeKind)
    ensures TopModeId(ToString(Mode(kind))) == AsId(Mode(kind))
  {
  }

  /** Unlike `from_string`, the mapping is case-sensitive and knows no short names. */
  lemma TopModeIdIsExact()
    ensures FromString("KZ_TIMER") == Ok(Mode(KZTimer)) && TopModeId("KZ_TIMER") == 202
    ensures TopModeId("KZT") == 202
  {
    assert ToLower("KZ_TIMER") == "kz_timer";
  }

  /** The query text `getTop` appends: one "stages=h&" per stage, in order. */
  function StagesQuery(stages: seq<int>): string
  {
    Joined(StageParam, stages)
  }

  function StageParam(h: int): string
  {
    "stages=" + IntToString(h) + "&"
  }

  /** The texts `part` gives the elements of `xs`, concatenated in order. */
  function Joined(part: int -> string, xs: seq<int>): string
  {
    if xs == [] then "" else Joined(part, xs[..|xs| - 1]) + part(xs[|xs| - 1])
  }

  lemma {:induction false} JoinedAppend(part: int -> string, a: seq<int>, b: seq<int>)
    ensures Joined(part, a + b) == Joined(part, a) + Joined(part, b)
  {
    if b == [] {
      assert a + b == a;
    } else {
      assert (a + b)[..|a + b| - 1] == a + b[..|b| - 1];
      JoinedAppend(part, a, b[..|b| - 1]);
    }
  }

  /** The stage parameters of two lists in a row are those of their concatenation. */
  lemma StagesQueryAppend(a: seq<int>, b: seq<int>)
    ensures StagesQuery(a + b) == StagesQuery(a) + StagesQuery(b)
  {
    JoinedAppend(StageParam, a, b);
  }

  /** The parameters `getTop` sends: mode_ids only for a mode given as text. */
  function TopParams(mode: ModeArg, runtype: bool): (params: map<string, Param>)
    ensures ("mode_ids" in params) <==> mode.ModeText?
    ensures mode.ModeText? ==> params["mode_ids"] == PNumber(TopModeId(mode.text))
    ensures params.Keys - {"mode_ids"} == {"tickrates", "has_teleports", "limit"}
    ensures params["has_teleports"] == PBool(runtype)
    ensures params["tickrates"] == PNumber(128) && params["limit"] == PNumber(100)
  {
    var base := map["tickrates" := PNumber(128), "has_teleports" := PBool(runtype), "limit" := PNumber(100)];
    match mode
    case ModeNumber(_) => base
    case ModeText(text) => base["mode_ids" := PNumber(TopModeId(text))]
  }

  /** The path `getTop` requests, built by appending each stage's parameter. */
  method TopPath(stages: seq<int>) returns (path: string)
    ensures path == "records/top/world_records?" + StagesQuery(stages)
  {
    path := "records/top/world_records?";
    for i := 0 to |stages|
      invariant Appended(StageParam, path, stages[i..]) == Appended(StageParam, "records/top/world_records?", stages)
    {
      assert stages[i..][0] == stages[i] && stages[i..][1..] == stages[i + 1..];
      path := path + StageParam(stages[i]);
    }
    assert stages[|stages|..] == [];
    AppendedIsJoined(StageParam, "records/top/world_records?", stages);
  }

  /** `acc` after `acc += part(x)` for each x of `xs` in turn. */
  function Appended(part: int -> string, acc: string, xs: seq<int>): string
    decreases |xs|
  {
    if xs == [] then acc else Appended(part, acc + part(xs[0]), xs[1..])
  }

  lemma {:induction false} AppendedIsJoined(part: int -> string, acc: string, xs: seq<int>)
    ensures Appended(part, acc, xs) == acc + Joined(part, xs)
    decreases |xs|
  {
    if xs == [] {
      assert acc + "" == acc;
    } else {
      AppendedIsJoined(part, acc + part(xs[0]), xs[1..]);
      assert xs == [xs[0]] + xs[1..];
      JoinedAppend(part, [xs[0]], xs[1..]);
      assert [xs[0]][..0] == [];
      assert Joined(part, [xs[0]]) == part(xs[0]);
    }
  }

  // ------------------------------------------------------ identifier params

  /** The player parameter: steam_id when the text contains a SteamID, the query's own name key otherwise. */
  function PlayerIdParam(identifier: string, nameKey: string): map<string, Param>
  {
    if SteamIdTest(identifier) then map["steam_id" := PString(identifier)] else map[nameKey := PString(identifier)]
  }

  function PlayerParams(identifier: string): map<string, Param>
  {
    map["limit" := PNumber(1)] + PlayerIdParam(identifier, "name")
  }

  function PbParams(identifier: string, ident: MapIdentifier, course: int, mode: string, runtype: bool): map<string, Param>
  {
    map["tickrate" := PNumber(128), "stage" := PNumber(course), "modes_list_string" := PString(mode),
      "has_teleports" := PBool(runtype), "limit" := PNumber(1)] + PlayerIdParam(identifier, "player_name") + GlobalApi.MapParam(ident, "map_name", "map_id")
  }

  function TimesParams(identifier: string, mode: string, runtype: bool): map<string, Param>
  {
    map["tickrate" := PNumber(128), "stage" := PNumber(0), "modes_list_string" := PString(mode),
      "has_teleports" := PBool(runtype), "limit" := PNumber(9999)] + PlayerIdParam(identifier, "player_name")
  }

  /** The SteamID test picks exactly one of steam_id and the name key of getPlayer. */
  lemma PlayerParamsPick(identifier: string)
    ensures ("steam_id" in PlayerParams(identifier)) == SteamIdTest(identifier)
    ensures ("name" in PlayerParams(identifier)) == !SteamIdTest(identifier)
    ensures SteamIdTest(identifier) ==> PlayerParams(identifier)["steam_id"] == PString(identifier)
    ensures !SteamIdTest(identifier) ==> PlayerParams(identifier)["name"] == PString(identifier)
  {
    if SteamIdTest(identifier) {
      assert PlayerParams(identifier) == map["limit" := PNumber(1), "steam_id" := PString(identifier)];
    } else {
      assert PlayerParams(identifier) == map["limit" := PNumber(1), "name" := PString(identifier)];
    }
  }

  /** getPB: steam_id or player_name for the player, map_id or map_name for the map. */
  lemma PbParamsPick(identifier: string, ident: MapIdentifier, course: int, mode: string, runtype: bool)
    ensures ("steam_id" in PbParams(identifier, ident, course, mode, runtype)) == SteamIdTest(identifier)
    ensures ("player_name" in PbParams(identifier, ident, course, mode, runtype)) == !SteamIdTest(identifier)
    ensures ("map_id" in PbParams(identifier, ident, course, mode, runtype)) == ident.MapId?
    ensures ("map_name" in PbParams(identifier, ident, course, mode, runtype)) == ident.MapName?
  {
    var player := PlayerIdParam(identifier, "player_name");
    if SteamIdTest(identifier) {
      assert player.Keys == {"steam_id"};
    } else {
      assert player.Keys == {"player_name"};
    }
  }

  /** getTimes: steam_id or player_name for the player. */
  lemma TimesParamsPick(identifier: string, mode: string, runtype: bool)
    ensures ("steam_id" in TimesParams(identifier, mode, runtype)) == SteamIdTest(identifier)
    ensures ("player_name" in TimesParams(identifier, mode, runtype)) == !SteamIdTest(identifier)
  {
    var player := PlayerIdParam(identifier, "player_name");
    if SteamIdTest(identifier) {
      assert player.Keys == {"steam_id"};
    } else {
      assert player.Keys == {"player_name"};
    }
  }

  // ---------------------------------------------------------------- getRecent

  datatype LegacyRecord = LegacyRecord(id: int, mapName: string, createdOn: string)

  /** A record after `getRecent` has overwritten created_on with its parsed value. */
  datatype StampedRecord = StampedRecord(id: int, mapName: string, createdOn: int)

  /**
   * What a legacy `getTimes` call leaves behind: a failure, the records, or a
   * lone record that `APIRequest` unwrapped. The lone record is an object
   * without `length`, so `getRecent`'s copy loop skips it. A record object
   * is truthy and `APIRequest` unwraps every one-element list whose element
   * is truthy, so an answer the source produces is never `Records([r])`: a
   * single record always arrives as `Unwrapped(r)`.
   */
  datatype LegacyTimes = Unsuccessful | Records(runs: seq<LegacyRecord>) | Unwrapped(run: LegacyRecord)

  /** The (mode, teleports) pairs `getRecent` queries, in the order their answers are read. */
  const LegacyRecentQueries: seq<(string, bool)> :=
    [("kz_timer", true), ("kz_timer", false), ("kz_simple", true), ("kz_simple", false),
     ("kz_vanilla", true), ("kz_vanilla", false)]

  /** The legacy queries are the newer client's, with each mode named by its registry key. */
  lemma LegacyRecentQueriesMatch()
    ensures |LegacyRecentQueries| == |GlobalApi.RecentQueries|
    ensures forall i :: 0 <= i < |LegacyRecentQueries| ==>
      LegacyRecentQueries[i] == (ToString(Mode(GlobalApi.RecentQueries[i].0)), GlobalApi.RecentQueries[i].1)
  {
  }

  function LegacyFlatten(answers: seq<LegacyTimes>): seq<LegacyRecord>
  {
    if answers == [] then []
    else
      var last := answers[|answers| - 1];
      LegacyFlatten(answers[..|answers| - 1]) + (if last.Records? then last.runs else [])
  }

  function Stamp(r: LegacyRecord, parseDate: string -> int): StampedRecord
  {
    StampedRecord(r.id, r.mapName, parseDate(r.createdOn))
  }

  function RecordCreatedOn(r: LegacyRecord): string
  {
    r.createdOn
  }

  /** k holds the latest date, and no later index holds it too. */
  predicate LastLatest(dates: seq<int>, k: int)
  {
    && 0 <= k < |dates|
    && (forall j :: 0 <= j < |dates| ==> dates[j] <= dates[k])
    && (forall j :: k < j < |dates| ==> dates[j] < dates[k])
  }

  lemma LastLatestUnique(dates: seq<int>, k1: int, k2: int)
    requires LastLatest(dates, k1) && LastLatest(dates, k2)
    ensures k1 == k2
  {
    assert dates[k1] <= dates[k2] && dates[k2] <= dates[k1];
  }

  /** On a tie the two clients pick different records. */
  lemma TieBreaksDiffer()
    ensures LastLatest([5, 5], 1) && !LastLatest([5, 5], 0)
    ensures GlobalApi.EarliestLatest([5, 5], 0) && !GlobalApi.EarliestLatest([5, 5], 1)
  {
  }

  /** `Math.max` over the keys. */
  function Max(xs: seq<int>): (m: int)
    requires xs != []
    ensures m in xs
    ensures forall x :: x in xs ==> x <= m
  {
    if |xs| == 1 then xs[0]
    else
      var rest := Max(xs[..|xs| - 1]);
      assert forall x :: x in xs ==> x in xs[..|xs| - 1] || x == xs[|xs| - 1];
      if xs[|xs| - 1] > rest then xs[|xs| - 1] else rest
  }

  /** The copy loop of `getRecent`: the records of every answer that is a list. */
  method CollectLegacy(answers: seq<LegacyTimes>) returns (data: seq<LegacyRecord>)
    ensures data == LegacyFlatten(answers)
  {
    data := [];
    for i := 0 to |answers|
      invariant data == LegacyFlatten(answers[..i])
    {
      assert answers[..i + 1][..i] == answers[..i];
      if answers[i].Records? {
        var runs := answers[i].runs;
        ghost var before := data;
        for k := 0 to |runs|
          invariant data == before + runs[..k]
        {
          assert runs[..k + 1] == runs[..k] + [runs[k]];
          data := data + [runs[k]];
        }
        assert runs[..|runs|] == runs;
      }
    }
    assert answers[..|answers|] == answers;
  }

  /**
   * `getRecent`: records are keyed by parsed date in a Map, so a later record
   * with the same date replaces an earlier one, and the greatest key is read.
   */
  method GetRecent(answers: seq<LegacyTimes>, parseDate: string -> int) returns (res: APIResponse<StampedRecord>)
    ensures fresh(res)
    ensures LegacyFlatten(answers) == [] ==>
      !res.success && res.data == None && res.error == Some("This player has no recent times.")
    ensures LegacyFlatten(answers) != [] ==>
      res.success && res.error == None && exists k :: (LastLatest(GlobalApi.Dates(LegacyFlatten(answers), RecordCreatedOn, parseDate), k)
        && res.data == Some(Stamp(LegacyFlatten(answers)[k], parseDate)))
  {
    res := new APIResponse<StampedRecord>();
    var data := CollectLegacy(answers);
    if |data| < 1 {
      res.error := Some("This player has no recent times.");
      return;
    }
    res.success := true;
    ghost var dates := GlobalApi.Dates(data, RecordCreatedOn, parseDate);
    var recentMaps, keys := KeyByDate(data, parseDate);
    assert dates[0] in keys;
    var recentMap := Max(keys);
    ghost var k :| 0 <= k < |data| && dates[k] == recentMap && recentMaps[recentMap] == Stamp(data[k], parseDate)
      && forall j :: k < j < |data| ==> dates[j] != recentMap;
    assert LastLatest(dates, k);
    res.data := Some(recentMaps[recentMap]);
  }

  /**
   * The Map loop of `getRecent`: `set` under each record's parsed date, so a
   * date holds the last record carrying it; `keys` is the Map's insertion order.
   */
  method KeyByDate(data: seq<LegacyRecord>, parseDate: string -> int)
    returns (recentMaps: map<int, StampedRecord>, keys: seq<int>)
    ensures forall d :: d in recentMaps <==> d in keys
    ensures forall j :: 0 <= j < |data| ==> GlobalApi.Dates(data, RecordCreatedOn, parseDate)[j] in recentMaps
    ensures forall d :: d in recentMaps ==> exists k :: (0 <= k < |data| && GlobalApi.Dates(data, RecordCreatedOn, parseDate)[k] == d
      && recentMaps[d] == Stamp(data[k], parseDate) && forall j :: k < j < |data| ==> GlobalApi.Dates(data, RecordCreatedOn, parseDate)[j] != d)
  {
    ghost var dates := GlobalApi.Dates(data, RecordCreatedOn, parseDate);
    recentMaps, keys := map[], [];
    for i := 0 to |data|
      invariant forall d :: d in recentMaps <==> d in keys
      invariant forall j :: 0 <= j < i ==> dates[j] in recentMaps
      invariant forall d :: d in recentMaps ==> exists k :: (0 <= k < i && dates[k] == d
        && recentMaps[d] == Stamp(data[k], parseDate) && forall j :: k < j < i ==> dates[j] != d)
    {
      var stamped := Stamp(data[i], parseDate);
      assert dates[i] == stamped.createdOn;
      if stamped.createdOn !in recentMaps {
        keys := keys + [stamped.createdOn];
      }
      recentMaps := recentMaps[stamped.createdOn := stamped];
    }
  }

  // ----------------------------------------------------------- validateCourse

  /** The KZGO map fields `validateCourse` reads. */
  datatype KzgoMap = KzgoMap(name: string, bonuses: int)

  /** `validateCourse`: course 0 is the main course, bonuses are numbered from 1. */
  function ValidateCourse(m: KzgoMap, course: int): bool
  {
    m.bonuses >= course
  }

  /**
   * For a map with bonuses, the main course and every bonus 1..bonuses are
   * valid and the next number is not; the comparison has no lower bound, so
   * every negative course is accepted too.
   */
  lemma ValidateCourseRange(m: KzgoMap)
    requires m.bonuses >= 0
    ensures ValidateCourse(m, 0)
    ensures forall b :: 1 <= b <= m.bonuses ==> ValidateCourse(m, b)
    ensures !ValidateCourse(m, m.bonuses + 1)
    ensures forall c :: c < 0 ==> ValidateCourse(m, c)
  {
  }

  /** Every course below a valid one is valid. */
  lemma ValidateCourseDownward(m: KzgoMap, course: int, lower: int)
    requires lower <= course && ValidateCourse(m, course)
    ensures ValidateCourse(m, lower)
  {
  }
}
