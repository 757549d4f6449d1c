/**
 * The GlobalAPI client. `ApiRequest` sorts the outcome of one GET into a
 * Result; each wrapper is split into the request it issues (`...Request`) and
 * what it makes of the answer (appending its name to a failure's origin and
 * turning an empty list into NoData); the composite queries take the answers
 * of their sub-requests as parameters.
 */
module GlobalApi {
  import opened Js
  import opened Http
  import opened Prelude

  // ------------------------------------------------------------ api_request

  /**
   * The schema check passes on the payload or on its element 0. Reading
   * element 0 of a null or undefined payload throws inside the success
   * handler, so the failure handler sees it, as it sees a transport error.
   */
  predicate Accepted(data: Json, accepts: Json -> bool)
  {
    Index0(data).Got? && (accepts(data) || accepts(Index0(data).value))
  }

  /** `api_request`: `accepts` is the endpoint schema's `safeParse(...).success`. */
  function ApiRequest(response: Response, accepts: Json -> bool): (r: Result<Json>)
    ensures r.Ok? <==> response.Body? && Accepted(response.data, accepts)
    ensures r.Ok? ==> r.value == response.data
    ensures response.TransportError? ==>
      r == Err(Error(GlobalAPI, "api_request", "GlobalAPI request failed.", JString(response.message)))
    ensures response.Body? && Index0(response.data).Threw? ==>
      r == Err(Error(GlobalAPI, "api_request", "GlobalAPI request failed.", JString(Index0(response.data).error)))
    ensures response.Body? && Index0(response.data).Got? && !Accepted(response.data, accepts) ==>
      r == if Length(response.data) == Some(0)
           then Err(Error(NoData, "api_request", "No data found.", JNull))
           else Err(Error(Parsing, "api_request", "Failed to parse GlobalAPI response.", response.data))
    ensures r.Err? ==> r.error.origin == "api_request"
  {
    match response
    case TransportError(message) =>
      Err(Error(GlobalAPI, "api_request", "GlobalAPI request failed.", JString(message)))
    case Body(data) =>
      match Index0(data)
      case Threw(why) => Err(Error(GlobalAPI, "api_request", "GlobalAPI request failed.", JString(why)))
      case Got(first) =>
        if accepts(data) || accepts(first) then Ok(data)
        else if Length(data) == Some(0) then Err(Error(NoData, "api_request", "No data found.", JNull))
        else Err(Error(Parsing, "api_request", "Failed to parse GlobalAPI response.", data))
  }

  /**
   * The source casts a successful payload to the endpoint's type; `decode`
   * stands for that reading of the payload.
   */
  function Decoded<T>(r: Result<Json>, decode: Json -> T): Result<T>
  {
    match r
    case Ok(data) => Ok(decode(data))
    case Err(e) => Err(e)
  }

  // ------------------------------------------------------- wrapper behaviour

  /** A failure comes back with the same kind, tldr and raw, and " > name" appended to its origin. */
  predicate Relayed<T, U>(api: Result<T>, r: Result<U>, name: string)
  {
    api.Err? ==> r == Err(Error(api.error.kind, api.error.origin + " > " + name, api.error.tldr, api.error.raw))
  }

  /** An empty successful list becomes NoData with the given origin and tldr. */
  predicate EmptyIsNoData<T, U>(api: Result<seq<T>>, r: Result<U>, origin: string, tldr: string)
  {
    api.Ok? && |api.value| == 0 ==> r == Err(Error(NoData, origin, tldr, JNull))
  }

  function Chain(e: Error, name: string): Error
  {
    e.(origin := e.origin + " > " + name)
  }

  /** The shared shape of the wrappers that return the whole list. */
  function Listing<T>(api: Result<seq<T>>, name: string, emptyOrigin: string, tldr: string): Result<seq<T>>
  {
    if api.Err? then Err(Chain(api.error, name))
    else if |api.value| < 1 then Err(Error(NoData, emptyOrigin, tldr, JNull))
    else api
  }

  /** The shared shape of the wrappers that return element 0. */
  function First<T>(api: Result<seq<T>>, name: string, tldr: string): Result<T>
  {
    if api.Err? then Err(Chain(api.error, name))
    else if |api.value| < 1 then Err(Error(NoData, name, tldr, JNull))
    else Ok(api.value[0])
  }

  /** `get_bans` */
  function GetBans<T>(api: Result<seq<T>>): (r: Result<seq<T>>)
    ensures Relayed(api, r, "get_bans")
    ensures EmptyIsNoData(api, r, "get_bans", "No bans found.")
    ensures api.Ok? && |api.value| > 0 ==> r == api
  {
    Listing(api, "get_bans", "get_bans", "No bans found.")
  }

  /** `get_maps` */
  function GetMaps<T>(api: Result<seq<T>>): (r: Result<seq<T>>)
    ensures Relayed(api, r, "get_maps")
    ensures EmptyIsNoData(api, r, "get_maps", "No maps found.")
    ensures api.Ok? && |api.value| > 0 ==> r == api
  {
    Listing(api, "get_maps", "get_maps", "No maps found.")
  }

  /** `get_map`: element 0 of a non-empty answer. */
  function GetMap<T>(api: Result<seq<T>>): (r: Result<T>)
    ensures Relayed(api, r, "get_map")
    ensures EmptyIsNoData(api, r, "get_map", "No map found.")
    ensures api.Ok? && |api.value| > 0 ==> r == Ok(api.value[0])
  {
    First(api, "get_map", "No map found.")
  }

  /** `get_modes` */
  function GetModes<T>(api: Result<seq<T>>): (r: Result<seq<T>>)
    ensures Relayed(api, r, "get_modes")
    ensures EmptyIsNoData(api, r, "get_modes", "No modes found.")
    ensures api.Ok? && |api.value| > 0 ==> r == api
  {
    Listing(api, "get_modes", "get_modes", "No modes found.")
  }

  /** `get_player`: element 0 of a non-empty answer. */
  function GetPlayer<T>(api: Result<seq<T>>): (r: Result<T>)
    ensures Relayed(api, r, "get_player")
    ensures EmptyIsNoData(api, r, "get_player", "No player found.")
    ensures api.Ok? && |api.value| > 0 ==> r == Ok(api.value[0])
  {
    First(api, "get_player", "No player found.")
  }

  /**
   * `get_filters`: a map given by name is refused before any request is made,
   * so the answer `api` plays no part then.
   */
  function GetFilters<T>(ident: MapIdentifier, api: Result<seq<T>>): (r: Result<seq<T>>)
    ensures ident.MapName? ==>
      r == Err(Error(Input, "get_filters", "You can only use an ID for this function.", JNull))
    ensures ident.MapId? ==> Relayed(api, r, "get_filters")
    ensures ident.MapId? ==> EmptyIsNoData(api, r, "get_filters", "No filters found.")
    ensures ident.MapId? && api.Ok? && |api.value| > 0 ==> r == api
  {
    match ident
    case MapName(_) => Err(Error(Input, "get_filters", "You can only use an ID for this function.", JNull))
    case MapId(_) => Listing(api, "get_filters", "get_filters", "No filters found.")
  }

  /** `get_filter_dist`: an empty list is reported with origin "get_filters". */
  function GetFilterDist<T>(api: Result<seq<T>>): (r: Result<seq<T>>)
    ensures Relayed(api, r, "get_filter_dist")
    ensures EmptyIsNoData(api, r, "get_filters", "No filters found.")
    ensures api.Ok? && |api.value| > 0 ==> r == api
  {
    Listing(api, "get_filter_dist", "get_filters", "No filters found.")
  }

  /** `get_times` */
  function GetTimes<T>(api: Result<seq<T>>): (r: Result<seq<T>>)
    ensures Relayed(api, r, "get_times")
    ensures EmptyIsNoData(api, r, "get_times", "No records found.")
    ensures api.Ok? && |api.value| > 0 ==> r == api
  {
    Listing(api, "get_times", "get_times", "No records found.")
  }

  /** `get_wr`: element 0 of a non-empty answer. */
  function GetWr<T>(api: Result<seq<T>>): (r: Result<T>)
    ensures Relayed(api, r, "get_wr")
    ensures EmptyIsNoData(api, r, "get_wr", "No WR found.")
    ensures api.Ok? && |api.value| > 0 ==> r == Ok(api.value[0])
  {
    First(api, "get_wr", "No WR found.")
  }

  /** `get_pb`: element 0 of a non-empty answer. */
  function GetPb<T>(api: Result<seq<T>>): (r: Result<T>)
    ensures Relayed(api, r, "get_pb")
    ensures EmptyIsNoData(api, r, "get_pb", "No PB found.")
    ensures api.Ok? && |api.value| > 0 ==> r == Ok(api.value[0])
  {
    First(api, "get_pb", "No PB found.")
  }

  /** `get_maptop` */
  function GetMaptop<T>(api: Result<seq<T>>): (r: Result<seq<T>>)
    ensures Relayed(api, r, "get_maptop")
    ensures EmptyIsNoData(api, r, "get_maptop", "Map has 0 completions.")
    ensures api.Ok? && |api.value| > 0 ==> r == api
  {
    Listing(api, "get_maptop", "get_maptop", "Map has 0 completions.")
  }

  /** A transport failure reaches a wrapper's caller with the two-step origin. */
  lemma TransportFailureThroughGetMaps<T>(message: string, accepts: Json -> bool, decode: Json -> seq<T>)
    ensures GetMaps(Decoded(ApiRequest(TransportError(message), accepts), decode))
      == Err(Error(GlobalAPI, "api_request > get_maps", "GlobalAPI request failed.", JString(message)))
  {
    assert "api_request" + " > " + "get_maps" == "api_request > get_maps";
  }

  /**
   * Every schema a wrapper uses is an object schema, which rejects both `[]`
   * and its element `undefined`; an empty answer is then NoData inside
   * `api_request`, and the wrapper only appends its name: its own
   * "No ... found." branch is not reached.
   */
  lemma ObjectSchemaEmptyIsApiNoData<T, U>(accepts: Json -> bool, decode: Json -> seq<T>, decodeOne: Json -> seq<U>)
    requires forall x :: accepts(x) ==> x.JObject?
    ensures GetTimes(Decoded(ApiRequest(Body(JArray([])), accepts), decode))
      == Err(Error(NoData, "api_request > get_times", "No data found.", JNull))
    ensures GetMap(Decoded(ApiRequest(Body(JArray([])), accepts), decodeOne))
      == Err(Error(NoData, "api_request > get_map", "No data found.", JNull))
  {
    assert !accepts(JArray([])) && !accepts(JUndefined);
    assert "api_request" + " > " + "get_times" == "api_request > get_times";
    assert "api_request" + " > " + "get_map" == "api_request > get_map";
  }

  // ---------------------------------------------------------------- requests

  /** The query parameter a map identifier fills: its name or its id. */
  function MapParam(ident: MapIdentifier, nameKey: string, idKey: string): map<string, Param>
  {
    match ident
    case MapName(name) => map[nameKey := PString(name)]
    case MapId(id) => map[idKey := PNumber(id)]
  }

  /** The query parameter a player identifier fills: its name or its SteamID. */
  function PlayerParam(ident: PlayerIdentifier, nameKey: string): map<string, Param>
  {
    match ident
    case PlayerName(name) => map[nameKey := PString(name)]
    case PlayerSteamId(steamId) => map["steam_id" := PString(steamId.value)]
  }

  const MapsRequest := Request("maps?", map["is_validated" := PBool(true), "limit" := PNumber(9999)])

  function MapRequest(ident: MapIdentifier): Request
  {
    Request("maps?", map["is_validated" := PBool(true), "limit" := PNumber(1)] + MapParam(ident, "name", "id"))
  }

  function PlayerRequest(ident: PlayerIdentifier): Request
  {
    Request("players?", PlayerParam(ident, "name"))
  }

  /** `get_filters` issues no request for a map given by name. */
  function FiltersRequest(ident: MapIdentifier): Option<Request>
  {
    match ident
    case MapName(_) => None
    case MapId(id) => Some(Request("record_filters?", map["map_ids" := PNumber(id)]))
  }

  function FilterDistRequest(mode: Mode, runtype: bool): Request
  {
    Request("record_filters?", map["mode_ids" := PNumber(AsId(mode)), "has_teleports" := PBool(runtype),
      "stages" := PNumber(0), "limit" := PNumber(9999)])
  }

  function TimesRequest(player: PlayerIdentifier, mode: Mode, runtype: bool, course: int): Request
  {
    Request("records/top?", map["modes_list_string" := PString(ToString(mode)), "has_teleports" := PBool(runtype),
      "stage" := PNumber(course), "limit" := PNumber(9999)] + PlayerParam(player, "player_name"))
  }

  function WrRequest(ident: MapIdentifier, mode: Mode, runtype: bool, course: int): Request
  {
    Request("records/top?", map["modes_list_string" := PString(ToString(mode)), "has_teleports" := PBool(runtype),
      "stage" := PNumber(course)] + MapParam(ident, "map_name", "map_id"))
  }

  function PbRequest(player: PlayerIdentifier, ident: MapIdentifier, mode: Mode, runtype: bool, course: int): Request
  {
    Request("records/top?", map["modes_list_string" := PString(ToString(mode)), "has_teleports" := PBool(runtype),
      "stage" := PNumber(course)] + PlayerParam(player, "player_name") + MapParam(ident, "map_name", "map_id"))
  }

  function MaptopRequest(ident: MapIdentifier, mode: Mode, runtype: bool, course: int): Request
  {
    Request("records/top?", map["modes_list_string" := PString(ToString(mode)), "has_teleports" := PBool(runtype),
      "stage" := PNumber(course), "limit" := PNumber(100)] + MapParam(ident, "map_name", "map_id"))
  }

  /** A map identifier fills exactly one of its two query parameters, in every request that takes one. */
  lemma MapIdentifierFillsOneParam(m: MapIdentifier, p: PlayerIdentifier, mode: Mode, runtype: bool, course: int)
    ensures ("name" in MapRequest(m).params) == m.MapName? && ("id" in MapRequest(m).params) == m.MapId?
    ensures ("map_name" in WrRequest(m, mode, runtype, course).params) == m.MapName?
    ensures ("map_id" in WrRequest(m, mode, runtype, course).params) == m.MapId?
    ensures ("map_name" in MaptopRequest(m, mode, runtype, course).params) == m.MapName?
    ensures ("map_id" in MaptopRequest(m, mode, runtype, course).params) == m.MapId?
    ensures ("map_name" in PbRequest(p, m, mode, runtype, course).params) == m.MapName?
    ensures ("map_id" in PbRequest(p, m, mode, runtype, course).params) == m.MapId?
    ensures FiltersRequest(m).Some? == m.MapId?
  {
  }

  /** A player identifier fills exactly one of its two query parameters, in every request that takes one. */
  lemma PlayerIdentifierFillsOneParam(p: PlayerIdentifier, m: MapIdentifier, mode: Mode, runtype: bool, course: int)
    ensures ("name" in PlayerRequest(p).params) == p.PlayerName?
    ensures ("steam_id" in PlayerRequest(p).params) == p.PlayerSteamId?
    ensures ("player_name" in TimesRequest(p, mode, runtype, course).params) == p.PlayerName?
    ensures ("steam_id" in TimesRequest(p, mode, runtype, course).params) == p.PlayerSteamId?
    ensures ("player_name" in PbRequest(p, m, mode, runtype, course).params) == p.PlayerName?
    ensures ("steam_id" in PbRequest(p, m, mode, runtype, course).params) == p.PlayerSteamId?
  {
  }

  /**
   * Every request that names a mode names it so that the registry decodes it
   * back: `from_id` of the sent id and `from_string` of the sent key give the
   * requested mode.
   */
  lemma RequestsNameTheirMode(p: PlayerIdentifier, m: MapIdentifier, mode: Mode, runtype: bool, course: int)
    ensures FilterDistRequest(mode, runtype).params["mode_ids"].PNumber?
    ensures FromId(FilterDistRequest(mode, runtype).params["mode_ids"].n) == Ok(mode.kind)
    ensures FromString(TimesRequest(p, mode, runtype, course).params["modes_list_string"].s) == Ok(mode)
    ensures FromString(WrRequest(m, mode, runtype, course).params["modes_list_string"].s) == Ok(mode)
    ensures FromString(PbRequest(p, m, mode, runtype, course).params["modes_list_string"].s) == Ok(mode)
    ensures FromString(MaptopRequest(m, mode, runtype, course).params["modes_list_string"].s) == Ok(mode)
  {
    ModeIdRoundTrip(mode.kind);
    ModeStringRoundTrip(mode);
    var key := PString(ToString(mode));
    assert FilterDistRequest(mode, runtype).params["mode_ids"] == PNumber(AsId(mode));
    assert TimesRequest(p, mode, runtype, course).params["modes_list_string"] == key;
    assert WrRequest(m, mode, runtype, course).params["modes_list_string"] == key;
    assert PbRequest(p, m, mode, runtype, course).params["modes_list_string"] == key;
    assert MaptopRequest(m, mode, runtype, course).params["modes_list_string"] == key;
  }

  // ---------------------------------------------------------------- records

  /** The fields of the registry's map, record filter and record shapes that the queries read. */
  datatype MapRecord = MapRecord(id: int, name: string, difficulty: int)

  datatype RecordFilter = RecordFilter(id: int, mapId: int, modeId: int)

  datatype Run = Run(id: int, mapId: int, createdOn: string)

  // ---------------------------------------------------------- get_unfinished

  /** The requests `get_unfinished` issues, in the order it issues them. */
  function UnfinishedRequests(player: PlayerIdentifier, mode: Mode, runtype: bool): seq<Request>
  {
    [FilterDistRequest(mode, runtype), TimesRequest(player, mode, runtype, 0), MapsRequest]
  }

  /**
   * The two record queries of `get_unfinished` name one mode, each in the form
   * the registry decodes back to it, and the same teleport category.
   */
  lemma UnfinishedRequestsNameOneMode(player: PlayerIdentifier, mode: Mode, runtype: bool)
    ensures var reqs := UnfinishedRequests(player, mode, runtype);
      && reqs[0].params["mode_ids"].PNumber? && FromId(reqs[0].params["mode_ids"].n) == Ok(mode.kind)
      && reqs[1].params["modes_list_string"].PString? && FromString(reqs[1].params["modes_list_string"].s) == Ok(mode)
      && reqs[0].params["has_teleports"] == reqs[1].params["has_teleports"]
  {
    ModeIdRoundTrip(mode.kind);
    ModeStringRoundTrip(mode);
    var reqs := UnfinishedRequests(player, mode, runtype);
    assert reqs[0].params["mode_ids"] == PNumber(AsId(mode));
    assert reqs[1].params["modes_list_string"] == PString(ToString(mode));
    assert reqs[0].params["has_teleports"] == PBool(runtype) == reqs[1].params["has_teleports"];
  }

  function RunMapIds(runs: seq<Run>): seq<int>
  {
    if runs == [] then [] else RunMapIds(runs[..|runs| - 1]) + [runs[|runs| - 1].mapId]
  }

  /** The map ids of `doable` that are not in `completed`, in `doable`'s order. */
  function UncompletedIds(doable: seq<RecordFilter>, completed: seq<int>): seq<int>
  {
    if doable == [] then []
    else
      var last := doable[|doable| - 1];
      UncompletedIds(doable[..|doable| - 1], completed) + (if last.mapId in completed then [] else [last.mapId])
  }

  /**
   * The catalog filter: the id is unfinished; a truthy tier (not absent, not 0)
   * must equal the difficulty; for teleport runs "kzpro_" maps are skipped.
   */
  predicate Wanted(m: MapRecord, uncompleted: seq<int>, runtype: bool, tier: Option<int>)
  {
    && m.id in uncompleted
    && (if tier.Some? && tier.value != 0 then m.difficulty == tier.value else true)
    && (if runtype then !StartsWith(m.name, "kzpro_") else true)
  }

  /** The names of the wanted catalog entries, in catalog order. */
  function UnfinishedNames(catalog: seq<MapRecord>, uncompleted: seq<int>, runtype: bool, tier: Option<int>): seq<string>
  {
    if catalog == [] then []
    else
      var last := catalog[|catalog| - 1];
      UnfinishedNames(catalog[..|catalog| - 1], uncompleted, runtype, tier)
        + (if Wanted(last, uncompleted, runtype, tier) then [last.name] else [])
  }

  lemma {:induction false} RunMapIdsMembership(runs: seq<Run>, id: int)
    ensures id in RunMapIds(runs) <==> exists i :: 0 <= i < |runs| && runs[i].mapId == id
  {
    if runs != [] {
      var init := runs[..|runs| - 1];
      RunMapIdsMembership(init, id);
      assert RunMapIds(runs) == RunMapIds(init) + [runs[|runs| - 1].mapId];
      if exists i :: 0 <= i < |runs| && runs[i].mapId == id {
        var i :| 0 <= i < |runs| && runs[i].mapId == id;
        if i < |init| {
          assert init[i] == runs[i];
        }
      }
      if exists i :: 0 <= i < |init| && init[i].mapId == id {
        var i :| 0 <= i < |init| && init[i].mapId == id;
        assert runs[i] == init[i];
      }
    }
  }

  /** An id is uncompleted exactly when some doable filter has it and no completed run does. */
  lemma {:induction false} UncompletedIdsMembership(doable: seq<RecordFilter>, completed: seq<int>, id: int)
    ensures id in UncompletedIds(doable, completed) <==>
      (exists i :: 0 <= i < |doable| && doable[i].mapId == id) && id !in completed
  {
    if doable != [] {
      var init := doable[..|doable| - 1];
      UncompletedIdsMembership(init, completed, id);
      if exists i :: 0 <= i < |doable| && doable[i].mapId == id {
        var i :| 0 <= i < |doable| && doable[i].mapId == id;
        if i < |init| {
          assert init[i] == doable[i];
        }
      }
      if exists i :: 0 <= i < |init| && init[i].mapId == id {
        var i :| 0 <= i < |init| && init[i].mapId == id;
        assert doable[i] == init[i];
      }
    }
  }

  /** A name is listed exactly when some catalog entry with that name is wanted. */
  lemma {:induction false} UnfinishedNamesMembership(
    catalog: seq<MapRecord>, uncompleted: seq<int>, runtype: bool, tier: Option<int>, name: string)
    ensures name in UnfinishedNames(catalog, uncompleted, runtype, tier) <==>
      exists i :: 0 <= i < |catalog| && catalog[i].name == name && Wanted(catalog[i], uncompleted, runtype, tier)
  {
    if catalog != [] {
      var init := catalog[..|catalog| - 1];
      UnfinishedNamesMembership(init, uncompleted, runtype, tier, name);
      if exists i :: 0 <= i < |catalog| && catalog[i].name == name && Wanted(catalog[i], uncompleted, runtype, tier) {
        var i :| 0 <= i < |catalog| && catalog[i].name == name && Wanted(catalog[i], uncompleted, runtype, tier);
        if i < |init| {
          assert init[i] == catalog[i];
        }
      }
      if exists i :: 0 <= i < |init| && init[i].name == name && Wanted(init[i], uncompleted, runtype, tier) {
        var i :| 0 <= i < |init| && init[i].name == name && Wanted(init[i], uncompleted, runtype, tier);
        assert catalog[i] == init[i];
      }
    }
  }

  /** The filter keeps catalog order: filtering a concatenation concatenates the results. */
  lemma {:induction false} UnfinishedNamesAppend(
    a: seq<MapRecord>, b: seq<MapRecord>, uncompleted: seq<int>, runtype: bool, tier: Option<int>)
    ensures UnfinishedNames(a + b, uncompleted, runtype, tier)
      == UnfinishedNames(a, uncompleted, runtype, tier) + UnfinishedNames(b, uncompleted, runtype, tier)
  {
    if b == [] {
      assert a + b == a;
    } else {
      var init := b[..|b| - 1];
      UnfinishedNamesAppend(a, init, uncompleted, runtype, tier);
      assert (a + b)[..|a + b| - 1] == a + init;
      assert (a + b)[|a + b| - 1] == b[|b| - 1];
    }
  }

  /**
   * Five catalog maps, filters for maps 1 to 4, runs on maps 1 and 3: maps 2
   * and 4 are unfinished, and a tier that only map 2 has leaves map 2.
   */
  lemma UnfinishedExample()
    ensures var catalog := [MapRecord(1, "kz_a", 1), MapRecord(2, "kz_b", 2), MapRecord(3, "kz_c", 3),
        MapRecord(4, "kz_d", 4), MapRecord(5, "kz_e", 5)];
      var doable := [RecordFilter(10, 1, 200), RecordFilter(11, 2, 200), RecordFilter(12, 3, 200),
        RecordFilter(13, 4, 200)];
      var uncompleted := UncompletedIds(doable, [1, 3]);
      && uncompleted == [2, 4]
      && UnfinishedNames(catalog, uncompleted, false, None) == ["kz_b", "kz_d"]
      && UnfinishedNames(catalog, uncompleted, false, Some(2)) == ["kz_b"]
  {
    var catalog := [MapRecord(1, "kz_a", 1), MapRecord(2, "kz_b", 2), MapRecord(3, "kz_c", 3),
      MapRecord(4, "kz_d", 4), MapRecord(5, "kz_e", 5)];
    var doable := [RecordFilter(10, 1, 200), RecordFilter(11, 2, 200), RecordFilter(12, 3, 200),
      RecordFilter(13, 4, 200)];
    var completed := [1, 3];
    assert doable[..3][..2][..1][..0] == [];
    assert UncompletedIds(doable[..3][..2][..1], completed) == [];
    assert UncompletedIds(doable[..3][..2], completed) == [2];
    assert UncompletedIds(doable[..3], completed) == [2];
    assert UncompletedIds(doable, completed) == [2, 4];
    var uncompleted := [2, 4];
    var c4 := catalog[..4];
    var c3 := c4[..3];
    var c2 := c3[..2];
    var c1 := c2[..1];
    assert c1 == [MapRecord(1, "kz_a", 1)] && c1[..0] == [];
    assert c2 == [MapRecord(1, "kz_a", 1), MapRecord(2, "kz_b", 2)];
    assert !Wanted(c1[0], uncompleted, false, None) && !Wanted(c1[0], uncompleted, false, Some(2));
    assert UnfinishedNames(c1, uncompleted, false, None) == [];
    assert UnfinishedNames(c2, uncompleted, false, None) == ["kz_b"];
    assert UnfinishedNames(c3, uncompleted, false, None) == ["kz_b"];
    assert UnfinishedNames(c4, uncompleted, false, None) == ["kz_b", "kz_d"];
    assert UnfinishedNames(c1, uncompleted, false, Some(2)) == [];
    assert UnfinishedNames(c2, uncompleted, false, Some(2)) == ["kz_b"];
    assert UnfinishedNames(c3, uncompleted, false, Some(2)) == ["kz_b"];
    assert UnfinishedNames(c4, uncompleted, false, Some(2)) == ["kz_b"];
  }

  /** `get_unfinished`: the first failed sub-answer is returned unchanged, without its own name added. */
  method GetUnfinished(
    doableApi: Result<seq<RecordFilter>>, timesApi: Result<seq<Run>>, mapsApi: Result<seq<MapRecord>>,
    runtype: bool, tier: Option<int>)
    returns (r: Result<seq<string>>)
    ensures GetFilterDist(doableApi).Err? ==> r == Err(GetFilterDist(doableApi).error)
    ensures GetFilterDist(doableApi).Ok? && GetTimes(timesApi).Err? ==> r == Err(GetTimes(timesApi).error)
    ensures GetFilterDist(doableApi).Ok? && GetTimes(timesApi).Ok? && GetMaps(mapsApi).Err? ==>
      r == Err(GetMaps(mapsApi).error)
    ensures GetFilterDist(doableApi).Ok? && GetTimes(timesApi).Ok? && GetMaps(mapsApi).Ok? ==>
      r == Ok(UnfinishedNames(mapsApi.value, UncompletedIds(doableApi.value, RunMapIds(timesApi.value)), runtype, tier))
    ensures GetFilterDist(doableApi).Ok? && timesApi == Ok([]) ==>
      r == Err(Error(NoData, "get_times", "No records found.", JNull))
  {
    var doable := GetFilterDist(doableApi);
    if doable.Err? {
      return Err(doable.error);
    }
    var completedReq := GetTimes(timesApi);
    if completedReq.Err? {
      return Err(completedReq.error);
    }

    var runs := completedReq.value;
    var completed: seq<int> := [];
    for i := 0 to |runs|
      invariant completed == RunMapIds(runs[..i])
    {
      assert runs[..i + 1][..i] == runs[..i];
      completed := completed + [runs[i].mapId];
    }
    assert runs[..|runs|] == runs;

    var filters := doable.value;
    var uncompletedIds: seq<int> := [];
    for i := 0 to |filters|
      invariant uncompletedIds == UncompletedIds(filters[..i], completed)
    {
      assert filters[..i + 1][..i] == filters[..i];
      if filters[i].mapId !in completed {
        uncompletedIds := uncompletedIds + [filters[i].mapId];
      }
    }
    assert filters[..|filters|] == filters;

    var globalMaps := GetMaps(mapsApi);
    if globalMaps.Err? {
      return Err(globalMaps.error);
    }

    var catalog := globalMaps.value;
    var uncompletedNames: seq<string> := [];
    for i := 0 to |catalog|
      invariant uncompletedNames == UnfinishedNames(catalog[..i], uncompletedIds, runtype, tier)
    {
      assert catalog[..i + 1][..i] == catalog[..i];
      if Wanted(catalog[i], uncompletedIds, runtype, tier) {
        uncompletedNames := uncompletedNames + [catalog[i].name];
      }
    }
    assert catalog[..|catalog|] == catalog;
    return Ok(uncompletedNames);
  }

  // -------------------------------------------------------------- get_recent

  /** The (mode, teleports) pairs `get_recent` queries, in the order their answers are read. */
  const RecentQueries: seq<(ModeKind, bool)> :=
    [(KZTimer, true), (KZTimer, false), (SimpleKZ, true), (SimpleKZ, false), (Vanilla, true), (Vanilla, false)]

  function RecentRequests(player: PlayerIdentifier): seq<Request>
  {
    seq(|RecentQueries|, i requires 0 <= i < |RecentQueries| =>
      TimesRequest(player, Mode(RecentQueries[i].0), RecentQueries[i].1, 0))
  }

  /** `get_recent` asks `get_times` about the main course of every mode in both teleport categories. */
  lemma RecentRequestsCoverCategories(player: PlayerIdentifier, kind: ModeKind, runtype: bool)
    ensures |RecentRequests(player)| == 6
    ensures exists i :: 0 <= i < 6 && RecentRequests(player)[i] == TimesRequest(player, Mode(kind), runtype, 0)
  {
    var i := match kind case KZTimer => 0 case SimpleKZ => 2 case Vanilla => 4;
    var j := if runtype then i else i + 1;
    assert RecentRequests(player)[j] == TimesRequest(player, Mode(kind), runtype, 0);
  }

  /** The records of the answers that `get_times` lets through, in answer order; failures add nothing. */
  function Flatten(apis: seq<Result<seq<Run>>>): seq<Run>
  {
    if apis == [] then []
    else
      var last := GetTimes(apis[|apis| - 1]);
      Flatten(apis[..|apis| - 1]) + (if last.Ok? then last.value else [])
  }

  /** The parsed `created_on` of each record, in record order; both clients share it. */
  function Dates<R>(records: seq<R>, createdOn: R -> string, parseDate: string -> int): (d: seq<int>)
    ensures |d| == |records|
    ensures forall i :: 0 <= i < |records| ==> d[i] == parseDate(createdOn(records[i]))
  {
    seq(|records|, i requires 0 <= i < |records| => parseDate(createdOn(records[i])))
  }

  function RunCreatedOn(r: Run): string
  {
    r.createdOn
  }

  /**
   * k is the earliest index holding the latest date among dates above 0, or
   * 0 when no date is above 0.
   */
  predicate EarliestLatest(dates: seq<int>, k: int)
  {
    && 0 <= k < |dates|
    && ((forall j :: 0 <= j < |dates| ==> dates[j] <= 0) ==> k == 0)
    && ((exists j :: 0 <= j < |dates| && dates[j] > 0) ==>
          && dates[k] > 0
          && (forall j :: 0 <= j < |dates| ==> dates[j] <= dates[k])
          && (forall j :: 0 <= j < k ==> dates[j] < dates[k]))
  }

  /** At most one index is the earliest latest. */
  lemma EarliestLatestUnique(dates: seq<int>, k1: int, k2: int)
    requires EarliestLatest(dates, k1) && EarliestLatest(dates, k2)
    ensures k1 == k2
  {
    if exists j :: 0 <= j < |dates| && dates[j] > 0 {
      assert dates[k1] <= dates[k2] && dates[k2] <= dates[k1];
    }
  }

  /**
   * `get_recent`, as evidently intended: the scan keeps the date and the index
   * of the record chosen so far and replaces them only on a strictly later date.
   */
  method GetRecent(apis: seq<Result<seq<Run>>>, parseDate: string -> int) returns (r: Result<Run>)
    ensures Flatten(apis) == [] ==> r == Err(Error(NoData, "get_recent", "No recent record found.", JNull))
    ensures Flatten(apis) != [] ==>
      r.Ok? && exists k :: EarliestLatest(Dates(Flatten(apis), RunCreatedOn, parseDate), k) && r.value == Flatten(apis)[k]
  {
    var records := CollectRecords(apis);
    if |records| < 1 {
      return Err(Error(NoData, "get_recent", "No recent record found.", JNull));
    }
    ghost var dates := Dates(records, RunCreatedOn, parseDate);
    var recentDate, recentIndex := 0, 0;
    for i := 0 to |records|
      invariant 0 <= recentIndex < |records| && recentDate >= 0
      invariant recentDate == 0 ==> recentIndex == 0
      invariant recentDate > 0 ==> recentIndex < i && dates[recentIndex] == recentDate
      invariant forall j :: 0 <= j < i ==> dates[j] <= recentDate
      invariant forall j :: 0 <= j < recentIndex ==> dates[j] < recentDate
    {
      var date := parseDate(records[i].createdOn);
      assert dates[i] == date;
      if date > recentDate {
        recentDate, recentIndex := date, i;
      }
    }
    assert EarliestLatest(dates, recentIndex);
    return Ok(records[recentIndex]);
  }

  /**
   * The index the source's scan ends on. It keeps `recent = [date, i]` but
   * compares each new date with `recent[1]`, the index chosen so far.
   */
  function AsWrittenIndex(dates: seq<int>): (k: nat)
    ensures dates != [] ==> k < |dates|
    ensures dates == [] ==> k == 0
  {
    if dates == [] then 0
    else
      var k := AsWrittenIndex(dates[..|dates| - 1]);
      if dates[|dates| - 1] > k then |dates| - 1 else k
  }

  /** `get_recent` as the source writes it. */
  method GetRecentAsWritten(apis: seq<Result<seq<Run>>>, parseDate: string -> int) returns (r: Result<Run>)
    ensures Flatten(apis) == [] ==> r == Err(Error(NoData, "get_recent", "No recent record found.", JNull))
    ensures Flatten(apis) != [] ==> r == Ok(Flatten(apis)[AsWrittenIndex(Dates(Flatten(apis), RunCreatedOn, parseDate))])
  {
    var records := CollectRecords(apis);
    if |records| < 1 {
      return Err(Error(NoData, "get_recent", "No recent record found.", JNull));
    }
    ghost var dates := Dates(records, RunCreatedOn, parseDate);
    var recent := (0, 0);
    for i := 0 to |records|
      invariant recent.1 == AsWrittenIndex(dates[..i])
    {
      assert dates[..i + 1][..i] == dates[..i];
      var date := parseDate(records[i].createdOn);
      assert dates[i] == date;
      if date > recent.1 {
        recent := (date, i);
      }
    }
    assert dates[..|records|] == dates;
    return Ok(records[recent.1]);
  }

  /** The first loop of `get_recent`: push every record of every answer `get_times` lets through. */
  method CollectRecords(apis: seq<Result<seq<Run>>>) returns (records: seq<Run>)
    ensures records == Flatten(apis)
  {
    records := [];
    for i := 0 to |apis|
      invariant records == Flatten(apis[..i])
    {
      assert apis[..i + 1][..i] == apis[..i];
      var request := GetTimes(apis[i]);
      if request.Ok? {
        ghost var before := records;
        for k := 0 to |request.value|
          invariant records == before + request.value[..k]
        {
          assert request.value[..k + 1] == request.value[..k] + [request.value[k]];
          records := records + [request.value[k]];
        }
        assert request.value[..|request.value|] == request.value;
      }
    }
    assert apis[..|apis|] == apis;
  }

  /** The source picks an older record when a later date comes first. */
  lemma AsWrittenPicksOlderRecord()
    ensures AsWrittenIndex([2000, 1000]) == 1
    ensures !EarliestLatest([2000, 1000], AsWrittenIndex([2000, 1000]))
  {
    assert [2000, 1000][..1] == [2000];
    assert [2000][..0] == [];
  }

  /** With the later record collected last, both readings pick it. */
  lemma LaterLastAgrees(t1: int, t2: int)
    requires 0 < t1 < t2
    ensures EarliestLatest([t1, t2], 1) && AsWrittenIndex([t1, t2]) == 1
  {
    assert [t1, t2][..1] == [t1];
    assert [t1][..0] == [];
  }

  /**
   * With real timestamps (milliseconds, far above any index) every date beats
   * the stored index, so the source returns the last record collected.
   */
  lemma AsWrittenTakesLast(dates: seq<int>)
    requires dates != []
    requires forall j :: 0 <= j < |dates| ==> dates[j] >= |dates|
    ensures AsWrittenIndex(dates) == |dates| - 1
  {
  }

  // ------------------------------------------------------------ health_check

  datatype ConditionResult = ConditionResult(condition: string, success: bool)

  datatype StatusResult = StatusResult(conditionResults: seq<ConditionResult>)

  datatype HealthReport = HealthReport(results: seq<StatusResult>)

  datatype HealthSummary = HealthSummary(successfulResponses: nat, fastResponses: nat)

  /** Every status in `results` has a condition result at position c. */
  predicate HasCondition(results: seq<StatusResult>, c: nat)
  {
    forall i :: 0 <= i < |results| ==> c < |results[i].conditionResults|
  }

  /** The number of statuses whose condition result c reports success. */
  function Tally(results: seq<StatusResult>, c: nat): nat
    requires HasCondition(results, c)
  {
    if results == [] then 0
    else Tally(results[..|results| - 1], c) + (if results[|results| - 1].conditionResults[c].success then 1 else 0)
  }

  /** The tally counts the positions whose condition c succeeded. */
  lemma {:induction false} TallyCounts(results: seq<StatusResult>, c: nat)
    requires HasCondition(results, c)
    ensures Tally(results, c) == |set i | 0 <= i < |results| && results[i].conditionResults[c].success|
    ensures Tally(results, c) <= |results|
  {
    var hits := set i | 0 <= i < |results| && results[i].conditionResults[c].success;
    if results != [] {
      var n := |results| - 1;
      var init := results[..n];
      TallyCounts(init, c);
      var before := set i | 0 <= i < n && init[i].conditionResults[c].success;
      assert before == set i | 0 <= i < n && results[i].conditionResults[c].success;
      if results[n].conditionResults[c].success {
        assert hits == before + {n};
      } else {
        assert hits == before;
      }
    }
  }

  /** The first ten statuses exist and each has at least two condition results. */
  predicate HealthReadable(h: HealthReport)
  {
    |h.results| >= 10 && HasCondition(h.results[..10], 1)
  }

  /**
   * `health_check`: counts over the first ten statuses. A shorter list, or a
   * status with fewer than two condition results, makes a property read of
   * undefined throw, and the call rejects.
   */
  method HealthCheck(api: Result<HealthReport>) returns (r: Settled<Result<HealthSummary>>)
    ensures api.Err? ==> r == Fulfilled(Err(Chain(api.error, "health_check")))
    ensures api.Ok? && !HealthReadable(api.value) ==> r.Rejected?
    ensures api.Ok? && HealthReadable(api.value) ==>
      var first := api.value.results[..10];
      r == Fulfilled(Ok(HealthSummary(Tally(first, 0), Tally(first, 1))))
    ensures r.Fulfilled? && r.value.Ok? ==>
      r.value.value.successfulResponses <= 10 && r.value.value.fastResponses <= 10
  {
    if api.Err? {
      return Fulfilled(Err(Chain(api.error, "health_check")));
    }
    var results := api.value.results;
    var result := HealthSummary(0, 0);
    for i := 0 to 10
      invariant i <= |results|
      invariant HasCondition(results[..i], 1)
      invariant result == HealthSummary(Tally(results[..i], 0), Tally(results[..i], 1))
    {
      if i >= |results| {
        return Rejected(ReadError("undefined", "conditionResults"));
      }
      var conditions := results[i].conditionResults;
      if |conditions| < 1 {
        assert !HealthReadable(api.value) by { if |results| >= 10 { assert results[..10][i] == results[i]; } }
        return Rejected(ReadError("undefined", "success"));
      }
      if conditions[0].success {
        result := result.(successfulResponses := result.successfulResponses + 1);
      }
      if |conditions| < 2 {
        assert !HealthReadable(api.value) by { if |results| >= 10 { assert results[..10][i] == results[i]; } }
        return Rejected(ReadError("undefined", "success"));
      }
      if conditions[1].success {
        result := result.(fastResponses := result.fastResponses + 1);
      }
      assert results[..i + 1][..i] == results[..i];
    }
    TallyCounts(results[..10], 0);
    TallyCounts(results[..10], 1);
    return Fulfilled(Ok(result));
  }

  // ---------------------------------------------------------------- is_global

  /** A name matches a catalog entry whose name contains the lower-cased query; an id must be equal. */
  predicate Matches(ident: MapIdentifier, m: MapRecord)
  {
    match ident
    case MapName(name) => Contains(m.name, ToLower(name))
    case MapId(id) => m.id == id
  }

  /** `is_global`: the first matching catalog entry, or NoData. */
  method IsGlobal(ident: MapIdentifier, mapList: seq<MapRecord>) returns (r: Result<MapRecord>)
    ensures r.Ok? <==> exists i :: 0 <= i < |mapList| && Matches(ident, mapList[i])
    ensures r.Ok? ==> exists i :: (0 <= i < |mapList| && mapList[i] == r.value && Matches(ident, mapList[i])
      && forall j :: 0 <= j < i ==> !Matches(ident, mapList[j]))
    ensures r.Err? ==> r.error == Error(NoData, "is_global", "This map is not global.", JNull)
  {
    match ident {
      case MapName(name) =>
        for i := 0 to |mapList|
          invariant forall j :: 0 <= j < i ==> !Matches(ident, mapList[j])
        {
          if Contains(mapList[i].name, ToLower(name)) {
            return Ok(mapList[i]);
          }
        }
      case MapId(id) =>
        for i := 0 to |mapList|
          invariant forall j :: 0 <= j < i ==> !Matches(ident, mapList[j])
        {
          if mapList[i].id == id {
            return Ok(mapList[i]);
          }
        }
    }
    return Err(Error(NoData, "is_global", "This map is not global.", JNull));
  }
}
