/** The data-fetching hooks (src/hooks/useAPI.ts): for each hook, the query key
    it caches under, the endpoint its query function fetches, whether it is
    enabled, and its stale and refetch intervals; the `select` normaliser of
    `useAlerts`; and the cache invalidation done by the mutation hooks. The
    query library itself is reduced to one rule: an invalidation marks stale
    every cached entry whose key starts with the filter key. */
module QueryHooks {
  import opened Common
  import Api

  /** One element of a query key, as the query library hashes it. */
  datatype KeyPart =
    | KStr(s: string)
    | KNum(n: int)
    | KBool(b: bool)
    | KUndefined
    | KObj(fields: seq<(string, string)>)   // a parameter object; undefined properties are dropped

  function KOptStr(v: Option<string>): KeyPart
  {
    if v.Some? then KStr(v.value) else KUndefined
  }

  function KOptNum(v: Option<int>): KeyPart
  {
    if v.Some? then KNum(v.value) else KUndefined
  }

  /** The hooks and their arguments; `None` is an omitted argument. */
  datatype Hook =
    | Profiles(limit: Option<int>, offset: Option<int>)
    | Profile(profileId: string)
    | ProfileSearch(query: string, field: Option<string>)
    | Swipes(limit: Option<int>, entityId: Option<string>)
    | WiFiLogs(limit: Option<int>, entityId: Option<string>)
    | LabBookings(entityId: Option<string>, upcoming: Option<bool>)
    | LibraryCheckouts(entityId: Option<string>)
    | Notes(entityId: Option<string>, source: Option<string>)
    | CctvFrames(locationId: Option<string>, limit: Option<int>)
    | EntityResolution(cardId: Option<string>, deviceHash: Option<string>, faceId: Option<string>)
    | EntityTimeline(timelineId: string, days: Option<int>)
    | DashboardStats
    | ActivityHeatmap(days: Option<int>)
    | SecurityStats
    | Alerts(status: Option<string>, limit: Option<int>)
    | HealthCheck

  datatype QueryConfig = QueryConfig(
    key: seq<KeyPart>,
    endpoint: Api.Endpoint,
    enabled: bool,
    staleMs: nat,
    refetchMs: Option<nat>)

  const Minute: nat := 60 * 1000

  /** The properties of the resolution parameter object that are not undefined. */
  function ResolutionParamsObject(cardId: Option<string>, deviceHash: Option<string>, faceId: Option<string>): seq<(string, string)>
  {
    (if cardId.Some? then [("card_id", cardId.value)] else [])
    + (if deviceHash.Some? then [("device_hash", deviceHash.value)] else [])
    + (if faceId.Some? then [("face_id", faceId.value)] else [])
  }

  /** The options each hook passes to `useQuery`. */
  function Config(h: Hook): QueryConfig
  {
    match h
    case Profiles(limit, offset) =>
      var l, o := Api.IntOr(limit, 100), Api.IntOr(offset, 0);
      QueryConfig([KStr("profiles"), KNum(l), KNum(o)], Api.ProfilesGetAll(Some(l), Some(o)), true, 5 * Minute, None)
    case Profile(id) =>
      QueryConfig([KStr("profile"), KStr(id)], Api.ProfileGetById(id), id != "", 5 * Minute, None)
    case ProfileSearch(q, field) =>
      var f := if field.Some? then field.value else "name";
      QueryConfig([KStr("profiles"), KStr("search"), KStr(q), KStr(f)], Api.ProfileSearch(q, Some(f)), |q| > 0, 2 * Minute, None)
    case Swipes(limit, id) =>
      var l := Api.IntOr(limit, 50);
      QueryConfig([KStr("swipes"), KNum(l), KOptStr(id)], Api.SwipesGetRecent(Some(l), id), true, 1 * Minute, None)
    case WiFiLogs(limit, id) =>
      var l := Api.IntOr(limit, 50);
      QueryConfig([KStr("wifi-logs"), KNum(l), KOptStr(id)], Api.WifiGetRecent(Some(l), id), true, 1 * Minute, None)
    case LabBookings(id, upcoming) =>
      var u := upcoming.Some? && upcoming.value;
      QueryConfig([KStr("lab-bookings"), KOptStr(id), KBool(u)], Api.LabBookingsGetAll(id, Some(u)), true, 2 * Minute, None)
    case LibraryCheckouts(id) =>
      QueryConfig([KStr("library-checkouts"), KOptStr(id)], Api.LibraryGetCheckouts(id), true, 5 * Minute, None)
    case Notes(id, source) =>
      QueryConfig([KStr("notes"), KOptStr(id), KOptStr(source)], Api.NotesGetAll(id, source), true, 2 * Minute, None)
    case CctvFrames(loc, limit) =>
      var l := Api.IntOr(limit, 50);
      QueryConfig([KStr("cctv-frames"), KOptStr(loc), KNum(l)], Api.CctvGetFrames(loc, Some(l)), true, 30 * 1000, None)
    case EntityResolution(card, device, face) =>
      QueryConfig([KStr("entity-resolution"), KObj(ResolutionParamsObject(card, device, face))],
        Api.Resolve(card, device, face), Truthy(card) || Truthy(device) || Truthy(face), 5 * Minute, None)
    case EntityTimeline(id, days) =>
      var d := Api.IntOr(days, 7);
      QueryConfig([KStr("entity-timeline"), KStr(id), KNum(d)], Api.GetTimeline(id, Some(d)), id != "", 2 * Minute, None)
    case DashboardStats =>
      QueryConfig([KStr("dashboard-stats")], Api.DashboardStats(None, None), true, 1 * Minute, Some(30 * 1000))
    case ActivityHeatmap(days) =>
      var d := Api.IntOr(days, 7);
      QueryConfig([KStr("activity-heatmap"), KNum(d)], Api.ActivityHeatmap(Some(d)), true, 5 * Minute, None)
    case SecurityStats =>
      QueryConfig([KStr("security-stats")], Api.SecurityStats(), true, 30 * 1000, Some(30 * 1000))
    case Alerts(status, limit) =>
      QueryConfig([KStr("alerts"), KOptStr(status), KOptNum(limit)], Api.AlertsGetAll(status, limit), true, 30 * 1000, Some(30 * 1000))
    case HealthCheck =>
      QueryConfig([KStr("health")], Api.HealthCheck(), true, 10 * 1000, Some(60 * 1000))
  }

  // ---------------------------------------------------------------------
  // Keys and the cache
  // ---------------------------------------------------------------------

  /** The query library's partial key match: `filter` is a prefix of `key`. */
  predicate MatchesFilter(filter: seq<KeyPart>, key: seq<KeyPart>)
  {
    |filter| <= |key| && key[..|filter|] == filter
  }

  /** The invalidation filter every alert mutation uses. */
  const AlertsFilter: seq<KeyPart> := [KStr("alerts")]

  /** A cached query: its key and whether it must be refetched. */
  datatype Entry = Entry(key: seq<KeyPart>, stale: bool)

  /** `queryClient.invalidateQueries({ queryKey: filter })`. */
  function Invalidate(cache: seq<Entry>, filter: seq<KeyPart>): (r: seq<Entry>)
    ensures |r| == |cache|
    ensures forall i :: 0 <= i < |cache| ==> r[i].key == cache[i].key
    ensures forall i :: 0 <= i < |cache| ==> r[i].stale == (cache[i].stale || MatchesFilter(filter, cache[i].key))
  {
    if cache == [] then []
    else [cache[0].(stale := cache[0].stale || MatchesFilter(filter, cache[0].key))] + Invalidate(cache[1..], filter)
  }

  /** The mutation hooks; only the first one calls the back end. */
  datatype Mutation =
    | UpdateAlertStatus(entityId: string, status: string)
    | ResolveAlertPlaceholder(alertId: string)
    | EscalateAlertPlaceholder(alertId: string)

  /** The request a mutation issues, if any (the placeholders only log). */
  function MutationCall(m: Mutation): (c: Option<Api.Call>)
    ensures c.Some? <==> m.UpdateAlertStatus?
  {
    match m
    case UpdateAlertStatus(id, status) => Some(Api.UpdateAlertStatusCall(id, status))
    case ResolveAlertPlaceholder(_) => None
    case EscalateAlertPlaceholder(_) => None
  }

  /** The cache after a mutation settles: `onSuccess` invalidates the alert
      queries; a failed request runs no handler. A placeholder cannot fail. */
  function AfterMutation(cache: seq<Entry>, m: Mutation, requestSucceeded: bool): seq<Entry>
  {
    if m.UpdateAlertStatus? && !requestSucceeded then cache else Invalidate(cache, AlertsFilter)
  }

  // ---------------------------------------------------------------------
  // useAlerts' select
  // ---------------------------------------------------------------------

  /** `'alerts' in data` for a truthy object. */
  predicate HasAlertsProperty(data: Api.Json)
  {
    data.JObj? && Api.Field(data.fields, "alerts").Some?
  }

  /** `select` of `useAlerts`: an object that has `alerts` is kept, an array is
      wrapped as `{ alerts: data, summary: null }`, anything else becomes
      `{ alerts: [], summary: null }`. */
  function SelectAlerts(data: Api.Json): Api.Json
  {
    if HasAlertsProperty(data) then data
    else Api.JObj([("alerts", if data.JArr? then data else Api.JArr([])), ("summary", Api.JNull)])
  }

  // ---------------------------------------------------------------------
  // Properties
  // ---------------------------------------------------------------------

  lemma ResolutionObjectInjective(c1: Option<string>, d1: Option<string>, f1: Option<string>,
                                  c2: Option<string>, d2: Option<string>, f2: Option<string>)
    requires ResolutionParamsObject(c1, d1, f1) == ResolutionParamsObject(c2, d2, f2)
    ensures c1 == c2 && d1 == d2 && f1 == f2
  {
    var o := ResolutionParamsObject(c1, d1, f1);
    assert c1.Some? <==> |o| > 0 && o[0].0 == "card_id";
    assert c2.Some? <==> |o| > 0 && o[0].0 == "card_id";
    var o1 := if c1.Some? then o[1..] else o;
    assert d1.Some? <==> |o1| > 0 && o1[0].0 == "device_hash";
    assert d2.Some? <==> |o1| > 0 && o1[0].0 == "device_hash";
    var o2 := if d1.Some? then o1[1..] else o1;
    assert f1.Some? <==> |o2| > 0;
    assert f2.Some? <==> |o2| > 0;
  }

  function OptStr(p: KeyPart): Option<string> { if p.KStr? then Some(p.s) else None }

  function OptNum(p: KeyPart): Option<int> { if p.KNum? then Some(p.n) else None }

  /** The request a query key stands for, read back from the key alone. */
  function RequestOfKey(key: seq<KeyPart>): Option<Api.Endpoint>
  {
    if |key| == 0 || !key[0].KStr? then None
    else
      var name := key[0].s;
      if name == "profiles" && |key| == 3 then Some(Api.ProfilesGetAll(OptNum(key[1]), OptNum(key[2])))
      else if name == "profiles" && |key| == 4 && key[2].KStr? && key[3].KStr? then
        Some(Api.ProfileSearch(key[2].s, Some(key[3].s)))
      else if name == "profile" && |key| == 2 && key[1].KStr? then Some(Api.ProfileGetById(key[1].s))
      else if name == "swipes" && |key| == 3 then Some(Api.SwipesGetRecent(OptNum(key[1]), OptStr(key[2])))
      else if name == "wifi-logs" && |key| == 3 then Some(Api.WifiGetRecent(OptNum(key[1]), OptStr(key[2])))
      else if name == "lab-bookings" && |key| == 3 && key[2].KBool? then
        Some(Api.LabBookingsGetAll(OptStr(key[1]), Some(key[2].b)))
      else if name == "library-checkouts" && |key| == 2 then Some(Api.LibraryGetCheckouts(OptStr(key[1])))
      else if name == "notes" && |key| == 3 then Some(Api.NotesGetAll(OptStr(key[1]), OptStr(key[2])))
      else if name == "cctv-frames" && |key| == 3 then Some(Api.CctvGetFrames(OptStr(key[1]), OptNum(key[2])))
      else if name == "entity-resolution" && |key| == 2 && key[1].KObj? then
        var o := key[1].fields;
        Some(Api.Resolve(Api.Property(o, "card_id"), Api.Property(o, "device_hash"), Api.Property(o, "face_id")))
      else if name == "entity-timeline" && |key| == 3 && key[1].KStr? then Some(Api.GetTimeline(key[1].s, OptNum(key[2])))
      else if name == "dashboard-stats" && |key| == 1 then Some(Api.DashboardStats(None, None))
      else if name == "activity-heatmap" && |key| == 2 then Some(Api.ActivityHeatmap(OptNum(key[1])))
      else if name == "security-stats" && |key| == 1 then Some(Api.SecurityStats())
      else if name == "alerts" && |key| == 3 then Some(Api.AlertsGetAll(OptStr(key[1]), OptNum(key[2])))
      else if name == "health" && |key| == 1 then Some(Api.HealthCheck())
      else None
  }

  /** The resolution parameter object gives back each identifier. */
  lemma ResolutionObjectFields(c: Option<string>, d: Option<string>, f: Option<string>)
    ensures Api.Property(ResolutionParamsObject(c, d, f), "card_id") == c
    ensures Api.Property(ResolutionParamsObject(c, d, f), "device_hash") == d
    ensures Api.Property(ResolutionParamsObject(c, d, f), "face_id") == f
  {
    var tail := if f.Some? then [("face_id", f.value)] else [];
    var mid := (if d.Some? then [("device_hash", d.value)] else []) + tail;
    var o := ResolutionParamsObject(c, d, f);
    assert o == (if c.Some? then [("card_id", c.value)] else []) + mid;
    assert "card_id" != "device_hash" && "card_id" != "face_id" && "device_hash" != "face_id" by {
      assert "card_id"[0] == 'c' && "device_hash"[0] == 'd' && "face_id"[0] == 'f';
    }
    assert Api.Property(tail, "face_id") == f;
    assert Api.Property(tail, "card_id") == None && Api.Property(tail, "device_hash") == None;
    if d.Some? {
      assert mid[1..] == tail;
    }
    assert Api.Property(mid, "device_hash") == d;
    assert Api.Property(mid, "face_id") == f;
    assert Api.Property(mid, "card_id") == None;
    if c.Some? {
      assert o[1..] == mid;
    }
  }

  /** Every key names its request: decoding a hook's key gives the endpoint
      the hook fetches. */
  lemma KeyDecodes(h: Hook)
    ensures RequestOfKey(Config(h).key) == Some(Config(h).endpoint)
  {
    if h.Profiles? || h.Profile? {
      ProfileKeysDecode(h);
    } else if h.ProfileSearch? || h.Swipes? {
      SearchKeysDecode(h);
    } else if h.WiFiLogs? || h.LabBookings? {
      WiFiKeysDecode(h);
    } else if h.LibraryCheckouts? || h.Notes? {
      ActivityKeysDecode(h);
    } else if h.CctvFrames? || h.EntityResolution? {
      CctvKeysDecode(h);
    } else if h.EntityTimeline? || h.DashboardStats? {
      EntityKeysDecode(h);
    } else if h.ActivityHeatmap? || h.SecurityStats? {
      HeatmapKeysDecode(h);
    } else {
      StatusKeysDecode(h);
    }
  }

  lemma ProfileKeysDecode(h: Hook)
    requires h.Profiles? || h.Profile?
    ensures RequestOfKey(Config(h).key) == Some(Config(h).endpoint)
  {
  }

  lemma SearchKeysDecode(h: Hook)
    requires h.ProfileSearch? || h.Swipes?
    ensures RequestOfKey(Config(h).key) == Some(Config(h).endpoint)
  {
  }

  lemma WiFiKeysDecode(h: Hook)
    requires h.WiFiLogs? || h.LabBookings?
    ensures RequestOfKey(Config(h).key) == Some(Config(h).endpoint)
  {
  }

  lemma ActivityKeysDecode(h: Hook)
    requires h.LibraryCheckouts? || h.Notes?
    ensures RequestOfKey(Config(h).key) == Some(Config(h).endpoint)
  {
  }

  lemma CctvKeysDecode(h: Hook)
    requires h.CctvFrames? || h.EntityResolution?
    ensures RequestOfKey(Config(h).key) == Some(Config(h).endpoint)
  {
    if h.EntityResolution? {
      ResolutionObjectFields(h.cardId, h.deviceHash, h.faceId);
    }
  }

  lemma EntityKeysDecode(h: Hook)
    requires h.EntityTimeline? || h.DashboardStats?
    ensures RequestOfKey(Config(h).key) == Some(Config(h).endpoint)
  {
  }

  lemma HeatmapKeysDecode(h: Hook)
    requires h.ActivityHeatmap? || h.SecurityStats?
    ensures RequestOfKey(Config(h).key) == Some(Config(h).endpoint)
  {
  }

  lemma StatusKeysDecode(h: Hook)
    requires h.Alerts? || h.HealthCheck?
    ensures RequestOfKey(Config(h).key) == Some(Config(h).endpoint)
  {
  }

  /** The cache is coherent: two hook calls that share a query key fetch the
      same endpoint, so a cached result is never served for another request. */
  lemma SameKeySameRequest(h1: Hook, h2: Hook)
    requires Config(h1).key == Config(h2).key
    ensures Config(h1).endpoint == Config(h2).endpoint
  {
    KeyDecodes(h1);
    KeyDecodes(h2);
  }

  /** Every alerts parameter is part of the key: distinct `(status, limit)`
      pairs are cached apart. */
  lemma AlertsKeysInjective(s1: Option<string>, l1: Option<int>, s2: Option<string>, l2: Option<int>)
    requires Config(Alerts(s1, l1)).key == Config(Alerts(s2, l2)).key
    ensures s1 == s2 && l1 == l2
  {
  }

  /** The converse fails: a limit of 0 and an omitted limit are two cache
      entries for one and the same URL. */
  lemma DistinctKeysSameRequest()
    ensures Config(Alerts(None, Some(0))).key != Config(Alerts(None, None)).key
    ensures Config(Alerts(None, Some(0))).endpoint == Config(Alerts(None, None)).endpoint
  {
    Api.AlertsZeroLimitDropped(None);
  }

  /** Invalidating `['alerts']` reaches exactly the `useAlerts` queries. */
  lemma AlertsFilterMatchesOnlyAlerts(h: Hook)
    ensures MatchesFilter(AlertsFilter, Config(h).key) <==> h.Alerts?
  {
    assert Config(h).key[..1] == [Config(h).key[0]];
  }

  /** The enabled conditions: a profile or timeline needs an id, a search a
      non-empty term, and a resolution runs exactly when its URL would carry at
      least one identifier. */
  lemma EnabledMeaning(h: Hook)
    ensures h.Profile? ==> (Config(h).enabled <==> h.profileId != "")
    ensures h.ProfileSearch? ==> (Config(h).enabled <==> h.query != "")
    ensures h.EntityTimeline? ==> (Config(h).enabled <==> h.timelineId != "")
    ensures h.EntityResolution? ==>
      (Config(h).enabled <==> Api.ResolveParams(h.cardId, h.deviceHash, h.faceId) != [])
    ensures !(h.Profile? || h.ProfileSearch? || h.EntityTimeline? || h.EntityResolution?) ==> Config(h).enabled
  {
    if h.EntityResolution? {
      Api.ResolveParamsMeaning(h.cardId, h.deviceHash, h.faceId);
    }
  }

  /** The polling hooks are exactly the dashboard, security, alert and health queries. */
  lemma PollingHooks(h: Hook)
    ensures Config(h).refetchMs.Some? <==> h.DashboardStats? || h.SecurityStats? || h.Alerts? || h.HealthCheck?
    ensures h.Alerts? ==> Config(h).refetchMs == Some(Config(h).staleMs)
  {
  }

  /** After a successful status update every cached alert query is stale and
      every other entry is exactly as before; after a failed one nothing changes. */
  lemma UpdateInvalidatesAlerts(cache: seq<Entry>, id: string, status: string, ok: bool)
    ensures ok ==> forall i :: 0 <= i < |cache| && MatchesFilter(AlertsFilter, cache[i].key) ==>
      AfterMutation(cache, UpdateAlertStatus(id, status), ok)[i].stale
    ensures ok ==> forall i :: 0 <= i < |cache| && !MatchesFilter(AlertsFilter, cache[i].key) ==>
      AfterMutation(cache, UpdateAlertStatus(id, status), ok)[i] == cache[i]
    ensures !ok ==> AfterMutation(cache, UpdateAlertStatus(id, status), ok) == cache
  {
  }

  /** The placeholder mutations invalidate the alert queries whatever happens. */
  lemma PlaceholdersAlwaysInvalidate(cache: seq<Entry>, id: string, ok: bool)
    ensures AfterMutation(cache, ResolveAlertPlaceholder(id), ok) == Invalidate(cache, AlertsFilter)
    ensures AfterMutation(cache, EscalateAlertPlaceholder(id), ok) == Invalidate(cache, AlertsFilter)
  {
  }

  /** Invalidating twice is invalidating once. */
  lemma InvalidateIdempotent(cache: seq<Entry>, filter: seq<KeyPart>)
    ensures Invalidate(Invalidate(cache, filter), filter) == Invalidate(cache, filter)
  {
    var once := Invalidate(cache, filter);
    var twice := Invalidate(once, filter);
    assert forall i :: 0 <= i < |cache| ==> twice[i] == once[i];
  }

  /** `select` always yields an object with an `alerts` property: it returns
      such an object unchanged, wraps an array response with a null summary,
      replaces anything else by an empty list, and applying it again changes
      nothing. */
  lemma SelectAlertsMeaning(data: Api.Json)
    ensures HasAlertsProperty(SelectAlerts(data))
    ensures HasAlertsProperty(data) ==> SelectAlerts(data) == data
    ensures !HasAlertsProperty(data) ==> Api.Field(SelectAlerts(data).fields, "summary") == Some(Api.JNull)
    ensures data.JArr? ==> Api.Field(SelectAlerts(data).fields, "alerts") == Some(data)
    ensures !data.JArr? && !HasAlertsProperty(data) ==> Api.Field(SelectAlerts(data).fields, "alerts") == Some(Api.JArr([]))
    ensures SelectAlerts(SelectAlerts(data)) == SelectAlerts(data)
  {
    var fields := [("alerts", if data.JArr? then data else Api.JArr([])), ("summary", Api.JNull)];
    assert fields[..1] == [fields[0]];
    assert Api.Field(fields, "alerts") == Api.Field(fields[..1], "alerts");
  }

  /** An object whose `alerts` is not an array passes through as it is. */
  lemma SelectKeepsNonArrayAlerts()
    ensures SelectAlerts(Api.JObj([("alerts", Api.JNull)])) == Api.JObj([("alerts", Api.JNull)])
  {
  }
}
