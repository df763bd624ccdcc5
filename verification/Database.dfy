/** The database service's decision logic (backend/database.py): the
    pagination range of the profile listing, cross-source entity resolution
    with conflict detection, and the derived counts of the activity timeline,
    the security statistics and the dashboard statistics. Every Supabase query
    is replaced by its result, passed in as a parameter. */
module Database {
  import opened Common

  // ---------------------------------------------------------------------
  // Pagination
  // ---------------------------------------------------------------------

  /** `range(offset, offset + limit - 1)`: the inclusive row range requested. */
  function ProfileRange(limit: int, offset: int): (r: (int, int))
    ensures r.0 == offset
    ensures r.1 - r.0 + 1 == limit
  {
    (offset, offset + limit - 1)
  }

  /** The number of rows an inclusive range covers (none when it is reversed). */
  function RangeSize(r: (int, int)): nat
  {
    if r.1 < r.0 then 0 else r.1 - r.0 + 1
  }

  /** A page covers `limit` rows, and consecutive pages neither overlap nor
      leave a gap. */
  lemma PagesTile(limit: nat, offset: nat)
    ensures RangeSize(ProfileRange(limit, offset)) == limit
    ensures ProfileRange(limit, offset + limit).0 == ProfileRange(limit, offset).1 + 1
  {
  }

  // ---------------------------------------------------------------------
  // Cross-source resolution
  // ---------------------------------------------------------------------

  /** A profile row; only its `entity_id` matters here (null is `None`). */
  datatype Row = Row(entityId: Option<string>, name: Option<string>)

  datatype Source = Card | Device | Face

  /** The confidence each source lends a match. */
  function SourceConfidence(s: Source): real
  {
    match s
    case Card => 0.95
    case Device => 0.85
    case Face => 0.90
  }

  /** The position of a source in the order they are tried. */
  function SourceRank(s: Source): nat
  {
    match s
    case Card => 0
    case Device => 1
    case Face => 2
  }

  datatype Match = Match(source: Source, row: Row, confidence: real)

  /** The rows each lookup returns for a given identifier value. */
  datatype Lookups = Lookups(byCard: string -> seq<Row>, byDevice: string -> seq<Row>, byFace: string -> seq<Row>)

  function LookupFor(l: Lookups, s: Source): string -> seq<Row>
  {
    match s
    case Card => l.byCard
    case Device => l.byDevice
    case Face => l.byFace
  }

  /** One source's match: tried only when its identifier is truthy, it yields
      the first returned row. */
  function TrySource(s: Source, id: Option<string>, l: Lookups): (ms: seq<Match>)
    ensures |ms| <= 1
    ensures ms != [] <==> Truthy(id) && LookupFor(l, s)(id.value) != []
    ensures ms != [] ==> ms[0] == Match(s, LookupFor(l, s)(id.value)[0], SourceConfidence(s))
  {
    if Truthy(id) then
      var rows := LookupFor(l, s)(id.value);
      if rows != [] then [Match(s, rows[0], SourceConfidence(s))] else []
    else []
  }

  /** The matches in the order card, device, face. */
  function Matches(card: Option<string>, device: Option<string>, face: Option<string>, l: Lookups): (ms: seq<Match>)
    ensures |ms| <= 3
    ensures forall i, j :: 0 <= i < j < |ms| ==> SourceRank(ms[i].source) < SourceRank(ms[j].source)
    ensures forall m :: m in ms ==> m.confidence == SourceConfidence(m.source)
  {
    TrySource(Card, card, l) + TrySource(Device, device, l) + TrySource(Face, face, l)
  }

  /** The outcome of `resolve_entity`. */
  datatype Resolution =
    | NotFound
    | Conflict(matchedEntities: seq<Option<string>>, sources: seq<Source>)
    | Resolved(entityId: Option<string>, confidence: real, matchedSources: seq<Source>, profile: Row)

  function EntityIds(ms: seq<Match>): set<Option<string>>
  {
    set m | m in ms :: m.row.entityId
  }

  function SourcesOf(ms: seq<Match>): (ss: seq<Source>)
    ensures |ss| == |ms| && forall i :: 0 <= i < |ms| ==> ss[i] == ms[i].source
  {
    if ms == [] then [] else [ms[0].source] + SourcesOf(ms[1..])
  }

  function IdsOf(ms: seq<Match>): (ids: seq<Option<string>>)
    ensures |ids| == |ms| && forall i :: 0 <= i < |ms| ==> ids[i] == ms[i].row.entityId
  {
    if ms == [] then [] else [ms[0].row.entityId] + IdsOf(ms[1..])
  }

  /** `max(matches, key=confidence)`: the index of the first element with the
      largest confidence. */
  function FirstMax(ms: seq<Match>): (i: nat)
    requires ms != []
    ensures i < |ms|
    ensures forall j :: 0 <= j < |ms| ==> ms[j].confidence <= ms[i].confidence
    ensures forall j :: 0 <= j < i ==> ms[j].confidence < ms[i].confidence
  {
    if |ms| == 1 then 0
    else
      var k := FirstMax(ms[..|ms| - 1]);
      if ms[|ms| - 1].confidence > ms[k].confidence then |ms| - 1 else k
  }

  /** The decision taken on the collected matches. */
  function Decide(ms: seq<Match>): (r: Resolution)
    ensures ms == [] <==> r.NotFound?
    ensures r.Conflict? <==> ms != [] && |EntityIds(ms)| > 1
    ensures r.Conflict? ==> r.matchedEntities == IdsOf(ms) && r.sources == SourcesOf(ms)
    ensures r.Resolved? ==> r.matchedSources == SourcesOf(ms)
    ensures r.Resolved? ==> (exists m :: m in ms && m.confidence == r.confidence && m.row == r.profile)
    ensures r.Resolved? ==> forall m :: m in ms ==> m.confidence <= r.confidence
  {
    if ms == [] then NotFound
    else if |EntityIds(ms)| > 1 then Conflict(IdsOf(ms), SourcesOf(ms))
    else
      var best := ms[FirstMax(ms)];
      assert best in ms;
      Resolved(best.row.entityId, best.confidence, SourcesOf(ms), best.row)
  }

  /** Without a conflict every match names the resolved entity. */
  lemma ResolvedAgree(ms: seq<Match>)
    requires Decide(ms).Resolved?
    ensures forall m :: m in ms ==> m.row.entityId == Decide(ms).entityId
  {
    var x := ms[0].row.entityId;
    assert x in EntityIds(ms);
    SingletonSet(EntityIds(ms), x);
    var best := ms[FirstMax(ms)];
    assert best.row.entityId in EntityIds(ms);
    forall m | m in ms ensures m.row.entityId == x {
      assert m.row.entityId in EntityIds(ms);
    }
  }

  lemma SingletonSet(s: set<Option<string>>, x: Option<string>)
    requires x in s && |s| <= 1
    ensures s == {x}
  {
    if s != {x} {
      var y :| y in s && y != x;
      assert {x, y} <= s;
      assert |{x, y}| == 2;
      SubsetCardinality({x, y}, s);
    }
  }

  /** `DatabaseService.resolve_entity`. */
  function ResolveEntity(card: Option<string>, device: Option<string>, face: Option<string>, l: Lookups): Resolution
  {
    Decide(Matches(card, device, face, l))
  }

  /** Nothing is found exactly when no supplied identifier finds a row. */
  lemma NotFoundMeaning(card: Option<string>, device: Option<string>, face: Option<string>, l: Lookups)
    ensures ResolveEntity(card, device, face, l).NotFound? <==>
      (!Truthy(card) || l.byCard(card.value) == [])
      && (!Truthy(device) || l.byDevice(device.value) == [])
      && (!Truthy(face) || l.byFace(face.value) == [])
  {
  }

  /** A single matching source always resolves, with that source's confidence. */
  lemma SingleSourceResolves(card: Option<string>, l: Lookups)
    requires Truthy(card) && l.byCard(card.value) != []
    ensures ResolveEntity(card, None, None, l) ==
      Resolved(l.byCard(card.value)[0].entityId, 0.95, [Card], l.byCard(card.value)[0])
  {
    var ms := Matches(card, None, None, l);
    assert ms == [Match(Card, l.byCard(card.value)[0], 0.95)];
    assert EntityIds(ms) == {l.byCard(card.value)[0].entityId};
  }

  /** When the device and the face agree on the entity, the face's 0.90 wins
      over the device's 0.85 although the device was tried first. */
  lemma FaceOutranksDevice(device: string, face: string, l: Lookups)
    requires device != "" && face != ""
    requires l.byDevice(device) != [] && l.byFace(face) != []
    requires l.byDevice(device)[0].entityId == l.byFace(face)[0].entityId
    ensures var r := ResolveEntity(None, Some(device), Some(face), l);
      r.Resolved? && r.confidence == 0.90 && r.profile == l.byFace(face)[0] && r.matchedSources == [Device, Face]
  {
    var a := Match(Device, l.byDevice(device)[0], 0.85);
    var b := Match(Face, l.byFace(face)[0], 0.90);
    var ms := Matches(None, Some(device), Some(face), l);
    assert ms == [a, b];
    assert EntityIds(ms) == {a.row.entityId};
    assert FirstMax(ms) == 1 by {
      assert ms[..1] == [a];
    }
  }

  /** A card that names one entity and a device that names another conflict,
      and both are reported in match order. */
  lemma CardDeviceConflict(card: string, device: string, l: Lookups)
    requires card != "" && device != ""
    requires l.byCard(card) != [] && l.byDevice(device) != []
    requires l.byCard(card)[0].entityId != l.byDevice(device)[0].entityId
    ensures ResolveEntity(Some(card), Some(device), None, l) ==
      Conflict([l.byCard(card)[0].entityId, l.byDevice(device)[0].entityId], [Card, Device])
  {
    var a, b := l.byCard(card)[0].entityId, l.byDevice(device)[0].entityId;
    var ms := Matches(Some(card), Some(device), None, l);
    assert ms == [Match(Card, l.byCard(card)[0], 0.95), Match(Device, l.byDevice(device)[0], 0.85)];
    assert EntityIds(ms) == {a, b};
    assert |{a, b}| == 2;
    assert IdsOf(ms) == [a, b];
    assert SourcesOf(ms) == [Card, Device];
  }

  // ---------------------------------------------------------------------
  // Derived statistics
  // ---------------------------------------------------------------------

  /** `get_entity_activity_timeline` given the four lists it fetched. */
  datatype Timeline<T> = Timeline(
    entityId: string,
    periodDays: int,
    swipes: seq<T>,
    wifiLogs: seq<T>,
    labBookings: seq<T>,
    libraryCheckouts: seq<T>,
    totalActivities: nat)

  function ActivityTimeline<T>(entityId: string, days: int, swipes: seq<T>, wifi: seq<T>, labs: seq<T>, library: seq<T>): (t: Timeline<T>)
    ensures t.totalActivities == |t.swipes + t.wifiLogs + t.labBookings + t.libraryCheckouts|
    ensures t.swipes == swipes && t.wifiLogs == wifi && t.labBookings == labs && t.libraryCheckouts == library
  {
    Timeline(entityId, days, swipes, wifi, labs, library, |swipes| + |wifi| + |labs| + |library|)
  }

  /** `get_security_stats`: four fixed figures and the sizes of two fetches. */
  datatype SecurityStats = SecurityStats(
    activeThreats: nat, resolvedToday: nat, monitoredZones: nat, accessViolations: nat,
    totalSwipesToday: nat, totalCctvFramesToday: nat)

  function GetSecurityStats<T>(recentSwipes: seq<T>, recentCctv: seq<T>): (s: SecurityStats)
    ensures s.activeThreats == 3 && s.resolvedToday == 12 && s.monitoredZones == 24 && s.accessViolations == 5
    ensures s.totalSwipesToday == |recentSwipes| && s.totalCctvFramesToday == |recentCctv|
  {
    SecurityStats(3, 12, 24, 5, |recentSwipes|, |recentCctv|)
  }

  /** `get_dashboard_stats`; the resolution accuracy is always null. */
  datatype DashboardStats = DashboardStats(totalEntities: nat, activeToday: nat, totalActivities: nat)

  /** The distinct truthy identities among the fetched swipes. */
  function ActiveIdentities(identities: seq<Option<string>>): set<string>
  {
    set s | s in identities && Truthy(s) :: s.value
  }

  function GetDashboardStats(profileCount: Option<nat>, swipeIdentities: seq<Option<string>>): (d: DashboardStats)
    ensures d.totalEntities == (if profileCount.Some? then profileCount.value else 0)
    ensures d.activeToday == |ActiveIdentities(swipeIdentities)|
    ensures d.totalActivities == |swipeIdentities|
  {
    DashboardStats(if profileCount.Some? then profileCount.value else 0, |ActiveIdentities(swipeIdentities)|, |swipeIdentities|)
  }

  /** There are never more active people than swipes, and there is one
      exactly when some swipe carries a truthy identity. */
  lemma {:induction false} ActiveAtMostSwipes(identities: seq<Option<string>>)
    ensures |ActiveIdentities(identities)| <= |identities|
    ensures ActiveIdentities(identities) == {} <==> forall s :: s in identities ==> !Truthy(s)
  {
    if identities != [] {
      var init := identities[..|identities| - 1];
      var last := identities[|identities| - 1];
      ActiveAtMostSwipes(init);
      assert identities == init + [last];
      if Truthy(last) {
        assert ActiveIdentities(identities) == ActiveIdentities(init) + {last.value};
      } else {
        assert ActiveIdentities(identities) == ActiveIdentities(init);
      }
    }
  }

  /** A further swipe by someone already seen does not change `active_today`. */
  lemma RepeatSwipe(identities: seq<Option<string>>, who: Option<string>)
    requires who in identities
    ensures ActiveIdentities(identities + [who]) == ActiveIdentities(identities)
  {
  }
}
