/** The security-monitoring page (src/pages/SecurityMonitoring.tsx): the
    profile search filter, the two charts derived from an entity's history
    (activities per type and per hour), and the handlers that request a
    history. The hour of an activity is given directly; the page derives it
    from the timestamp with the local clock. */
module SecurityMonitoring {
  import opened Common
  import Tally
  import Ranking

  /** A profile as the page reads it: every field may be missing. */
  datatype Profile = Profile(entityId: Option<string>, name: Option<string>, email: Option<string>, department: Option<string>)

  type Hour = h: nat | h < 24

  datatype Activity = Activity(kind: string, hour: Hour, location: string)

  /** The JSON the history request resolved to. */
  datatype History = History(totalActivities: Option<int>, activities: Option<seq<Activity>>)

  // ---------------------------------------------------------------------
  // Search filter
  // ---------------------------------------------------------------------

  /** The characters `String.prototype.trim` removes: white space and line
      terminators (section 12.2 and 12.3 of ECMA-262). */
  predicate IsJsWhitespace(c: char)
  {
    c == '\t' || c == '\n' || c == '\U{0B}' || c == '\U{0C}' || c == '\r' || c == ' '
    || c == '\U{A0}' || c == '\U{1680}' || ('\U{2000}' <= c <= '\U{200A}')
    || c == '\U{2028}' || c == '\U{2029}' || c == '\U{202F}' || c == '\U{205F}'
    || c == '\U{3000}' || c == '\U{FEFF}'
  }

  /** `query.trim() === ''`. */
  predicate Blank(query: string)
  {
    forall i :: 0 <= i < |query| ==> IsJsWhitespace(query[i])
  }

  /** `field?.toLowerCase().includes(query.toLowerCase())`: a missing field never matches. */
  predicate FieldMatches(field: Option<string>, query: string)
  {
    field.Some? && Contains(Lower(field.value), Lower(query))
  }

  predicate ProfileMatches(p: Profile, query: string)
  {
    FieldMatches(p.name, query) || FieldMatches(p.email, query) || FieldMatches(p.entityId, query)
  }

  /** `profiles.filter(p => ProfileMatches(p, query))`. */
  function FilterMatching(profiles: seq<Profile>, query: string): seq<Profile>
  {
    if profiles == [] then []
    else (if ProfileMatches(profiles[0], query) then [profiles[0]] else []) + FilterMatching(profiles[1..], query)
  }

  /** The filter effect: a blank query shows every profile; otherwise the
      untrimmed query is matched against name, email and id. */
  function FilterProfiles(profiles: seq<Profile>, query: string): seq<Profile>
  {
    if Blank(query) then profiles else FilterMatching(profiles, query)
  }

  /** The dropdown under the search box: only for a non-empty query and a
      non-empty result, and at most ten rows. */
  function DropdownRows(query: string, filtered: seq<Profile>): (rows: seq<Profile>)
    ensures |rows| <= 10
    ensures rows <= filtered
    ensures rows != [] <==> query != "" && filtered != []
  {
    if query != "" && |filtered| > 0 then Ranking.Take(filtered, 10) else []
  }

  // ---------------------------------------------------------------------
  // Activity distribution
  // ---------------------------------------------------------------------

  /** The activity types, in order. */
  function Kinds(acts: seq<Activity>): (ks: seq<string>)
    ensures |ks| == |acts|
    ensures forall i :: 0 <= i < |acts| ==> ks[i] == acts[i].kind
  {
    seq(|acts|, i requires 0 <= i < |acts| => acts[i].kind)
  }

  /** `s.replace('_', ' ')` with a string pattern: only the first `_` is replaced. */
  function ReplaceFirstUnderscore(s: string): string
  {
    if s == [] then []
    else if s[0] == '_' then [' '] + s[1..]
    else [s[0]] + ReplaceFirstUnderscore(s[1..])
  }

  /** The chart label of a type. */
  function Label(kind: string): string
  {
    Upper(ReplaceFirstUnderscore(kind))
  }

  /** The chart colour of a type; an unknown type gets the fifth colour. */
  function KindColor(kind: string): string
  {
    if kind == "swipe" then "hsl(var(--chart-1))"
    else if kind == "wifi" then "hsl(var(--chart-2))"
    else if kind == "lab_booking" then "hsl(var(--chart-3))"
    else if kind == "library" then "hsl(var(--chart-4))"
    else "hsl(var(--chart-5))"
  }

  datatype Slice = Slice(name: string, value: nat, color: string)

  function ToSlices(t: seq<(string, nat)>): (r: seq<Slice>)
    ensures |r| == |t|
    ensures forall i :: 0 <= i < |t| ==> r[i] == Slice(Label(t[i].0), t[i].1, KindColor(t[i].0))
  {
    seq(|t|, i requires 0 <= i < |t| => Slice(Label(t[i].0), t[i].1, KindColor(t[i].0)))
  }

  /** `getActivityDistribution()` as a value: nothing without activities, else
      one slice per type in first-seen order. */
  function Distribution(history: Option<History>): seq<Slice>
  {
    if history.None? || history.value.activities.None? then []
    else ToSlices(Tally.Tally(Kinds(history.value.activities.value)))
  }

  /** The `forEach` that fills the per-type dictionary, then the mapping to slices. */
  method ActivityDistribution(history: Option<History>) returns (slices: seq<Slice>)
    ensures slices == Distribution(history)
  {
    if history.None? || history.value.activities.None? {
      return [];
    }
    var acts := history.value.activities.value;
    var counts: seq<(string, nat)> := [];
    var i := 0;
    while i < |acts|
      invariant 0 <= i <= |acts|
      invariant counts == Tally.Tally(Kinds(acts[..i]))
    {
      assert Kinds(acts[..i + 1])[..i] == Kinds(acts[..i]);
      counts := Tally.Bump(counts, acts[i].kind);
      i := i + 1;
    }
    assert acts[..i] == acts;
    slices := ToSlices(counts);
  }

  function SumValues(slices: seq<Slice>): nat
  {
    if slices == [] then 0 else slices[0].value + SumValues(slices[1..])
  }

  lemma {:induction false} SumValuesIsTotal(t: seq<(string, nat)>)
    ensures SumValues(ToSlices(t)) == Tally.Total(t)
  {
    if t != [] {
      SumValuesIsTotal(t[1..]);
      assert ToSlices(t)[1..] == ToSlices(t[1..]);
    }
  }

  /** With activities, there is one slice per distinct type in first-seen order,
      each carrying that type's label, colour and number of activities, and
      the values add up to the number of activities. */
  lemma DistributionMeaning(acts: seq<Activity>)
    ensures |Distribution(Some(History(None, Some(acts))))| == |Tally.Distinct(Kinds(acts))|
    ensures forall i :: 0 <= i < |Tally.Distinct(Kinds(acts))| ==>
      Distribution(Some(History(None, Some(acts))))[i]
        == Slice(Label(Tally.Distinct(Kinds(acts))[i]), Tally.Count(Kinds(acts), Tally.Distinct(Kinds(acts))[i]),
                 KindColor(Tally.Distinct(Kinds(acts))[i]))
    ensures SumValues(Distribution(Some(History(None, Some(acts))))) == |acts|
  {
    var t := Tally.Tally(Kinds(acts));
    Tally.TallyKeys(Kinds(acts));
    Tally.TallyCounts(Kinds(acts));
    Tally.TallyTotal(Kinds(acts));
    SumValuesIsTotal(t);
    forall i | 0 <= i < |t| ensures t[i].1 == Tally.Count(Kinds(acts), t[i].0) {
      Tally.LookupAt(t, i);
    }
  }

  /** Only the first underscore becomes a space: `lab_booking` is labelled
      `LAB BOOKING`, and a type with two underscores keeps the second. */
  lemma {:induction false} ReplaceFirstMeaning(s: string, k: nat)
    requires k < |s| && s[k] == '_' && forall j :: 0 <= j < k ==> s[j] != '_'
    ensures ReplaceFirstUnderscore(s) == s[..k] + " " + s[k + 1..]
  {
    if k > 0 {
      ReplaceFirstMeaning(s[1..], k - 1);
      assert s[1..][..k - 1] == s[1..k];
      assert s[..k] == [s[0]] + s[1..k];
      assert s[1..][k..] == s[k + 1..];
    }
  }

  /** A type without underscores is only upper-cased. */
  lemma {:induction false} ReplaceFirstNoUnderscore(s: string)
    requires '_' !in s
    ensures ReplaceFirstUnderscore(s) == s
  {
    if s != [] {
      assert s[0] in s;
      assert forall c :: c in s[1..] ==> c in s;
      ReplaceFirstNoUnderscore(s[1..]);
    }
  }

  lemma LabBookingLabel()
    ensures Label("lab_booking") == "LAB BOOKING"
  {
    ReplaceFirstMeaning("lab_booking", 3);
  }

  lemma SecondUnderscoreKept()
    ensures Label("a_b_c") == "A B_C"
  {
    ReplaceFirstMeaning("a_b_c", 1);
  }

  // ---------------------------------------------------------------------
  // Hourly activity
  // ---------------------------------------------------------------------

  /** Number of activities in hour `h`. */
  function CountHour(acts: seq<Activity>, h: nat): nat
  {
    if acts == [] then 0
    else CountHour(acts[..|acts| - 1], h) + (if acts[|acts| - 1].hour == h then 1 else 0)
  }

  datatype HourBar = HourBar(caption: string, activities: nat)

  /** `${hour.padStart(2, '0')}:00` for an hour key. */
  function HourLabel(h: Hour): string
  {
    Pad2(h) + ":00"
  }

  /** `getHourlyActivity()` as a value: nothing without activities, else the
      24 hours in ascending order with their counts. */
  function Hourly(history: Option<History>): seq<HourBar>
  {
    if history.None? || history.value.activities.None? then []
    else
      var acts := history.value.activities.value;
      seq(24, h requires 0 <= h < 24 => HourBar(HourLabel(h), CountHour(acts, h)))
  }

  /** The 24 zeroed hours, then one increment per activity. */
  method HourlyActivity(history: Option<History>) returns (bars: seq<HourBar>)
    ensures bars == Hourly(history)
  {
    if history.None? || history.value.activities.None? {
      return [];
    }
    var acts := history.value.activities.value;
    var hourly: seq<nat> := [];
    var h := 0;
    while h < 24
      invariant 0 <= h <= 24 && |hourly| == h
      invariant forall k :: 0 <= k < h ==> hourly[k] == 0
    {
      hourly := hourly + [0];
      h := h + 1;
    }
    var i := 0;
    while i < |acts|
      invariant 0 <= i <= |acts| && |hourly| == 24
      invariant forall k :: 0 <= k < 24 ==> hourly[k] == CountHour(acts[..i], k)
    {
      assert acts[..i + 1][..i] == acts[..i];
      hourly := hourly[acts[i].hour := hourly[acts[i].hour] + 1];
      i := i + 1;
    }
    assert acts[..i] == acts;
    bars := seq(24, k requires 0 <= k < 24 => HourBar(HourLabel(k), hourly[k]));
  }

  /** Sum of the counts of hours `0 .. k-1`. */
  function SumHours(acts: seq<Activity>, k: nat): nat
  {
    if k == 0 then 0 else SumHours(acts, k - 1) + CountHour(acts, k - 1)
  }

  lemma {:induction false} SumHoursSnoc(acts: seq<Activity>, k: nat)
    requires acts != []
    ensures SumHours(acts, k) == SumHours(acts[..|acts| - 1], k) + (if acts[|acts| - 1].hour < k then 1 else 0)
  {
    if k > 0 {
      SumHoursSnoc(acts, k - 1);
    }
  }

  lemma {:induction false} SumHoursAll(acts: seq<Activity>)
    ensures SumHours(acts, 24) == |acts|
  {
    if acts != [] {
      SumHoursAll(acts[..|acts| - 1]);
      SumHoursSnoc(acts, 24);
    } else {
      SumHoursEmpty(24);
    }
  }

  lemma {:induction false} SumHoursEmpty(k: nat)
    ensures SumHours([], k) == 0
  {
    if k > 0 {
      SumHoursEmpty(k - 1);
    }
  }

  function SumBars(bars: seq<HourBar>): nat
  {
    if bars == [] then 0 else SumBars(bars[..|bars| - 1]) + bars[|bars| - 1].activities
  }

  lemma {:induction false} SumBarsPrefix(acts: seq<Activity>, k: nat)
    requires k <= 24
    ensures SumBars(Hourly(Some(History(None, Some(acts))))[..k]) == SumHours(acts, k)
  {
    var bars := Hourly(Some(History(None, Some(acts))));
    if k > 0 {
      SumBarsPrefix(acts, k - 1);
      assert bars[..k][..k - 1] == bars[..k - 1];
    }
  }

  /** With activities there are exactly 24 bars, hour `h` labelled `HH:00` and
      counting the activities in that hour, and the counts add up to the
      number of activities. An empty list still gives 24 bars. */
  lemma HourlyMeaning(acts: seq<Activity>)
    ensures |Hourly(Some(History(None, Some(acts))))| == 24
    ensures forall h: Hour :: Hourly(Some(History(None, Some(acts))))[h] == HourBar(HourLabel(h), CountHour(acts, h))
    ensures SumBars(Hourly(Some(History(None, Some(acts))))) == |acts|
  {
    SumBarsPrefix(acts, 24);
    SumHoursAll(acts);
    assert Hourly(Some(History(None, Some(acts))))[..24] == Hourly(Some(History(None, Some(acts))));
  }

  /** `String(h).padStart(2, '0')`: one-digit hours gain a leading zero. */
  lemma PadMatchesPadStart(h: Hour)
    ensures h < 10 ==> Pad2(h) == "0" + NatToString(h)
    ensures h >= 10 ==> Pad2(h) == NatToString(h)
  {
    if h >= 10 {
      assert NatToString(h) == NatToString(h / 10) + [DigitChar(h % 10)];
    }
  }

  /** Without an activities list both charts are empty; an empty list gives no
      slices but 24 empty bars. */
  lemma ChartsOnEmpty(total: Option<int>)
    ensures Distribution(None) == [] && Hourly(None) == []
    ensures Distribution(Some(History(total, None))) == [] && Hourly(Some(History(total, None))) == []
    ensures Distribution(Some(History(total, Some([])))) == []
    ensures |Hourly(Some(History(total, Some([]))))| == 24
  {
  }

  /** The "Activities Today" card: `entityHistory?.total_activities?.toString() || '0'`. */
  function ActivitiesToday(history: Option<History>): (text: string)
    ensures history.None? || history.value.totalActivities.None? ==> text == "0"
    ensures history.Some? && history.value.totalActivities.Some? ==> text == IntToString(history.value.totalActivities.value)
  {
    if history.Some? && history.value.totalActivities.Some? then IntToString(history.value.totalActivities.value) else "0"
  }

  // ---------------------------------------------------------------------
  // Filter properties
  // ---------------------------------------------------------------------

  /** A blank query shows the profiles as they are. */
  lemma BlankShowsAll(profiles: seq<Profile>, query: string)
    requires Blank(query)
    ensures FilterProfiles(profiles, query) == profiles
  {
  }

  /** A non-blank query keeps exactly the matching profiles, in their order. */
  lemma {:induction false} FilterMeaning(profiles: seq<Profile>, query: string)
    ensures forall p :: p in FilterMatching(profiles, query) <==> p in profiles && ProfileMatches(p, query)
    ensures |FilterMatching(profiles, query)| <= |profiles|
  {
    if profiles != [] {
      FilterMeaning(profiles[1..], query);
      assert profiles == [profiles[0]] + profiles[1..];
    }
  }

  /** Filtering distributes over concatenation: relative order is kept. */
  lemma {:induction false} FilterAppend(a: seq<Profile>, b: seq<Profile>, query: string)
    ensures FilterMatching(a + b, query) == FilterMatching(a, query) + FilterMatching(b, query)
  {
    if a == [] {
      assert a + b == b;
    } else {
      FilterAppend(a[1..], b, query);
      assert (a + b)[1..] == a[1..] + b;
    }
  }

  /** Matching ignores the case of ASCII letters on both sides. */
  lemma MatchIgnoresCase(field: string, query: string)
    ensures FieldMatches(Some(field), query) == FieldMatches(Some(Lower(field)), Upper(query))
  {
    assert Lower(Lower(field)) == Lower(field);
    assert Lower(Upper(query)) == Lower(query);
  }

  // ---------------------------------------------------------------------
  // Page state
  // ---------------------------------------------------------------------

  /** The history request: `entity_id`, `asset_type` and `time_range` pasted
      into the URL as they are (a missing id is sent as `undefined`). */
  datatype HistoryRequest = HistoryRequest(entityId: Option<string>, assetType: string, timeRange: string)

  /** The page's state: the loaded profiles, the search box, the filtered list
      the effect keeps in step with both, and the history being shown. */
  class MonitorPage {
    var profiles: seq<Profile>
    var filtered: seq<Profile>
    var searchQuery: string
    var assetType: string
    var timeRange: string
    var selectedEntity: Option<string>
    var history: Option<History>
    var loading: bool

    ghost predicate Valid()
      reads this
    {
      filtered == FilterProfiles(profiles, searchQuery)
    }

    constructor ()
      ensures Valid()
      ensures profiles == [] && searchQuery == "" && selectedEntity.None? && history.None? && !loading
      ensures assetType == "all" && timeRange == "today"
    {
      profiles, filtered, searchQuery := [], [], "";
      assetType, timeRange := "all", "today";
      selectedEntity, history, loading := None, None, false;
    }

    /** Typing in the search box; the filter effect follows. */
    method SetSearchQuery(q: string)
      modifies this
      ensures Valid()
      ensures searchQuery == q && profiles == old(profiles)
      ensures assetType == old(assetType) && timeRange == old(timeRange)
      ensures selectedEntity == old(selectedEntity) && history == old(history) && loading == old(loading)
    {
      searchQuery := q;
      filtered := FilterProfiles(profiles, searchQuery);
    }

    /** The profile list arriving; the filter effect follows. */
    method ProfilesLoaded(data: seq<Profile>)
      modifies this
      ensures Valid()
      ensures profiles == data && searchQuery == old(searchQuery)
      ensures assetType == old(assetType) && timeRange == old(timeRange)
      ensures selectedEntity == old(selectedEntity) && history == old(history) && loading == old(loading)
    {
      profiles := data;
      filtered := data;
      filtered := FilterProfiles(profiles, searchQuery);
    }

    /** `fetchEntityHistory` up to its `await`: loading starts and the request goes out. */
    method BeginFetch(entityId: Option<string>) returns (req: HistoryRequest)
      modifies this`loading
      ensures loading
      ensures req == HistoryRequest(entityId, assetType, timeRange)
    {
      loading := true;
      req := HistoryRequest(entityId, assetType, timeRange);
    }

    /** The request settling: the returned JSON, or the built-in demo history
        when the request or the parse failed, is shown for the requested entity,
        and loading ends. The response status is not checked. */
    method FetchSettled(req: HistoryRequest, response: Option<History>, fallback: History)
      modifies this`history, this`selectedEntity, this`loading
      ensures history == Some(if response.Some? then response.value else fallback)
      ensures selectedEntity == req.entityId
      ensures !loading
    {
      history := Some(if response.Some? then response.value else fallback);
      selectedEntity := req.entityId;
      loading := false;
    }

    /** `handleSearch`: the first filtered profile's history, if there is one. */
    method HandleSearch() returns (req: Option<HistoryRequest>)
      requires Valid()
      modifies this`loading
      ensures Valid()
      ensures req.Some? <==> old(filtered) != []
      ensures req.Some? ==> req.value.entityId == old(filtered)[0].entityId && loading
      ensures req.None? ==> loading == old(loading)
    {
      if |filtered| > 0 {
        var r := BeginFetch(filtered[0].entityId);
        req := Some(r);
      } else {
        req := None;
      }
    }

    /** `handleRefresh`: the selected entity's history again, if one is
        selected, and always the inactive-entity list. */
    method HandleRefresh() returns (req: Option<HistoryRequest>, inactiveRefetched: bool)
      requires Valid()
      modifies this`loading
      ensures Valid()
      ensures req.Some? <==> Truthy(old(selectedEntity))
      ensures req.Some? ==> req.value.entityId == old(selectedEntity) && loading
      ensures inactiveRefetched
    {
      if Truthy(selectedEntity) {
        var r := BeginFetch(selectedEntity);
        req := Some(r);
      } else {
        req := None;
      }
      inactiveRefetched := true;
    }
  }

  // ---------------------------------------------------------------------
  // The demo history
  // ---------------------------------------------------------------------

  /** The hour `k` hours before `nowHour`, ignoring daylight-saving changes. */
  function HoursAgo(nowHour: Hour, k: nat): Hour
  {
    ((nowHour - k) % 24) as nat
  }

  /** The built-in history shown when the request fails. */
  function DemoHistory(nowHour: Hour): History
  {
    History(Some(47), Some([
      Activity("swipe", HoursAgo(nowHour, 1), "Main Building Entrance"),
      Activity("wifi", HoursAgo(nowHour, 2), "Library Building"),
      Activity("swipe", HoursAgo(nowHour, 3), "Cafeteria"),
      Activity("lab_booking", HoursAgo(nowHour, 4), "Computer Lab 3"),
      Activity("library", HoursAgo(nowHour, 5), "Central Library"),
      Activity("wifi", HoursAgo(nowHour, 6), "Student Center"),
      Activity("swipe", HoursAgo(nowHour, 7), "Gymnasium"),
      Activity("lab_booking", HoursAgo(nowHour, 8), "Physics Lab"),
      Activity("library", HoursAgo(nowHour, 9), "Central Library"),
      Activity("swipe", HoursAgo(nowHour, 10), "Dormitory Building A")]))
  }

  /** The demo card says 47 activities while its list holds 10. */
  lemma DemoHistoryCounts(nowHour: Hour)
    ensures ActivitiesToday(Some(DemoHistory(nowHour))) == "47"
    ensures |DemoHistory(nowHour).activities.value| == 10
  {
    assert NatToString(47) == NatToString(4) + [DigitChar(7)];
  }
}
