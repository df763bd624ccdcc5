# Campus entity resolution and security monitoring — a Dafny model

The system resolves campus people across card swipes, Wi-Fi logs, CCTV face detections, lab bookings and library records. A React front end shows alerts, an occupancy map and a security page. A Python back end scores identity matches, predicts where an entity goes next, flags anomalies, infers missing profile fields and forecasts occupancy. This project models the deterministic logic of both halves, one Dafny module per source file:

- `AlertsContext` — the client alert store (`AlertStore`): add, update and resolve, and the status summary derived from the list.
- `Api` — the API client: how each call builds its path and query parameters, how `fetchAPI` merges headers, and which body or error message a response yields.
- `QueryHooks` — the data hooks: query keys, `enabled` guards, stale and polling intervals, the `useAlerts` `select` normaliser, and the cache invalidation of the alert mutations.
- `SecurityMonitoring` — the security page (`MonitorPage`): the profile search filter, the per-type and per-hour charts, and the search and refresh handlers.
- `SpaceFlow` — the occupancy map (`MapView`): zoom, wheel, pan and reset, severity bands, the icon and colour maps, the overcrowding badge and the alert rings.
- `Entities` — the avatar initials.
- `EntityResolution` — name similarity, weighted multi-identifier scoring, candidate ranking and cross-source link confidence.
- `Database` — pagination, cross-source resolution with conflict detection, and the timeline, security and dashboard counts.
- `PredictiveAnalytics` — next-location prediction, anomaly detection and missing-data inference.
- `MlPredictor` — the occupancy forecaster (`Predictor`): temporal features and defaults, model weights, the confidence clamp and the fallback.
- `Tally`, `Ranking`, `Common` — shared pieces:
  - an insertion-ordered counter;
  - the stable descending sort behind `sort(reverse=True)`, `sorted` and `most_common`;
  - options, truthiness, case mapping, substring search and number printing.

Where the source mutates state, the model is a class, and its methods are proved against specification functions. Where the source loops, the model is a method with loop invariants, proved equal to a specification function. Database queries, HTTP requests, clocks and model inference are parameters. Decimal weights and thresholds are exact `real`s.

Where the system's documentation and its code disagree, the model follows the code:
- The seeded alerts have statuses active, active, resolved, pending (src/contexts/AlertsContext.tsx:73-154). The summary is therefore 4 total, 2 active, 1 resolved, 1 pending.
- In `resolve_entity` of the database service, the face source (0.90) is tried after the device source (0.85). `max` then keeps the face's confidence when both match.
- backend/predictive_analytics.py calls `DatabaseService.get_entity_timeline`, which backend/database.py does not define (see "## Findings"). The analyses of the model take the timeline as a parameter: a lookup result with `activities` and `current_location` keys. No function in backend/database.py produces that shape; `get_entity_activity_timeline` returns separate swipe, Wi-Fi, lab and library lists.

## Model

| member | source | states |
|---|---|---|
| Common.OrElse | src/lib/api.ts:6 | the value when it is a non-empty string, else the fallback |
| Common.Lower | src/pages/SecurityMonitoring.tsx:204-206 | `toLowerCase()` keeps the length and lowercases each character on its own |
| Common.Upper | src/pages/SecurityMonitoring.tsx:325 | `toUpperCase()` keeps the length and uppercases each character on its own |
| Common.Contains | src/pages/SecurityMonitoring.tsx:204-206 | `includes` holds exactly when the needle occurs at some position of the haystack |
| Common.NatToString | src/pages/SecurityMonitoring.tsx:299 | a natural number prints as decimal digits without a leading zero that read back as the number |
| Common.IntToString | src/lib/api.ts:184 | a non-negative integer prints as its digits; a negative one as a minus sign followed by the digits of its absolute value, and only negatives start with a minus |
| Common.Pad2 | src/pages/SecurityMonitoring.tsx:348 | a number below 100 is printed as exactly two digits, tens first |
| Common.Keys | backend/predictive_analytics.py:29 | the keys of a dictionary held as its entries, one per entry, in order |
| Common.SubsetCardinality | backend/entity_resolution.py:172-175 | a subset is no larger than its superset |
| AlertsContext.SeedIdsDistinct | src/contexts/AlertsContext.tsx:73-151 | the four seeded alerts carry pairwise different ids |
| AlertsContext.SeedSummary | src/contexts/AlertsContext.tsx:73-169 | once the summary effect has run on the seeded list, it reports 4 alerts: 2 active, 1 resolved, 1 pending |
| AlertsContext.AlertStore.constructor | src/contexts/AlertsContext.tsx:63-169 | after the mount effects the store holds the seeded list and the summary 4/2/1/1, and the summary equals the counts of the list |
| AlertsContext.AlertStore.AddAlert | src/contexts/AlertsContext.tsx:171-173 | the alert is appended at the end (no check for a repeated id) and the summary is recounted |
| AlertsContext.AlertStore.UpdateAlertStatus | src/contexts/AlertsContext.tsx:175-181 | every alert with the id takes the new status, the others are kept, and the summary is recounted |
| AlertsContext.AlertStore.ResolveAlert | src/contexts/AlertsContext.tsx:183-189 | the local list is updated to resolved first, then the PUT request for status "resolved" is issued |
| AlertsContext.AlertStore.ResolveAlertSettled | src/contexts/AlertsContext.tsx:188-194 | an error is logged exactly when the request failed; nothing is rolled back |
| AlertsContext.SummaryPartition | src/contexts/AlertsContext.tsx:157-168 | the active, resolved and pending counts add up to the total |
| AlertsContext.WithStatusPointwise | src/contexts/AlertsContext.tsx:175-181 | a status update keeps the length and order, changes the status of exactly the alerts with that id, and keeps every other field |
| AlertsContext.WithStatusUnknownId | src/contexts/AlertsContext.tsx:175-181 | an id that no alert carries leaves the list unchanged |
| AlertsContext.WithStatusIdempotent | src/contexts/AlertsContext.tsx:175-181 | setting the same status twice is the same as setting it once |
| AlertsContext.WithStatusCounts | src/contexts/AlertsContext.tsx:157-181 | after an update, the count for a status is the alerts with other ids and that status, plus every alert with the id when the status is the new one |
| AlertsContext.ResolveSeeded | src/contexts/AlertsContext.tsx:73-195 | resolving alert_001 of the seeded list gives 1 active, 2 resolved, 1 pending; resolving alert_003, already resolved, changes nothing |
| Api.BaseUrl | src/lib/api.ts:6 | the configured URL when it is a non-empty string, otherwise http://localhost:8000 |
| Api.Optional | src/lib/api.ts:217 | an optional parameter is appended exactly when its value is truthy (a non-empty string) |
| Api.WithQueryIfAny | src/lib/api.ts:308-309 | the path gets a `?` and a query only when some parameter was appended |
| Api.EncodeChar | src/lib/api.ts:207 | an unreserved character stays itself; any other becomes three characters per UTF-8 byte, the k-th triple being the `%XX` escape of the k-th byte |
| Api.EncodeUriComponent | src/lib/api.ts:207 | every output character is unreserved, `%` or a hex digit, and a string of unreserved characters is unchanged; with `EncodeDecodeBytes` and `EncodeInjective` the encoding decodes back to the string |
| Api.SetProperty | src/lib/api.ts:175-179 | writing a property keeps an existing key in its place and appends a new key at the end |
| Api.UpdateAlertStatusCall | src/lib/api.ts:352-356 | the status update is a PUT to `/api/alerts/` followed by the id |
| Api.SetPropertyGet | src/lib/api.ts:175-179 | writing one property changes that property and no other, and keys stay unique |
| Api.SpreadGet | src/lib/api.ts:175-179 | in `{ ...base, ...extra }` a key of extra reads as in extra and any other key as in base |
| Api.RequestHeadersMeaning | src/lib/api.ts:176-179 | the request always carries a Content-Type; it is application/json unless the caller gives one, and the caller's headers win |
| Api.ResolveParamsMeaning | src/lib/api.ts:288-292 | the resolve query names card_id, device_hash and face_id in that order, each exactly when its value is truthy, and is empty only when none is |
| Api.AlertsZeroLimitDropped | src/lib/api.ts:346-350 | a limit of 0 is falsy: asking for 0 alerts sends no limit at all |
| Api.DashboardQueryOnlyWhenGiven | src/lib/api.ts:304-330 | the three dashboard endpoints carry a query exactly when a date or a time is given |
| Api.LimitFirst | src/lib/api.ts:214-276 | the swipe, Wi-Fi and CCTV queries start with the limit, 50 by default, and the swipe query has a second parameter exactly when an entity id is given |
| Api.SearchTermIsOneSegment | src/lib/api.ts:202-208 | the search term is one path segment (its encoding contains no `/` or `?`), while the profile id is pasted into the path unencoded |
| Api.EncodeSpace | src/lib/api.ts:207 | a space inside a search term encodes as %20 |
| Api.EncodeAccent | src/lib/api.ts:207 | é encodes as its two UTF-8 bytes, %C3%A9 |
| Api.PercentBytesDecode | src/lib/api.ts:207 | percent-decoding the escapes of some bytes gives those bytes back, ahead of what follows |
| Api.EncodeDecodeBytes | src/lib/api.ts:207 | percent-decoding the encoding of a string gives exactly the UTF-8 bytes of the string |
| Api.Utf8Char | src/lib/api.ts:207 | the first UTF-8 byte of a character announces the sequence length, and the bytes spell the character |
| Api.Utf8RoundTrip | src/lib/api.ts:207 | UTF-8 decoding inverts UTF-8 encoding of a string |
| Api.EncodeInjective | src/lib/api.ts:207 | two strings with the same encoding are equal, so the search term is recoverable from the path |
| Api.FetchOutcomeCases | src/lib/api.ts:170-191 | a transport failure is rethrown; an ok response returns its parsed body or throws the parse error; a failed response throws the error built from its body |
| Api.ErrorMessages | src/lib/api.ts:182-184 | a failed response throws its non-empty `detail`, otherwise `HTTP <status>: <statusText>`; an unreadable body gives "Unknown error", and a `null` body throws on the property read |
| QueryHooks.Invalidate | src/hooks/useAPI.ts:205 | invalidating keeps every cached entry and its key, and marks stale exactly the entries already stale or whose key starts with the filter |
| QueryHooks.InvalidateIdempotent | src/hooks/useAPI.ts:205 | invalidating twice with one filter is the same as once |
| QueryHooks.MutationCall | src/hooks/useAPI.ts:198-255 | only `useUpdateAlertStatus` calls the back end; the resolve and escalate placeholders only log |
| QueryHooks.UpdateInvalidatesAlerts | src/hooks/useAPI.ts:198-208 | after a successful status update every `['alerts', …]` entry is stale and every other entry unchanged; after a failure the cache is unchanged |
| QueryHooks.PlaceholdersAlwaysInvalidate | src/hooks/useAPI.ts:227-255 | the resolve and escalate placeholders always invalidate the alert queries |
| QueryHooks.AlertsFilterMatchesOnlyAlerts | src/hooks/useAPI.ts:181-205 | the `['alerts']` filter matches the key of a hook exactly when that hook is `useAlerts` |
| QueryHooks.ResolutionObjectInjective | src/hooks/useAPI.ts:130 | the resolution parameter object in the key determines the three identifiers |
| QueryHooks.ResolutionObjectFields | src/hooks/useAPI.ts:130 | each identifier can be read back from the parameter object under its own name |
| QueryHooks.KeyDecodes | src/hooks/useAPI.ts:27-219 | every hook's key alone determines the request its query function makes |
| QueryHooks.ProfileKeysDecode | src/hooks/useAPI.ts:27-42 | the profile list and single-profile keys determine their requests |
| QueryHooks.SearchKeysDecode | src/hooks/useAPI.ts:44-62 | the profile search and swipe keys determine their requests |
| QueryHooks.WiFiKeysDecode | src/hooks/useAPI.ts:67-87 | the Wi-Fi and lab booking keys determine their requests |
| QueryHooks.ActivityKeysDecode | src/hooks/useAPI.ts:89-108 | the library and notes keys determine their requests |
| QueryHooks.CctvKeysDecode | src/hooks/useAPI.ts:111-135 | the CCTV and entity resolution keys determine their requests |
| QueryHooks.EntityKeysDecode | src/hooks/useAPI.ts:137-156 | the timeline and dashboard keys determine their requests |
| QueryHooks.HeatmapKeysDecode | src/hooks/useAPI.ts:158-179 | the heatmap and security statistics keys determine their requests |
| QueryHooks.StatusKeysDecode | src/hooks/useAPI.ts:181-221 | the alerts and health keys determine their requests |
| QueryHooks.SameKeySameRequest | src/hooks/useAPI.ts:27-219 | two hook calls sharing a key fetch the same request, so a cached result is never served for another one |
| QueryHooks.AlertsKeysInjective | src/hooks/useAPI.ts:183 | distinct `(status, limit)` pairs give distinct alert keys |
| QueryHooks.DistinctKeysSameRequest | src/hooks/useAPI.ts:183-184 | a limit of 0 and an omitted limit are two keys for one and the same request |
| QueryHooks.EnabledMeaning | src/hooks/useAPI.ts:35-144 | a profile or timeline query runs exactly when its id is non-empty, a search exactly when its term is non-empty, a resolution exactly when some identifier is truthy; all other queries always run |
| QueryHooks.PollingHooks | src/hooks/useAPI.ts:149-219 | only the dashboard, security, alerts and health queries poll, and alerts poll as often as they go stale |
| QueryHooks.SelectAlertsMeaning | src/hooks/useAPI.ts:187-194 | `select` returns an object with `alerts` unchanged, wraps an array with a null summary, maps anything else to an empty list, and is idempotent |
| QueryHooks.SelectKeepsNonArrayAlerts | src/hooks/useAPI.ts:189-190 | an object whose `alerts` is not an array passes through unchanged |
| SecurityMonitoring.DropdownRows | src/pages/SecurityMonitoring.tsx:553-555 | the dropdown shows a prefix of the filtered profiles, at most 10, and shows any only when the query and the filtered list are both non-empty |
| SecurityMonitoring.BlankShowsAll | src/pages/SecurityMonitoring.tsx:199-201 | an empty or whitespace-only query shows every profile |
| SecurityMonitoring.FilterMeaning | src/pages/SecurityMonitoring.tsx:202-209 | a non-blank query keeps exactly the profiles whose lowercased name, email or entity id contains the lowercased query |
| SecurityMonitoring.FilterAppend | src/pages/SecurityMonitoring.tsx:203-207 | filtering works element by element, so the kept profiles stay in their original order |
| SecurityMonitoring.MatchIgnoresCase | src/pages/SecurityMonitoring.tsx:204-206 | matching does not depend on the case of either the field or the query |
| SecurityMonitoring.Kinds | src/pages/SecurityMonitoring.tsx:320-321 | the activity types, one per activity, in order |
| SecurityMonitoring.ToSlices | src/pages/SecurityMonitoring.tsx:324-332 | each type and its count become one chart slice with the type's label and colour, in order |
| SecurityMonitoring.ActivityDistribution | src/pages/SecurityMonitoring.tsx:316-333 | the loop that fills the dictionary computes exactly the specified distribution |
| SecurityMonitoring.SumValuesIsTotal | src/pages/SecurityMonitoring.tsx:324-326 | the slice values add up to the counter's total |
| SecurityMonitoring.DistributionMeaning | src/pages/SecurityMonitoring.tsx:316-333 | one slice per distinct type in first-seen order, with that type's number of occurrences; the slice values sum to the number of activities |
| SecurityMonitoring.ReplaceFirstMeaning | src/pages/SecurityMonitoring.tsx:325 | `replace('_', ' ')` replaces only the first underscore with a space |
| SecurityMonitoring.ReplaceFirstNoUnderscore | src/pages/SecurityMonitoring.tsx:325 | a type without an underscore is left as it is |
| SecurityMonitoring.LabBookingLabel | src/pages/SecurityMonitoring.tsx:325 | `lab_booking` is labelled `LAB BOOKING` |
| SecurityMonitoring.SecondUnderscoreKept | src/pages/SecurityMonitoring.tsx:325 | `a_b_c` is labelled `A B_C`: the second underscore stays |
| SecurityMonitoring.HourlyActivity | src/pages/SecurityMonitoring.tsx:336-351 | the zeroing loop and the per-activity increments compute exactly the specified 24 bars |
| SecurityMonitoring.SumHoursSnoc | src/pages/SecurityMonitoring.tsx:342-345 | the count of activities before hour k grows by one exactly when the added activity falls before k |
| SecurityMonitoring.SumHoursAll | src/pages/SecurityMonitoring.tsx:342-345 | every activity falls in one of the 24 hours |
| SecurityMonitoring.SumHoursEmpty | src/pages/SecurityMonitoring.tsx:340 | no activities give zero in every hour |
| SecurityMonitoring.SumBarsPrefix | src/pages/SecurityMonitoring.tsx:347-350 | the first k bars add up to the number of activities before hour k |
| SecurityMonitoring.HourlyMeaning | src/pages/SecurityMonitoring.tsx:336-351 | exactly 24 bars, bar h labelled `HH:00` and holding the number of activities in hour h; the bars sum to the number of activities |
| SecurityMonitoring.PadMatchesPadStart | src/pages/SecurityMonitoring.tsx:348 | `padStart(2, '0')` adds a leading zero exactly to the hours below 10 |
| SecurityMonitoring.ChartsOnEmpty | src/pages/SecurityMonitoring.tsx:317-340 | no history or no activities give no charts; an empty activity list still gives 24 zero bars and an empty distribution |
| SecurityMonitoring.ActivitiesToday | src/pages/SecurityMonitoring.tsx:299 | the card shows the history's total as text, or `0` when there is none |
| SecurityMonitoring.MonitorPage.constructor | src/pages/SecurityMonitoring.tsx:43-51 | the page starts with no profiles, an empty query, no selection or history, not loading, asset type `all` and range `today` |
| SecurityMonitoring.MonitorPage.SetSearchQuery | src/pages/SecurityMonitoring.tsx:198-210 | typing updates the query and the filter effect recomputes the filtered list; profiles, selection, history, loading, asset type and time range are unchanged |
| SecurityMonitoring.MonitorPage.ProfilesLoaded | src/pages/SecurityMonitoring.tsx:186-187 | loaded profiles replace the list and the filter effect reapplies the current query; query, selection, history, loading, asset type and time range are unchanged |
| SecurityMonitoring.MonitorPage.BeginFetch | src/pages/SecurityMonitoring.tsx:236-252 | fetching a history sets loading and requests it with the current asset type and time range |
| SecurityMonitoring.MonitorPage.FetchSettled | src/pages/SecurityMonitoring.tsx:253-263 | when the request settles the history is the response or, on failure, the demo history; the entity becomes selected and loading ends |
| SecurityMonitoring.MonitorPage.HandleSearch | src/pages/SecurityMonitoring.tsx:266-270 | a history is requested exactly when the filtered list is non-empty, and then for its first profile |
| SecurityMonitoring.MonitorPage.HandleRefresh | src/pages/SecurityMonitoring.tsx:272-277 | a history is requested exactly when an entity is selected, for that entity; inactive entities are always re-fetched |
| SecurityMonitoring.DemoHistoryCounts | src/pages/SecurityMonitoring.tsx:89-153 | the demo history reports 47 activities while listing 10 |
| SpaceFlow.MaxPan | src/pages/SpaceFlow.tsx:180 | the pan bound is `200 * (zoom - 1)` from zoom 1 up and 0 below, never negative |
| SpaceFlow.ClampPan | src/pages/SpaceFlow.tsx:183-184 | the clamped pan lies within ±bound, equals the requested pan when that is within bounds, and otherwise the nearer bound |
| SpaceFlow.AsWrittenPinsBelowOne | src/pages/SpaceFlow.tsx:180-184 | below zoom 1 the clamp as written returns `200 * (1 - zoom)` whatever the requested pan |
| SpaceFlow.AsWrittenExample | src/pages/SpaceFlow.tsx:180-184 | at zoom 0.5 the clamp as written moves both pans -50 and 50 to 100, where the corrected clamp gives 0 |
| SpaceFlow.ClampAgreesFromOne | src/pages/SpaceFlow.tsx:180-184 | from zoom 1 up the corrected clamp is the clamp as written |
| SpaceFlow.ClampMonotone | src/pages/SpaceFlow.tsx:183-184 | dragging further never moves the clamped pan back |
| SpaceFlow.MapView.constructor | src/pages/SpaceFlow.tsx:116-120 | the map starts at zoom 1, pan (0, 0), not dragging |
| SpaceFlow.MapView.ZoomIn | src/pages/SpaceFlow.tsx:161 | zoom-in adds 0.2 up to the cap of 3, keeping the zoom in [0.5, 3] |
| SpaceFlow.MapView.ZoomOut | src/pages/SpaceFlow.tsx:162 | zoom-out subtracts 0.2 down to the floor of 0.5, keeping the zoom in [0.5, 3] |
| SpaceFlow.MapView.Wheel | src/pages/SpaceFlow.tsx:192-196 | a wheel step subtracts 0.1 when scrolling down, else adds 0.1, then clamps to [0.5, 3] from any starting zoom |
| SpaceFlow.MapView.ResetView | src/pages/SpaceFlow.tsx:163-167 | reset sets zoom 1 and pan (0, 0) |
| SpaceFlow.MapView.MouseDown | src/pages/SpaceFlow.tsx:169-172 | pressing starts a drag and records the mouse's offset from the current pan |
| SpaceFlow.MapView.MouseMove | src/pages/SpaceFlow.tsx:174-186 | the handler as written: while dragging each pan axis becomes the offset clamped by `ClampPanAsWritten`; from zoom 1 up it stays within ±bound, below zoom 1 it is pinned at `200 * (1 - zoom)`; not dragging, the pan is unchanged |
| SpaceFlow.MapView.MouseMoveClamped | src/pages/SpaceFlow.tsx:174-186 | the evidently intended handler of the Findings row: the same move with the corrected `ClampPan`, keeping the pan within ±bound at every zoom |
| SpaceFlow.MapView.MouseUp | src/pages/SpaceFlow.tsx:188-190 | releasing ends the drag |
| SpaceFlow.DragRoundTrip | src/pages/SpaceFlow.tsx:169-186 | from zoom 1 up, pressing and moving back to the same point with the handler as written leaves an in-bounds pan and the zoom as they were |
| SpaceFlow.DragRoundTripBreaksBelowOne | src/pages/SpaceFlow.tsx:162-186 | at zoom 0.5, reachable by zooming out, the same press and move back takes pan (0, 0) to (100, 100) |
| SpaceFlow.DragRoundTripClamped | src/pages/SpaceFlow.tsx:169-186 | with the corrected clamp the press-and-move-back round trip keeps an in-bounds pan at every zoom |
| SpaceFlow.ZoomStaysInRange | src/pages/SpaceFlow.tsx:161-196 | every zoom operation keeps the zoom in [0.5, 3]; zoom-in never decreases it and zoom-out never increases it |
| SpaceFlow.ZoomInOutRoundTrip | src/pages/SpaceFlow.tsx:161-162 | zooming in then out returns to the start when the cap is not hit |
| SpaceFlow.ZoomInSaturates | src/pages/SpaceFlow.tsx:161 | thirteen zoom-in steps reach the cap from anywhere in range |
| SpaceFlow.SeverityBandsAgree | src/pages/SpaceFlow.tsx:230-242 | label and colour use the same bands (0.8, 0.6, 0.4, inclusive), and a higher score never gets a lower band |
| SpaceFlow.MapsHaveDefaults | src/pages/SpaceFlow.tsx:198-227 | an unlisted type gets the pin icon and an unlisted status the green colour and badge; listed ones get their own, and the listed statuses get distinct colours |
| SpaceFlow.OvercrowdedInIntegers | src/pages/SpaceFlow.tsx:523 | the overcrowding flag is set exactly when ten times the forecast exceeds nine times the capacity; exactly 90% is not flagged |
| SpaceFlow.HasAlert | src/pages/SpaceFlow.tsx:442 | a marker has an alert ring exactly when some alert's affected zone is the location's id |
| SpaceFlow.RingsIgnoreStatus | src/pages/SpaceFlow.tsx:108-442 | changing an alert's status never adds or removes a ring |
| Entities.SplitSpace | src/pages/Entities.tsx:115 | `split(' ')` gives at least one piece and no piece contains a space |
| Entities.SplitJoinRoundTrip | src/pages/Entities.tsx:115 | joining the pieces of `split(' ')` with spaces gives the name back |
| Entities.InitialsAreWordStarts | src/pages/Entities.tsx:115 | the initials are exactly the characters that start a word (the first character, and each non-space after a space) |
| Entities.InitialsLength | src/pages/Entities.tsx:115 | one initial per non-empty piece; empty pieces (repeated spaces) contribute nothing |
| Entities.InitialsHaveNoSpace | src/pages/Entities.tsx:115 | no initial is a space |
| Entities.SingleWord | src/pages/Entities.tsx:115 | a name without spaces is one piece and gives its first character, or nothing when empty |
| Entities.InitialsExample | src/pages/Entities.tsx:152 | "Jo Li" gives "JL" |
| Entities.SpacedInitialsExample | src/pages/Entities.tsx:152 | leading, trailing and doubled spaces are skipped: " A  B " gives "AB" |
| EntityResolution.TrimStart | backend/entity_resolution.py:25-26 | the leading-whitespace half of `strip()`: a suffix of the input with only whitespace removed before it and no whitespace at its start |
| EntityResolution.TrimEnd | backend/entity_resolution.py:25-26 | the trailing half of `strip()`: a prefix with only whitespace removed after it and no whitespace at its end |
| EntityResolution.Strip | backend/entity_resolution.py:25-26 | `strip()` returns a contiguous slice of the input that neither begins nor ends with whitespace |
| EntityResolution.WordPrefix | backend/entity_resolution.py:36-37 | the first token of `split()` is a whitespace-free prefix ended by whitespace or the end of the string |
| EntityResolution.Words | backend/entity_resolution.py:36-37 | `split()` with no argument yields only non-empty, whitespace-free tokens |
| EntityResolution.Jaccard | backend/entity_resolution.py:36-41 | token similarity is 0 when either token set is empty, else the size of the intersection over the size of the union |
| EntityResolution.JaccardBounds | backend/entity_resolution.py:36-41 | token similarity lies in [0, 1] |
| EntityResolution.JaccardSymmetric | backend/entity_resolution.py:36-41 | token similarity does not depend on argument order |
| EntityResolution.JaccardOneIffSame | backend/entity_resolution.py:36-41 | for non-empty token sets, token similarity is 1 exactly when the sets are equal |
| EntityResolution.JaccardDisjoint | backend/entity_resolution.py:36-41 | token sets with no common token have similarity 0 |
| EntityResolution.NameSimilarity | backend/entity_resolution.py:17-44 | 0 when either name is empty, 1 when the lowercased stripped names are equal, else `0.6*ratio + 0.4*jaccard`; always in [0, 1] |
| EntityResolution.NoSharedTokenBelowThreshold | backend/entity_resolution.py:33-44 | different names with no common token score at most 0.6, below the 0.7 name threshold |
| EntityResolution.SimilarToItself | backend/entity_resolution.py:25-30 | names equal after lowercasing and stripping score 1 in both argument orders |
| EntityResolution.FieldsOfMembers | backend/entity_resolution.py:78-101 | each identifier field is listed exactly when its comparison succeeded, and the fuzzy name field never among the exact ones |
| EntityResolution.FieldsOfWeight | backend/entity_resolution.py:58-101 | the exact-identifier weights together add up to between 0 and 0.95 |
| EntityResolution.MatchedFieldsMeaning | backend/entity_resolution.py:78-110 | a field is matched exactly when the query value is truthy and equal to the profile's, or, for the name, when similarity reaches 0.7 |
| EntityResolution.SumWeightsBounds | backend/entity_resolution.py:78-101 | exact-identifier weights are non-negative, and positive once any field matched |
| EntityResolution.ExactFieldsFacts | backend/entity_resolution.py:78-101 | the exact matches never include the name, and weigh between 0 and 0.95 |
| EntityResolution.SumWeightsAppend | backend/entity_resolution.py:78-110 | the score accumulated over two runs of matches is the sum of the two |
| EntityResolution.ScoreBounds | backend/entity_resolution.py:78-113 | a match score lies in [0, 1.15] and is positive exactly when some field matched |
| EntityResolution.CardMatchAddsQuarter | backend/entity_resolution.py:78-81 | a matching card adds exactly 0.25 to what the other fields score |
| EntityResolution.CandidateFor | backend/entity_resolution.py:113-124 | a profile becomes a candidate exactly when some field matched; its confidence is score/1.15, within (0, 1] |
| EntityResolution.CollectCandidates | backend/entity_resolution.py:73-124 | the loop over profiles builds exactly the candidate list, in profile order |
| EntityResolution.CandidatesMeaning | backend/entity_resolution.py:73-124 | every candidate comes from a profile, with its non-empty matched fields and a confidence in (0, 1]; every profile with a match yields one; there are never more candidates than profiles |
| EntityResolution.Rank | backend/entity_resolution.py:127-143 | no candidates gives no match; otherwise the best match has the highest confidence and is the first candidate with it, the reported list is sorted and holds min(5, n) candidates, and for each confidence the reported candidates with it are the first ones with it in profile order (the stable sort) |
| EntityResolution.RankedMembers | backend/entity_resolution.py:137-140 | the head of the ranking outranks every candidate and the alternatives are candidates ranked no higher |
| EntityResolution.RankedTies | backend/entity_resolution.py:137-140 | ties for first place go to the earliest candidate and the reported candidates of each confidence come first in profile order |
| EntityResolution.ResolveEntity | backend/entity_resolution.py:47-151 | the loop gives the ranking of the specified candidates; resolution fails exactly when no profile matches any field; otherwise the best match comes from a profile, has confidence in (0, 1], and is the first candidate of maximal confidence |
| EntityResolution.NoCandidates | backend/entity_resolution.py:129-134 | the candidate list is empty exactly when no profile matches any field |
| EntityResolution.AlternativesSlice | backend/entity_resolution.py:140 | the alternatives are positions 1 to 4 of the stable descending sort |
| EntityResolution.CrossSourceLinks | backend/entity_resolution.py:235-308 | a missing profile is not found; otherwise the report carries the entity id, the name and exactly the card, device and face linkages, and its overall confidence is the mean of their confidences, 0 with none |
| EntityResolution.Linkages | backend/entity_resolution.py:251-297 | a card, device or face linkage is present exactly when that identifier is truthy and its table returned rows, with fixed confidence 0.95, 0.90 or 0.85 respectively |
| EntityResolution.Mean | backend/entity_resolution.py:301-302 | the mean is 0 exactly for no linkages, and otherwise the confidence sum divided by the count, which lies in [0.85, 0.95] |
| EntityResolution.MeanBounds | backend/entity_resolution.py:301-302 | the confidence sum lies between 0.85 and 0.95 times the number of linkages |
| EntityResolution.AllLinksExample | backend/entity_resolution.py:251-302 | all three linkages give overall confidence 0.90, and no rows give 0 |
| Database.ProfileRange | backend/database.py:24 | the requested range starts at the offset and, inclusive at both ends, spans exactly `limit` rows |
| Database.PagesTile | backend/database.py:22-25 | the inclusive range `(offset, offset + limit - 1)` covers exactly `limit` rows, and the next page starts right after it |
| Database.TrySource | backend/database.py:114-130 | a source contributes a match exactly when its identifier is truthy and its lookup returns a row; the match is the first row with that source's confidence |
| Database.Matches | backend/database.py:112-130 | at most three matches, in the order card, device, face, each with its source's confidence (0.95, 0.85, 0.90) |
| Database.FirstMax | backend/database.py:146 | `max` with a key returns the first element of greatest confidence: nothing later is larger, nothing earlier is equal |
| Database.Decide | backend/database.py:132-152 | no matches means not found; a conflict exactly when the matches name more than one entity, listing ids and sources in match order; otherwise the best match's profile and confidence with every source listed |
| Database.ResolvedAgree | backend/database.py:135-152 | without a conflict every match names the resolved entity |
| Database.NotFoundMeaning | backend/database.py:105-133 | resolution finds nothing exactly when no supplied truthy identifier finds a row |
| Database.SingleSourceResolves | backend/database.py:114-152 | a card alone that finds a row resolves to that row with confidence 0.95 and sources [card] |
| Database.FaceOutranksDevice | backend/database.py:120-152 | when the device and the face find the same entity, the face's 0.90 wins over the device's 0.85 although the device is tried first |
| Database.CardDeviceConflict | backend/database.py:114-143 | a card and a device that find different entities give a conflict listing both ids and both sources in match order |
| Database.ActivityTimeline | backend/database.py:154-176 | the timeline returns the four fetched lists unchanged and their combined length as the total |
| Database.GetSecurityStats | backend/database.py:178-195 | the four fixed figures 3, 12, 24, 5 and the sizes of the swipe and CCTV fetches |
| Database.GetDashboardStats | backend/database.py:197-210 | the exact profile count (0 without one), the number of distinct truthy identities among the fetched swipes, and the number of swipes |
| Database.ActiveAtMostSwipes | backend/database.py:207-208 | never more active people than swipes, and none exactly when no swipe carries a truthy identity |
| Database.RepeatSwipe | backend/database.py:207 | a further swipe by someone already seen leaves `active_today` unchanged |
| PredictiveAnalytics.CountPatterns | backend/predictive_analytics.py:29-45 | the loop leaves the visit counter, the per-hour location lists and the transition counters equal to their definitions over the whole timeline |
| PredictiveAnalytics.ByHourStep | backend/predictive_analytics.py:40 | one more activity appends its location to its hour's list and changes no other hour |
| PredictiveAnalytics.TransitionsStep | backend/predictive_analytics.py:43-45 | one more activity counts one transition from the previous location to it and changes no other row |
| PredictiveAnalytics.LocationsStep | backend/predictive_analytics.py:39 | one more activity adds one visit to its location |
| PredictiveAnalytics.ByHourMeaning | backend/predictive_analytics.py:30-40 | an hour is a key exactly when something happened at that hour, and its list is the locations visited then, in order |
| PredictiveAnalytics.TransitionsMeaning | backend/predictive_analytics.py:31-45 | a location is a key exactly when it was left at least once, and its row counts the locations that directly followed it |
| PredictiveAnalytics.SuccessorsCount | backend/predictive_analytics.py:43-45 | the transitions out of a location are as many as the departures from it |
| PredictiveAnalytics.TransitionsTotal | backend/predictive_analytics.py:43-45 | all transition counts add up to one less than the number of activities |
| PredictiveAnalytics.FrequencyTotal | backend/predictive_analytics.py:39 | the visit counts add up to the number of activities |
| PredictiveAnalytics.EntryBounds | backend/predictive_analytics.py:58-60 | a counter entry names an element of the counted list and counts it between 1 and the list's length |
| PredictiveAnalytics.TransitionsPositive | backend/predictive_analytics.py:70-72 | every transition row counts each successor at least once, so `count / total_transitions` never divides by zero |
| PredictiveAnalytics.PredictionBounds | backend/predictive_analytics.py:56-88 | every prediction names a visited location with a probability in (0, 1], and a non-empty timeline gives at least one |
| PredictiveAnalytics.ScaledBounds | backend/predictive_analytics.py:59-88 | predictions from the k commonest elements are at most k, name elements of the list, and have probabilities in (0, 1] (at most 0.5 for the frequency method) |
| PredictiveAnalytics.TimeBounds | backend/predictive_analytics.py:57-66 | at most five hour-pattern predictions, each a visited location with a probability in (0, 1] |
| PredictiveAnalytics.TransitionBounds | backend/predictive_analytics.py:69-78 | at most three transition predictions, each a visited location with a probability in (0, 1] |
| PredictiveAnalytics.FrequencyBounds | backend/predictive_analytics.py:81-88 | at most five frequency predictions, each a visited location with a probability in (0, 0.5], and at least one for a non-empty timeline |
| PredictiveAnalytics.AtHourVisited | backend/predictive_analytics.py:40 | a location listed at an hour was visited |
| PredictiveAnalytics.SuccessorVisited | backend/predictive_analytics.py:45 | a location reached by a transition was visited |
| PredictiveAnalytics.AggregateScores | backend/predictive_analytics.py:91-96 | the aggregation loop builds the same entries as adding the predictions one by one |
| PredictiveAnalytics.AddFind | backend/predictive_analytics.py:93-96 | adding a prediction changes only its own location's entry, creating it when missing |
| PredictiveAnalytics.AddLocations | backend/predictive_analytics.py:91-96 | a new location is appended at the end, a known one keeps its place |
| PredictiveAnalytics.AddKeepsDistinct | backend/predictive_analytics.py:91-96 | adding a prediction keeps one entry per location |
| PredictiveAnalytics.AggregateMeaning | backend/predictive_analytics.py:90-96 | one entry per location; a location has an entry exactly when some prediction names it, holding the sum of their probabilities and the set of their methods |
| PredictiveAnalytics.Finalize | backend/predictive_analytics.py:100-107 | the probability is capped at 1.0 and never raised, the label is taken from the uncapped sum, and the methods are deduplicated |
| PredictiveAnalytics.FinalizeAll | backend/predictive_analytics.py:99-107 | one finalised entry per aggregated entry, in order |
| PredictiveAnalytics.LabelMatchesReported | backend/predictive_analytics.py:103-104 | the label of the uncapped sum is also the label of the reported capped probability |
| PredictiveAnalytics.FinalizeScores | backend/predictive_analytics.py:99-107 | the finalising loop returns the finalised entries in order |
| PredictiveAnalytics.PredictNext | backend/predictive_analytics.py:17-126 | the whole prediction (count, predict, aggregate, finalise, sort, cut to five) returns the forecast its definition gives |
| PredictiveAnalytics.ForecastFails | backend/predictive_analytics.py:21-54 | insufficient data exactly when there is no timeline or no activities; any failure exactly when, in addition, the current location is missing |
| PredictiveAnalytics.EntryMeaning | backend/predictive_analytics.py:90-96 | each aggregated entry holds its location's summed probability, and some prediction names that location |
| PredictiveAnalytics.RankedFacts | backend/predictive_analytics.py:90-107 | every finalised entry names a visited location, with the capped sum of its predictions (in (0, 1]) and the label of that sum |
| PredictiveAnalytics.ForecastShape | backend/predictive_analytics.py:98-122 | a non-empty timeline gives one to five predictions sorted by probability, largest first, each well reported, with the number of activities analysed |
| PredictiveAnalytics.SumForPositive | backend/predictive_analytics.py:94 | the summed probability of a predicted location is positive |
| PredictiveAnalytics.Baseline | backend/predictive_analytics.py:141-151 | the baseline loop leaves the hour, location and detection-type counters equal to the counters of the whole timeline |
| PredictiveAnalytics.Gaps | backend/predictive_analytics.py:189-192 | one gap fewer than timestamps, each non-negative |
| PredictiveAnalytics.SortTimes | backend/predictive_analytics.py:186-187 | `timestamps.sort()` returns a permutation ordered earliest first |
| PredictiveAnalytics.FlagHours | backend/predictive_analytics.py:158-169 | the hour loop reports exactly the hours the z-score rule flags, in order |
| PredictiveAnalytics.FlagRare | backend/predictive_analytics.py:172-182 | the location loop reports exactly the locations the rare rule flags, in order |
| PredictiveAnalytics.GapLoop | backend/predictive_analytics.py:189-192 | the gap loop returns the absolute differences of consecutive timestamps in hours |
| PredictiveAnalytics.FlagGaps | backend/predictive_analytics.py:194-204 | the gap loop reports exactly the gaps over three times the average, in order |
| PredictiveAnalytics.DetectAnomalies | backend/predictive_analytics.py:129-224 | the whole analysis returns the report its definition gives |
| PredictiveAnalytics.AnomalyReportShape | backend/predictive_analytics.py:133-220 | insufficient data exactly when there are no activities; otherwise the count equals the number of anomalies, the period runs from the last activity to the first, and at most three common locations are listed |
| PredictiveAnalytics.AverageHourly | backend/predictive_analytics.py:154 | the average hourly activity is the number of activities over the number of distinct hours seen |
| PredictiveAnalytics.NoVarianceNoFlags | backend/predictive_analytics.py:159 | with no deviation no hour is flagged |
| PredictiveAnalytics.FlaggedDeviation | backend/predictive_analytics.py:158-161 | each flagged hour has a squared deviation over four variances, so the flagged hours take at most the total squared deviation |
| PredictiveAnalytics.FewUnusualHours | backend/predictive_analytics.py:154-169 | Chebyshev's bound: 4 times the number of flagged hours is at most the number of hours seen minus one |
| PredictiveAnalytics.FlaggedGaps | backend/predictive_analytics.py:194-198 | each flagged gap exceeds three average gaps, so the flagged gaps count three averages each and stay within the sum of all gaps, strictly when any is flagged |
| PredictiveAnalytics.FewLongGaps | backend/predictive_analytics.py:194-198 | Markov's bound: fewer than a third of the gaps are flagged |
| PredictiveAnalytics.GapsSpan | backend/predictive_analytics.py:186-192 | over sorted timestamps the gaps add up to the time from the first to the last, in hours |
| PredictiveAnalytics.RatioBelowTwentieth | backend/predictive_analytics.py:174-175 | `count / total < 0.05` holds exactly when 20 times the count is below the total |
| PredictiveAnalytics.RareEntries | backend/predictive_analytics.py:173-182 | the rare-location reports are exactly the counter entries seen more than once and in under 5% of the activities |
| PredictiveAnalytics.RareMeaning | backend/predictive_analytics.py:171-182 | a location is reported rare exactly when visited more than once and in under 5% of the activities, with its true count; so a report needs more than 40 activities |
| PredictiveAnalytics.CommonLocationsAreTop | backend/predictive_analytics.py:217 | a visited location missing from the three most common ones was visited no more often than each of them |
| PredictiveAnalytics.InferenceConfidence | backend/predictive_analytics.py:247-300 | every rule's fixed confidence lies above the 0.6 threshold the report advertises, and 0.9 only for primary locations |
| PredictiveAnalytics.SlotRoundTrip | backend/predictive_analytics.py:274 | a slot label reads back as its hour and the next hour modulo 24, in the form `HH:00-HH:00` |
| PredictiveAnalytics.Slots | backend/predictive_analytics.py:274 | one label per peak hour, in order |
| PredictiveAnalytics.NoDepartmentFromActivities | backend/predictive_analytics.py:260-303 | the schedule, location and role rules never yield a department |
| PredictiveAnalytics.CountHours | backend/predictive_analytics.py:263-268 | the hour loop leaves the counter of the activities' hours |
| PredictiveAnalytics.InferMissingData | backend/predictive_analytics.py:227-318 | the whole inference returns the report its definition gives |
| PredictiveAnalytics.InferenceOutcome | backend/predictive_analytics.py:232-314 | "Entity not found" exactly when there is no profile; the count equals the number of inferences; without activities at most the department is inferred |
| PredictiveAnalytics.DepartmentFirst | backend/predictive_analytics.py:240-303 | at most one department inference, it comes first, and no later inference is a department |
| PredictiveAnalytics.DepartmentRule | backend/predictive_analytics.py:241-258 | a department is inferred exactly when it is missing and the lower-cased email contains "eng" or "sci"; Engineering exactly when it contains "eng" |
| PredictiveAnalytics.DepartmentExamples | backend/predictive_analytics.py:241-258 | "Ann@SCI.eng" gives Engineering, since "eng" is checked first and case is ignored; a present department blocks the rule |
| PredictiveAnalytics.ScheduleShape | backend/predictive_analytics.py:261-290 | a non-empty timeline gives the active-hours inference (the slots of the three busiest hours and the number of activities) and then the primary-locations inference (the two commonest locations) |
| PredictiveAnalytics.PeakHours | backend/predictive_analytics.py:270-274 | one to three peak hours, each an hour at which something happened, with its true count |
| PredictiveAnalytics.PrimaryVisits | backend/predictive_analytics.py:281-289 | one or two visited locations are reported, and the visits quoted are their true counts added up |
| PredictiveAnalytics.PeakHoursAreBusiest | backend/predictive_analytics.py:270 | an hour that occurs but is not reported is no busier than each of the three reported |
| PredictiveAnalytics.RoleRule | backend/predictive_analytics.py:293-303 | the role is inferred exactly when lab bookings are more than 30% of the activities, and nothing otherwise |
| PredictiveAnalytics.SlotLabel | backend/predictive_analytics.py:274 | a peak-hour slot label `HH:00-HH:00` is always eleven characters long |
| PredictiveAnalytics.CallDatabaseService | backend/database.py:18-198 | a call returns the lookup result exactly when `DatabaseService` defines the named method, and raises otherwise |
| PredictiveAnalytics.LookupNames | backend/predictive_analytics.py:22 | the profile lookup exists, and `get_entity_timeline` does not, so calling it raises AttributeError |
| PredictiveAnalytics.AnalysesAsWrittenAlwaysErr | backend/predictive_analytics.py:20-318 | as written, prediction, anomaly detection and inference all return the AttributeError message as their error result, whatever the input |
| PredictiveAnalytics.ReadTimeline | backend/predictive_analytics.py:23-26 | a timeline read from a dictionary has activities and a current location exactly when the dictionary has those keys |
| PredictiveAnalytics.DefinedLookupLacksActivities | backend/database.py:168-176 | the dictionary of `get_entity_activity_timeline` has no `activities` key, so with it prediction and anomaly detection report insufficient data and inference gives only the email rule |
| Tally.BumpFacts | backend/predictive_analytics.py:39 | `d[x] += 1` adds one to x's count and nothing else, and appends x as a key only when it is new |
| Tally.BumpKeepsDistinct | backend/predictive_analytics.py:39 | incrementing keeps the keys distinct |
| Tally.BumpPositive | backend/predictive_analytics.py:39 | incrementing keeps every stored count at least 1 |
| Tally.TallyKeys | backend/predictive_analytics.py:58 | the keys of `Counter(s)` are the distinct elements of s in first-seen order |
| Tally.TallyCounts | backend/predictive_analytics.py:58 | each key's count is its number of occurrences, every count is at least 1, and keys are distinct |
| Tally.TallyTotal | backend/predictive_analytics.py:58 | the counts add up to the number of elements counted |
| Tally.LookupAt | backend/predictive_analytics.py:94 | with distinct keys, the entry at a position is what a lookup of its key finds |
| Tally.DistinctMembers | backend/predictive_analytics.py:58 | an element is a key exactly when it occurs in s |
| Tally.TallyNonEmpty | backend/predictive_analytics.py:142-154 | counting a non-empty sequence gives a non-empty counter |
| Ranking.InsertDescPermutes | backend/predictive_analytics.py:109 | inserting into the sorted list adds exactly the new element |
| Ranking.InsertDescSorted | backend/predictive_analytics.py:109 | inserting keeps the list sorted, largest key first |
| Ranking.SortDesc | backend/predictive_analytics.py:109 | `sort(key=..., reverse=True)` keeps the length and orders by key, largest first; `SortDescStable` gives its tie order |
| Ranking.SortDescPermutes | backend/predictive_analytics.py:109 | sorting only reorders: the result is a permutation of the input |
| Ranking.WithKeyAppend | backend/predictive_analytics.py:109 | the elements with a given key of a concatenation are those of each part, in order |
| Ranking.InsertDescStable | backend/predictive_analytics.py:109 | inserting into a sorted list places the new element after every element that already has its key |
| Ranking.SortDescStable | backend/entity_resolution.py:137 | the sort is stable: for every key, the elements with that key come out in their input order |
| Ranking.FirstMaximalExists | backend/entity_resolution.py:137 | a non-empty sequence has a first element of maximal key |
| Ranking.HeadIsFirstMaximal | backend/entity_resolution.py:137-139 | the head of the sorted list is the first input element of maximal key |
| Ranking.HeadIsMaximal | backend/predictive_analytics.py:109-114 | the first element of the sorted list has a key at least that of every input element |
| Ranking.Take | backend/predictive_analytics.py:114 | `s[:k]` is a prefix of length k, or all of s when it is shorter |
| Ranking.Slice | backend/entity_resolution.py:140 | `s[a:b]` clamped to the sequence: the plain slice when in range, empty when the range is empty or starts past the end |
| Ranking.TopOfSorted | backend/predictive_analytics.py:109-114 | the first k of a sorted list are still sorted and are drawn from the input |
| Ranking.MostCommon | backend/predictive_analytics.py:59 | `most_common(k)` returns min(k, n) entries of the counter, counts never increase, and for each count the entries kept with it are the first ones with it in insertion order |
| Ranking.MostCommonIsTop | backend/predictive_analytics.py:59 | an entry `most_common(k)` leaves out means k entries were returned, none with a smaller count |
| Ranking.TopOfTally | backend/predictive_analytics.py:81 | an element of s that `Counter(s).most_common(k)` leaves out occurs no more often than any entry it keeps |
| Ranking.MostCommonOfTally | backend/predictive_analytics.py:81 | each entry of `Counter(s).most_common(k)` is an element of s with its true number of occurrences |
| MlPredictor.MorningHours | backend/ml_predictor.py:148-149 | morning is exactly the hours 06 to 11 |
| MlPredictor.AfternoonHours | backend/ml_predictor.py:150-151 | afternoon is exactly the hours 12 to 16 |
| MlPredictor.EveningHours | backend/ml_predictor.py:152-153 | evening is exactly the hours 17 to 20 |
| MlPredictor.NightHours | backend/ml_predictor.py:154-155 | night is exactly the remaining hours 00 to 05 and 21 to 23, so every hour gets one label |
| MlPredictor.Flag | backend/ml_predictor.py:144-145 | a 0/1 flag is 1 exactly when its condition holds |
| MlPredictor.FeatureVector | backend/ml_predictor.py:182-189 | the feature vector has exactly 14 entries |
| MlPredictor.FeatureLayout | backend/ml_predictor.py:140-189 | the vector starts with hour, weekday, day and month; `is_weekend` is 1 exactly when weekday ≥ 5, `is_peak_hour` 1 exactly when 8 ≤ hour ≤ 17; absent counts default to 10, 5, 15 and 20; the four encodings come last |
| MlPredictor.Weights | backend/ml_predictor.py:228-254 | one weight per loaded model, each 0.4 or 0.3 |
| MlPredictor.SumDivided | backend/ml_predictor.py:263-264 | dividing every weight by the total divides their sum by it |
| MlPredictor.WeightsNormalized | backend/ml_predictor.py:262-266 | normalised weights always sum to 1, whichever models are loaded |
| MlPredictor.NormalizedShares | backend/ml_predictor.py:242-266 | the normalised shares for some model combinations: the network alone gets 1, network and XGBoost 4/7 and 3/7, all three 0.4/0.3/0.3, the two tree models 0.5 each |
| MlPredictor.WeightsPositive | backend/ml_predictor.py:263 | with any model loaded the weight sum is positive, so the `1/3` branch is never taken |
| MlPredictor.PositiveSum | backend/ml_predictor.py:263 | a non-empty list of positive weights has a positive sum |
| MlPredictor.Round | backend/ml_predictor.py:278 | `round` gives an integer within 0.5 of its argument |
| MlPredictor.RoundWithin | backend/ml_predictor.py:278 | rounding stays within integer bounds that enclose its argument |
| MlPredictor.Clamped | backend/ml_predictor.py:275 | the uncertainty-based confidence lies in [0.5, 0.99] |
| MlPredictor.ClampedMonotone | backend/ml_predictor.py:275 | a larger uncertainty never gives a higher confidence |
| MlPredictor.ClampedValues | backend/ml_predictor.py:275 | uncertainty 10 gives 0.5, uncertainty 0 is capped at 0.99, and 2.5 gives 0.8 |
| MlPredictor.Individual | backend/ml_predictor.py:228-254 | the predictions dictionary holds one key per loaded model, plus `uncertainty` when the network ran and uncertainty was requested |
| MlPredictor.Predictor.constructor | backend/ml_predictor.py:70-127 | the evidently intended loading of the Findings row: a model counts as loaded exactly when its library is installed and its file exists |
| MlPredictor.ImportAsWritten | backend/ml_predictor.py:14-38 | as written the module imports exactly when PyTorch is installed; otherwise the class definition raises NameError on `nn` |
| MlPredictor.TorchGuardsDead | backend/ml_predictor.py:14-100 | wherever the module imported, PyTorch is installed, so the `TORCH_AVAILABLE` guards always pass |
| MlPredictor.TreesOnlyWithoutTorch | backend/ml_predictor.py:98-123 | with the intended loading and no PyTorch, the network is not loaded and the weights are those of the tree models only |
| MlPredictor.Predictor.LoadedWeights | backend/ml_predictor.py:229-254 | the weights appended step by step are those of the loaded models, in order |
| MlPredictor.Predictor.Predict | backend/ml_predictor.py:208-293 | the dictionary built step by step and the chosen branch give exactly the specified forecast |
| MlPredictor.Predictor.BatchPredict | backend/ml_predictor.py:295-297 | one forecast per request, in order, each with uncertainty requested |
| MlPredictor.FallbackExactly | backend/ml_predictor.py:257-293 | the fallback is used exactly when no model is loaded; it forecasts the current occupancy (default 20) with confidence 0.60 and a single `fallback` entry |
| MlPredictor.EnsembleForecast | backend/ml_predictor.py:268-283 | with a model loaded the forecast is never negative and is the rounded ensemble when that is non-negative; confidence is 0.85 unless the network's uncertainty is present, and then the rounded clamp in [0.5, 0.99] |

## Left out

- Network and database I/O: `fetch`, Supabase query chains and the endpoint wiring in backend/main.py. Each lookup result is a parameter.
- URL text: the `application/x-www-form-urlencoded` serializer of the WHATWG URL Standard (section 5.2) is opaque. A query is its ordered list of key/value pairs. `encodeURIComponent` is modelled on Unicode scalar values, so the error JavaScript raises for a lone surrogate is not represented.
- React Query internals: caching, deduplication and the polling engine. One rule stands for them: an invalidation marks stale every cached entry whose key starts with the filter.
- `refreshAlerts` in the alert provider is a no-op and is not modelled.
- The ISO-8601 timestamps of alerts and activities, and every date and locale conversion (`new Date(...).getHours()`, `datetime.fromisoformat`, `toLocaleString`): hours, weekdays and epoch seconds are inputs.
- The `setInterval` polling and the inactive-entity list of the security page, apart from the fact that a refresh re-fetches it.
- The mock-data switch of the security page; its built-in history appears only as the fallback when a request fails.
- Presentation-only pages, charts, animation and routing, and the Dashboard page, which adds random confidence values.
- Marker statuses on the map are hardcoded literals and are not recomputed from forecasts. The What-If simulator computes nothing and is not modelled.
- `get_provenance` in backend/entity_resolution.py only gathers identifier sources into a dictionary. It decides nothing and is not modelled.
- `difflib.SequenceMatcher.ratio` is an uninterpreted function into [0, 1].
- The z-score in `detect_anomalies`: `statistics.stdev` is a square root. The model decides the rule and the severity on squares: |x - mean| > 2·sd exactly when (x - mean)² > 4·variance, with the sample variance. The z-score value itself is not carried.
- Model inference in the forecaster (the torch network, XGBoost and LightGBM), the scaler and the label encoders: their outputs and encodings are inputs. The Python `hash` encodings are randomized per process and are not modelled.
- The weighted ensemble average in `predict`: it pairs a three-element prediction list with a weight list of loaded models only, so it is an input rather than a computed value.
- The `get_predictor` singleton and the `timestamp` fields of results are not modelled.
- Floating point: weights, probabilities, zoom steps of 0.2 and 0.1, the 1.15 normalisation and `round(c, 3)` are exact reals, so IEEE rounding is idealised.
- `Lower`, `Upper` and the whitespace tests cover ASCII letters and the listed whitespace characters. Unicode case mapping is not modelled.
- Entity ids and names from the profile tables are plain strings, with no schema validation from backend/models.py.
- Object key order: JavaScript lists integer-like keys of `Object.entries` first in ascending order. `SecurityMonitoring.Distribution` assumes activity types are never integer-like and keeps first-seen order.
- MlPredictor.Round: the contract only bounds the result within 0.5 of its argument; the ties-to-even rule is in the body but not stated.
- EntityResolution.Words: the contract states that tokens are non-empty and whitespace-free, not that they are all of the input's tokens in order.
- EntityResolution.Strip: the contract states that the result is a slice without surrounding whitespace, not that it is the largest such slice.
- MlPredictor.Predictor.constructor: the constructor accepts a configuration without PyTorch, which as written cannot exist, because the module fails to import. It models the evidently intended fallback of the Findings row.
- Entities.Head: JavaScript's `n[0]` is the first UTF-16 code unit, while a Dafny `char` is a Unicode scalar value, so a name starting with a character outside the Basic Multilingual Plane gives half a surrogate pair in the source and the whole character in the model.
- The human-readable parts of the entity resolution results are not modelled: the `evidence` strings, `resolution_method`, the `explanation` texts and the `model_info` constants. The model carries only the fields that decide the ranking and the link confidence.

## Findings

| source | as written | input that shows it | evidently intended | confidence | as-written member | corrected member |
|---|---|---|---|---|---|---|
| src/pages/SpaceFlow.tsx:180-184 | `maxPan = 200 * (zoom - 1)` is negative below zoom 1, and `Math.max(-maxPan, Math.min(maxPan, v))` then returns `-maxPan` wherever the mouse moves | zoom 0.5 and a drag to pan -50 or 50: both give pan 100 | no panning below zoom 1, with pan held at 0 | not executed | SpaceFlow.AsWrittenPinsBelowOne | SpaceFlow.ClampPan |
| backend/ml_predictor.py:14-38 | `nn` is bound only when `import torch.nn` succeeds, yet `class OccupancyForecastNet(nn.Module)` is evaluated at import, and `__init__` reads `torch.cuda` before `TORCH_AVAILABLE` (line 72) | no PyTorch installed: importing the module raises NameError, so the fallback announced at line 21 never runs | without PyTorch, load the tree models and skip the network | not executed | MlPredictor.ImportAsWritten | MlPredictor.TreesOnlyWithoutTorch |
| backend/predictive_analytics.py:22 | the analyses call `DatabaseService.get_entity_timeline`, which is not defined; the AttributeError is caught and returned as `{"error": ...}` (lines 124-126, 222-224, 316-318) | any entity id: every analysis returns the AttributeError message | a timeline lookup returning `activities` and `current_location` | not executed | PredictiveAnalytics.AnalysesAsWrittenAlwaysErr | PredictiveAnalytics.PredictNext |
