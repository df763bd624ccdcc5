/** The shared alert store of the front end (src/contexts/AlertsContext.tsx):
    the list of alerts, the summary counts derived from it, and the operations
    the provider hands to its consumers. Timestamps are epoch milliseconds; the
    ISO-8601 text the source stores is not modelled. */
module AlertsContext {
  import opened Common
  import Api

  datatype AlertType = Overcrowding | MissingEntity | AccessViolation | Underutilized

  datatype Status = Active | Resolved | Pending

  datatype Evidence = Evidence(source: string, id: string, weight: real, description: string)

  datatype Action = Action(actionId: string, title: string, description: string, expectedEffect: string, impactScore: real)

  datatype Alert = Alert(
    alertId: string,
    severityScore: real,
    kind: AlertType,
    affectedZone: string,
    title: string,
    description: string,
    evidence: seq<Evidence>,
    recommendedActions: seq<Action>,
    timestamp: int,
    status: Status)

  datatype Summary = Summary(total: nat, active: nat, resolved: nat, pending: nat)

  /** The status string `resolveAlert` sends to the back end. */
  function StatusName(s: Status): string
  {
    match s
    case Active => "active"
    case Resolved => "resolved"
    case Pending => "pending"
  }

  /** `alerts.filter(alert => alert.status === s).length`. */
  function CountStatus(alerts: seq<Alert>, s: Status): nat
  {
    if alerts == [] then 0
    else (if alerts[0].status == s then 1 else 0) + CountStatus(alerts[1..], s)
  }

  /** The summary effect: recomputed from scratch whenever `alerts` changes. */
  function Summarize(alerts: seq<Alert>): Summary
  {
    Summary(|alerts|, CountStatus(alerts, Active), CountStatus(alerts, Resolved), CountStatus(alerts, Pending))
  }

  /** `prev.map(alert => alert.alert_id === alertId ? { ...alert, status } : alert)`. */
  function WithStatus(alerts: seq<Alert>, alertId: string, s: Status): seq<Alert>
  {
    if alerts == [] then []
    else [if alerts[0].alertId == alertId then alerts[0].(status := s) else alerts[0]] + WithStatus(alerts[1..], alertId, s)
  }

  // ---------------------------------------------------------------------
  // The seeded alerts
  // ---------------------------------------------------------------------

  function SeedAlert1(now: int): (a: Alert)
    ensures a.alertId == SeedId(0) && a.status == SeedStatus(0)
  {
    Alert("alert_001", 0.92, Overcrowding, "cse", "High Overcrowding Risk Detected",
      "CSE Department predicted to exceed 95% capacity in next hour",
      [ Evidence("wifi_logs", "wifi_12345", 0.32, "22 new device connections detected"),
        Evidence("lab_bookings", "booking_555", 0.28, "Scheduled class: Data Structures Lab at 2 PM"),
        Evidence("swipes", "swipe_9876", 0.25, "Recent entry spike: +15 entries in 10 min") ],
      [ Action("act_1", "Notify Department HoD", "Send alert to open CS Lab Complex as overflow", "Reduce load by ~30%", 0.85),
        Action("act_2", "Delay Class Start", "Request 15min delay for current lab session", "Smooth arrival distribution", 0.65),
        Action("act_3", "Enable Overflow Lab", "Activate CS Lab Complex as overflow space", "Prevent crowding", 0.90) ],
      now, Active)
  }

  function SeedAlert2(now: int): (a: Alert)
    ensures a.alertId == SeedId(1) && a.status == SeedStatus(1)
  {
    Alert("alert_002", 0.85, Overcrowding, "library", "Central Library Nearing Capacity",
      "Library at 83% capacity, forecast shows 95% in 30 minutes",
      [ Evidence("swipes", "swipe_7777", 0.40, "Entry rate: 12 students/min sustained"),
        Evidence("wifi_logs", "wifi_8888", 0.35, "285 active WiFi connections"),
        Evidence("timeline", "timeline_999", 0.25, "Historical pattern: peak study hours") ],
      [ Action("act_8", "Open Reading Rooms", "Activate department reading rooms", "Distribute 50 students", 0.82),
        Action("act_9", "Display Capacity Warning", "Show realtime capacity on digital boards", "Inform students before entry", 0.70) ],
      now - 180000, Active)
  }

  function SeedAlert3(now: int): (a: Alert)
    ensures a.alertId == SeedId(2) && a.status == SeedStatus(2)
  {
    Alert("alert_003", 0.78, MissingEntity, "bh1", "Entity Not Seen for 15 Hours",
      "Student E100234 last detected at Library 15h ago",
      [ Evidence("timeline", "timeline_888", 0.45, "Last seen: Central Library (14:30 yesterday)"),
        Evidence("wifi_logs", "wifi_333", 0.30, "No device activity in 15h"),
        Evidence("swipes", "swipe_111", 0.25, "No hostel entry recorded overnight") ],
      [ Action("act_4", "Check CCTV Cameras", "Review cameras near Library and hostel path", "Locate entity path", 0.80),
        Action("act_5", "Notify Hostel Warden", "Alert BH1 warden for manual room check", "Confirm safety", 0.95) ],
      now - 300000, Resolved)
  }

  function SeedAlert4(now: int): (a: Alert)
    ensures a.alertId == SeedId(3) && a.status == SeedStatus(3)
  {
    Alert("alert_004", 0.65, AccessViolation, "eeelab", "Simultaneous Access Detected",
      "Card C45678 used at two locations within 1 minute",
      [ Evidence("swipes", "swipe_5555", 0.50, "Swipe at EEE Labs (10:15:23)"),
        Evidence("swipes", "swipe_6666", 0.50, "Swipe at Core 3 (10:15:58) - 350m apart") ],
      [ Action("act_6", "Lock Card", "Temporarily disable card access", "Prevent unauthorized use", 0.75),
        Action("act_7", "Manual Verification", "Security check at both locations", "Verify identity", 0.88) ],
      now - 600000, Pending)
  }

  /** The k-th alert of the seeded list. */
  function SeedAlert(k: int, now: int): Alert
  {
    if k == 0 then SeedAlert1(now)
    else if k == 1 then SeedAlert2(now)
    else if k == 2 then SeedAlert3(now)
    else SeedAlert4(now)
  }

  /** The four alerts the provider installs on mount, `now` being `Date.now()`. */
  function SeedAlerts(now: int): (s: seq<Alert>)
    ensures |s| == 4
  {
    seq(4, k => SeedAlert(k, now))
  }

  /** The id of the k-th seeded alert. */
  function SeedId(k: int): string
  {
    if k == 0 then "alert_001" else if k == 1 then "alert_002" else if k == 2 then "alert_003" else "alert_004"
  }

  /** The status of the k-th seeded alert. */
  function SeedStatus(k: int): Status
  {
    if k == 0 || k == 1 then Active else if k == 2 then Resolved else Pending
  }

  /** A four-alert list with the seeded ids and statuses, in the seeded order. */
  ghost predicate Seeded(s: seq<Alert>)
  {
    |s| == 4 && forall k :: 0 <= k < 4 ==> s[k].alertId == SeedId(k) && s[k].status == SeedStatus(k)
  }

  /** The seeded list has the seeded ids and statuses. */
  lemma SeedFields(now: int)
    ensures Seeded(SeedAlerts(now))
  {
  }

  /** The seeded ids are pairwise different. */
  lemma SeedIdsDistinct(now: int)
    ensures forall i, j :: 0 <= i < j < 4 ==> SeedAlerts(now)[i].alertId != SeedAlerts(now)[j].alertId
  {
    SeedFields(now);
    SeedIdsDiffer();
  }

  /** The four seeded id strings differ in their last character. */
  lemma SeedIdsDiffer()
    ensures forall i, j :: 0 <= i < j < 4 ==> SeedId(i) != SeedId(j)
  {
    forall i, j | 0 <= i < j < 4
      ensures SeedId(i) != SeedId(j)
    {
      assert SeedId(i)[8] != SeedId(j)[8];
    }
  }

  /** The counts of the seeded list: two active, one resolved, one pending. */
  lemma SeedSummary(now: int)
    ensures Summarize(SeedAlerts(now)) == Summary(4, 2, 1, 1)
  {
    SeedFields(now);
    StatusCounts4(SeedAlerts(now));
  }

  /** The status counts of a four-alert list, alert by alert. */
  lemma StatusCounts4(s: seq<Alert>)
    requires |s| == 4
    ensures forall t :: (CountStatus(s, t)
      == (if s[0].status == t then 1 else 0) + (if s[1].status == t then 1 else 0)
       + (if s[2].status == t then 1 else 0) + (if s[3].status == t then 1 else 0))
  {
    var s1 := s[1..];
    var s2 := s1[1..];
    var s3 := s2[1..];
    assert s1[0] == s[1] && s2[0] == s[2] && s3[0] == s[3];
    assert s3[1..] == [];
    forall t
      ensures CountStatus(s, t)
        == (if s[0].status == t then 1 else 0) + (if s[1].status == t then 1 else 0)
         + (if s[2].status == t then 1 else 0) + (if s[3].status == t then 1 else 0)
    {
      assert CountStatus(s3, t) == (if s3[0].status == t then 1 else 0) + CountStatus(s3[1..], t);
      assert CountStatus(s2, t) == (if s2[0].status == t then 1 else 0) + CountStatus(s3, t);
      assert CountStatus(s1, t) == (if s1[0].status == t then 1 else 0) + CountStatus(s2, t);
    }
  }

  // ---------------------------------------------------------------------
  // The provider's state
  // ---------------------------------------------------------------------

  /** The provider's `alerts` and `alertsSummary`, observed after the summary
      effect has run: every operation leaves the summary equal to the counts of
      the list. */
  class AlertStore {
    var alerts: seq<Alert>
    var summary: Summary

    ghost predicate Valid()
      reads this
    {
      summary == Summarize(alerts)
    }

    /** The state once the mount effects have run: the seeding effect installs
        the four alerts and the summary effect counts them. The first render,
        with no alerts and an all-zero summary (which is `Summarize([])`), is
        not kept. */
    constructor (now: int)
      ensures Valid()
      ensures alerts == SeedAlerts(now)
      ensures summary == Summary(4, 2, 1, 1)
    {
      var seed := SeedAlerts(now);
      SeedSummary(now);
      alerts := seed;
      summary := Summarize(seed);
    }

    /** `addAlert`: append, with no check for a repeated id. */
    method AddAlert(a: Alert)
      modifies this
      ensures Valid()
      ensures alerts == old(alerts) + [a]
    {
      alerts := alerts + [a];
      summary := Summarize(alerts);
    }

    /** `updateAlertStatus`: every alert with that id takes the new status. */
    method UpdateAlertStatus(alertId: string, s: Status)
      modifies this
      ensures Valid()
      ensures alerts == WithStatus(old(alerts), alertId, s)
    {
      alerts := WithStatus(alerts, alertId, s);
      summary := Summarize(alerts);
    }

    /** `resolveAlert` up to its `await`: the local list is updated first and
        then the PUT request is issued. */
    method ResolveAlert(alertId: string) returns (call: Api.Call)
      modifies this
      ensures Valid()
      ensures alerts == WithStatus(old(alerts), alertId, Resolved)
      ensures call == Api.UpdateAlertStatusCall(alertId, "resolved")
    {
      UpdateAlertStatus(alertId, Resolved);
      call := Api.UpdateAlertStatusCall(alertId, StatusName(Resolved));
    }

    /** The rest of `resolveAlert` once the request settles: a failure is logged
        and nothing is rolled back, so the store is left as it is either way. */
    method ResolveAlertSettled(succeeded: bool) returns (errorLogged: bool)
      ensures errorLogged <==> !succeeded
    {
      errorLogged := !succeeded;
    }
  }

  // ---------------------------------------------------------------------
  // Properties
  // ---------------------------------------------------------------------

  /** The three status counts add up to the total. */
  lemma {:induction false} SummaryPartition(alerts: seq<Alert>)
    ensures Summarize(alerts).active + Summarize(alerts).resolved + Summarize(alerts).pending == Summarize(alerts).total
  {
    if alerts != [] {
      SummaryPartition(alerts[1..]);
    }
  }

  /** A status update changes the status of exactly the alerts carrying the id,
      keeps every other field, the length and the order. */
  lemma {:induction false} WithStatusPointwise(alerts: seq<Alert>, alertId: string, s: Status)
    ensures |WithStatus(alerts, alertId, s)| == |alerts|
    ensures forall i :: 0 <= i < |alerts| ==>
      WithStatus(alerts, alertId, s)[i] == if alerts[i].alertId == alertId then alerts[i].(status := s) else alerts[i]
  {
    if alerts != [] {
      WithStatusPointwise(alerts[1..], alertId, s);
    }
  }

  /** An id that is not in the list leaves the list unchanged. */
  lemma WithStatusUnknownId(alerts: seq<Alert>, alertId: string, s: Status)
    requires forall i :: 0 <= i < |alerts| ==> alerts[i].alertId != alertId
    ensures WithStatus(alerts, alertId, s) == alerts
  {
    WithStatusPointwise(alerts, alertId, s);
  }

  /** Setting the same status twice is the same as setting it once. */
  lemma WithStatusIdempotent(alerts: seq<Alert>, alertId: string, s: Status)
    ensures WithStatus(WithStatus(alerts, alertId, s), alertId, s) == WithStatus(alerts, alertId, s)
  {
    WithStatusPointwise(alerts, alertId, s);
    WithStatusPointwise(WithStatus(alerts, alertId, s), alertId, s);
  }

  /** Alerts with the given id. */
  function CountId(alerts: seq<Alert>, alertId: string): nat
  {
    if alerts == [] then 0
    else (if alerts[0].alertId == alertId then 1 else 0) + CountId(alerts[1..], alertId)
  }

  /** Alerts with another id and the given status. */
  function CountOthers(alerts: seq<Alert>, alertId: string, t: Status): nat
  {
    if alerts == [] then 0
    else (if alerts[0].alertId != alertId && alerts[0].status == t then 1 else 0) + CountOthers(alerts[1..], alertId, t)
  }

  /** The summary after an update: the alerts with that id all move to the new
      status, the counts of all other alerts stay as they were. */
  lemma {:induction false} WithStatusCounts(alerts: seq<Alert>, alertId: string, s: Status, t: Status)
    ensures CountStatus(WithStatus(alerts, alertId, s), t)
      == CountOthers(alerts, alertId, t) + (if t == s then CountId(alerts, alertId) else 0)
  {
    if alerts != [] {
      WithStatusCounts(alerts[1..], alertId, s, t);
    }
  }

  /** Of the seeded alerts, resolving the first one gives 1 active, 2 resolved
      and 1 pending; resolving the third changes nothing, since it is seeded as
      resolved. */
  lemma ResolveSeeded(now: int)
    ensures Summarize(WithStatus(SeedAlerts(now), "alert_001", Resolved)) == Summary(4, 1, 2, 1)
    ensures WithStatus(SeedAlerts(now), "alert_003", Resolved) == SeedAlerts(now)
  {
    SeedFields(now);
    ResolveInSeeded(SeedAlerts(now));
  }

  /** The same on any list with the seeded ids and statuses. */
  lemma ResolveInSeeded(s: seq<Alert>)
    requires Seeded(s)
    ensures Summarize(WithStatus(s, "alert_001", Resolved)) == Summary(4, 1, 2, 1)
    ensures WithStatus(s, "alert_003", Resolved) == s
  {
    SeedIdsDiffer();
    WithStatusPointwise(s, "alert_001", Resolved);
    WithStatusPointwise(s, "alert_003", Resolved);
    StatusCounts4(WithStatus(s, "alert_001", Resolved));
    var r3 := WithStatus(s, "alert_003", Resolved);
    assert forall i :: 0 <= i < 4 ==> r3[i] == s[i];
  }
}
