/** The campus map page (src/pages/SpaceFlow.tsx): the zoom and pan state of
    the map and its mouse and wheel handlers, and the pure helpers that choose
    marker icons, colours, badges and severity bands, flag predicted
    overcrowding and ring the markers of zones with an alert. Coordinates and
    zoom are exact reals; the source's floating-point steps of 0.2 and 0.1
    are idealised. */
module SpaceFlow {
  import AlertsContext

  const MinZoom: real := 0.5
  const MaxZoom: real := 3.0

  function Min(a: real, b: real): real { if a <= b then a else b }
  function Max(a: real, b: real): real { if a >= b then a else b }

  /** `Math.min(prev + 0.2, 3)`. */
  function ZoomedIn(z: real): real
  {
    Min(z + 0.2, MaxZoom)
  }

  /** `Math.max(prev - 0.2, 0.5)`. */
  function ZoomedOut(z: real): real
  {
    Max(z - 0.2, MinZoom)
  }

  /** The wheel: a downward scroll (`deltaY > 0`) zooms out by 0.1, any other
      (including `deltaY == 0`) zooms in by 0.1, clamped to [0.5, 3]. */
  function Wheeled(z: real, deltaY: real): real
  {
    var delta := if deltaY > 0.0 then -0.1 else 0.1;
    Max(MinZoom, Min(MaxZoom, z + delta))
  }

  predicate ZoomInRange(z: real) { MinZoom <= z <= MaxZoom }

  // ---------------------------------------------------------------------
  // Pan clamping
  // ---------------------------------------------------------------------

  /** The clamp as the source writes it: `maxPan = 200 * (zoom - 1)` and
      `Math.max(-maxPan, Math.min(maxPan, v))`. Below zoom 1 the bound is
      negative and the clamp returns `-maxPan` whatever `v` is. */
  function ClampPanAsWritten(v: real, zoom: real): real
  {
    var maxPan := 200.0 * (zoom - 1.0);
    Max(-maxPan, Min(maxPan, v))
  }

  /** How far the map may be panned along one axis: 200 per unit of zoom above
      1, and none at or below zoom 1. */
  function MaxPan(zoom: real): (m: real)
    ensures m >= 0.0
    ensures zoom >= 1.0 ==> m == 200.0 * (zoom - 1.0)
    ensures zoom <= 1.0 ==> m == 0.0
  {
    Max(0.0, 200.0 * (zoom - 1.0))
  }

  /** The clamp with the bound never negative. */
  function ClampPan(v: real, zoom: real): (r: real)
    ensures -MaxPan(zoom) <= r <= MaxPan(zoom)
    ensures -MaxPan(zoom) <= v <= MaxPan(zoom) ==> r == v
    ensures v > MaxPan(zoom) ==> r == MaxPan(zoom)
    ensures v < -MaxPan(zoom) ==> r == -MaxPan(zoom)
  {
    var m := MaxPan(zoom);
    Max(-m, Min(m, v))
  }

  /** As written, any drag below zoom 1 puts the pan at `200 * (1 - zoom)` on
      both axes, whichever way the mouse moves: at zoom 0.5 a drag to the left
      and a drag to the right both land at +100. */
  lemma AsWrittenPinsBelowOne(v: real, zoom: real)
    requires zoom < 1.0
    ensures ClampPanAsWritten(v, zoom) == 200.0 * (1.0 - zoom)
    ensures ClampPanAsWritten(v, zoom) > 0.0
  {
  }

  lemma AsWrittenExample()
    ensures ClampPanAsWritten(-50.0, 0.5) == 100.0 && ClampPanAsWritten(50.0, 0.5) == 100.0
    ensures ClampPan(-50.0, 0.5) == 0.0 && ClampPan(50.0, 0.5) == 0.0
  {
  }

  /** From zoom 1 upwards the two clamps agree, so the correction changes
      nothing where the source's bound is meaningful. */
  lemma ClampAgreesFromOne(v: real, zoom: real)
    requires zoom >= 1.0
    ensures ClampPan(v, zoom) == ClampPanAsWritten(v, zoom)
  {
  }

  /** A larger drag never gives a smaller pan. */
  lemma ClampMonotone(v1: real, v2: real, zoom: real)
    requires v1 <= v2
    ensures ClampPan(v1, zoom) <= ClampPan(v2, zoom)
  {
  }

  // ---------------------------------------------------------------------
  // Map state
  // ---------------------------------------------------------------------

  /** The map's view state: zoom, pan offset, and the drag in progress. */
  class MapView {
    var zoom: real
    var panX: real
    var panY: real
    var isDragging: bool
    var dragStartX: real
    var dragStartY: real

    ghost predicate Valid()
      reads this
    {
      ZoomInRange(zoom)
    }

    constructor ()
      ensures Valid()
      ensures zoom == 1.0 && panX == 0.0 && panY == 0.0 && !isDragging
      ensures dragStartX == 0.0 && dragStartY == 0.0
    {
      zoom, panX, panY := 1.0, 0.0, 0.0;
      isDragging, dragStartX, dragStartY := false, 0.0, 0.0;
    }

    method ZoomIn()
      requires Valid()
      modifies this`zoom
      ensures Valid()
      ensures zoom == ZoomedIn(old(zoom))
    {
      zoom := ZoomedIn(zoom);
    }

    method ZoomOut()
      requires Valid()
      modifies this`zoom
      ensures Valid()
      ensures zoom == ZoomedOut(old(zoom))
    {
      zoom := ZoomedOut(zoom);
    }

    method Wheel(deltaY: real)
      modifies this`zoom
      ensures Valid()
      ensures zoom == Wheeled(old(zoom), deltaY)
    {
      zoom := Wheeled(zoom, deltaY);
    }

    /** `handleResetView`: zoom 1 and no pan; a drag in progress continues. */
    method ResetView()
      modifies this`zoom, this`panX, this`panY
      ensures Valid()
      ensures zoom == 1.0 && panX == 0.0 && panY == 0.0
    {
      zoom, panX, panY := 1.0, 0.0, 0.0;
    }

    /** `handleMouseDown`: remember where the drag started relative to the pan. */
    method MouseDown(clientX: real, clientY: real)
      modifies this`isDragging, this`dragStartX, this`dragStartY
      ensures isDragging
      ensures dragStartX == clientX - panX && dragStartY == clientY - panY
    {
      isDragging := true;
      dragStartX, dragStartY := clientX - panX, clientY - panY;
    }

    /** `handleMouseMove` as the source writes it: only while dragging, the
        pan follows the mouse, clamped on each axis by `ClampPanAsWritten`.
        From zoom 1 up the pan stays within the bound; below zoom 1 every
        move pins both axes at `200 * (1 - zoom)`. */
    method MouseMove(clientX: real, clientY: real)
      modifies this`panX, this`panY
      ensures isDragging ==> panX == ClampPanAsWritten(clientX - dragStartX, zoom) && panY == ClampPanAsWritten(clientY - dragStartY, zoom)
      ensures !isDragging ==> panX == old(panX) && panY == old(panY)
      ensures isDragging && zoom >= 1.0 ==> -MaxPan(zoom) <= panX <= MaxPan(zoom) && -MaxPan(zoom) <= panY <= MaxPan(zoom)
      ensures isDragging && zoom < 1.0 ==> panX == 200.0 * (1.0 - zoom) && panY == 200.0 * (1.0 - zoom)
    {
      if isDragging {
        panX := ClampPanAsWritten(clientX - dragStartX, zoom);
        panY := ClampPanAsWritten(clientY - dragStartY, zoom);
      }
    }

    /** The evidently intended `handleMouseMove`: the same handler with the
        corrected `ClampPan`, so the pan stays within the bound at every zoom. */
    method MouseMoveClamped(clientX: real, clientY: real)
      modifies this`panX, this`panY
      ensures isDragging ==> panX == ClampPan(clientX - dragStartX, zoom) && panY == ClampPan(clientY - dragStartY, zoom)
      ensures !isDragging ==> panX == old(panX) && panY == old(panY)
      ensures isDragging ==> -MaxPan(zoom) <= panX <= MaxPan(zoom) && -MaxPan(zoom) <= panY <= MaxPan(zoom)
    {
      if isDragging {
        panX := ClampPan(clientX - dragStartX, zoom);
        panY := ClampPan(clientY - dragStartY, zoom);
      }
    }

    method MouseUp()
      modifies this`isDragging
      ensures !isDragging
    {
      isDragging := false;
    }
  }

  /** From zoom 1 up, pressing and moving back to the same point leaves a
      pan that was within bounds where it was. */
  method DragRoundTrip(view: MapView, x: real, y: real)
    requires view.zoom >= 1.0
    requires -MaxPan(view.zoom) <= view.panX <= MaxPan(view.zoom)
    requires -MaxPan(view.zoom) <= view.panY <= MaxPan(view.zoom)
    modifies view
    ensures view.panX == old(view.panX) && view.panY == old(view.panY) && view.zoom == old(view.zoom)
  {
    view.MouseDown(x, y);
    view.MouseMove(x, y);
  }

  /** Below zoom 1 the same press and move back does not keep the pan: from
      the centred map at zoom 0.5 it ends at (100, 100). */
  method DragRoundTripBreaksBelowOne(view: MapView, x: real, y: real)
    requires view.zoom == 0.5 && view.panX == 0.0 && view.panY == 0.0
    modifies view
    ensures view.panX == 100.0 && view.panY == 100.0 && view.zoom == 0.5
  {
    view.MouseDown(x, y);
    view.MouseMove(x, y);
  }

  /** With the corrected clamp the round trip holds at every zoom. */
  method DragRoundTripClamped(view: MapView, x: real, y: real)
    requires -MaxPan(view.zoom) <= view.panX <= MaxPan(view.zoom)
    requires -MaxPan(view.zoom) <= view.panY <= MaxPan(view.zoom)
    modifies view
    ensures view.panX == old(view.panX) && view.panY == old(view.panY) && view.zoom == old(view.zoom)
  {
    view.MouseDown(x, y);
    view.MouseMoveClamped(x, y);
  }

  // ---------------------------------------------------------------------
  // Zoom properties
  // ---------------------------------------------------------------------

  /** Every zoom operation keeps the zoom in [0.5, 3]; the wheel does so from
      any starting value. */
  lemma ZoomStaysInRange(z: real, deltaY: real)
    requires ZoomInRange(z)
    ensures ZoomInRange(ZoomedIn(z)) && ZoomInRange(ZoomedOut(z))
    ensures ZoomedIn(z) >= z && ZoomedOut(z) <= z
    ensures ZoomInRange(Wheeled(z, deltaY))
  {
  }

  /** Zooming in then out returns to the start, unless the cap was hit. */
  lemma ZoomInOutRoundTrip(z: real)
    requires ZoomInRange(z) && z <= 2.8
    ensures ZoomedOut(ZoomedIn(z)) == z
  {
  }

  /** Thirteen steps of zooming in reach the cap from anywhere in range. */
  lemma ZoomInSaturates(z: real)
    requires ZoomInRange(z)
    ensures ZoomedIn(ZoomedIn(ZoomedIn(ZoomedIn(ZoomedIn(ZoomedIn(ZoomedIn(ZoomedIn(ZoomedIn(ZoomedIn(ZoomedIn(ZoomedIn(ZoomedIn(z))))))))))))) == MaxZoom
  {
  }

  // ---------------------------------------------------------------------
  // Severity, icons, colours
  // ---------------------------------------------------------------------

  datatype Band = Low | Medium | High | Critical

  /** The severity band of a score: thresholds 0.8, 0.6, 0.4, inclusive. */
  function SeverityBand(score: real): Band
  {
    if score >= 0.8 then Critical
    else if score >= 0.6 then High
    else if score >= 0.4 then Medium
    else Low
  }

  /** `getSeverityLabel`. */
  function SeverityLabel(score: real): string
  {
    if score >= 0.8 then "CRITICAL"
    else if score >= 0.6 then "HIGH"
    else if score >= 0.4 then "MEDIUM"
    else "LOW"
  }

  /** `getSeverityColor`. */
  function SeverityColor(score: real): string
  {
    if score >= 0.8 then "bg-red-500"
    else if score >= 0.6 then "bg-orange-500"
    else if score >= 0.4 then "bg-yellow-500"
    else "bg-green-500"
  }

  function BandRank(b: Band): nat
  {
    match b
    case Low => 0
    case Medium => 1
    case High => 2
    case Critical => 3
  }

  function BandLabel(b: Band): string
  {
    match b
    case Critical => "CRITICAL"
    case High => "HIGH"
    case Medium => "MEDIUM"
    case Low => "LOW"
  }

  function BandColor(b: Band): string
  {
    match b
    case Critical => "bg-red-500"
    case High => "bg-orange-500"
    case Medium => "bg-yellow-500"
    case Low => "bg-green-500"
  }

  /** Label and colour come from the same bands, and a higher score never
      falls into a lower band. */
  lemma SeverityBandsAgree(s: real, t: real)
    ensures SeverityLabel(s) == BandLabel(SeverityBand(s))
    ensures SeverityColor(s) == BandColor(SeverityBand(s))
    ensures s <= t ==> BandRank(SeverityBand(s)) <= BandRank(SeverityBand(t))
  {
  }

  /** `getLocationIcon`: one emoji per known type, a pin for anything else. */
  function LocationIcon(kind: string): string
  {
    if kind == "lab" then "\U{1F52C}"
    else if kind == "hostel" then "\U{1F3E0}"
    else if kind == "library" then "\U{1F4DA}"
    else if kind == "canteen" then "\U{1F37D}\U{FE0F}"
    else if kind == "sports" then "\U{26BD}"
    else if kind == "academic" then "\U{1F393}"
    else if kind == "admin" then "\U{1F3DB}\U{FE0F}"
    else "\U{1F4CD}"
  }

  const KnownKinds: set<string> := {"lab", "hostel", "library", "canteen", "sports", "academic", "admin"}
  const KnownStatuses: set<string> := {"critical", "crowded", "warning"}

  /** `getStatusColor`. */
  function StatusColor(status: string): string
  {
    if status == "critical" then "rgb(239, 68, 68)"
    else if status == "crowded" then "rgb(245, 158, 11)"
    else if status == "warning" then "rgb(234, 179, 8)"
    else "rgb(34, 197, 94)"
  }

  /** `getStatusBadge`. */
  function StatusBadge(status: string): string
  {
    if status == "critical" then "bg-red-500"
    else if status == "crowded" then "bg-orange-500"
    else if status == "warning" then "bg-yellow-500"
    else "bg-green-500"
  }

  /** The maps are total: anything unlisted (including the `normal` status of
      most markers) gets the default, and the listed keys get pairwise
      different values. */
  lemma MapsHaveDefaults(kind: string, status: string)
    ensures kind !in KnownKinds ==> LocationIcon(kind) == "\U{1F4CD}"
    ensures kind in KnownKinds ==> LocationIcon(kind) != "\U{1F4CD}"
    ensures status !in KnownStatuses ==> StatusColor(status) == "rgb(34, 197, 94)" && StatusBadge(status) == "bg-green-500"
    ensures status in KnownStatuses ==> StatusBadge(status) != "bg-green-500"
    ensures forall a, b :: a in KnownStatuses && b in KnownStatuses && a != b ==> StatusColor(a) != StatusColor(b)
  {
  }

  // ---------------------------------------------------------------------
  // Overcrowding and alert rings
  // ---------------------------------------------------------------------

  /** `forecast_count > capacity * 0.9`. */
  predicate Overcrowded(forecastCount: int, capacity: int)
  {
    forecastCount as real > capacity as real * 0.9
  }

  /** In whole numbers: the forecast exceeds nine tenths of capacity; exactly
      90% is not flagged. */
  lemma OvercrowdedInIntegers(forecastCount: int, capacity: int)
    ensures Overcrowded(forecastCount, capacity) <==> 10 * forecastCount > 9 * capacity
    ensures !Overcrowded(108, 120) && Overcrowded(188, 200)
  {
  }

  /** `alerts.some(alert => alert.affected_zone === locationId)`, scanning from the front. */
  function HasAlert(alerts: seq<AlertsContext.Alert>, locationId: string): (b: bool)
    ensures b <==> exists i :: 0 <= i < |alerts| && alerts[i].affectedZone == locationId
  {
    if alerts == [] then false
    else if alerts[0].affectedZone == locationId then true
    else
      var rest := HasAlert(alerts[1..], locationId);
      assert rest ==> exists i :: 0 <= i < |alerts| && alerts[i].affectedZone == locationId by {
        if rest {
          var j :| 0 <= j < |alerts[1..]| && alerts[1..][j].affectedZone == locationId;
          assert alerts[j + 1].affectedZone == locationId;
        }
      }
      rest
  }

  /** A status change never adds or removes a ring: rings depend on zones only. */
  lemma RingsIgnoreStatus(alerts: seq<AlertsContext.Alert>, alertId: string, s: AlertsContext.Status, locationId: string)
    ensures HasAlert(AlertsContext.WithStatus(alerts, alertId, s), locationId) == HasAlert(alerts, locationId)
  {
    AlertsContext.WithStatusPointwise(alerts, alertId, s);
    var r := AlertsContext.WithStatus(alerts, alertId, s);
    assert forall i :: 0 <= i < |alerts| ==> r[i].affectedZone == alerts[i].affectedZone;
  }
}
