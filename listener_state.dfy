/** What the location listener shows and records, as values, and how each event
    changes it. The listener class in `Tracking` keeps this state in its fields
    and is proved to change it exactly as the functions here say; the lemmas
    here state what those changes mean. Platform services are inputs: the
    bearing and distance between two locations, the numeric location
    formatters and the map engine's zoom levels. */
module ListenerState {
  import opened Optional
  import opened Geo
  import Compass
  import LocationFormat
  import opened Viewport
  import opened Overlays

  /** Provider status codes of the platform. */
  const OUT_OF_SERVICE := 0
  const TEMPORARILY_UNAVAILABLE := 1

  const UNITS_METERS := 0
  const UNITS_FEET := 1
  const UNITS_MILES := 2

  /** Which tracking slot a provider name selects: the fine one is tried first. */
  datatype Slot = FineSlot | CoarseSlot | NoSlot

  /** The provider dispatch of `getTextViewForProvider` and
      `getLastLocationForProvider`; a missing fine provider matches nothing. */
  function Classify(provider: string, fine: Option<string>, coarse: string): (slot: Slot)
    ensures slot == FineSlot <==> fine == Some(provider)
    ensures slot == CoarseSlot <==> fine != Some(provider) && provider == coarse
  {
    if fine == Some(provider) then FineSlot
    else if provider == coarse then CoarseSlot
    else NoSlot
  }

  /** What a location text view shows: its layout text, a placeholder, the
      current location, or the last location in italics. */
  datatype LocationText =
    | Initial
    | Disabled
    | Waiting
    | OutOfService
    | Showing(text: string)
    | Stale(text: string)

  /** The bearing view: blank, or the direction label and the bearing in degrees. */
  datatype BearingText = BearingBlank | Bearing(direction: string, degrees: int)

  /** The distance view: blank, or the distance in metres handed to the formatter
      for the chosen unit (the unit conversion itself is not modelled). */
  datatype DistanceText = DistanceBlank | Meters(meters: int) | Feet(meters: int) | Miles(meters: int)

  /** The distance text for a unit code; an unknown code shows metres. */
  function DistanceFor(units: int, meters: int): (t: DistanceText)
    ensures t != DistanceBlank && t.meters == meters
    ensures t.Miles? <==> units == UNITS_MILES
    ensures t.Feet? <==> units == UNITS_FEET
  {
    if units == UNITS_MILES then Miles(meters)
    else if units == UNITS_FEET then Feet(meters)
    else Meters(meters)
  }

  /** The platform services the listener calls: the numeric location formatters,
      the bearing and distance from one location to another (already cast to
      `int`), and the map engine. */
  datatype Services = Services(
    formatters: LocationFormat.Formatters,
    bearingTo: (Location, Location) -> int,
    distanceTo: (Location, Location) -> int,
    engine: MapEngine)

  /** What is fixed when the listener is built: the coarse provider's name, the
      fine provider's name if the device has one, and the platform services. */
  datatype Config = Config(coarseProvider: string, fineProvider: Option<string>, services: Services)

  /** The settings the activity pushes into the listener. `hasMyLocation` says
      whether the compass overlay object exists. */
  datatype Settings = Settings(
    autoCenter: int, autoZoom: bool, units: int, locationFmt: int,
    compass: bool, hasMyLocation: bool, saveData: bool, directQuery: bool)

  /** One provider's tracking slot: its last location, the cached map point of
      that location, and its location text view. */
  datatype Track = Track(last: Option<Location>, point: Option<GeoPoint>, text: LocationText)

  /** The map view: its overlay list and the commands sent to its controller so far. */
  datatype MapView = MapView(overlays: seq<Overlay>, commands: seq<MapCommand>)

  /** Everything the listener shows: both tracking slots, the coarse provider's
      name view, the bearing and distance views, and the map. */
  datatype Display = Display(
    fine: Track, coarse: Track, coarseName: string,
    bearing: BearingText, distance: DistanceText, mapView: MapView)

  /** A sample needs a map refresh exactly when its point differs from the cached
      one; an empty cache always differs. */
  predicate IsNewPoint(cached: Option<GeoPoint>, p: GeoPoint)
  {
    cached != Some(p)
  }

  /** `getNiceLocation` in the current format. */
  function NiceText(location: Location, s: Settings, c: Config): string
  {
    LocationFormat.NiceLocation(s.locationFmt, c.services.formatters, location.latitude, location.longitude)
  }

  /** `getLastLocationForProvider`. */
  function LastLocationFor(d: Display, provider: string, c: Config): (r: Option<Location>)
    ensures Classify(provider, c.fineProvider, c.coarseProvider) == FineSlot ==> r == d.fine.last
    ensures Classify(provider, c.fineProvider, c.coarseProvider) == CoarseSlot ==> r == d.coarse.last
    ensures Classify(provider, c.fineProvider, c.coarseProvider) == NoSlot ==> r == None
  {
    match Classify(provider, c.fineProvider, c.coarseProvider)
    case FineSlot => d.fine.last
    case CoarseSlot => d.coarse.last
    case NoSlot => None
  }

  /** `clearBearing`. */
  function BearingCleared(d: Display): Display
  {
    d.(bearing := BearingBlank, distance := DistanceBlank)
  }

  /** `updateBearing`: with both last locations present, the bearing and distance
      from the GPS fix to the cell are shown; otherwise nothing changes. */
  function BearingUpdated(d: Display, s: Settings, c: Config): (r: Display)
    ensures r.fine == d.fine && r.coarse == d.coarse && r.coarseName == d.coarseName
    ensures r.mapView == d.mapView
    ensures d.fine.last.None? || d.coarse.last.None? ==> r == d
  {
    if d.fine.last.Some? && d.coarse.last.Some? then
      var b := c.services.bearingTo(d.fine.last.value, d.coarse.last.value);
      var m := c.services.distanceTo(d.fine.last.value, d.coarse.last.value);
      d.(bearing := Bearing(Compass.NiceDirection(b), Compass.NormalizeBearing(b)),
         distance := DistanceFor(s.units, m))
    else d
  }

  /** `UpdateOverlays` followed by `zoomAndCenterMap`, for the cached points of `d`. */
  function Refreshed(d: Display, s: Settings, c: Config): (r: Display)
    ensures r.fine == d.fine && r.coarse == d.coarse && r.coarseName == d.coarseName
    ensures r.bearing == d.bearing && r.distance == d.distance
    ensures d.mapView.commands <= r.mapView.commands
    ensures CoarseMarker(d.coarse.point) in r.mapView.overlays
  {
    var fine, coarse := d.fine.point, d.coarse.point;
    d.(mapView := MapView(
         Rebuilt(c.fineProvider.Some?, fine, coarse, s.hasMyLocation, s.compass),
         d.mapView.commands + ViewportCommands(fine, coarse, s.autoCenter, s.autoZoom, c.services.engine)))
  }

  /** The fine branch of `onLocationChanged`: the sample becomes the last fine
      location and is shown; a new point is cached and refreshes the map; then
      the bearing is updated. */
  function FineSample(d: Display, location: Location, s: Settings, c: Config): (r: Display)
    ensures r.fine.last == Some(location) && r.fine.point == Some(location.point)
    ensures r.coarse == d.coarse && r.coarseName == d.coarseName
    ensures d.mapView.commands <= r.mapView.commands
  {
    FineCached(FineShown(d, location, s, c), location.point, s, c)
  }

  /** The first half of a GPS sample: it becomes the last fine location and its
      text is shown. */
  function FineShown(d: Display, location: Location, s: Settings, c: Config): Display
  {
    d.(fine := d.fine.(last := Some(location), text := Showing(NiceText(location, s, c))))
  }

  /** The second half of a GPS sample: a new point is cached and refreshes the
      map, then the bearing is updated. */
  function FineCached(d: Display, p: GeoPoint, s: Settings, c: Config): Display
  {
    var cached := if IsNewPoint(d.fine.point, p) then Refreshed(d.(fine := d.fine.(point := Some(p))), s, c) else d;
    BearingUpdated(cached, s, c)
  }


  /** The coarse branch shared by `onLocationChanged` and
      `directQueryLocationChanged`; it also shows the sample's provider name. */
  function CoarseSample(d: Display, location: Location, s: Settings, c: Config): (r: Display)
    ensures r.coarse.last == Some(location) && r.coarse.point == Some(location.point)
    ensures r.coarseName == location.provider
    ensures r.fine == d.fine
    ensures d.mapView.commands <= r.mapView.commands
  {
    CoarseCached(CoarseShown(d, location, s, c), location.point, s, c)
  }

  /** The first half of a cell sample: it becomes the last cell location, and
      its text and provider name are shown. */
  function CoarseShown(d: Display, location: Location, s: Settings, c: Config): Display
  {
    d.(coarse := d.coarse.(last := Some(location), text := Showing(NiceText(location, s, c))),
       coarseName := location.provider)
  }

  /** The second half of a cell sample: a new point is cached and refreshes the
      map, then the bearing is updated. */
  function CoarseCached(d: Display, p: GeoPoint, s: Settings, c: Config): Display
  {
    var cached := if IsNewPoint(d.coarse.point, p) then Refreshed(d.(coarse := d.coarse.(point := Some(p))), s, c) else d;
    BearingUpdated(cached, s, c)
  }


  /** `onLocationChanged` without the logging step: the fine provider's samples
      are accepted; the coarse provider's unless direct-query mode is on; any
      other provider's are ignored. */
  function LocationChanged(d: Display, location: Location, s: Settings, c: Config): (r: Display)
    ensures r.fine.last == d.fine.last || r.fine.last == Some(location)
    ensures r.coarse.last == d.coarse.last || r.coarse.last == Some(location)
    ensures r != d ==> Classify(location.provider, c.fineProvider, c.coarseProvider) != NoSlot
  {
    match Classify(location.provider, c.fineProvider, c.coarseProvider)
    case FineSlot => FineSample(d, location, s, c)
    case CoarseSlot => if s.directQuery then d else CoarseSample(d, location, s, c)
    case NoSlot => d
  }

  /** `directQueryLocationChanged` without the logging step. */
  function DirectQueryChanged(d: Display, location: Location, s: Settings, c: Config): (r: Display)
    ensures r.fine == d.fine
    ensures r.coarse.last == d.coarse.last || r.coarse.last == Some(location)
  {
    if s.directQuery then CoarseSample(d, location, s, c) else d
  }

  /** `tv.setText(t)` on the view of a known slot. */
  function WithText(d: Display, slot: Slot, t: LocationText): Display
    requires slot != NoSlot
  {
    if slot == FineSlot then d.(fine := d.fine.(text := t)) else d.(coarse := d.coarse.(text := t))
  }

  /** `onProviderDisabled` (with `Disabled`) and `onProviderEnabled` (with
      `Waiting`): a known provider's view shows the placeholder and the bearing
      views are cleared. */
  function ProviderToggled(d: Display, provider: string, t: LocationText, c: Config): (r: Display)
    ensures r.fine.last == d.fine.last && r.fine.point == d.fine.point
    ensures r.coarse.last == d.coarse.last && r.coarse.point == d.coarse.point
    ensures r.coarseName == d.coarseName && r.mapView == d.mapView
  {
    var slot := Classify(provider, c.fineProvider, c.coarseProvider);
    if slot == NoSlot then d else BearingCleared(WithText(d, slot, t))
  }

  /** `onStatusChanged`. The view is used without a null check under the two
      handled codes, so the provider must be a known one there. */
  function StatusChanged(d: Display, provider: string, status: int, s: Settings, c: Config): (r: Display)
    requires Classify(provider, c.fineProvider, c.coarseProvider) != NoSlot
             || (status != TEMPORARILY_UNAVAILABLE && status != OUT_OF_SERVICE)
    ensures r.fine.last == d.fine.last && r.fine.point == d.fine.point
    ensures r.coarse.last == d.coarse.last && r.coarse.point == d.coarse.point
    ensures r.coarseName == d.coarseName && r.mapView == d.mapView
  {
    var slot := Classify(provider, c.fineProvider, c.coarseProvider);
    if status == TEMPORARILY_UNAVAILABLE then
      var last := LastLocationFor(d, provider, c);
      if last.Some? then WithText(d, slot, Stale(NiceText(last.value, s, c)))
      else BearingCleared(WithText(d, slot, Waiting))
    else if status == OUT_OF_SERVICE then BearingCleared(WithText(d, slot, OutOfService))
    else d
  }

  // ---- properties of the display transitions ----

  /** A fine sample is stored, shown and cached, and leaves the coarse slot alone;
      a coarse sample likewise, showing its provider name, and leaves the fine
      slot alone. */
  lemma SampleStoredAndShown(d: Display, location: Location, s: Settings, c: Config)
    ensures var e := FineSample(d, location, s, c);
      && e.fine == Track(Some(location), Some(location.point), Showing(NiceText(location, s, c)))
      && e.coarse == d.coarse && e.coarseName == d.coarseName
    ensures var e := CoarseSample(d, location, s, c);
      && e.coarse == Track(Some(location), Some(location.point), Showing(NiceText(location, s, c)))
      && e.coarseName == location.provider
      && e.fine == d.fine
  {
  }

  /** A sample whose point is already cached leaves the map as it was; a new
      point rebuilds the overlay list around the new cached points and appends
      the viewport commands for them. */
  lemma MapRefreshedOnlyOnNewPoint(d: Display, location: Location, s: Settings, c: Config)
    ensures var e := FineSample(d, location, s, c);
      && (!IsNewPoint(d.fine.point, location.point) ==> e.mapView == d.mapView)
      && (IsNewPoint(d.fine.point, location.point) ==>
            e.mapView == MapView(
              Rebuilt(c.fineProvider.Some?, Some(location.point), d.coarse.point, s.hasMyLocation, s.compass),
              d.mapView.commands + ViewportCommands(Some(location.point), d.coarse.point, s.autoCenter, s.autoZoom, c.services.engine)))
    ensures var e := CoarseSample(d, location, s, c);
      && (!IsNewPoint(d.coarse.point, location.point) ==> e.mapView == d.mapView)
      && (IsNewPoint(d.coarse.point, location.point) ==>
            e.mapView == MapView(
              Rebuilt(c.fineProvider.Some?, d.fine.point, Some(location.point), s.hasMyLocation, s.compass),
              d.mapView.commands + ViewportCommands(d.fine.point, Some(location.point), s.autoCenter, s.autoZoom, c.services.engine)))
  {
  }

  /** The first fine sample always refreshes the map: the cell marker is placed
      and, with a fine provider, the reticle sits on the new point and the map
      is centred on it unless the mode is NONE. */
  lemma {:induction false} FirstFineSampleFramesMap(d: Display, location: Location, s: Settings, c: Config)
    requires d.fine.point.None? && d.coarse.point.None?
    ensures var e := FineSample(d, location, s, c);
      && CoarseMarker(None) in e.mapView.overlays
      && (c.fineProvider.Some? ==> FineMarker(Some(location.point)) in e.mapView.overlays)
      && (s.autoCenter != AUTO_CENTER_NONE ==> SetCenter(location.point) in e.mapView.commands)
      && (|e.mapView.commands| > |d.mapView.commands| <==> s.autoCenter != AUTO_CENTER_NONE || s.autoZoom)
  {
    var fine := Some(location.point);
    RebuiltShape(c.fineProvider.Some?, fine, None, s.hasMyLocation, s.compass);
    SingleFixFraming(fine, None, s.autoCenter, s.autoZoom, c.services.engine);
    var r := ViewportCommands(fine, None, s.autoCenter, s.autoZoom, c.services.engine);
    assert s.autoCenter != AUTO_CENTER_NONE ==> r[0] == SetCenter(location.point);
  }

  /** Repeating a sample changes nothing more: the second copy is deduplicated
      and the map is not refreshed again. */
  lemma RepeatedSampleIsIdempotent(d: Display, location: Location, s: Settings, c: Config)
    ensures FineSample(FineSample(d, location, s, c), location, s, c) == FineSample(d, location, s, c)
    ensures CoarseSample(CoarseSample(d, location, s, c), location, s, c) == CoarseSample(d, location, s, c)
  {
  }

  /** The bearing view for a platform bearing `b`: the compass label of `b` and the
      bearing itself, moved up by one turn when negative; for `b` in [-180, 180]
      that is one of the eight compass points and a bearing in [0, 360). */
  predicate ShowsBearing(t: BearingText, b: int)
  {
    && t == Bearing(Compass.NiceDirection(b), Compass.NormalizeBearing(b))
    && (0 <= b ==> t.degrees == b)
    && (b < 0 ==> t.degrees == b + 360)
    && (-180 <= b <= 180 ==> t.direction in Compass.Dirs[..8] && 0 <= t.degrees < 360)
    && (b < -180 || b > 180 ==> t.direction == "ERROR")
  }

  /** After a GPS sample with a cell location known, or a cell sample with a GPS
      fix known, the bearing view shows the bearing from the GPS fix to the cell
      and the distance view shows their distance in the chosen unit. Without the
      other location both views are kept. */
  lemma BearingShownWithBothFixes(d: Display, location: Location, s: Settings, c: Config)
    ensures var e := FineSample(d, location, s, c);
      if d.coarse.last.Some? then
        && ShowsBearing(e.bearing, c.services.bearingTo(location, d.coarse.last.value))
        && e.distance == DistanceFor(s.units, c.services.distanceTo(location, d.coarse.last.value))
      else e.bearing == d.bearing && e.distance == d.distance
    ensures var e := CoarseSample(d, location, s, c);
      if d.fine.last.Some? then
        && ShowsBearing(e.bearing, c.services.bearingTo(d.fine.last.value, location))
        && e.distance == DistanceFor(s.units, c.services.distanceTo(d.fine.last.value, location))
      else e.bearing == d.bearing && e.distance == d.distance
  {
  }

  /** Samples that are not accepted change nothing on screen: those of an
      unknown provider, those of the coarse provider in direct-query mode, and
      direct-query samples outside that mode. */
  lemma IgnoredSamplesChangeNothing(d: Display, location: Location, s: Settings, c: Config)
    ensures Classify(location.provider, c.fineProvider, c.coarseProvider) == NoSlot
            ==> LocationChanged(d, location, s, c) == d
    ensures Classify(location.provider, c.fineProvider, c.coarseProvider) == CoarseSlot && s.directQuery
            ==> LocationChanged(d, location, s, c) == d
    ensures !s.directQuery ==> DirectQueryChanged(d, location, s, c) == d
  {
  }

  /** Toggling a provider: a known provider's view shows the placeholder, the
      other slot and the map are untouched, the bearing views are blank; an
      unknown provider changes nothing. */
  lemma ProviderToggleShowsPlaceholder(d: Display, provider: string, t: LocationText, c: Config)
    ensures var e := ProviderToggled(d, provider, t, c);
      match Classify(provider, c.fineProvider, c.coarseProvider)
      case FineSlot => e == d.(fine := d.fine.(text := t), bearing := BearingBlank, distance := DistanceBlank)
      case CoarseSlot => e == d.(coarse := d.coarse.(text := t), bearing := BearingBlank, distance := DistanceBlank)
      case NoSlot => e == d
  {
  }

  /** A provider that goes temporarily unavailable right after one of its
      samples was shown keeps that same text, in italics, and keeps the bearing.
      Only a cell sample depends on the mode: in direct-query mode it is ignored. */
  lemma {:induction false} UnavailableAfterSampleShowsItStale(d: Display, location: Location, s: Settings, c: Config)
    requires Classify(location.provider, c.fineProvider, c.coarseProvider) != NoSlot
    requires Classify(location.provider, c.fineProvider, c.coarseProvider) == CoarseSlot ==> !s.directQuery
    ensures var slot := Classify(location.provider, c.fineProvider, c.coarseProvider);
      var e := LocationChanged(d, location, s, c);
      var f := StatusChanged(e, location.provider, TEMPORARILY_UNAVAILABLE, s, c);
      var text := NiceText(location, s, c);
      && (slot == FineSlot ==> e.fine.text == Showing(text) && f.fine.text == Stale(text))
      && (slot == CoarseSlot ==> e.coarse.text == Showing(text) && f.coarse.text == Stale(text))
      && f.bearing == e.bearing && f.distance == e.distance && f.mapView == e.mapView
  {
    SampleStoredAndShown(d, location, s, c);
  }

  /** Out of service always blanks the bearing views; "temporarily unavailable"
      shows the provider's last location in italics and keeps the bearing views,
      or, with no last location, shows "waiting" and blanks them; any other code
      changes nothing. Only the provider's own text view and the bearing views
      ever change. */
  lemma StatusChangeOutcome(d: Display, provider: string, status: int, s: Settings, c: Config)
    requires Classify(provider, c.fineProvider, c.coarseProvider) != NoSlot
             || (status != TEMPORARILY_UNAVAILABLE && status != OUT_OF_SERVICE)
    ensures var e := StatusChanged(d, provider, status, s, c);
      var slot := Classify(provider, c.fineProvider, c.coarseProvider);
      var last := LastLocationFor(d, provider, c);
      var shown := if slot == FineSlot then e.fine.text else e.coarse.text;
      && (status == OUT_OF_SERVICE ==> shown == OutOfService && e.bearing == BearingBlank && e.distance == DistanceBlank)
      && (status == TEMPORARILY_UNAVAILABLE && last.None? ==>
            shown == Waiting && e.bearing == BearingBlank && e.distance == DistanceBlank)
      && (status == TEMPORARILY_UNAVAILABLE && last.Some? ==>
            shown == Stale(NiceText(last.value, s, c)) && e.bearing == d.bearing && e.distance == d.distance)
      && (status != OUT_OF_SERVICE && status != TEMPORARILY_UNAVAILABLE ==> e == d)
      && (slot == FineSlot ==> e.coarse == d.coarse && e.fine.last == d.fine.last && e.fine.point == d.fine.point)
      && (slot == CoarseSlot ==> e.fine == d.fine && e.coarse.last == d.coarse.last && e.coarse.point == d.coarse.point)
      && e.coarseName == d.coarseName && e.mapView == d.mapView
  {
  }

  // ---- the sample log ----

  /** The phone state of a logged sample: operator, MCC, MNC, LAC, CID, signal. */
  datatype CellInfo = CellInfo(operator: string, mcc: int, mnc: int, lac: int, cid: int, signal: int)

  /** A logged sample: the cell data together with the location. */
  datatype CellLocation = CellLocation(cell: CellInfo, location: Location)

  /** A record appended to the named log file. */
  datatype LogEntry = LogEntry(file: string, record: CellLocation)

  /** The external storage at the time of a write: not mounted, mounted but the
      write fails, or writable. */
  datatype Storage = Unmounted | WriteFails | Writable

  /** The process-wide log-file name, the file this listener writes to once it
      has created it, and the records written so far. */
  datatype LogState = LogState(saveDataFile: Option<string>, outputFile: Option<string>, entries: seq<LogEntry>)

  /** `saveLocation`: with storage mounted, the output file is created from the
      log-file name if there is none yet, and the record is appended when the
      write succeeds; unmounted storage changes nothing. */
  function Saved(l: LogState, record: CellLocation, storage: Storage): (r: LogState)
    requires l.outputFile.Some? || l.saveDataFile.Some?
    ensures r.saveDataFile == l.saveDataFile
    ensures l.entries <= r.entries && |r.entries| <= |l.entries| + 1
  {
    if storage == Unmounted then l
    else
      var file := if l.outputFile.Some? then l.outputFile else l.saveDataFile;
      l.(outputFile := file,
         entries := l.entries + if storage == Writable then [LogEntry(file.value, record)] else [])
  }

  /** `setSaveData`: enabling keeps an existing log-file name and takes the fresh
      one only when there is none; disabling forgets the name. The output file
      already created is not touched. */
  function SaveDataSet(l: LogState, enable: bool, freshName: string): (r: LogState)
    ensures enable ==> r.saveDataFile.Some?
    ensures enable && l.saveDataFile.Some? ==> r.saveDataFile == l.saveDataFile
    ensures enable && l.saveDataFile.None? ==> r.saveDataFile == Some(freshName)
    ensures !enable ==> r.saveDataFile.None?
    ensures r.outputFile == l.outputFile && r.entries == l.entries
  {
    if enable then
      if l.saveDataFile.None? then l.(saveDataFile := Some(freshName)) else l
    else l.(saveDataFile := None)
  }

  /** A save with storage mounted creates the output file from the log-file name
      when there is none yet, and appends the record to that file when the write
      succeeds; once the file exists it stays the same, and unmounted storage
      changes nothing. */
  lemma SaveAppendsToOutputFile(l: LogState, record: CellLocation, storage: Storage)
    requires l.outputFile.Some? || l.saveDataFile.Some?
    ensures var r := Saved(l, record, storage);
      && r.saveDataFile == l.saveDataFile
      && (l.outputFile.Some? ==> r.outputFile == l.outputFile)
      && (storage != Unmounted && l.outputFile.None? ==> r.outputFile == l.saveDataFile)
      && (storage != Unmounted ==> r.outputFile.Some?)
      && (storage == Unmounted ==> r == l)
      && (storage == Writable ==> r.entries == l.entries + [LogEntry(r.outputFile.value, record)])
      && (storage != Writable ==> r.entries == l.entries)
  {
  }

  /** Once the output file exists, turning logging off and on again, whatever
      fresh name that picks, leaves every later record going to the same file. */
  lemma {:induction false} OutputFileSurvivesReenable(l: LogState, freshName: string, record: CellLocation)
    requires l.outputFile.Some?
    ensures var r := Saved(SaveDataSet(SaveDataSet(l, false, freshName), true, freshName), record, Writable);
      && r.saveDataFile == Some(freshName)
      && r.entries == l.entries + [LogEntry(l.outputFile.value, record)]
  {
    var off := SaveDataSet(l, false, freshName);
    var on := SaveDataSet(off, true, freshName);
    assert on.outputFile == l.outputFile;
  }
}
