/** The listener object itself: its settings, the two tracking slots, the views it
    writes, the map's overlay list and controller commands, and the sample log,
    held in fields that its event handlers update step by step. Each handler is
    proved to leave the fields as the matching function of `ListenerState`
    says; the properties of those functions are proved there. */
module Tracking {
  import opened Optional
  import opened Geo
  import Compass
  import LocationFormat
  import opened Viewport
  import opened Overlays
  import opened ListenerState

  /** MyLocationListener. */
  class LocationListener {
    // the providers and platform services, fixed at construction
    const config: Config

    // settings
    var autoCenter: int
    var autoZoom: bool
    var units: int
    var locationFmt: int
    var compass: bool
    var hasMyLocation: bool
    var saveData: bool
    var directQuery: bool

    // the two tracking slots and the coarse provider's name view
    var fine: Track
    var coarse: Track
    var coarseName: string

    // the bearing and distance views
    var bearingText: BearingText
    var distanceText: DistanceText

    // the map: its overlay list and the commands sent to its controller
    var overlays: seq<Overlay>
    var commands: seq<MapCommand>

    // sample logging: the log-file name, the file written to, and what it holds
    var saveDataFile: Option<string>
    var outputFile: Option<string>
    var log: seq<LogEntry>

    /** While logging is on a log-file name exists, so the lazy creation of the
        output file always has a name to use. */
    ghost predicate Valid()
      reads this`saveData, this`saveDataFile
    {
      saveData ==> saveDataFile.Some?
    }

    /** The compass overlay object exists exactly while the compass is on:
        `setCompass` creates it when turning the compass on and drops it when
        turning it off, and neither exists at first. */
    ghost predicate CompassOverlayExists()
      reads this`compass, this`hasMyLocation
    {
      hasMyLocation == compass
    }

    /** The current settings. */
    function Prefs(): Settings
      reads this`autoCenter, this`autoZoom, this`units, this`locationFmt
      reads this`compass, this`hasMyLocation, this`saveData, this`directQuery
    {
      Settings(autoCenter, autoZoom, units, locationFmt, compass, hasMyLocation, saveData, directQuery)
    }

    /** What the listener currently shows. */
    function Screen(): Display
      reads this`fine, this`coarse, this`coarseName, this`bearingText, this`distanceText
      reads this`overlays, this`commands
    {
      Display(fine, coarse, coarseName, bearingText, distanceText, MapView(overlays, commands))
    }

    /** The state of the sample log. */
    function Logging(): LogState
      reads this`saveDataFile, this`outputFile, this`log
    {
      LogState(saveDataFile, outputFile, log)
    }

    /** The listener as it is constructed; `savedFileName` is the process-wide
        log-file name left by an earlier listener. */
    constructor (coarseProvider: string, fineProvider: Option<string>, services: Services,
                 savedFileName: Option<string>)
      ensures Valid() && CompassOverlayExists()
      ensures config == Config(coarseProvider, fineProvider, services)
      ensures Prefs() == Settings(AUTO_CENTER_GPS, false, UNITS_METERS,
                                  LocationFormat.LOCATION_FMT_DDM, false, false, false, false)
      ensures Screen() == Display(
        Track(None, None, if fineProvider.None? then Disabled else Initial),
        Track(None, None, Initial), coarseProvider,
        BearingBlank, DistanceBlank, MapView([], []))
      ensures Logging() == LogState(savedFileName, None, [])
    {
      config := Config(coarseProvider, fineProvider, services);
      autoCenter, autoZoom, units, locationFmt := AUTO_CENTER_GPS, false, UNITS_METERS, LocationFormat.LOCATION_FMT_DDM;
      compass, hasMyLocation, saveData, directQuery := false, false, false, false;
      coarseName := coarseProvider;
      coarse := Track(None, None, Initial);
      fine := Track(None, None, if fineProvider.None? then Disabled else Initial);
      overlays, commands := [], [];
      saveDataFile, outputFile, log := savedFileName, None, [];
      new;
      ClearBearing();
    }

    // ---- location events ----

    /** `onLocationChanged`: the sample is handled by its provider's slot, and
        logged while logging is on, whether it was accepted or not. */
    method OnLocationChanged(location: Location, phone: CellInfo, storage: Storage)
      requires Valid()
      modifies this`fine, this`coarse, this`coarseName, this`bearingText, this`distanceText
      modifies this`overlays, this`commands, this`outputFile, this`log
      ensures Screen() == LocationChanged(old(Screen()), location, Prefs(), config)
      ensures Logging() == if saveData then Saved(old(Logging()), CellLocation(phone, location), storage)
                           else old(Logging())
    {
      TrackSample(location);
      if saveData {
        SaveLocation(CellLocation(phone, location), storage);
      }
    }

    /** The dispatch of `onLocationChanged` on the sample's provider. */
    method TrackSample(location: Location)
      modifies this`fine, this`coarse, this`coarseName, this`bearingText, this`distanceText
      modifies this`overlays, this`commands
      ensures Screen() == LocationChanged(old(Screen()), location, Prefs(), config)
    {
      var slot := Classify(location.provider, config.fineProvider, config.coarseProvider);
      if slot == FineSlot {
        AcceptFine(location);
      } else if slot == CoarseSlot {
        if !directQuery {
          AcceptCoarse(location);
        }
      }
    }

    /** `directQueryLocationChanged`: a cell sample from a direct query is accepted
        only in direct-query mode; it is logged while logging is on either way. */
    method DirectQueryLocationChanged(cell: CellInfo, location: Location, storage: Storage)
      requires Valid()
      modifies this`fine, this`coarse, this`coarseName, this`bearingText, this`distanceText
      modifies this`overlays, this`commands, this`outputFile, this`log
      ensures Screen() == DirectQueryChanged(old(Screen()), location, Prefs(), config)
      ensures Logging() == if saveData then Saved(old(Logging()), CellLocation(cell, location), storage)
                           else old(Logging())
    {
      if directQuery {
        AcceptCoarse(location);
      }
      if saveData {
        SaveLocation(CellLocation(cell, location), storage);
      }
    }

    /** The fine branch of `onLocationChanged`. */
    method AcceptFine(location: Location)
      modifies this`fine, this`bearingText, this`distanceText, this`overlays, this`commands
      ensures Screen() == FineSample(old(Screen()), location, Prefs(), config)
    {
      ShowFine(location);
      CacheFine(location.point);
    }

    /** The fine branch's first step: store the sample and show it. */
    method ShowFine(location: Location)
      modifies this`fine
      ensures Screen() == FineShown(old(Screen()), location, Prefs(), config)
    {
      fine := fine.(last := Some(location), text := Showing(NiceText(location, Prefs(), config)));
    }

    /** The fine branch's second step: cache a new point and refresh the map,
        then update the bearing. */
    method CacheFine(p: GeoPoint)
      modifies this`fine, this`bearingText, this`distanceText, this`overlays, this`commands
      ensures Screen() == FineCached(old(Screen()), p, Prefs(), config)
    {
      if IsNewPoint(fine.point, p) {
        fine := fine.(point := Some(p));
        RefreshMap();
      }
      UpdateBearing();
    }

    /** The coarse branch shared by `onLocationChanged` and `directQueryLocationChanged`. */
    method AcceptCoarse(location: Location)
      modifies this`coarse, this`coarseName, this`bearingText, this`distanceText, this`overlays, this`commands
      ensures Screen() == CoarseSample(old(Screen()), location, Prefs(), config)
    {
      ShowCoarse(location);
      CacheCoarse(location.point);
    }

    /** The coarse branch's first step: store the sample and show it with its
        provider name. */
    method ShowCoarse(location: Location)
      modifies this`coarse, this`coarseName
      ensures Screen() == CoarseShown(old(Screen()), location, Prefs(), config)
    {
      coarse := coarse.(last := Some(location), text := Showing(NiceText(location, Prefs(), config)));
      coarseName := location.provider;
    }

    /** The coarse branch's second step: cache a new point and refresh the map,
        then update the bearing. */
    method CacheCoarse(p: GeoPoint)
      modifies this`coarse, this`bearingText, this`distanceText, this`overlays, this`commands
      ensures Screen() == CoarseCached(old(Screen()), p, Prefs(), config)
    {
      if IsNewPoint(coarse.point, p) {
        coarse := coarse.(point := Some(p));
        RefreshMap();
      }
      UpdateBearing();
    }

    // ---- provider events ----

    /** `onProviderDisabled`. */
    method OnProviderDisabled(provider: string)
      modifies this`fine, this`coarse, this`bearingText, this`distanceText
      ensures Screen() == ProviderToggled(old(Screen()), provider, Disabled, config)
    {
      ShowForProvider(provider, Disabled);
    }

    /** `onProviderEnabled`. */
    method OnProviderEnabled(provider: string)
      modifies this`fine, this`coarse, this`bearingText, this`distanceText
      ensures Screen() == ProviderToggled(old(Screen()), provider, Waiting, config)
    {
      ShowForProvider(provider, Waiting);
    }

    /** The shared body of the two provider events. */
    method ShowForProvider(provider: string, t: LocationText)
      modifies this`fine, this`coarse, this`bearingText, this`distanceText
      ensures Screen() == ProviderToggled(old(Screen()), provider, t, config)
    {
      var slot := Classify(provider, config.fineProvider, config.coarseProvider);
      if slot != NoSlot {
        SetSlotText(slot, t);
        ClearBearing();
      }
    }

    /** `onStatusChanged`. */
    method OnStatusChanged(provider: string, status: int)
      requires Classify(provider, config.fineProvider, config.coarseProvider) != NoSlot
               || (status != TEMPORARILY_UNAVAILABLE && status != OUT_OF_SERVICE)
      modifies this`fine, this`coarse, this`bearingText, this`distanceText
      ensures Screen() == StatusChanged(old(Screen()), provider, status, Prefs(), config)
    {
      var slot := Classify(provider, config.fineProvider, config.coarseProvider);
      if status == TEMPORARILY_UNAVAILABLE {
        var last := LastLocationFor(Screen(), provider, config);
        if last.Some? {
          SetSlotText(slot, Stale(NiceText(last.value, Prefs(), config)));
        } else {
          SetSlotText(slot, Waiting);
          ClearBearing();
        }
      } else if status == OUT_OF_SERVICE {
        SetSlotText(slot, OutOfService);
        ClearBearing();
      }
    }

    /** `tv.setText(...)` on the view `getTextViewForProvider` returned. */
    method SetSlotText(slot: Slot, t: LocationText)
      requires slot != NoSlot
      modifies this`fine, this`coarse
      ensures Screen() == WithText(old(Screen()), slot, t)
    {
      if slot == FineSlot {
        fine := fine.(text := t);
      } else {
        coarse := coarse.(text := t);
      }
    }

    // ---- settings ----

    /** `setAutoCenter`: store the mode and re-frame the map. */
    method SetAutoCenter(mode: int)
      modifies this`autoCenter, this`commands
      ensures Prefs() == old(Prefs()).(autoCenter := mode)
      ensures commands == old(commands) + ViewportCommands(fine.point, coarse.point, mode, autoZoom, config.services.engine)
    {
      autoCenter := mode;
      ZoomAndCenterMap();
    }

    /** `setAutoZoom`: store the flag and re-frame the map. */
    method SetAutoZoom(enabled: bool)
      modifies this`autoZoom, this`commands
      ensures Prefs() == old(Prefs()).(autoZoom := enabled)
      ensures commands == old(commands) + ViewportCommands(fine.point, coarse.point, autoCenter, enabled, config.services.engine)
    {
      autoZoom := enabled;
      ZoomAndCenterMap();
    }

    /** `setLocationFormat`: only later texts use the new format. */
    method SetLocationFormat(fmt: int)
      modifies this`locationFmt
      ensures Prefs() == old(Prefs()).(locationFmt := fmt)
    {
      locationFmt := fmt;
    }

    /** `setUnits`: only later distance texts use the new unit. */
    method SetUnits(u: int)
      modifies this`units
      ensures Prefs() == old(Prefs()).(units := u)
    {
      units := u;
    }

    /** `setCompass`: the compass overlay exists exactly while the compass is on;
        the overlay list itself is only rebuilt by the next refresh. */
    method SetCompass(enabled: bool)
      modifies this`compass, this`hasMyLocation
      ensures CompassOverlayExists()
      ensures Prefs() == old(Prefs()).(compass := enabled, hasMyLocation := enabled)
    {
      compass := enabled;
      hasMyLocation := enabled;
    }

    /** `setDirectQueryMode`. */
    method SetDirectQueryMode(enabled: bool)
      modifies this`directQuery
      ensures Prefs() == old(Prefs()).(directQuery := enabled)
    {
      directQuery := enabled;
    }

    /** `setSaveData`: the log-file name as `SaveDataSet` says, then the flag. */
    method SetSaveData(enable: bool, freshName: string)
      modifies this`saveData, this`saveDataFile
      ensures Valid()
      ensures Prefs() == old(Prefs()).(saveData := enable)
      ensures Logging() == SaveDataSet(old(Logging()), enable, freshName)
    {
      if enable {
        if saveDataFile.None? {
          saveDataFile := Some(freshName);
        }
      } else {
        saveDataFile := None;
      }
      saveData := enable;
    }

    // ---- the helpers the events share ----

    /** `clearBearing`. */
    method ClearBearing()
      modifies this`bearingText, this`distanceText
      ensures bearingText == BearingBlank && distanceText == DistanceBlank
    {
      bearingText := BearingBlank;
      distanceText := DistanceBlank;
    }

    /** `updateBearing`. */
    method UpdateBearing()
      modifies this`bearingText, this`distanceText
      ensures Screen() == BearingUpdated(old(Screen()), Prefs(), config)
    {
      if fine.last.Some? && coarse.last.Some? {
        var bearing := config.services.bearingTo(fine.last.value, coarse.last.value);
        var distance := config.services.distanceTo(fine.last.value, coarse.last.value);
        var direction := Compass.NiceDirection(bearing);
        var niceBearing := bearing;
        if niceBearing < 0 {
          niceBearing := niceBearing + 360;
        }
        bearingText := Bearing(direction, niceBearing);
        distanceText := DistanceFor(units, distance);
      }
    }

    /** The refresh that follows a new point: `UpdateOverlays`, then
        `zoomAndCenterMap`. */
    method RefreshMap()
      modifies this`overlays, this`commands
      ensures Screen() == Refreshed(old(Screen()), Prefs(), config)
    {
      UpdateOverlays();
      ZoomAndCenterMap();
    }

    /** `UpdateOverlays`: clear the list, then append in the fixed order. */
    method UpdateOverlays()
      modifies this`overlays
      ensures overlays == Rebuilt(config.fineProvider.Some?, fine.point, coarse.point, hasMyLocation, compass)
    {
      overlays := [];
      if config.fineProvider.Some? {
        overlays := overlays + [Line(fine.point, coarse.point)];
        overlays := overlays + [FineMarker(fine.point)];
      }
      overlays := overlays + [CoarseMarker(coarse.point)];
      if hasMyLocation && compass {
        overlays := overlays + [MyLocation];
      }
    }

    /** `zoomAndCenterMap`: the commands go to the recorded controller one by one. */
    method ZoomAndCenterMap()
      modifies this`commands
      ensures commands == old(commands) + ViewportCommands(fine.point, coarse.point, autoCenter, autoZoom, config.services.engine)
    {
      if fine.point.Some? && coarse.point.Some? {
        var p1, p2 := fine.point.value, coarse.point.value;
        var latSpan := Span(p1.latE6, p2.latE6);
        var lonSpan := Span(p1.lonE6, p2.lonE6);
        if autoZoom {
          commands := commands + [ZoomToSpan(latSpan, lonSpan)];
          if autoCenter != AUTO_CENTER_MIDPOINT {
            commands := commands + [SetZoom(config.services.engine.zoomAfterFit(latSpan, lonSpan) - 1)];
          }
        }
        if autoCenter == AUTO_CENTER_GPS {
          commands := commands + [SetCenter(p1)];
        } else if autoCenter == AUTO_CENTER_NETWORK {
          commands := commands + [SetCenter(p2)];
        } else if autoCenter == AUTO_CENTER_MIDPOINT {
          var latCenter := HalfTowardZero(Max(p1.latE6, p2.latE6) + Min(p1.latE6, p2.latE6));
          var lonCenter := HalfTowardZero(Max(p1.lonE6, p2.lonE6) + Min(p1.lonE6, p2.lonE6));
          commands := commands + [SetCenter(GeoPoint(latCenter, lonCenter))];
        }
      } else if fine.point.Some? {
        if autoCenter != AUTO_CENTER_NONE {
          commands := commands + [SetCenter(fine.point.value)];
        }
        if autoZoom {
          commands := commands + [SetZoom(config.services.engine.maxZoom - 2)];
        }
      } else if coarse.point.Some? {
        if autoCenter != AUTO_CENTER_NONE {
          commands := commands + [SetCenter(coarse.point.value)];
        }
        if autoZoom {
          commands := commands + [SetZoom(config.services.engine.maxZoom - 2)];
        }
      }
    }

    /** `saveLocation`: the lazy output file and the append. */
    method SaveLocation(record: CellLocation, storage: Storage)
      requires outputFile.Some? || saveDataFile.Some?
      modifies this`outputFile, this`log
      ensures Logging() == Saved(old(Logging()), record, storage)
    {
      if storage != Unmounted {
        if outputFile.None? {
          outputFile := saveDataFile;
        }
        if storage == Writable {
          log := log + [LogEntry(outputFile.value, record)];
        }
      }
    }
  }
}
