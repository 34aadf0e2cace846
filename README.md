# CellFinder location listener — a verified model

CellFinder shows where the phone's current cell tower is relative to the GPS
fix. Its `MyLocationListener` receives location samples from two providers, the
coarse (cell/network) one and the fine (GPS) one, and from direct cell queries.
It keeps the last location and the last micro-degree map point of each, writes
them into text views, draws them on a map as overlays, frames the map with zoom
and centre commands, shows the compass direction and distance from the GPS fix
to the cell, and can append every sample to a log file.

This project models that listener in Dafny:

- `Geo`: micro-degree points, location samples, and the Java `int` span and
  midpoint arithmetic. The midpoint uses Java's division, which truncates
  toward zero.
- `Compass`: `getNiceDirection`, the 8-point compass label, on whole-degree
  bearings. There `(n + 22.5) / 45` equals `(2n + 45) / 90`, whose numerator is
  odd, so the float quotient is never within rounding error of a whole number
  and truncating it gives the integer quotient used here.
- `LocationFormat`: how `getNiceLocation` puts the location text together.
  The numeric formatters are opaque functions.
- `Viewport`: `zoomAndCenterMap` as the list of commands sent to the map
  controller.
- `Overlays`: `UpdateOverlays` as the rebuilt overlay list.
- `ListenerState`: everything the listener shows (`Display`) and logs
  (`LogState`), as values. There is one function per event and lemmas that
  state what the events do.
- `Tracking`: the listener class. It keeps that state in fields that its
  handlers update step by step, in the order of the source. Each handler is
  proved to leave the fields as the matching `ListenerState` function says.

Platform services are inputs, held in a `Services` value:
- `bearingTo` and `distanceTo`, already cast to `int`;
- the DDM/DDMS/DD/MGRS formatters;
- the zoom level the map settles on after `zoomToSpan`, and its maximum zoom level.

Other inputs:
- The micro-degree point of a sample comes with the sample.
- The phone state of a logged sample and the storage state at the time of a write are parameters of the event.
- The name `getSaveDataFilename` would produce is a parameter of `SetSaveData`.

## Model

Source paths are relative to the repository root; every row cites the listener
class, `projects/cellfinder/src/com/codetastrophe/cellfinder/listeners/MyLocationListener.java`.

| member | source | states |
|---|---|---|
| `Geo.HalfTowardZero` | projects/cellfinder/src/com/codetastrophe/cellfinder/listeners/MyLocationListener.java:566-567 | Java `int` halving: the remainder `x - 2q` lies in [0, 1] for non-negative `x` and in [-1, 0] for negative `x`, i.e. the quotient is truncated toward zero |
| `Geo.Span` | projects/cellfinder/src/com/codetastrophe/cellfinder/listeners/MyLocationListener.java:547-548 | `max - min` of two coordinates is never negative and is their absolute difference |
| `Geo.Midpoint` | projects/cellfinder/src/com/codetastrophe/cellfinder/listeners/MyLocationListener.java:566-567 | the midpoint coordinate lies between the two coordinates and within half a micro-degree of their mean, rounded toward zero |
| `Compass.NormalizeBearing` | projects/cellfinder/src/com/codetastrophe/cellfinder/listeners/MyLocationListener.java:410-411 | a bearing in [-180, 180] is moved into [0, 360) by adding one turn; it stays the same direction modulo 360, and a bearing already in [0, 360) is unchanged |
| `Compass.DirectionIndex` | projects/cellfinder/src/com/codetastrophe/cellfinder/listeners/MyLocationListener.java:102-103 | the index `(bearing + 22.5) / 45` is always inside the 9-entry table and is the 45-degree sector that holds the shifted bearing |
| `Compass.NiceDirection` | projects/cellfinder/src/com/codetastrophe/cellfinder/listeners/MyLocationListener.java:406-416 | "ERROR" exactly when the bearing is outside [-180, 180]; otherwise one of N, NE, E, SE, S, SW, W, NW |
| `Compass.NiceDirectionIsCompassPoint` | projects/cellfinder/src/com/codetastrophe/cellfinder/listeners/MyLocationListener.java:102-103 | the label equals an independent compass rose written with explicit degree ranges, including -1 giving "N" through table entry 8 |
| `Compass.NiceDirectionIsNearestPoint` | projects/cellfinder/src/com/codetastrophe/cellfinder/listeners/MyLocationListener.java:406-416 | the label names the nearest compass point: at most 22 degrees away, and strictly nearer than every other point |
| `LocationFormat.LatHemisphere` | projects/cellfinder/src/com/codetastrophe/cellfinder/listeners/MyLocationListener.java:443-447 | the latitude letter is N exactly for a strictly positive latitude, so the equator reads S |
| `LocationFormat.LonHemisphere` | projects/cellfinder/src/com/codetastrophe/cellfinder/listeners/MyLocationListener.java:450-454 | the longitude letter is E exactly for a strictly positive longitude, so the prime meridian reads W |
| `LocationFormat.NiceLocation` | projects/cellfinder/src/com/codetastrophe/cellfinder/listeners/MyLocationListener.java:418-458 | in MGRS format the text is the grid reference alone, with no suffix despite the fall-through; in every other format it ends with the longitude letter |
| `LocationFormat.FormatCoordinate` | projects/cellfinder/src/com/codetastrophe/cellfinder/listeners/MyLocationListener.java:425-440 | DD and DDM select their own formatter; every other code, MGRS and unknown ones included, formats the coordinate as DDMS |
| `LocationFormat.UnknownFormatReadsAsDdms` | projects/cellfinder/src/com/codetastrophe/cellfinder/listeners/MyLocationListener.java:436-439 | a format code outside the four known ones gives exactly the DDMS text |
| `LocationFormat.NiceLocationParsesBack` | projects/cellfinder/src/com/codetastrophe/cellfinder/listeners/MyLocationListener.java:425-455 | a non-MGRS text splits back into the latitude text, its letter, the ", " separator, the longitude text and its letter |
| `Viewport.ViewportCommandsBounds` | projects/cellfinder/src/com/codetastrophe/cellfinder/listeners/MyLocationListener.java:537-592 | no cached point gives no commands; there are at most three; without auto-zoom only centring is issued; NONE never centres; every centre is a cached point or lies in their box; spans are non-negative |
| `Viewport.DualFixZoom` | projects/cellfinder/src/com/codetastrophe/cellfinder/listeners/MyLocationListener.java:550-559 | with two points and auto-zoom, `zoomToSpan` comes first, then `setZoom(current - 1)` exactly when the mode is not MIDPOINT |
| `Viewport.DualFixCenter` | projects/cellfinder/src/com/codetastrophe/cellfinder/listeners/MyLocationListener.java:561-569 | with two points, the map is centred on the GPS point, the network point or the midpoint as the mode says, and any other mode does not centre |
| `Viewport.SingleFixFraming` | projects/cellfinder/src/com/codetastrophe/cellfinder/listeners/MyLocationListener.java:570-591 | with one point, it is centred under every mode but NONE, even one naming the other provider, and auto-zoom sets max - 2 |
| `Viewport.ViewportCommands` | projects/cellfinder/src/com/codetastrophe/cellfinder/listeners/MyLocationListener.java:537-592 | at most three commands, none without a cached point; the lemmas `ViewportCommandsBounds`, `DualFixZoom`, `DualFixCenter` and `SingleFixFraming` state the rest |
| `Viewport.FitBoth` | projects/cellfinder/src/com/codetastrophe/cellfinder/listeners/MyLocationListener.java:551-559 | one or two commands: a `zoomToSpan` with non-negative spans, then only `setZoom` |
| `Viewport.CenterBoth` | projects/cellfinder/src/com/codetastrophe/cellfinder/listeners/MyLocationListener.java:561-569 | at most one command, a `setCenter` on a point inside the box of the two points |
| `Viewport.FrameOne` | projects/cellfinder/src/com/codetastrophe/cellfinder/listeners/MyLocationListener.java:570-591 | at most two commands, each a `setCenter` on the point or a `setZoom(max - 2)` |
| `Overlays.RebuiltShape` | projects/cellfinder/src/com/codetastrophe/cellfinder/listeners/MyLocationListener.java:512-535 | the rebuilt list is [line, reticle] only with a fine provider, then the always-present cell marker, then the compass overlay only when it exists and the compass is on; the length follows |
| `Overlays.Rebuilt` | projects/cellfinder/src/com/codetastrophe/cellfinder/listeners/MyLocationListener.java:512-535 | the cell marker at the cached cell point is always in the list, which holds one to four overlays; `RebuiltShape` states order and membership |
| `ListenerState.Classify` | projects/cellfinder/src/com/codetastrophe/cellfinder/listeners/MyLocationListener.java:460-468 | a provider selects the fine slot exactly when it equals the fine provider, and the coarse slot exactly when it does not but equals the coarse provider |
| `ListenerState.LastLocationFor` | projects/cellfinder/src/com/codetastrophe/cellfinder/listeners/MyLocationListener.java:396-404 | the last location of the selected slot, and none for an unknown provider |
| `ListenerState.DistanceFor` | projects/cellfinder/src/com/codetastrophe/cellfinder/listeners/MyLocationListener.java:493-507 | the distance text carries the distance; miles and feet exactly for their unit codes, metres for any other code |
| `ListenerState.BearingUpdated` | projects/cellfinder/src/com/codetastrophe/cellfinder/listeners/MyLocationListener.java:478-510 | only the bearing and distance views can change, and they are kept unless both last locations exist; `BearingShownWithBothFixes` states the values shown |
| `ListenerState.Refreshed` | projects/cellfinder/src/com/codetastrophe/cellfinder/listeners/MyLocationListener.java:181-184 | only the map changes: the commands so far stay a prefix, and the cell marker is placed at the cached cell point |
| `ListenerState.FineSample` | projects/cellfinder/src/com/codetastrophe/cellfinder/listeners/MyLocationListener.java:171-187 | the GPS sample becomes the last fine location and the cached fine point, the cell slot and name are untouched, and commands are only appended |
| `ListenerState.CoarseSample` | projects/cellfinder/src/com/codetastrophe/cellfinder/listeners/MyLocationListener.java:193-209 | the cell sample becomes the last cell location and the cached cell point, its provider name is shown, the GPS slot is untouched, and commands are only appended |
| `ListenerState.LocationChanged` | projects/cellfinder/src/com/codetastrophe/cellfinder/listeners/MyLocationListener.java:162-210 | each last location is kept or becomes the sample, and the display changes only for a known provider; `IgnoredSamplesChangeNothing` states when it does not |
| `ListenerState.DirectQueryChanged` | projects/cellfinder/src/com/codetastrophe/cellfinder/listeners/MyLocationListener.java:225-245 | a direct query never touches the GPS slot, and the cell's last location is kept or becomes the sample |
| `ListenerState.ProviderToggled` | projects/cellfinder/src/com/codetastrophe/cellfinder/listeners/MyLocationListener.java:260-274 | last locations, cached points, the provider name and the map are untouched; `ProviderToggleShowsPlaceholder` gives the whole new display |
| `ListenerState.StatusChanged` | projects/cellfinder/src/com/codetastrophe/cellfinder/listeners/MyLocationListener.java:276-296 | last locations, cached points, the provider name and the map are untouched; `StatusChangeOutcome` gives the text shown for each code |
| `ListenerState.SampleStoredAndShown` | projects/cellfinder/src/com/codetastrophe/cellfinder/listeners/MyLocationListener.java:171-209 | an accepted sample becomes its slot's last location, is shown as text and is cached as its point; a coarse sample also shows its provider name; the other slot is untouched |
| `ListenerState.MapRefreshedOnlyOnNewPoint` | projects/cellfinder/src/com/codetastrophe/cellfinder/listeners/MyLocationListener.java:179-206 | a sample whose point is already cached leaves the map alone; a new point rebuilds the overlays and appends the viewport commands for the new points |
| `ListenerState.FirstFineSampleFramesMap` | projects/cellfinder/src/com/codetastrophe/cellfinder/listeners/MyLocationListener.java:180-185 | the first GPS sample when no point at all is cached always refreshes: the cell marker is listed without a position, the reticle sits on the new point, the map is centred on it unless the mode is NONE, and commands are issued exactly when centring or auto-zoom is on |
| `ListenerState.RepeatedSampleIsIdempotent` | projects/cellfinder/src/com/codetastrophe/cellfinder/listeners/MyLocationListener.java:171-209 | handling the same sample twice gives the same display as handling it once, for both slots |
| `ListenerState.BearingShownWithBothFixes` | projects/cellfinder/src/com/codetastrophe/cellfinder/listeners/MyLocationListener.java:478-491 | after a GPS sample with a cell location known, or a cell sample with a GPS fix known, the bearing view shows `NiceDirection(b)` and the bearing `b`, plus 360 when negative, for the bearing `b` from the GPS fix to the cell; it is a compass point in [0, 360) for `b` in [-180, 180] and "ERROR" otherwise; the distance view shows their distance in the chosen unit; without the other location both views keep their text |
| `ListenerState.IgnoredSamplesChangeNothing` | projects/cellfinder/src/com/codetastrophe/cellfinder/listeners/MyLocationListener.java:188-210 | unknown-provider samples, coarse-provider samples in direct-query mode, and direct-query samples outside that mode leave the display unchanged |
| `ListenerState.ProviderToggleShowsPlaceholder` | projects/cellfinder/src/com/codetastrophe/cellfinder/listeners/MyLocationListener.java:260-274 | enabling or disabling a known provider gives the old display with the placeholder in that provider's view and blank bearing views, nothing else changed; an unknown provider changes nothing |
| `ListenerState.StatusChangeOutcome` | projects/cellfinder/src/com/codetastrophe/cellfinder/listeners/MyLocationListener.java:276-296 | out of service shows its text and blanks the bearing views; temporarily unavailable shows `getNiceLocation` of the last location in italics and keeps the bearing, or shows "waiting" and blanks it; any other code changes nothing; the other slot, the provider name and the map never change |
| `ListenerState.UnavailableAfterSampleShowsItStale` | projects/cellfinder/src/com/codetastrophe/cellfinder/listeners/MyLocationListener.java:279-286 | right after a provider's sample is shown, "temporarily unavailable" shows that same text in italics and leaves bearing and map alone; only for a cell sample must direct-query mode be off |
| `ListenerState.SaveDataSet` | projects/cellfinder/src/com/codetastrophe/cellfinder/listeners/MyLocationListener.java:638-653 | enabling keeps an existing log-file name and takes the fresh one only when there is none; disabling clears it; the output file and the records are untouched |
| `ListenerState.SaveAppendsToOutputFile` | projects/cellfinder/src/com/codetastrophe/cellfinder/listeners/MyLocationListener.java:594-636 | with storage mounted, a save keeps an existing output file or creates it from the log-file name, and appends exactly one record to it when the write succeeds; unmounted storage changes nothing |
| `ListenerState.Saved` | projects/cellfinder/src/com/codetastrophe/cellfinder/listeners/MyLocationListener.java:594-636 | the log-file name is untouched and the records so far stay a prefix with at most one record added |
| `ListenerState.OutputFileSurvivesReenable` | projects/cellfinder/src/com/codetastrophe/cellfinder/listeners/MyLocationListener.java:599-601 | once the output file exists, turning logging off and on again picks a fresh name, but the next record still goes to the old file |
| `Tracking.LocationListener.constructor` | projects/cellfinder/src/com/codetastrophe/cellfinder/listeners/MyLocationListener.java:105-160 | default settings; empty slots; the coarse name view shows the provider; the fine view reads "disabled" when there is no GPS provider; blank bearing views; empty map; the log-file name left by an earlier listener; the compass overlay exists exactly while the compass is on |
| `Tracking.LocationListener.OnLocationChanged` | projects/cellfinder/src/com/codetastrophe/cellfinder/listeners/MyLocationListener.java:162-223 | the display changes as `LocationChanged` says, and the sample is logged exactly when logging is on |
| `Tracking.LocationListener.TrackSample` | projects/cellfinder/src/com/codetastrophe/cellfinder/listeners/MyLocationListener.java:168-210 | the provider dispatch: the display changes as `LocationChanged` says |
| `Tracking.LocationListener.DirectQueryLocationChanged` | projects/cellfinder/src/com/codetastrophe/cellfinder/listeners/MyLocationListener.java:225-252 | the display changes as `DirectQueryChanged` says, and the sample is logged exactly when logging is on |
| `Tracking.LocationListener.AcceptFine` | projects/cellfinder/src/com/codetastrophe/cellfinder/listeners/MyLocationListener.java:171-187 | the fields change as `FineSample` says, in two steps |
| `Tracking.LocationListener.ShowFine` | projects/cellfinder/src/com/codetastrophe/cellfinder/listeners/MyLocationListener.java:174-177 | the fields change as `FineShown` says: the sample is stored and shown |
| `Tracking.LocationListener.CacheFine` | projects/cellfinder/src/com/codetastrophe/cellfinder/listeners/MyLocationListener.java:179-187 | the fields change as `FineCached` says: a new point is cached and refreshes the map, then the bearing is updated |
| `Tracking.LocationListener.AcceptCoarse` | projects/cellfinder/src/com/codetastrophe/cellfinder/listeners/MyLocationListener.java:193-209 | the fields change as `CoarseSample` says, in two steps |
| `Tracking.LocationListener.ShowCoarse` | projects/cellfinder/src/com/codetastrophe/cellfinder/listeners/MyLocationListener.java:194-199 | the fields change as `CoarseShown` says: the sample is stored and shown with its provider name |
| `Tracking.LocationListener.CacheCoarse` | projects/cellfinder/src/com/codetastrophe/cellfinder/listeners/MyLocationListener.java:201-208 | the fields change as `CoarseCached` says: a new point is cached and refreshes the map, then the bearing is updated |
| `Tracking.LocationListener.OnProviderDisabled` | projects/cellfinder/src/com/codetastrophe/cellfinder/listeners/MyLocationListener.java:260-266 | the display changes as `ProviderToggled` with the "disabled" text says |
| `Tracking.LocationListener.OnProviderEnabled` | projects/cellfinder/src/com/codetastrophe/cellfinder/listeners/MyLocationListener.java:268-274 | the display changes as `ProviderToggled` with the "waiting" text says |
| `Tracking.LocationListener.ShowForProvider` | projects/cellfinder/src/com/codetastrophe/cellfinder/listeners/MyLocationListener.java:260-274 | the shared body of the two provider events |
| `Tracking.LocationListener.OnStatusChanged` | projects/cellfinder/src/com/codetastrophe/cellfinder/listeners/MyLocationListener.java:276-296 | the display changes as `StatusChanged` says; a known provider is required under the two handled codes, where the source uses the view without a null check |
| `Tracking.LocationListener.SetSlotText` | projects/cellfinder/src/com/codetastrophe/cellfinder/listeners/MyLocationListener.java:460-468 | only the text of the selected slot's view changes |
| `Tracking.LocationListener.SetAutoCenter` | projects/cellfinder/src/com/codetastrophe/cellfinder/listeners/MyLocationListener.java:310-313 | stores the mode and re-frames the map with it |
| `Tracking.LocationListener.SetAutoZoom` | projects/cellfinder/src/com/codetastrophe/cellfinder/listeners/MyLocationListener.java:315-325 | stores the flag and re-frames the map with it |
| `Tracking.LocationListener.SetLocationFormat` | projects/cellfinder/src/com/codetastrophe/cellfinder/listeners/MyLocationListener.java:327-329 | only the format setting changes |
| `Tracking.LocationListener.SetUnits` | projects/cellfinder/src/com/codetastrophe/cellfinder/listeners/MyLocationListener.java:335-337 | only the unit setting changes |
| `Tracking.LocationListener.SetCompass` | projects/cellfinder/src/com/codetastrophe/cellfinder/listeners/MyLocationListener.java:339-348 | the compass flag and the existence of the compass overlay both follow the argument, so the overlay exists exactly while the compass is on |
| `Tracking.LocationListener.SetDirectQueryMode` | projects/cellfinder/src/com/codetastrophe/cellfinder/listeners/MyLocationListener.java:665-667 | only the direct-query flag changes |
| `Tracking.LocationListener.SetSaveData` | projects/cellfinder/src/com/codetastrophe/cellfinder/listeners/MyLocationListener.java:638-653 | the log changes as `SaveDataSet` says, the flag follows the argument, and a name exists while logging is on |
| `Tracking.LocationListener.ClearBearing` | projects/cellfinder/src/com/codetastrophe/cellfinder/listeners/MyLocationListener.java:350-353 | both bearing views are blank |
| `Tracking.LocationListener.UpdateBearing` | projects/cellfinder/src/com/codetastrophe/cellfinder/listeners/MyLocationListener.java:478-510 | the display changes as `BearingUpdated` says |
| `Tracking.LocationListener.RefreshMap` | projects/cellfinder/src/com/codetastrophe/cellfinder/listeners/MyLocationListener.java:183-184 | the display changes as `Refreshed` says |
| `Tracking.LocationListener.UpdateOverlays` | projects/cellfinder/src/com/codetastrophe/cellfinder/listeners/MyLocationListener.java:512-535 | the list cleared and appended to step by step equals `Rebuilt` for the cached points |
| `Tracking.LocationListener.ZoomAndCenterMap` | projects/cellfinder/src/com/codetastrophe/cellfinder/listeners/MyLocationListener.java:537-592 | the commands sent one by one are the old list followed by `ViewportCommands` for the cached points |
| `Tracking.LocationListener.SaveLocation` | projects/cellfinder/src/com/codetastrophe/cellfinder/listeners/MyLocationListener.java:594-636 | the log changes as `Saved` says |

## Left out

- The conversion of a sample's latitude and longitude to a micro-degree GeoPoint (`getGeoPoint`) is double arithmetic. The point is an input that comes with the sample.
- `bearingTo` and `distanceTo` compute with floating point on the platform. They are opaque functions whose results are already cast to `int`.
- `metersToFeet` and `metersToMiles` use doubles. The distance view records the unit and the metres handed to the conversion, not the converted number.
- The DDM, DDMS and DD formatters (`DecimalFormat` with resource patterns) and the MGRS conversion library are opaque functions. Only the choice of formatter, the hemisphere letters and the separator are modelled.
- Styled strings, resource lookups and the title bar text are not modelled. Text views hold what they show as values such as `Showing(text)` and `Stale(text)`.
- The zoom-control add and remove in `setAutoZoom`, `setSatellite`, and compass enable and disable in `setCompass`, `pause` and `resume` are UI glue.
- The `MyLocationOverlay` object is modelled as the `hasMyLocation` flag, which `setCompass` sets together with the compass flag.
- Writing the CSV line, its timestamp and `%.6f` formatting, the storage directory, and the `synchronized` lock of `saveLocation` are left out as I/O and concurrency. A write is a `LogEntry` appended to `log`, and the storage state is an input. An `IOException` is the `WriteFails` storage state: nothing is appended, but the output file is still created.
- `getSaveDataFilename` reads the clock. Its result is the `freshName` parameter of `SetSaveData`.
- The static `sSaveDataFile` is shared by all listeners in the process. It is modelled as a field of the one listener, and its value from an earlier listener is a constructor parameter.
- Java `int` overflow in the span and midpoint arithmetic is not modelled: micro-degree coordinates are within ±180·10^6, so the sums cannot overflow.
- Once the output file is set it is never reset. After logging is turned off and on again, records keep going to the old file while the fresh name is stored but unused. The model follows the code here (`OutputFileSurvivesReenable`).
