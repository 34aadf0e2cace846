/** The viewport policy of `zoomAndCenterMap`: from the cached fine (GPS) and coarse
    (network) points, the auto-centre mode and the auto-zoom flag, the commands
    sent to the map controller, in order. The map engine is an input: the zoom
    level it settles on after fitting a span, and its maximum zoom level. */
module Viewport {
  import opened Optional
  import opened Geo

  const AUTO_CENTER_GPS := 0
  const AUTO_CENTER_NETWORK := 1
  const AUTO_CENTER_MIDPOINT := 2
  const AUTO_CENTER_NONE := 3

  /** A call on the map controller: `zoomToSpan`, `setZoom` or `setCenter`. */
  datatype MapCommand =
    | ZoomToSpan(latSpan: int, lonSpan: int)
    | SetZoom(level: int)
    | SetCenter(center: GeoPoint)

  /** What the map view reports: the zoom level it settles on after
      `zoomToSpan(latSpan, lonSpan)`, and its maximum zoom level. */
  datatype MapEngine = MapEngine(zoomAfterFit: (int, int) -> int, maxZoom: int)

  /** The centre of the box spanned by two points, coordinate by coordinate. */
  function MidpointOf(p: GeoPoint, q: GeoPoint): GeoPoint
  {
    GeoPoint(Midpoint(p.latE6, q.latE6), Midpoint(p.lonE6, q.lonE6))
  }

  /** `c` lies in the box spanned by `p` and `q`. */
  predicate InBox(c: GeoPoint, p: GeoPoint, q: GeoPoint)
  {
    && Min(p.latE6, q.latE6) <= c.latE6 <= Max(p.latE6, q.latE6)
    && Min(p.lonE6, q.lonE6) <= c.lonE6 <= Max(p.lonE6, q.lonE6)
  }

  /** A centre the policy may choose: one of the cached points, or, when both are
      present, a point of the box they span. */
  predicate CentersOnFix(c: GeoPoint, fine: Option<GeoPoint>, coarse: Option<GeoPoint>)
  {
    || fine == Some(c)
    || coarse == Some(c)
    || (fine.Some? && coarse.Some? && InBox(c, fine.value, coarse.value))
  }

  /** Auto-zoom with two points: fit the span, then step out one level unless the
      view is centred on the midpoint. */
  function FitBoth(fine: GeoPoint, coarse: GeoPoint, autoCenter: int, engine: MapEngine): (r: seq<MapCommand>)
    ensures 1 <= |r| <= 2 && r[0].ZoomToSpan? && r[0].latSpan >= 0 && r[0].lonSpan >= 0
    ensures forall c <- r[1..] :: c.SetZoom?
  {
    var latSpan := Span(fine.latE6, coarse.latE6);
    var lonSpan := Span(fine.lonE6, coarse.lonE6);
    [ZoomToSpan(latSpan, lonSpan)]
    + if autoCenter != AUTO_CENTER_MIDPOINT then [SetZoom(engine.zoomAfterFit(latSpan, lonSpan) - 1)] else []
  }

  /** Centring with two points; a mode other than the four known ones centres nowhere. */
  function CenterBoth(fine: GeoPoint, coarse: GeoPoint, autoCenter: int): (r: seq<MapCommand>)
    ensures |r| <= 1
    ensures forall c <- r :: c.SetCenter? && InBox(c.center, fine, coarse)
  {
    if autoCenter == AUTO_CENTER_GPS then [SetCenter(fine)]
    else if autoCenter == AUTO_CENTER_NETWORK then [SetCenter(coarse)]
    else if autoCenter == AUTO_CENTER_MIDPOINT then [SetCenter(MidpointOf(fine, coarse))]
    else []
  }

  /** With one point: centre on it under every mode but NONE (even a mode that
      names the other provider), then zoom to two levels below the maximum. */
  function FrameOne(p: GeoPoint, autoCenter: int, autoZoom: bool, engine: MapEngine): (r: seq<MapCommand>)
    ensures |r| <= 2
    ensures forall c <- r :: c == SetCenter(p) || c == SetZoom(engine.maxZoom - 2)
  {
    (if autoCenter != AUTO_CENTER_NONE then [SetCenter(p)] else [])
    + if autoZoom then [SetZoom(engine.maxZoom - 2)] else []
  }

  /** `zoomAndCenterMap`: the commands issued for the current cached points. */
  function ViewportCommands(fine: Option<GeoPoint>, coarse: Option<GeoPoint>, autoCenter: int,
                            autoZoom: bool, engine: MapEngine): (r: seq<MapCommand>)
    ensures |r| <= 3
    ensures fine.None? && coarse.None? ==> r == []
  {
    if fine.Some? && coarse.Some? then
      (if autoZoom then FitBoth(fine.value, coarse.value, autoCenter, engine) else [])
      + CenterBoth(fine.value, coarse.value, autoCenter)
    else if fine.Some? then FrameOne(fine.value, autoCenter, autoZoom, engine)
    else if coarse.Some? then FrameOne(coarse.value, autoCenter, autoZoom, engine)
    else []
  }

  /** What every command list respects: no points, no commands; at most three
      commands; without auto-zoom only centring; with mode NONE no centring; every
      centre is a cached point or lies in the box of the two; spans are never
      negative. */
  lemma ViewportCommandsBounds(fine: Option<GeoPoint>, coarse: Option<GeoPoint>, autoCenter: int,
                               autoZoom: bool, engine: MapEngine)
    ensures var r := ViewportCommands(fine, coarse, autoCenter, autoZoom, engine);
      && (fine.None? && coarse.None? ==> r == [])
      && |r| <= 3
      && (!autoZoom ==> forall c <- r :: c.SetCenter?)
      && (autoCenter == AUTO_CENTER_NONE ==> forall c <- r :: !c.SetCenter?)
      && (forall c <- r :: c.SetCenter? ==> CentersOnFix(c.center, fine, coarse))
      && (forall c <- r :: c.ZoomToSpan? ==> c.latSpan >= 0 && c.lonSpan >= 0)
  {
  }

  /** Two points with auto-zoom: the first command fits both spans, and a
      `setZoom(current - 1)` follows exactly when the mode is not MIDPOINT. */
  lemma DualFixZoom(fine: GeoPoint, coarse: GeoPoint, autoCenter: int, engine: MapEngine)
    ensures var r := ViewportCommands(Some(fine), Some(coarse), autoCenter, true, engine);
      var latSpan, lonSpan := Span(fine.latE6, coarse.latE6), Span(fine.lonE6, coarse.lonE6);
      && |r| >= 1
      && r[0] == ZoomToSpan(latSpan, lonSpan)
      && (autoCenter != AUTO_CENTER_MIDPOINT ==> |r| >= 2 && r[1] == SetZoom(engine.zoomAfterFit(latSpan, lonSpan) - 1))
      && (autoCenter == AUTO_CENTER_MIDPOINT ==> forall c <- r :: !c.SetZoom?)
  {
  }

  /** Two points: the last command centres as the mode says (GPS point, network
      point, or the midpoint), and any other mode issues no centring at all. */
  lemma DualFixCenter(fine: GeoPoint, coarse: GeoPoint, autoCenter: int, autoZoom: bool, engine: MapEngine)
    ensures var r := ViewportCommands(Some(fine), Some(coarse), autoCenter, autoZoom, engine);
      && (autoCenter == AUTO_CENTER_GPS ==> |r| >= 1 && r[|r| - 1] == SetCenter(fine))
      && (autoCenter == AUTO_CENTER_NETWORK ==> |r| >= 1 && r[|r| - 1] == SetCenter(coarse))
      && (autoCenter == AUTO_CENTER_MIDPOINT ==>
            |r| >= 1 && r[|r| - 1] == SetCenter(MidpointOf(fine, coarse)) && InBox(MidpointOf(fine, coarse), fine, coarse))
      && (autoCenter !in {AUTO_CENTER_GPS, AUTO_CENTER_NETWORK, AUTO_CENTER_MIDPOINT} ==> forall c <- r :: !c.SetCenter?)
  {
  }

  /** One point only: it is centred under every mode but NONE, and auto-zoom sets
      the maximum level minus two. */
  lemma SingleFixFraming(fine: Option<GeoPoint>, coarse: Option<GeoPoint>, autoCenter: int, autoZoom: bool, engine: MapEngine)
    requires fine.Some? != coarse.Some?
    ensures var p := if fine.Some? then fine.value else coarse.value;
      ViewportCommands(fine, coarse, autoCenter, autoZoom, engine)
        == (if autoCenter != AUTO_CENTER_NONE then [SetCenter(p)] else [])
           + (if autoZoom then [SetZoom(engine.maxZoom - 2)] else [])
  {
  }
}
