/** The map's overlay list as `UpdateOverlays` rebuilds it: the connecting line and
    the GPS reticle (only when a fine provider exists), the cell marker, and the
    compass overlay (only when one exists and the compass is on). Each overlay
    carries the positions it was last given. */
module Overlays {
  import opened Optional
  import opened Geo

  datatype Overlay =
    | Line(fine: Option<GeoPoint>, coarse: Option<GeoPoint>)
    | FineMarker(at: Option<GeoPoint>)
    | CoarseMarker(at: Option<GeoPoint>)
    | MyLocation

  /** The overlay list after a rebuild. */
  function Rebuilt(hasFineProvider: bool, fine: Option<GeoPoint>, coarse: Option<GeoPoint>,
                   hasMyLocation: bool, compass: bool): (r: seq<Overlay>)
    ensures CoarseMarker(coarse) in r
    ensures 1 <= |r| <= 4
  {
    (if hasFineProvider then [Line(fine, coarse), FineMarker(fine)] else [])
    + [CoarseMarker(coarse)]
    + (if hasMyLocation && compass then [MyLocation] else [])
  }

  /** The cell marker is always there; the line and the reticle are there exactly
      when a fine provider exists and come first, line before reticle; the compass
      overlay is there exactly when it exists and the compass is on, and comes
      last, right after the cell marker. */
  lemma RebuiltShape(hasFineProvider: bool, fine: Option<GeoPoint>, coarse: Option<GeoPoint>,
                     hasMyLocation: bool, compass: bool)
    ensures var r := Rebuilt(hasFineProvider, fine, coarse, hasMyLocation, compass);
      && CoarseMarker(coarse) in r
      && (Line(fine, coarse) in r <==> hasFineProvider)
      && (FineMarker(fine) in r <==> hasFineProvider)
      && (MyLocation in r <==> hasMyLocation && compass)
      && |r| == (if hasFineProvider then 2 else 0) + 1 + (if hasMyLocation && compass then 1 else 0)
      && (hasFineProvider ==> r[0] == Line(fine, coarse) && r[1] == FineMarker(fine))
      && (hasMyLocation && compass ==> r[|r| - 1] == MyLocation && r[|r| - 2] == CoarseMarker(coarse))
  {
  }
}
