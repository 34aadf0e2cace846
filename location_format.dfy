/** Assembly of the location text (`getNiceLocation`). The numeric formatters
    (degrees-decimal-minutes, degrees-minutes-seconds, decimal degrees and the
    military grid conversion) are opaque inputs; what is modelled is which one is
    chosen and how the hemisphere letters and the separator are put around it. */
module LocationFormat {
  import opened Optional

  const LOCATION_FMT_DDM := 0
  const LOCATION_FMT_DDMS := 1
  const LOCATION_FMT_DD := 2
  const LOCATION_FMT_MGRS := 3

  /** The opaque numeric formatters: each per-coordinate one is given the signed
      coordinate and renders its magnitude; `mgrs` renders the whole position. */
  datatype Formatters = Formatters(
    ddm: real -> string,
    ddms: real -> string,
    dd: real -> string,
    mgrs: (real, real) -> string)

  /** One coordinate in the notation the format code selects; every code other
      than DD and DDM, including an unknown one, falls to the DDMS default. */
  function FormatCoordinate(code: int, f: Formatters, x: real): (t: string)
    ensures code == LOCATION_FMT_DD ==> t == f.dd(x)
    ensures code == LOCATION_FMT_DDM ==> t == f.ddm(x)
    ensures code != LOCATION_FMT_DD && code != LOCATION_FMT_DDM ==> t == f.ddms(x)
  {
    if code == LOCATION_FMT_DD then f.dd(x)
    else if code == LOCATION_FMT_DDM then f.ddm(x)
    else f.ddms(x)
  }

  /** The latitude suffix: a strict `> 0` test, so the equator reads "S". */
  function LatHemisphere(lat: real): (h: char)
    ensures h == 'N' <==> lat > 0.0
    ensures h == 'N' || h == 'S'
  {
    if lat > 0.0 then 'N' else 'S'
  }

  /** The longitude suffix: a strict `> 0` test, so the prime meridian reads "W". */
  function LonHemisphere(lon: real): (h: char)
    ensures h == 'E' <==> lon > 0.0
    ensures h == 'E' || h == 'W'
  {
    if lon > 0.0 then 'E' else 'W'
  }

  /** `getNiceLocation`. For MGRS the grid reference is the whole text: the switch
      falls through from the MGRS case into the DDMS default, but the strings the
      default computes are never appended. Every other code gives
      "<lat><N|S>, <lon><E|W>". */
  function NiceLocation(code: int, f: Formatters, lat: real, lon: real): (s: string)
    ensures code == LOCATION_FMT_MGRS ==> s == f.mgrs(lat, lon)
    ensures code != LOCATION_FMT_MGRS ==> |s| >= 4 && s[|s| - 1] == LonHemisphere(lon)
  {
    if code == LOCATION_FMT_MGRS then f.mgrs(lat, lon)
    else
      FormatCoordinate(code, f, lat) + [LatHemisphere(lat)] + ", "
      + FormatCoordinate(code, f, lon) + [LonHemisphere(lon)]
  }

  /** A format code outside the four known ones reads exactly like DDMS. */
  lemma UnknownFormatReadsAsDdms(code: int, f: Formatters, lat: real, lon: real)
    requires code !in {LOCATION_FMT_DDM, LOCATION_FMT_DDMS, LOCATION_FMT_DD, LOCATION_FMT_MGRS}
    ensures NiceLocation(code, f, lat, lon) == NiceLocation(LOCATION_FMT_DDMS, f, lat, lon)
  {
  }

  /** The pieces of a non-grid location text. */
  datatype Parts = Parts(latText: string, latHemisphere: char, lonText: string, lonHemisphere: char)

  /** Reads a location text back into its pieces, given the length of the
      latitude part; None when the text does not have the ", " separator there. */
  function ParseLocation(s: string, latLength: nat): Option<Parts>
  {
    if |s| >= latLength + 4 && s[latLength + 1..latLength + 3] == ", " then
      Some(Parts(s[..latLength], s[latLength], s[latLength + 3..|s| - 1], s[|s| - 1]))
    else None
  }

  /** Every non-grid location text splits back into the two formatted coordinates
      and their hemisphere letters, so the letters always encode the signs of the
      coordinates, with 0 reading as south and west. */
  lemma NiceLocationParsesBack(code: int, f: Formatters, lat: real, lon: real)
    requires code != LOCATION_FMT_MGRS
    ensures ParseLocation(NiceLocation(code, f, lat, lon), |FormatCoordinate(code, f, lat)|)
      == Some(Parts(FormatCoordinate(code, f, lat), LatHemisphere(lat),
                    FormatCoordinate(code, f, lon), LonHemisphere(lon)))
  {
    var latText, lonText := FormatCoordinate(code, f, lat), FormatCoordinate(code, f, lon);
    var s := NiceLocation(code, f, lat, lon);
    var n := |latText|;
    assert s == latText + [LatHemisphere(lat)] + ", " + lonText + [LonHemisphere(lon)];
    assert s[..n] == latText;
    assert s[n] == LatHemisphere(lat);
    assert s[n + 1..n + 3] == ", ";
    assert s[n + 3..|s| - 1] == lonText;
  }
}
