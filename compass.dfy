/** The 8-point compass label and the displayed bearing of the cell relative to
    the GPS fix. Bearings reach this code as whole degrees (the listener casts the
    platform's float bearing to `int` first). On a whole-degree bearing `n` the
    quotient `(n + 22.5) / 45` is `(2n + 45) / 90` with an odd numerator, so it is
    never within float rounding error of a whole number, and truncating it gives
    the integer quotient `(2n + 45) / 90` used here. */
module Compass {
  /** The label table: index 8 repeats "N" so that bearings just below 360 wrap. */
  const Dirs: seq<string> := ["N", "NE", "E", "SE", "S", "SW", "W", "NW", "N"]

  /** A bearing moved into [0, 360) by adding one turn when it is negative; this is
      both the value shown in the bearing text and the first step of the label. */
  function NormalizeBearing(b: int): (n: int)
    ensures -180 <= b <= 180 ==> 0 <= n < 360
    ensures (n - b) % 360 == 0
    ensures 0 <= b < 360 ==> n == b
  {
    if b < 0 then b + 360 else b
  }

  /** The index into `Dirs` of an in-range bearing: the number of whole 45-degree
      sectors, counted from -22.5 degrees, that lie below it. */
  function DirectionIndex(b: int): (k: int)
    requires -180 <= b <= 180
    ensures 0 <= k < |Dirs|
    ensures 90 * k <= 2 * NormalizeBearing(b) + 45 < 90 * k + 90
  {
    (2 * NormalizeBearing(b) + 45) / 90
  }

  /** `getNiceDirection`: "ERROR" outside [-180, 180], otherwise one of the eight
      compass points. */
  function NiceDirection(b: int): (dir: string)
    ensures dir == "ERROR" <==> b < -180 || b > 180
    ensures -180 <= b <= 180 ==> dir in Dirs[..8]
  {
    if b < -180 || b > 180 then "ERROR"
    else
      var k := DirectionIndex(b);
      assert Dirs[k] == Dirs[..8][k % 8];
      Dirs[k]
  }

  /** An independent statement of the compass rose in whole degrees: each point
      covers the bearings that round to it, 45 degrees apart. */
  function CompassPoint(b: int): string
    requires -180 <= b <= 180
  {
    if -22 <= b <= 22 then "N"
    else if 23 <= b <= 67 then "NE"
    else if 68 <= b <= 112 then "E"
    else if 113 <= b <= 157 then "SE"
    else if b >= 158 || b <= -158 then "S"
    else if -157 <= b <= -113 then "SW"
    else if -112 <= b <= -68 then "W"
    else "NW"
  }

  /** The label agrees with the compass rose on every in-range bearing; -1 reaches
      "N" through the repeated entry at index 8. */
  lemma NiceDirectionIsCompassPoint(b: int)
    requires -180 <= b <= 180
    ensures NiceDirection(b) == CompassPoint(b)
  {
    var k := DirectionIndex(b);
    assert Dirs[k] == NiceDirection(b);
  }

  /** The distance in degrees between two directions in [0, 360), going the
      shorter way round. */
  function CircularDistance(a: int, c: int): (d: int)
    requires 0 <= a < 360 && 0 <= c < 360
    ensures 0 <= d <= 180
  {
    var diff := if a >= c then a - c else c - a;
    if diff <= 180 then diff else 360 - diff
  }

  /** The distance from a normalised bearing to compass point `j` (0 is north,
      counted clockwise in 45-degree steps). */
  function DistanceToPoint(n: int, j: int): int
    requires 0 <= n < 360 && 0 <= j < 8
  {
    CircularDistance(n, 45 * j)
  }

  /** The chosen label is the nearest of the eight compass points: at most 22
      degrees away and strictly nearer than every other point (bearings are whole
      degrees, so no bearing is equally near two points). */
  lemma NiceDirectionIsNearestPoint(b: int)
    requires -180 <= b <= 180
    ensures DistanceToPoint(NormalizeBearing(b), DirectionIndex(b) % 8) <= 22
    ensures forall j :: 0 <= j < 8 && j != DirectionIndex(b) % 8 ==>
      DistanceToPoint(NormalizeBearing(b), DirectionIndex(b) % 8) < DistanceToPoint(NormalizeBearing(b), j)
    ensures NiceDirection(b) == Dirs[DirectionIndex(b) % 8]
  {
    var n, k := NormalizeBearing(b), DirectionIndex(b) % 8;
    assert DistanceToPoint(n, k) <= 22;
    forall j | 0 <= j < 8 && j != k
      ensures DistanceToPoint(n, k) < DistanceToPoint(n, j)
    {
      assert DistanceToPoint(n, j) >= 23;
    }
  }
}
