/** Micro-degree map points, location samples, and the Java `int` arithmetic the
    listener does on micro-degree coordinates. */
module Geo {
  /** A map point in integer micro-degrees (latitude and longitude times 10^6),
      as the map engine's GeoPoint holds it. Two GeoPoints are equal exactly when
      both coordinates are equal. */
  datatype GeoPoint = GeoPoint(latE6: int, lonE6: int)

  /** A location sample from the platform: the provider that produced it, its
      latitude and longitude in degrees, and its micro-degree point. The
      conversion from degrees to micro-degrees is done by the platform side and
      is an input here. */
  datatype Location = Location(provider: string, latitude: real, longitude: real, point: GeoPoint)

  function Max(a: int, b: int): int { if a >= b then a else b }

  function Min(a: int, b: int): int { if a <= b then a else b }

  /** Java's `x / 2` on `int`: the quotient is truncated toward zero, so for a
      negative odd `x` it is one more than Dafny's Euclidean `x / 2`. */
  function HalfTowardZero(x: int): (q: int)
    ensures 0 <= x ==> 0 <= x - 2 * q <= 1
    ensures x < 0 ==> -1 <= x - 2 * q <= 0
  {
    if x >= 0 then x / 2 else -((-x) / 2)
  }

  /** `Math.max(a, b) - Math.min(a, b)`: the extent covered by two coordinates. */
  function Span(a: int, b: int): (r: int)
    ensures r >= 0
    ensures r == a - b || r == b - a
  {
    Max(a, b) - Min(a, b)
  }

  /** `(Math.max(a, b) + Math.min(a, b)) / 2` with Java's truncating division:
      a coordinate between the two, within half a micro-degree of their exact
      mean, and rounded toward zero. */
  function Midpoint(a: int, b: int): (m: int)
    ensures Min(a, b) <= m <= Max(a, b)
    ensures a + b >= 0 ==> 0 <= a + b - 2 * m <= 1
    ensures a + b < 0 ==> -1 <= a + b - 2 * m <= 0
  {
    HalfTowardZero(Max(a, b) + Min(a, b))
  }
}
