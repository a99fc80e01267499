/**
 * Coordinates and the great-circle distance both components use.
 *
 * The haversine formula (sin, cos, atan2, sqrt on floating point) is not
 * modelled: every operation that needs it takes the distance as a function
 * parameter and relies only on the two facts the formula guarantees, that
 * it is never negative and that it is zero between a point and itself.
 */
module Geo {

  /** A coordinate pair. The client orders it [lng, lat], the routing service
      [lat, lon]; the model treats it as an opaque pair of reals. */
  datatype Coord = Coord(first: real, second: real)

  /** The haversine distance in km, supplied by the caller. */
  type DistanceFn = (Coord, Coord) -> real

  /** What the haversine formula guarantees and the model relies on. */
  ghost predicate IsDistance(dist: DistanceFn)
  {
    (forall a, b :: dist(a, b) >= 0.0) && (forall a :: dist(a, a) == 0.0)
  }

  function Min(a: real, b: real): real { if a <= b then a else b }
  function Max(a: real, b: real): real { if a >= b then a else b }

  /** `interpolate`: the point a fraction t of the way from a to b. */
  function Interpolate(a: Coord, b: Coord, t: real): (p: Coord)
    ensures t == 0.0 ==> p == a
    ensures t == 1.0 ==> p == b
    ensures 0.0 <= t <= 1.0 ==> Between(a.first, b.first, p.first) && Between(a.second, b.second, p.second)
  {
    LerpBetween(a.first, b.first, t);
    LerpBetween(a.second, b.second, t);
    Coord(a.first + (b.first - a.first) * t, a.second + (b.second - a.second) * t)
  }

  predicate Between(x: real, y: real, z: real)
  {
    Min(x, y) <= z <= Max(x, y)
  }

  lemma LerpBetween(x: real, y: real, t: real)
    ensures 0.0 <= t <= 1.0 ==> Between(x, y, x + (y - x) * t)
  {
    if 0.0 <= t <= 1.0 {
      if x <= y {
        ScaleBounds(y - x, t);
      } else {
        ScaleBounds(x - y, t);
        assert (y - x) * t == -((x - y) * t);
      }
    }
  }

  lemma ScaleBounds(a: real, t: real)
    requires a >= 0.0 && 0.0 <= t <= 1.0
    ensures 0.0 <= a * t <= a
  {
    assert a * t <= a * 1.0 by { ScaleMonotone(t, 1.0, a); }
    assert 0.0 * a <= t * a by { ScaleMonotone(0.0, t, a); }
  }

  lemma ScaleMonotone(a: real, b: real, c: real)
    requires a <= b && c >= 0.0
    ensures a * c <= b * c
  {
  }
}
