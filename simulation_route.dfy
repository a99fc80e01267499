/**
 * Route arithmetic of the simulation engine
 * (ui/react-headunit/src/simulation/SimulationEngine.ts): cumulative segment
 * lengths, the total route length, the segment a covered distance falls in,
 * and linear interpolation inside it. All arithmetic is over reals.
 */
module SimulationRoute {
  import opened Wrappers
  import opened Geo

  /** Distance along the route from its first point to point k. */
  function Cum(dist: DistanceFn, route: seq<Coord>, k: nat): real
    requires k < |route|
  {
    if k == 0 then 0.0 else Cum(dist, route, k - 1) + dist(route[k - 1], route[k])
  }

  /** Sum of the distances between consecutive points; 0 for fewer than two points. */
  function RouteLength(dist: DistanceFn, route: seq<Coord>): real
  {
    if |route| == 0 then 0.0 else Cum(dist, route, |route| - 1)
  }

  /** No segment of the route has zero (or negative) length. */
  ghost predicate SegmentsPositive(dist: DistanceFn, route: seq<Coord>)
  {
    forall k :: 1 <= k < |route| ==> dist(route[k - 1], route[k]) > 0.0
  }

  lemma {:induction false} CumMonotone(dist: DistanceFn, route: seq<Coord>, i: nat, j: nat)
    requires IsDistance(dist)
    requires i <= j < |route|
    ensures 0.0 <= Cum(dist, route, i) <= Cum(dist, route, j)
    decreases j
  {
    if i < j {
      CumMonotone(dist, route, i, j - 1);
    } else if i > 0 {
      CumMonotone(dist, route, i - 1, i - 1);
    }
  }

  /** The route length is non-negative, and positive once there are two
      points and no segment is degenerate. */
  lemma RouteLengthSign(dist: DistanceFn, route: seq<Coord>)
    requires IsDistance(dist)
    ensures RouteLength(dist, route) >= 0.0
    ensures |route| >= 2 && SegmentsPositive(dist, route) ==> RouteLength(dist, route) > 0.0
  {
    if |route| >= 1 {
      CumMonotone(dist, route, |route| - 1, |route| - 1);
    }
    if |route| >= 2 {
      CumMonotone(dist, route, |route| - 2, |route| - 2);
    }
  }

  /** `calculateTotalDistance`: the accumulator loop over consecutive points. */
  method CalculateTotalDistance(dist: DistanceFn, route: seq<Coord>) returns (total: real)
    ensures total == RouteLength(dist, route)
  {
    total := 0.0;
    if |route| == 0 {
      return;
    }
    var i := 1;
    while i < |route|
      invariant 1 <= i <= |route|
      invariant total == Cum(dist, route, i - 1)
    {
      total := total + dist(route[i - 1], route[i]);
      i := i + 1;
    }
  }

  /** The first segment k >= from (from route[k-1] to route[k]) whose
      cumulative end reaches `covered`, if any. */
  function Locate(dist: DistanceFn, route: seq<Coord>, covered: real, from: nat): (r: Option<nat>)
    requires 1 <= from
    ensures r.Some? ==> from <= r.value < |route|
    decreases |route| - from
  {
    if from >= |route| then None
    else if Cum(dist, route, from) >= covered then Some(from)
    else Locate(dist, route, covered, from + 1)
  }

  lemma LocateHere(dist: DistanceFn, route: seq<Coord>, covered: real, from: nat)
    requires 1 <= from < |route| && Cum(dist, route, from) >= covered
    ensures Locate(dist, route, covered, from) == Some(from)
  {
  }

  /** Locate finds exactly the first segment whose cumulative end reaches `covered`. */
  lemma {:induction false} LocateIsFirst(dist: DistanceFn, route: seq<Coord>, covered: real, from: nat, k: nat)
    requires 1 <= from
    ensures Locate(dist, route, covered, from) == Some(k) <==>
      (from <= k < |route| && Cum(dist, route, k) >= covered &&
       forall j :: from <= j < k ==> Cum(dist, route, j) < covered)
    decreases |route| - from
  {
    if from < |route| {
      if Cum(dist, route, from) < covered {
        LocateIsFirst(dist, route, covered, from + 1, k);
        if from <= k < |route| && Cum(dist, route, k) >= covered {
          assert k != from;
        }
      } else {
        LocateHere(dist, route, covered, from);
      }
    }
  }

  /** Locate finds nothing exactly when `covered` is beyond every cumulative end. */
  lemma {:induction false} LocateNone(dist: DistanceFn, route: seq<Coord>, covered: real, from: nat)
    requires 1 <= from
    ensures Locate(dist, route, covered, from).None? <==>
      forall j :: from <= j < |route| ==> Cum(dist, route, j) < covered
    decreases |route| - from
  {
    if from < |route| {
      if Cum(dist, route, from) < covered {
        LocateNone(dist, route, covered, from + 1);
      } else {
        LocateHere(dist, route, covered, from);
      }
    }
  }

  /** A covered distance within the route's length always lies in some segment. */
  lemma LocateWithinRoute(dist: DistanceFn, route: seq<Coord>, covered: real)
    requires |route| >= 2 && covered <= RouteLength(dist, route)
    ensures Locate(dist, route, covered, 1).Some?
  {
    LocateNone(dist, route, covered, 1);
    assert RouteLength(dist, route) == Cum(dist, route, |route| - 1);
    assert !(forall j :: 1 <= j < |route| ==> Cum(dist, route, j) < covered);
  }

  /** How far into segment k the covered distance lies, as a fraction of the
      segment's length (unclamped). */
  function SegmentFraction(dist: DistanceFn, route: seq<Coord>, covered: real, k: nat): real
    requires 1 <= k < |route| && dist(route[k - 1], route[k]) > 0.0
  {
    (covered - Cum(dist, route, k - 1)) / dist(route[k - 1], route[k])
  }

  /** The position after moving to `covered`: interpolated inside the first
      segment that reaches it, or `prev` when no segment does. */
  function PositionAfter(dist: DistanceFn, route: seq<Coord>, covered: real, prev: Option<Coord>): Option<Coord>
    requires SegmentsPositive(dist, route)
  {
    match Locate(dist, route, covered, 1)
    case Some(k) => Some(Interpolate(route[k - 1], route[k], Min(1.0, SegmentFraction(dist, route, covered, k))))
    case None => prev
  }

  lemma FractionBounds(x: real, s: real)
    requires 0.0 <= x <= s && s > 0.0
    ensures 0.0 <= x / s <= 1.0
  {
    assert x / s * s == x;
  }

  /**
   * For a non-negative covered distance, the segment found is entered with a
   * fraction in [0, 1], so the position lies between the segment's ends;
   * beyond the last cumulative end the position is left as it was.
   */
  lemma PositionAfterOnSegment(dist: DistanceFn, route: seq<Coord>, covered: real, prev: Option<Coord>)
    requires IsDistance(dist) && SegmentsPositive(dist, route)
    requires covered >= 0.0
    ensures Locate(dist, route, covered, 1).None? ==> PositionAfter(dist, route, covered, prev) == prev
    ensures Locate(dist, route, covered, 1).Some? ==>
      var k := Locate(dist, route, covered, 1).value;
      0.0 <= SegmentFraction(dist, route, covered, k) <= 1.0 &&
      PositionAfter(dist, route, covered, prev) ==
        Some(Interpolate(route[k - 1], route[k], SegmentFraction(dist, route, covered, k)))
  {
    var r := Locate(dist, route, covered, 1);
    if r.Some? {
      var k := r.value;
      LocateIsFirst(dist, route, covered, 1, k);
      if k > 1 {
        assert Cum(dist, route, k - 1) < covered;
      }
      FractionBounds(covered - Cum(dist, route, k - 1), dist(route[k - 1], route[k]));
    }
  }

  /** The position only depends on `prev` when the route has been run past. */
  lemma PositionAfterWithinRoute(dist: DistanceFn, route: seq<Coord>, covered: real, p: Option<Coord>, q: Option<Coord>)
    requires SegmentsPositive(dist, route)
    requires |route| >= 2 && covered <= RouteLength(dist, route)
    ensures PositionAfter(dist, route, covered, p) == PositionAfter(dist, route, covered, q)
    ensures PositionAfter(dist, route, covered, p).Some?
  {
    LocateWithinRoute(dist, route, covered);
  }

  /** At covered distance 0 the vehicle stands on the route's first point. */
  lemma PositionAtStart(dist: DistanceFn, route: seq<Coord>, prev: Option<Coord>)
    requires IsDistance(dist) && SegmentsPositive(dist, route) && |route| >= 2
    ensures PositionAfter(dist, route, 0.0, prev) == Some(route[0])
  {
    assert Cum(dist, route, 1) >= 0.0;
    assert Locate(dist, route, 0.0, 1) == Some(1);
  }

  /** The segment search loop of the per-frame tick. */
  method PositionOnRoute(dist: DistanceFn, route: seq<Coord>, covered: real, prev: Option<Coord>)
    returns (pos: Option<Coord>)
    requires SegmentsPositive(dist, route)
    ensures pos == PositionAfter(dist, route, covered, prev)
  {
    pos := prev;
    if |route| == 0 {
      return;
    }
    var accumulated := 0.0;
    var i := 1;
    while i < |route|
      invariant 1 <= i <= |route|
      invariant accumulated == Cum(dist, route, i - 1)
      invariant Locate(dist, route, covered, i) == Locate(dist, route, covered, 1)
    {
      var segmentDistance := dist(route[i - 1], route[i]);
      if accumulated + segmentDistance >= covered {
        pos := Some(Interpolate(route[i - 1], route[i], Min(1.0, (covered - accumulated) / segmentDistance)));
        return;
      }
      accumulated := accumulated + segmentDistance;
      i := i + 1;
    }
  }
}
