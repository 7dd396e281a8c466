/** Coordinates, the great-circle distance as an uninterpreted parameter, and
    the JavaScript rounding the routing service applies to its results. */
module Geo {

  /** A latitude/longitude pair in decimal degrees (`RoutePoint`, or the
      `[number, number]` tuples of the routing service). */
  datatype Point = Point(lat: real, lng: real)

  /** The haversine `calculateDistance`. Its trigonometry is not modelled:
      every operation takes the distance function as a parameter. */
  type DistanceFn = (Point, Point) -> real

  /** `Math.sin`, likewise a parameter. */
  type SineFn = real -> real

  /** The successive results of `Math.random()`: call number k returns rand(k). */
  type RandomFn = nat -> real

  /** The only facts the haversine formula gives without trigonometry:
      never negative, zero between equal points, symmetric. */
  ghost predicate IsDistance(dist: DistanceFn)
  {
    && (forall p, q :: dist(p, q) >= 0.0)
    && (forall p :: dist(p, p) == 0.0)
    && (forall p, q :: dist(p, q) == dist(q, p))
  }

  /** Every draw lies in [0, 1), as `Math.random` promises. */
  ghost predicate IsUnitStream(rand: RandomFn)
  {
    forall k :: 0.0 <= rand(k) < 1.0
  }

  /** `Math.PI` as a double. */
  const PI: real := 3.141592653589793

  /** `Math.round`: halves go up, also for negative numbers. */
  function Round(x: real): (n: int)
    ensures x - 0.5 < n as real <= x + 0.5
  {
    (x + 0.5).Floor
  }

  /** `Math.round` never decreases when its argument grows. */
  lemma RoundMonotone(x: real, y: real)
    requires x <= y
    ensures Round(x) <= Round(y)
  {
  }

  /** `Math.round` of a non-negative number is non-negative. */
  lemma RoundNonNegative(x: real)
    requires x >= 0.0
    ensures Round(x) >= 0
  {
    RoundMonotone(0.0, x);
  }

  /** The arithmetic midpoint of two points, as `findIntermediateCities` takes it. */
  function Midpoint(p: Point, q: Point): (m: Point)
    ensures m.lat - p.lat == q.lat - m.lat && m.lng - p.lng == q.lng - m.lng
  {
    Point((p.lat + q.lat) / 2.0, (p.lng + q.lng) / 2.0)
  }
}
