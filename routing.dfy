/** The route synthesiser of `routingService.ts`: nearest-city resolution,
    corridor choice, densification, smoothing, distance, duration and the
    instruction template. Each loop of the source is a method proved equal to
    a specification function; the lemmas state what those functions promise. */
module Routing {
  import opened Geo
  import opened Wrappers
  import opened HighwayNetwork
  import opened CityNames
  import Decimal

  /** `RouteData`: what `getRoute` resolves to. */
  datatype RouteData = RouteData(
    coordinates: seq<Point>,
    distance: int,
    duration: int,
    instructions: seq<string>)

  /** A JavaScript number that may still be `Infinity`, the initial minimum
      of `findCityByCoords`. */
  datatype Bound = Finite(value: real) | Infinity

  predicate Below(d: real, b: Bound)
  {
    b.Infinity? || d < b.value
  }

  // ---------------------------------------------------------------------
  // Nearest city

  /** The position `findCityByCoords` settles on after scanning the first n
      cities: the nearest one, the earliest of equally near ones. */
  ghost function NearestIn(p: Point, dist: DistanceFn, n: nat): (k: nat)
    requires 1 <= n <= |Network|
    ensures k < n
    ensures forall j :: 0 <= j < n ==> dist(p, Network[k].coords) <= dist(p, Network[j].coords)
    ensures forall j :: 0 <= j < k ==> dist(p, Network[j].coords) > dist(p, Network[k].coords)
  {
    if n == 1 then 0
    else
      var k := NearestIn(p, dist, n - 1);
      if dist(p, Network[n - 1].coords) < dist(p, Network[k].coords) then n - 1 else k
  }

  ghost function NearestIndex(p: Point, dist: DistanceFn): nat
  {
    NearestIn(p, dist, |Network|)
  }

  ghost function NearestCity(p: Point, dist: DistanceFn): string
  {
    Network[NearestIn(p, dist, |Network|)].name
  }

  /** The city `findCityByCoords` picks is at least as near as every other,
      and strictly nearer than every city listed before it. */
  lemma NearestCityIsNearest(p: Point, dist: DistanceFn)
    ensures NearestCity(p, dist) in NetworkNames
    ensures exists k :: (0 <= k < |Network| && NearestCity(p, dist) == Network[k].name
      && (forall j :: 0 <= j < |Network| ==> dist(p, Network[k].coords) <= dist(p, Network[j].coords))
      && (forall j :: 0 <= j < k ==> dist(p, Network[j].coords) > dist(p, Network[k].coords)))
  {
    var k := NearestIndex(p, dist);
    assert NetworkNames[k] == Network[k].name;
  }

  /** `findCityByCoords`: a scan of the table keeping the nearest city so far. */
  method FindCityByCoords(coords: Point, dist: DistanceFn) returns (city: string)
    ensures city == NearestCity(coords, dist)
  {
    var closestCity := Mumbai;
    var minDistance := Infinity;
    for i := 0 to |Network|
      invariant i == 0 ==> minDistance == Infinity
      invariant i > 0 ==> var k := NearestIn(coords, dist, i);
        closestCity == Network[k].name && minDistance == Finite(dist(coords, Network[k].coords))
    {
      var distance := dist(coords, Network[i].coords);
      if Below(distance, minDistance) {
        minDistance := Finite(distance);
        closestCity := Network[i].name;
      }
    }
    city := closestCity;
  }

  /** The table's own coordinates resolve to their own city when the table
      cities are a positive distance apart. */
  lemma NearestOfNetworkCity(i: nat, dist: DistanceFn)
    requires i < |Network|
    requires IsDistance(dist) && CitiesApart(dist)
    ensures NearestIndex(Network[i].coords, dist) == i
    ensures NearestCity(Network[i].coords, dist) == Network[i].name
  {
    var p := Network[i].coords;
    var k := NearestIndex(p, dist);
    assert dist(p, Network[k].coords) <= dist(p, p) == 0.0;
  }

  // ---------------------------------------------------------------------
  // Corridor choice

  /** `slice().reverse()`: a reversed copy. */
  function Reverse(s: seq<Point>): (r: seq<Point>)
    ensures |r| == |s|
    ensures forall i :: 0 <= i < |s| ==> r[i] == s[|s| - 1 - i]
  {
    if s == [] then [] else [s[|s| - 1]] + Reverse(s[..|s| - 1])
  }

  lemma ReverseReverse(s: seq<Point>)
    ensures Reverse(Reverse(s)) == s
  {
  }

  /** The predefined part of `generateHighwayRoute`'s lookup chain: the
      forward corridor, else a reversed copy of the backward one. */
  function PredefinedRoute(originCity: string, destCity: string): (r: Option<seq<Point>>)
    ensures r.Some? <==> RouteKey(originCity, destCity) in Junctions || RouteKey(destCity, originCity) in Junctions
    ensures r.Some? ==> |r.value| >= 5
  {
    var routeKey := RouteKey(originCity, destCity);
    var reverseRouteKey := RouteKey(destCity, originCity);
    if routeKey in Junctions then Some(Junctions[routeKey])
    else if reverseRouteKey in Junctions then Some(Reverse(Junctions[reverseRouteKey]))
    else None
  }

  /** The control points `generateHighwayRoute` densifies. */
  ghost function ControlRoute(start: Point, end: Point, originCity: string, destCity: string, dist: DistanceFn)
    : (route: seq<Point>)
    ensures |route| >= 2
    ensures PredefinedRoute(originCity, destCity).None? ==> route[0] == start && route[|route| - 1] == end
  {
    match PredefinedRoute(originCity, destCity)
    case Some(r) => r
    case None => IntelligentRouteShape(start, end, dist); IntelligentRoute(start, end, dist)
  }

  /** Between two cities of the table, the chosen corridor is the stored one,
      or its reversal, or the synthesised one, and the predefined ones join
      the two cities' coordinates. */
  lemma ControlRouteCases(start: Point, end: Point, a: string, b: string, dist: DistanceFn)
    requires a in NetworkNames && b in NetworkNames
    ensures var r := ControlRoute(start, end, a, b, dist);
      && |r| >= 2
      && (RouteKey(a, b) in Junctions ==> r == Junctions[RouteKey(a, b)])
      && (RouteKey(a, b) !in Junctions && RouteKey(b, a) in Junctions ==> r == Reverse(Junctions[RouteKey(b, a)]))
      && (RouteKey(a, b) !in Junctions && RouteKey(b, a) !in Junctions ==> r == IntelligentRoute(start, end, dist))
      && (RouteKey(a, b) in Junctions || RouteKey(b, a) in Junctions ==>
            r[0] == LookupCity(a).value && r[|r| - 1] == LookupCity(b).value)
  {
    NamesHaveNoDash(a);
    NamesHaveNoDash(b);
    var r := ControlRoute(start, end, a, b, dist);
    if RouteKey(a, b) in Junctions {
      CorridorEndpoints(a, b);
    } else if RouteKey(b, a) in Junctions {
      CorridorEndpoints(b, a);
    } else {
      IntelligentRouteShape(start, end, dist);
    }
  }

  /** Each predefined corridor is stored in one direction only, so asking
      for the opposite direction traverses the same control points backwards. */
  lemma CorridorSymmetry(start: Point, end: Point, a: string, b: string, dist: DistanceFn)
    requires NoDash(a) && NoDash(b)
    requires RouteKey(a, b) in Junctions
    ensures ControlRoute(start, end, a, b, dist) == Junctions[RouteKey(a, b)]
    ensures ControlRoute(end, start, b, a, dist) == Reverse(ControlRoute(start, end, a, b, dist))
  {
    if RouteKey(b, a) in Junctions {
      assert false;
    }
  }

  /** No corridor is stored from a city to itself. */
  lemma NoSelfCorridor(a: string)
    ensures RouteKey(a, a) !in Junctions
  {
    if RouteKey(a, a) in Junctions {
      assert false;
    }
  }

  // ---------------------------------------------------------------------
  // Intermediate cities

  /** `isOnRoute`: the detour through the point is under 1.2 times the
      direct distance. */
  predicate IsOnRoute(start: Point, end: Point, point: Point, dist: DistanceFn)
  {
    dist(start, point) + dist(point, end) < dist(start, end) * 1.2
  }

  /** The test `findIntermediateCities` applies to each city. */
  predicate Qualifies(start: Point, end: Point, coords: Point, dist: DistanceFn)
  {
    dist(Midpoint(start, end), coords) < dist(start, end) * 0.3 && IsOnRoute(start, end, coords, dist)
  }

  /** The detour test does not depend on the direction of travel, and an
      end of the trip passes it exactly when the two ends are apart. */
  lemma IsOnRouteSymmetric(start: Point, end: Point, point: Point, dist: DistanceFn)
    requires IsDistance(dist)
    ensures IsOnRoute(start, end, point, dist) <==> IsOnRoute(end, start, point, dist)
    ensures IsOnRoute(start, end, start, dist) <==> dist(start, end) > 0.0
  {
  }

  /** Neither test depends on the direction of travel: the midpoint is the
      same both ways. */
  lemma QualifiesSymmetric(start: Point, end: Point, coords: Point, dist: DistanceFn)
    requires IsDistance(dist)
    ensures Qualifies(start, end, coords, dist) <==> Qualifies(end, start, coords, dist)
  {
    assert Midpoint(start, end) == Midpoint(end, start);
  }

  /** The names among the first n cities that pass the test, in table order. */
  function QualifyingIn(start: Point, end: Point, dist: DistanceFn, n: nat): (names: seq<string>)
    requires n <= |Network|
    ensures |names| <= n
  {
    if n == 0 then []
    else
      QualifyingIn(start, end, dist, n - 1)
        + (if Qualifies(start, end, Network[n - 1].coords, dist) then [Network[n - 1].name] else [])
  }

  /** What `findIntermediateCities` returns: the first two qualifying cities. */
  function IntermediateCities(start: Point, end: Point, dist: DistanceFn): (names: seq<string>)
    ensures |names| <= 2
  {
    var cities := QualifyingIn(start, end, dist, |Network|);
    cities[..if |cities| < 2 then |cities| else 2]
  }

  /** Every name the filter keeps is a city of the table that passes the test. */
  lemma {:induction false} QualifyingSound(start: Point, end: Point, dist: DistanceFn, n: nat)
    requires n <= |Network|
    ensures forall x :: x in QualifyingIn(start, end, dist, n) ==>
      exists i :: 0 <= i < n && Network[i].name == x && Qualifies(start, end, Network[i].coords, dist)
  {
    if n > 0 {
      QualifyingSound(start, end, dist, n - 1);
    }
  }

  /** Every city that passes the test is kept by the filter. */
  lemma {:induction false} QualifyingComplete(start: Point, end: Point, dist: DistanceFn, n: nat)
    requires n <= |Network|
    ensures forall i :: 0 <= i < n && Qualifies(start, end, Network[i].coords, dist) ==>
      Network[i].name in QualifyingIn(start, end, dist, n)
  {
    if n > 0 {
      QualifyingComplete(start, end, dist, n - 1);
    }
  }

  /** The names appear in the order of their table positions. */
  ghost predicate InTableOrder(names: seq<string>)
  {
    forall a, b, i, j :: (0 <= a < b < |names| && 0 <= i < |Network| && 0 <= j < |Network|
      && Network[i].name == names[a] && Network[j].name == names[b]) ==> i < j
  }

  /** The filter keeps only names of the first n cities. */
  lemma {:induction false} QualifyingBelow(start: Point, end: Point, dist: DistanceFn, n: nat)
    requires n <= |Network|
    ensures forall x, i :: x in QualifyingIn(start, end, dist, n) && 0 <= i < |Network| && Network[i].name == x ==> i < n
  {
    if n > 0 {
      QualifyingBelow(start, end, dist, n - 1);
      NamesDistinct();
    }
  }

  /** The filter lists the cities it keeps in table order. */
  lemma {:induction false} QualifyingOrdered(start: Point, end: Point, dist: DistanceFn, n: nat)
    requires n <= |Network|
    ensures InTableOrder(QualifyingIn(start, end, dist, n))
  {
    if n > 0 {
      var q := QualifyingIn(start, end, dist, n);
      var p := QualifyingIn(start, end, dist, n - 1);
      QualifyingOrdered(start, end, dist, n - 1);
      forall a, b, i, j | 0 <= a < b < |q| && 0 <= i < |Network| && 0 <= j < |Network|
        && Network[i].name == q[a] && Network[j].name == q[b]
        ensures i < j
      {
        assert q[a] == p[a];
        if b == |p| {
          assert p[a] in p;
          QualifyingBelow(start, end, dist, n - 1);
          NamesDistinct();
          assert Network[j].name == Network[n - 1].name;
        } else {
          assert q[b] == p[b];
        }
      }
    }
  }

  /** A prefix of the filter's list is still in table order, and no
      qualifying city before one of its names is missing from it. */
  lemma PrefixInTableOrder(start: Point, end: Point, dist: DistanceFn, k: nat)
    requires k <= |QualifyingIn(start, end, dist, |Network|)|
    ensures InTableOrder(QualifyingIn(start, end, dist, |Network|)[..k])
    ensures var sel := QualifyingIn(start, end, dist, |Network|)[..k];
      forall i, j :: (0 <= i < j < |Network| && Qualifies(start, end, Network[i].coords, dist)
        && Network[j].name in sel) ==> Network[i].name in sel
  {
    var q := QualifyingIn(start, end, dist, |Network|);
    var sel := q[..k];
    QualifyingComplete(start, end, dist, |Network|);
    QualifyingOrdered(start, end, dist, |Network|);
    NamesDistinct();
    forall i, j | 0 <= i < j < |Network| && Qualifies(start, end, Network[i].coords, dist) && Network[j].name in sel
      ensures Network[i].name in sel
    {
      var b :| 0 <= b < |sel| && sel[b] == Network[j].name;
      assert Network[i].name in q;
      var a :| 0 <= a < |q| && q[a] == Network[i].name;
      assert q[b] == sel[b];
      if a >= b {
        assert false;
      }
      assert sel[a] == q[a];
    }
  }

  /** The selection is the first two qualifying cities in table order: the
      selected cities are qualifying cities of the table, listed in table
      order; no qualifying city before a selected one is skipped; and a
      qualifying city is left out only when two are selected already. */
  lemma IntermediateCitiesChosen(start: Point, end: Point, dist: DistanceFn)
    ensures forall x :: x in IntermediateCities(start, end, dist) ==>
      exists i :: 0 <= i < |Network| && Network[i].name == x && Qualifies(start, end, Network[i].coords, dist)
    ensures forall i :: (0 <= i < |Network| && Qualifies(start, end, Network[i].coords, dist)
      && Network[i].name !in IntermediateCities(start, end, dist)) ==> |IntermediateCities(start, end, dist)| == 2
    ensures InTableOrder(IntermediateCities(start, end, dist))
    ensures forall i, j :: (0 <= i < j < |Network| && Qualifies(start, end, Network[i].coords, dist)
      && Network[j].name in IntermediateCities(start, end, dist)) ==> Network[i].name in IntermediateCities(start, end, dist)
  {
    var q := QualifyingIn(start, end, dist, |Network|);
    assert forall x :: x in IntermediateCities(start, end, dist) ==> x in q;
    QualifyingSound(start, end, dist, |Network|);
    QualifyingComplete(start, end, dist, |Network|);
    PrefixInTableOrder(start, end, dist, if |q| < 2 then |q| else 2);
  }

  /** When start and end coincide no city is strictly nearer than zero to
      the midpoint, so the filter keeps nothing. */
  lemma {:induction false} NoneQualifyForEqualEnds(p: Point, dist: DistanceFn, n: nat)
    requires IsDistance(dist)
    requires n <= |Network|
    ensures QualifyingIn(p, p, dist, n) == []
  {
    if n > 0 {
      NoneQualifyForEqualEnds(p, dist, n - 1);
      assert !Qualifies(p, p, Network[n - 1].coords, dist);
    }
  }

  /** Hence no intermediate city is selected between equal ends. */
  lemma NoIntermediatesForEqualEnds(p: Point, dist: DistanceFn)
    requires IsDistance(dist)
    ensures IntermediateCities(p, p, dist) == []
  {
    NoneQualifyForEqualEnds(p, dist, |Network|);
  }

  /** The filter keeps the same cities whichever way the trip runs. */
  lemma {:induction false} QualifyingInSymmetric(start: Point, end: Point, dist: DistanceFn, n: nat)
    requires IsDistance(dist)
    requires n <= |Network|
    ensures QualifyingIn(start, end, dist, n) == QualifyingIn(end, start, dist, n)
  {
    if n > 0 {
      QualifyingInSymmetric(start, end, dist, n - 1);
      QualifiesSymmetric(start, end, Network[n - 1].coords, dist);
    }
  }

  /** The reverse trip is synthesised through the same cities, in the same
      table order: the interior of the corridor is not mirrored. */
  lemma IntermediateCitiesSymmetric(start: Point, end: Point, dist: DistanceFn)
    requires IsDistance(dist)
    ensures IntermediateCities(start, end, dist) == IntermediateCities(end, start, dist)
    ensures var there := IntelligentRoute(start, end, dist);
      var back := IntelligentRoute(end, start, dist);
      |there| == |back| && there[1..|there| - 1] == back[1..|back| - 1]
  {
    QualifyingInSymmetric(start, end, dist, |Network|);
    var c := CoordsOf(IntermediateCities(start, end, dist));
    assert IntelligentRoute(start, end, dist)[1..|c| + 1] == c;
    assert IntelligentRoute(end, start, dist)[1..|c| + 1] == c;
  }

  /** `findIntermediateCities`. */
  method FindIntermediateCities(start: Point, end: Point, dist: DistanceFn) returns (cities: seq<string>)
    ensures cities == IntermediateCities(start, end, dist)
  {
    var found: seq<string> := [];
    var midLat := (start.lat + end.lat) / 2.0;
    var midLng := (start.lng + end.lng) / 2.0;
    for i := 0 to |Network|
      invariant found == QualifyingIn(start, end, dist, i)
    {
      var coords := Network[i].coords;
      var distanceFromMid := dist(Point(midLat, midLng), coords);
      var totalDistance := dist(start, end);
      if distanceFromMid < totalDistance * 0.3 && IsOnRoute(start, end, coords, dist) {
        found := found + [Network[i].name];
      }
    }
    cities := found[..if |found| < 2 then |found| else 2];
  }

  /** The coordinates of the named cities, skipping names not in the table. */
  function CoordsOf(names: seq<string>): (points: seq<Point>)
    ensures |points| <= |names|
  {
    CoordsVia(names, LookupCity)
  }

  /** The coordinates `lookup` finds for the names, in order, skipping
      names it does not find. */
  function CoordsVia(names: seq<string>, lookup: string -> Option<Point>): (points: seq<Point>)
    ensures |points| <= |names|
  {
    if names == [] then []
    else
      CoordsVia(names[..|names| - 1], lookup)
        + match lookup(names[|names| - 1]) { case Some(c) => [c] case None => [] }
  }

  /** When every name is found, each contributes exactly its own point. */
  lemma {:induction false} CoordsViaFound(names: seq<string>, lookup: string -> Option<Point>)
    requires forall k :: 0 <= k < |names| ==> lookup(names[k]).Some?
    ensures |CoordsVia(names, lookup)| == |names|
    ensures forall k :: 0 <= k < |names| ==> lookup(names[k]) == Some(CoordsVia(names, lookup)[k])
  {
    if names != [] {
      CoordsViaFound(names[..|names| - 1], lookup);
    }
  }

  /** Names found in the table contribute their coordinates one for one. */
  lemma CoordsOfNetworkNames(names: seq<string>)
    requires forall k :: 0 <= k < |names| ==> LookupCity(names[k]).Some?
    ensures |CoordsOf(names)| == |names|
    ensures forall k :: 0 <= k < |names| ==> LookupCity(names[k]) == Some(CoordsOf(names)[k])
  {
    CoordsViaFound(names, LookupCity);
  }

  /** One more name contributes its point when the lookup finds it. */
  lemma CoordsOfStep(names: seq<string>, k: nat)
    requires k < |names|
    ensures CoordsOf(names[..k + 1]) == CoordsOf(names[..k])
      + (if LookupCity(names[k]).Some? then [LookupCity(names[k]).value] else [])
  {
    assert names[..k + 1][..k] == names[..k];
  }

  /** The control points `createIntelligentRoute` builds. */
  function IntelligentRoute(start: Point, end: Point, dist: DistanceFn): seq<Point>
  {
    [start] + CoordsOf(IntermediateCities(start, end, dist)) + [end]
  }

  /** Every interior point of the route is the coordinates of a table city
      that passes the test. */
  ghost predicate InteriorQualifies(start: Point, end: Point, dist: DistanceFn, r: seq<Point>)
  {
    forall k :: 0 < k < |r| - 1 ==> IsQualifyingCity(start, end, dist, r[k])
  }

  /** The point is the coordinates of a table city that passes the test. */
  ghost predicate IsQualifyingCity(start: Point, end: Point, dist: DistanceFn, p: Point)
  {
    exists i :: 0 <= i < |Network| && p == Network[i].coords && Qualifies(start, end, Network[i].coords, dist)
  }

  /** The synthesised corridor runs from start to end through at most two
      qualifying cities of the table. */
  lemma IntelligentRouteShape(start: Point, end: Point, dist: DistanceFn)
    ensures var r := IntelligentRoute(start, end, dist);
      2 <= |r| <= 4 && r[0] == start && r[|r| - 1] == end && InteriorQualifies(start, end, dist, r)
  {
    var r := IntelligentRoute(start, end, dist);
    forall k | 0 < k < |r| - 1
      ensures IsQualifyingCity(start, end, dist, r[k])
    {
      InteriorPointAt(start, end, dist, k);
    }
  }

  /** Interior point k of the synthesised corridor is the coordinates of a
      qualifying city. */
  lemma InteriorPointAt(start: Point, end: Point, dist: DistanceFn, k: nat)
    requires 0 < k < |IntelligentRoute(start, end, dist)| - 1
    ensures IsQualifyingCity(start, end, dist, IntelligentRoute(start, end, dist)[k])
  {
    var names := IntermediateCities(start, end, dist);
    SelectedCitiesFound(start, end, dist);
    CoordsOfNetworkNames(names);
    assert IntelligentRoute(start, end, dist)[k] == CoordsOf(names)[k - 1];
    SelectedCityAt(start, end, dist, k - 1);
    var i :| 0 <= i < |Network| && Network[i].name == names[k - 1] && Qualifies(start, end, Network[i].coords, dist)
      && LookupCity(names[k - 1]) == Some(Network[i].coords);
  }

  /** Every selected name is found in the table. */
  lemma SelectedCitiesFound(start: Point, end: Point, dist: DistanceFn)
    ensures var names := IntermediateCities(start, end, dist);
      forall k :: 0 <= k < |names| ==> LookupCity(names[k]).Some?
  {
    var names := IntermediateCities(start, end, dist);
    forall k | 0 <= k < |names| ensures LookupCity(names[k]).Some? {
      SelectedCityAt(start, end, dist, k);
    }
  }

  /** Selected name k is a qualifying city of the table, found under its name. */
  lemma SelectedCityAt(start: Point, end: Point, dist: DistanceFn, k: nat)
    requires k < |IntermediateCities(start, end, dist)|
    ensures exists i :: (0 <= i < |Network| && Network[i].name == IntermediateCities(start, end, dist)[k]
      && Qualifies(start, end, Network[i].coords, dist)
      && LookupCity(IntermediateCities(start, end, dist)[k]) == Some(Network[i].coords))
  {
    var names := IntermediateCities(start, end, dist);
    assert names[k] in QualifyingIn(start, end, dist, |Network|);
    QualifyingSound(start, end, dist, |Network|);
    var i :| 0 <= i < |Network| && Network[i].name == names[k] && Qualifies(start, end, Network[i].coords, dist);
    LookupAt(i);
  }

  /** `createIntelligentRoute`. */
  method CreateIntelligentRoute(start: Point, end: Point, originCity: string, destCity: string, dist: DistanceFn)
    returns (route: seq<Point>)
    ensures route == IntelligentRoute(start, end, dist)
    ensures 2 <= |route| <= 4 && route[0] == start && route[|route| - 1] == end
  {
    route := [start];
    var intermediateCities := FindIntermediateCities(start, end, dist);
    for k := 0 to |intermediateCities|
      invariant route == [start] + CoordsOf(intermediateCities[..k])
    {
      CoordsOfStep(intermediateCities, k);
      var cityData := LookupCity(intermediateCities[k]);
      if cityData.Some? {
        route := route + [cityData.value];
      }
    }
    assert intermediateCities[..|intermediateCities|] == intermediateCities;
    route := route + [end];
    assert 2 <= |route| <= 4 && route[0] == start && route[|route| - 1] == end by {
      IntelligentRouteShape(start, end, dist);
    }
  }

  // ---------------------------------------------------------------------
  // Densification

  /** `Math.max(8, Math.floor(segmentDistance / 20))`. */
  function SegmentCount(d: real): (n: nat)
    ensures n >= 8
  {
    var f := (d / 20.0).Floor;
    if f > 8 then f else 8
  }

  /** The j-th of the n + 1 points of the segment from a to b, whose length
      is d, with r the `Math.random()` draw for this point. */
  function DensePoint(a: Point, b: Point, d: real, j: nat, n: nat, sin: SineFn, r: real): Point
    requires n > 0
  {
    var ratio := j as real / n as real;
    var curveIntensity := 0.002 * d;
    var curve1 := sin(ratio * PI) * curveIntensity;
    var curve2 := sin(ratio * PI * 2.0) * curveIntensity * 0.3;
    var randomFactor := (r - 0.5) * 0.001;
    Point(a.lat + (b.lat - a.lat) * ratio + curve1 + randomFactor,
          a.lng + (b.lng - a.lng) * ratio + curve2 + randomFactor)
  }

  /** The jitter is one value shared by both axes: draw r moves the point
      by (r - 0.5) * 0.001 degrees on each axis from where the middle draw
      0.5 puts it, which for a draw in [0, 1) is within [-0.0005, 0.0005).
      Where the sine vanishes, the first point of a segment is its start
      and the last its end, up to that jitter. */
  lemma DensePointJitter(a: Point, b: Point, d: real, j: nat, n: nat, sin: SineFn, r: real)
    requires n > 0
    ensures var p := DensePoint(a, b, d, j, n, sin, r);
      var c := DensePoint(a, b, d, j, n, sin, 0.5);
      p.lat - c.lat == (r - 0.5) * 0.001 && p.lng - c.lng == (r - 0.5) * 0.001
    ensures 0.0 <= r < 1.0 ==> -0.0005 <= (r - 0.5) * 0.001 < 0.0005
    ensures var p := DensePoint(a, b, d, j, n, sin, r);
      var jitter := (r - 0.5) * 0.001;
      && (j == 0 && sin(0.0) == 0.0 ==> p == Point(a.lat + jitter, a.lng + jitter))
      && (j == n && sin(PI) == 0.0 && sin(PI * 2.0) == 0.0 ==> p == Point(b.lat + jitter, b.lng + jitter))
  {
    if j == 0 {
      assert (j as real / n as real) * PI == 0.0;
      assert (j as real / n as real) * PI * 2.0 == 0.0;
    }
    if j == n {
      assert j as real / n as real == 1.0;
    }
  }

  /** The first m points the inner loop emits for the segment from a to b,
      whose first point consumes draw number `base`. */
  function SegmentPoints(a: Point, b: Point, dist: DistanceFn, sin: SineFn, rand: RandomFn, base: nat, m: nat)
    : (s: seq<Point>)
    requires m <= SegmentCount(dist(a, b)) + 1
    ensures |s| == m
  {
    if m == 0 then []
    else
      SegmentPoints(a, b, dist, sin, rand, base, m - 1)
        + [DensePoint(a, b, dist(a, b), m - 1, SegmentCount(dist(a, b)), sin, rand(base + m - 1))]
  }

  /** Point j of a segment is the interpolation at ratio j / n, moved by
      the curve terms and by draw number base + j. */
  lemma {:induction false} SegmentPointAt(a: Point, b: Point, dist: DistanceFn, sin: SineFn, rand: RandomFn,
                                          base: nat, m: nat, j: nat)
    requires m <= SegmentCount(dist(a, b)) + 1
    requires j < m
    ensures SegmentPoints(a, b, dist, sin, rand, base, m)[j]
      == DensePoint(a, b, dist(a, b), j, SegmentCount(dist(a, b)), sin, rand(base + j))
  {
    if j < m - 1 {
      SegmentPointAt(a, b, dist, sin, rand, base, m - 1, j);
    }
  }

  /** All points of one segment, j = 0 .. n. */
  function Segment(a: Point, b: Point, dist: DistanceFn, sin: SineFn, rand: RandomFn, base: nat): (s: seq<Point>)
    ensures |s| == SegmentCount(dist(a, b)) + 1
  {
    SegmentPoints(a, b, dist, sin, rand, base, SegmentCount(dist(a, b)) + 1)
  }

  /** The number of segments of a control route. */
  function SegmentsOf(route: seq<Point>): nat
  {
    if |route| < 2 then 0 else |route| - 1
  }

  /** How many points the nested loops emit for the first k segments. */
  function DenseCount(route: seq<Point>, k: nat, dist: DistanceFn): nat
    requires k <= SegmentsOf(route)
  {
    if k == 0 then 0
    else DenseCount(route, k - 1, dist) + SegmentCount(dist(route[k - 1], route[k])) + 1
  }

  /** The points the nested loops emit for the first k segments: each
      segment's points one after the other, boundary points included once per
      segment; point t consumes draw number t. */
  function DenseUpTo(route: seq<Point>, k: nat, dist: DistanceFn, sin: SineFn, rand: RandomFn): (points: seq<Point>)
    requires k <= SegmentsOf(route)
    ensures |points| == DenseCount(route, k, dist)
  {
    if k == 0 then []
    else
      var prefix := DenseUpTo(route, k - 1, dist, sin, rand);
      prefix + Segment(route[k - 1], route[k], dist, sin, rand, |prefix|)
  }

  /** One more segment appends its points, drawing from the count so far. */
  lemma DenseUpToStep(route: seq<Point>, k: nat, dist: DistanceFn, sin: SineFn, rand: RandomFn)
    requires k < SegmentsOf(route)
    ensures DenseUpTo(route, k + 1, dist, sin, rand)
      == DenseUpTo(route, k, dist, sin, rand)
         + Segment(route[k], route[k + 1], dist, sin, rand, |DenseUpTo(route, k, dist, sin, rand)|)
  {
  }

  /** The unsmoothed path of a whole control route. */
  function Densify(route: seq<Point>, dist: DistanceFn, sin: SineFn, rand: RandomFn): (points: seq<Point>)
  {
    DenseUpTo(route, SegmentsOf(route), dist, sin, rand)
  }

  /** At least nine points per segment: boundary points are not merged. */
  lemma {:induction false} DenseCountAtLeast(route: seq<Point>, k: nat, dist: DistanceFn)
    requires k <= SegmentsOf(route)
    ensures DenseCount(route, k, dist) >= 9 * k
  {
    if k > 0 {
      DenseCountAtLeast(route, k - 1, dist);
    }
  }

  /** The dense path starts at the first control point moved by the first
      draw's jitter on both axes (the curve terms vanish at ratio 0), so it
      is within 0.0005 degrees of it but not exactly on it. */
  lemma {:induction false} DenseStart(route: seq<Point>, k: nat, dist: DistanceFn, sin: SineFn, rand: RandomFn)
    requires 1 <= k <= SegmentsOf(route)
    requires sin(0.0) == 0.0
    ensures var p := DenseUpTo(route, k, dist, sin, rand);
      var jitter := (rand(0) - 0.5) * 0.001;
      |p| >= 9 && p[0] == Point(route[0].lat + jitter, route[0].lng + jitter)
    ensures IsUnitStream(rand) ==>
      var p := DenseUpTo(route, k, dist, sin, rand)[0];
      -0.0005 <= p.lat - route[0].lat < 0.0005 && -0.0005 <= p.lng - route[0].lng < 0.0005
  {
    DenseCountAtLeast(route, k, dist);
    if k > 1 {
      DenseStart(route, k - 1, dist, sin, rand);
    } else {
      var n := SegmentCount(dist(route[0], route[1]));
      SegmentPointAt(route[0], route[1], dist, sin, rand, 0, n + 1, 0);
      assert (0 as real / n as real) * PI == 0.0;
    }
  }

  /** A point moved by the jitter of draw r, the same amount on both axes. */
  function Jittered(p: Point, r: real): Point
  {
    Point(p.lat + (r - 0.5) * 0.001, p.lng + (r - 0.5) * 0.001)
  }

  /** The dense path ends at the last control point of its last segment,
      moved by the jitter of the draw that point consumes (the curve terms
      vanish at ratio 1 where the sine vanishes at PI and 2 PI). */
  lemma DenseEnd(route: seq<Point>, k: nat, dist: DistanceFn, sin: SineFn, rand: RandomFn)
    requires 1 <= k <= SegmentsOf(route)
    requires sin(PI) == 0.0 && sin(PI * 2.0) == 0.0
    ensures var p := DenseUpTo(route, k, dist, sin, rand);
      |p| >= 1 && p[|p| - 1] == Jittered(route[k], rand(|p| - 1))
  {
    var prefix := DenseUpTo(route, k - 1, dist, sin, rand);
    var a, b := route[k - 1], route[k];
    var n := SegmentCount(dist(a, b));
    var segment := Segment(a, b, dist, sin, rand, |prefix|);
    assert DenseUpTo(route, k, dist, sin, rand) == prefix + segment;
    SegmentPointAt(a, b, dist, sin, rand, |prefix|, n + 1, n);
    DensePointJitter(a, b, dist(a, b), n, n, sin, rand(|prefix| + n));
  }

  /** The smoothed path of a control route of at least two points begins
      at its first control point moved by the jitter of draw 0, and ends at
      its last control point moved by the jitter of the last draw the path
      consumes: smoothing keeps both ends of the dense path. */
  lemma RouteEnds(route: seq<Point>, dist: DistanceFn, sin: SineFn, rand: RandomFn)
    requires |route| >= 2
    requires sin(0.0) == 0.0 && sin(PI) == 0.0 && sin(PI * 2.0) == 0.0
    ensures var c := Smooth(Densify(route, dist, sin, rand));
      && |c| >= 9
      && c[0] == Jittered(route[0], rand(0))
      && c[|c| - 1] == Jittered(route[|route| - 1], rand(|c| - 1))
  {
    var k := SegmentsOf(route);
    assert k == |route| - 1;
    var dense := DenseUpTo(route, k, dist, sin, rand);
    assert Densify(route, dist, sin, rand) == dense;
    DenseStart(route, k, dist, sin, rand);
    DenseEnd(route, k, dist, sin, rand);
    assert Smooth(dense)[0] == dense[0] && Smooth(dense)[|dense| - 1] == dense[|dense| - 1] by {
      SmoothProperties(dense);
    }
  }

  /** `smoothPath`'s result: interior points replaced by the 0.25/0.5/0.25
      blend of their unsmoothed neighbours, ends kept. */
  function Smooth(points: seq<Point>): (r: seq<Point>)
    ensures |r| == |points|
  {
    if |points| < 3 then points
    else [points[0]] + SmoothInterior(points, |points| - 1) + [points[|points| - 1]]
  }

  function Blend(prev: Point, current: Point, next: Point): Point
  {
    Point(prev.lat * 0.25 + current.lat * 0.5 + next.lat * 0.25,
          prev.lng * 0.25 + current.lng * 0.5 + next.lng * 0.25)
  }

  /** The blended points for indices 1 .. m - 1. */
  function SmoothInterior(points: seq<Point>, m: nat): (r: seq<Point>)
    requires 1 <= m <= |points| - 1
    ensures |r| == m - 1
    ensures forall i :: 1 <= i < m ==> r[i - 1] == Blend(points[i - 1], points[i], points[i + 1])
  {
    if m == 1 then [] else SmoothInterior(points, m - 1) + [Blend(points[m - 2], points[m - 1], points[m])]
  }

  /** Smoothing keeps the length and both ends, blends each interior point
      from the unsmoothed input, and leaves paths of fewer than three points
      alone. */
  lemma SmoothProperties(points: seq<Point>)
    ensures |Smooth(points)| == |points|
    ensures |points| < 3 ==> Smooth(points) == points
    ensures |points| >= 1 ==> (Smooth(points)[0] == points[0]
      && Smooth(points)[|points| - 1] == points[|points| - 1])
    ensures forall i :: 0 < i < |points| - 1 ==>
      Smooth(points)[i] == Blend(points[i - 1], points[i], points[i + 1])
  {
  }

  /** `smoothPath`. */
  method SmoothPath(points: seq<Point>) returns (result: seq<Point>)
    ensures result == Smooth(points)
  {
    if |points| < 3 {
      return points;
    }
    var smoothed := [points[0]];
    for i := 1 to |points| - 1
      invariant smoothed == [points[0]] + SmoothInterior(points, i)
    {
      var prev := points[i - 1];
      var current := points[i];
      var next := points[i + 1];
      var smoothedLat := prev.lat * 0.25 + current.lat * 0.5 + next.lat * 0.25;
      var smoothedLng := prev.lng * 0.25 + current.lng * 0.5 + next.lng * 0.25;
      assert Point(smoothedLat, smoothedLng) == Blend(prev, current, next);
      smoothed := smoothed + [Point(smoothedLat, smoothedLng)];
    }
    smoothed := smoothed + [points[|points| - 1]];
    result := smoothed;
  }

  /** The inner loop of `generateSmoothHighwayPath`: the points j = 0 .. n of
      the segment from a to b, appended to the points emitted so far. Every
      point calls `Math.random` once, so the draws continue from |points|. */
  method AppendSegment(points: seq<Point>, a: Point, b: Point, dist: DistanceFn, sin: SineFn, rand: RandomFn)
    returns (extended: seq<Point>)
    ensures extended == points + Segment(a, b, dist, sin, rand, |points|)
  {
    var segmentDistance := dist(a, b);
    var segmentPoints := SegmentCount(segmentDistance);
    var draw := |points|;
    extended := points;
    for j := 0 to segmentPoints + 1
      invariant extended == points + SegmentPoints(a, b, dist, sin, rand, |points|, j)
      invariant draw == |extended|
    {
      var point := DensePoint(a, b, segmentDistance, j, segmentPoints, sin, rand(draw));
      draw := draw + 1;
      extended := extended + [point];
    }
  }

  /** `generateSmoothHighwayPath`: one `AppendSegment` per segment of the
      control route, then `smoothPath`. Draw number t of `rand` is the
      jitter of dense point t. */
  method GenerateSmoothHighwayPath(baseRoute: seq<Point>, dist: DistanceFn, sin: SineFn, rand: RandomFn)
    returns (path: seq<Point>)
    ensures path == Smooth(Densify(baseRoute, dist, sin, rand))
  {
    var points: seq<Point> := [];
    for i := 0 to SegmentsOf(baseRoute)
      invariant points == DenseUpTo(baseRoute, i, dist, sin, rand)
    {
      points := AppendSegment(points, baseRoute[i], baseRoute[i + 1], dist, sin, rand);
      DenseUpToStep(baseRoute, i, dist, sin, rand);
    }
    path := SmoothPath(points);
  }

  /** The first half of `generateHighwayRoute`: the lookup chain with the
      synthesised corridor as its last resort. */
  method ChooseBaseRoute(start: Point, end: Point, originCity: string, destCity: string, dist: DistanceFn)
    returns (baseRoute: seq<Point>)
    ensures baseRoute == ControlRoute(start, end, originCity, destCity, dist)
  {
    var predefined := PredefinedRoute(originCity, destCity);
    if predefined.Some? {
      baseRoute := predefined.value;
    } else {
      baseRoute := CreateIntelligentRoute(start, end, originCity, destCity, dist);
    }
  }

  /** `generateHighwayRoute`. */
  method GenerateHighwayRoute(start: Point, end: Point, originCity: string, destCity: string,
                              dist: DistanceFn, sin: SineFn, rand: RandomFn)
    returns (path: seq<Point>)
    ensures path == Smooth(Densify(ControlRoute(start, end, originCity, destCity, dist), dist, sin, rand))
  {
    var baseRoute := ChooseBaseRoute(start, end, originCity, destCity, dist);
    path := GenerateSmoothHighwayPath(baseRoute, dist, sin, rand);
  }

  // ---------------------------------------------------------------------
  // Distance, duration, instructions

  /** The sum of the distances between consecutive points. */
  function PathLength(points: seq<Point>, dist: DistanceFn): real
  {
    if |points| < 2 then 0.0
    else PathLength(points[..|points| - 1], dist) + dist(points[|points| - 2], points[|points| - 1])
  }

  /** A path is never of negative length. */
  lemma {:induction false} PathLengthNonNegative(points: seq<Point>, dist: DistanceFn)
    requires IsDistance(dist)
    ensures PathLength(points, dist) >= 0.0
  {
    if |points| >= 2 {
      PathLengthNonNegative(points[..|points| - 1], dist);
    }
  }

  /** Joining two paths adds the leg between them: the length is the sum
      over every consecutive pair, however the path is split. */
  lemma {:induction false} PathLengthAppend(a: seq<Point>, b: seq<Point>, dist: DistanceFn)
    requires |a| >= 1 && |b| >= 1
    ensures PathLength(a + b, dist) == PathLength(a, dist) + dist(a[|a| - 1], b[0]) + PathLength(b, dist)
  {
    if |b| == 1 {
      assert (a + b)[..|a + b| - 1] == a;
    } else {
      var b' := b[..|b| - 1];
      PathLengthAppend(a, b', dist);
      assert (a + b)[..|a + b| - 1] == a + b';
      assert b[..|b| - 1] == b';
    }
  }

  /** `calculateRouteDistance`. */
  method CalculateRouteDistance(points: seq<Point>, dist: DistanceFn) returns (totalDistance: real)
    ensures totalDistance == PathLength(points, dist)
    ensures |points| < 2 ==> totalDistance == 0.0
  {
    totalDistance := 0.0;
    var i := 0;
    while i + 1 < |points|
      invariant |points| >= 1 ==> i + 1 <= |points|
      invariant |points| == 0 ==> i == 0
      invariant totalDistance == PathLength(points[..if |points| == 0 then 0 else i + 1], dist)
    {
      var point1 := points[i];
      var point2 := points[i + 1];
      assert points[..i + 2][..i + 1] == points[..i + 1];
      totalDistance := totalDistance + dist(point1, point2);
      i := i + 1;
    }
    if |points| >= 1 {
      assert points[..i + 1] == points;
    }
  }

  /** `calculateRealisticDuration`, with `r` the `Math.random()` draw. */
  function CalculateRealisticDuration(distance: real, numWaypoints: int, r: real): int
  {
    var duration := distance * 1.5;
    var cityTime := numWaypoints as real * 15.0;
    var trafficDelay := r * 30.0;
    Round(duration + cityTime + trafficDelay)
  }

  /** For a fixed draw the duration never decreases with distance or with
      the number of waypoints. */
  lemma DurationMonotone(d1: real, d2: real, n1: int, n2: int, r: real)
    requires d1 <= d2 && n1 <= n2
    ensures CalculateRealisticDuration(d1, n1, r) <= CalculateRealisticDuration(d2, n2, r)
  {
    RoundMonotone(d1 * 1.5 + n1 as real * 15.0 + r * 30.0, d2 * 1.5 + n2 as real * 15.0 + r * 30.0);
  }

  /** A route of non-negative length never takes negative time. */
  lemma DurationNonNegative(distance: real, numWaypoints: int, r: real)
    requires distance >= 0.0 && numWaypoints >= 0 && 0.0 <= r < 1.0
    ensures CalculateRealisticDuration(distance, numWaypoints, r) >= 0
  {
    RoundNonNegative(distance * 1.5 + numWaypoints as real * 15.0 + r * 30.0);
  }

  /** The traffic slack adds between 0 and 30 minutes to the rounded base. */
  lemma DurationBounds(distance: real, numWaypoints: int, r: real)
    requires 0.0 <= r < 1.0
    ensures var base := distance * 1.5 + numWaypoints as real * 15.0;
      Round(base) <= CalculateRealisticDuration(distance, numWaypoints, r) <= Round(base + 30.0)
  {
    var base := distance * 1.5 + numWaypoints as real * 15.0;
    RoundMonotone(base, base + r * 30.0);
    RoundMonotone(base + r * 30.0, base + 30.0);
  }

  /** `generateDetailedInstructions`. */
  function GenerateDetailedInstructions(originCity: string, destCity: string, distance: real): (r: seq<string>)
    ensures |r| == 9
  {
    [
      "Start from " + originCity + " city center",
      "Head toward highway entrance",
      "Merge onto national highway",
      "Continue on highway for " + Decimal.IntToString(Round(distance * 0.7)) + " km",
      "Pass through major junction",
      "Take exit toward " + destCity,
      "Continue on arterial road",
      "Follow signs to city center",
      "Arrive at " + destCity + " destination"
    ]
  }

  /** The template names the origin first and the destination in the exit
      and arrival lines. */
  lemma InstructionsNameCities(originCity: string, destCity: string, distance: real)
    ensures var r := GenerateDetailedInstructions(originCity, destCity, distance);
      && r[0][11..|r[0]| - 12] == originCity
      && r[5][17..] == destCity
      && r[8][10..|r[8]| - 12] == destCity
  {
    var r := GenerateDetailedInstructions(originCity, destCity, distance);
    assert r[0][11..|r[0]| - 12] == originCity;
    assert r[8][10..|r[8]| - 12] == destCity;
  }

  /** The cruise leg's kilometre figure reads back as 70% of the distance,
      rounded. */
  lemma InstructionsCruiseFigure(originCity: string, destCity: string, distance: real)
    ensures var line := GenerateDetailedInstructions(originCity, destCity, distance)[3];
      var figure := line[24..|line| - 3];
      Decimal.IsIntText(figure) && Decimal.ParseInt(figure) == Round(distance * 0.7)
  {
    var line := GenerateDetailedInstructions(originCity, destCity, distance)[3];
    var n := Round(distance * 0.7);
    Decimal.IntToStringRoundTrip(n);
    assert line[24..|line| - 3] == Decimal.IntToString(n);
  }

  // ---------------------------------------------------------------------
  // getRoute

  /** A trip from a point to itself has no stored corridor and no
      intermediate city, so its control route is the point twice, and its
      single zero-length segment is split into the minimum of 8 intervals. */
  lemma DegenerateRoute(p: Point, city: string, dist: DistanceFn, sin: SineFn, rand: RandomFn)
    requires IsDistance(dist)
    ensures ControlRoute(p, p, city, city, dist) == [p, p]
    ensures |Smooth(Densify([p, p], dist, sin, rand))| == 9
  {
    NoSelfCorridor(city);
    NoIntermediatesForEqualEnds(p, dist);
    assert CoordsOf([]) == [];
    assert SegmentCount(dist(p, p)) == 8;
  }

  /** What `getRoute` promises about its result: the reported distance and
      the duration are never negative, and a trip from a point to itself
      yields nine coordinates and resolves both ends to the same city, so
      the instructions start from and arrive at that city. */
  lemma RouteGuarantees(origin: Point, destination: Point, dist: DistanceFn, sin: SineFn, rand: RandomFn)
    requires IsDistance(dist)
    ensures var originCity := NearestCity(origin, dist);
      var destCity := NearestCity(destination, dist);
      var coordinates := Smooth(Densify(ControlRoute(origin, destination, originCity, destCity, dist), dist, sin, rand));
      var d := PathLength(coordinates, dist);
      && Round(d) >= 0
      && (IsUnitStream(rand) ==> CalculateRealisticDuration(d, |coordinates|, rand(|coordinates|)) >= 0)
      && (origin == destination ==> |coordinates| == 9 && destCity == originCity)
      && (origin == destination && IsUnitStream(rand) ==>
            CalculateRealisticDuration(d, |coordinates|, rand(|coordinates|)) >= 135)
  {
    var originCity := NearestCity(origin, dist);
    var destCity := NearestCity(destination, dist);
    var coordinates := Smooth(Densify(ControlRoute(origin, destination, originCity, destCity, dist), dist, sin, rand));
    var d := PathLength(coordinates, dist);
    PathLengthNonNegative(coordinates, dist);
    RoundNonNegative(d);
    if IsUnitStream(rand) {
      DurationNonNegative(d, |coordinates|, rand(|coordinates|));
    }
    if origin == destination {
      DegenerateRoute(origin, originCity, dist, sin, rand);
      if IsUnitStream(rand) {
        DurationBounds(d, 9, rand(9));
        RoundMonotone(135.0, d * 1.5 + 9 as real * 15.0);
      }
    }
  }

  /** The control point `getRoute`'s path starts from: the origin city's
      table coordinates when a stored corridor is used, whatever point was
      asked for, and the requested origin when the corridor is synthesised. */
  ghost function CorridorStart(origin: Point, destination: Point, dist: DistanceFn): Point
  {
    if PredefinedRoute(NearestCity(origin, dist), NearestCity(destination, dist)).Some?
    then Network[NearestIndex(origin, dist)].coords
    else origin
  }

  /** Likewise the control point it ends at. */
  ghost function CorridorEnd(origin: Point, destination: Point, dist: DistanceFn): Point
  {
    if PredefinedRoute(NearestCity(origin, dist), NearestCity(destination, dist)).Some?
    then Network[NearestIndex(destination, dist)].coords
    else destination
  }

  /** A path whose first point is `first` and whose last point is `last`,
      each moved by the jitter of the draw it consumed. */
  ghost predicate EndsJittered(c: seq<Point>, first: Point, last: Point, rand: RandomFn)
  {
    |c| >= 1 && c[0] == Jittered(first, rand(0)) && c[|c| - 1] == Jittered(last, rand(|c| - 1))
  }

  /** The control route `getRoute` densifies joins `CorridorStart` to
      `CorridorEnd`. */
  lemma ControlRouteEnds(origin: Point, destination: Point, dist: DistanceFn)
    ensures var r := ControlRoute(origin, destination, NearestCity(origin, dist), NearestCity(destination, dist), dist);
      r[0] == CorridorStart(origin, destination, dist) && r[|r| - 1] == CorridorEnd(origin, destination, dist)
  {
    if PredefinedRoute(NearestCity(origin, dist), NearestCity(destination, dist)).Some? {
      StoredCorridorEnds(NearestIndex(origin, dist), NearestIndex(destination, dist));
    }
  }

  /** A stored corridor between two table cities, in either direction,
      joins their table coordinates. */
  lemma StoredCorridorEnds(i: nat, j: nat)
    requires i < |Network| && j < |Network|
    requires PredefinedRoute(Network[i].name, Network[j].name).Some?
    ensures var r := PredefinedRoute(Network[i].name, Network[j].name).value;
      r[0] == Network[i].coords && r[|r| - 1] == Network[j].coords
  {
    var a, b := Network[i].name, Network[j].name;
    LookupAt(i);
    LookupAt(j);
    NamesHaveNoDash(a);
    NamesHaveNoDash(b);
    if RouteKey(a, b) in Junctions {
      CorridorEndpoints(a, b);
    } else {
      CorridorEndpoints(b, a);
    }
  }

  /** Where `getRoute`'s path begins and ends: at `CorridorStart` and
      `CorridorEnd`, each carrying the jitter of its own draw, the first and
      the last the path consumes. */
  lemma RouteEndpoints(origin: Point, destination: Point, dist: DistanceFn, sin: SineFn, rand: RandomFn)
    ensures sin(0.0) == 0.0 && sin(PI) == 0.0 && sin(PI * 2.0) == 0.0 ==>
      EndsJittered(Smooth(Densify(ControlRoute(origin, destination, NearestCity(origin, dist),
                                               NearestCity(destination, dist), dist), dist, sin, rand)),
                   CorridorStart(origin, destination, dist), CorridorEnd(origin, destination, dist), rand)
  {
    if sin(0.0) == 0.0 && sin(PI) == 0.0 && sin(PI * 2.0) == 0.0 {
      var r := ControlRoute(origin, destination, NearestCity(origin, dist), NearestCity(destination, dist), dist);
      ControlRouteEnds(origin, destination, dist);
      RouteEnds(r, dist, sin, rand);
    }
  }

  /** `getRoute` without its simulated delay. The path consumes draws
      0 .. |coordinates| - 1 and the traffic delay the next one. */
  method GetRoute(origin: Point, destination: Point, dist: DistanceFn, sin: SineFn, rand: RandomFn)
    returns (route: RouteData)
    ensures var originCity := NearestCity(origin, dist);
      var destCity := NearestCity(destination, dist);
      var d := PathLength(route.coordinates, dist);
      && route.coordinates == Smooth(Densify(ControlRoute(origin, destination, originCity, destCity, dist), dist, sin, rand))
      && route.distance == Round(d)
      && route.duration == CalculateRealisticDuration(d, |route.coordinates|, rand(|route.coordinates|))
      && route.instructions == GenerateDetailedInstructions(originCity, destCity, d)
    ensures |route.coordinates| >= 9 && |route.instructions| == 9
    ensures IsDistance(dist) ==> route.distance >= 0
    ensures IsDistance(dist) && IsUnitStream(rand) ==> route.duration >= 0
    ensures IsDistance(dist) && origin == destination ==>
      |route.coordinates| == 9 && route.instructions == GenerateDetailedInstructions(
        NearestCity(origin, dist), NearestCity(origin, dist), PathLength(route.coordinates, dist))
    ensures IsDistance(dist) && IsUnitStream(rand) && origin == destination ==> route.duration >= 135
    ensures sin(0.0) == 0.0 && sin(PI) == 0.0 && sin(PI * 2.0) == 0.0 ==>
      EndsJittered(route.coordinates, CorridorStart(origin, destination, dist),
                   CorridorEnd(origin, destination, dist), rand)
  {
    var originCity := FindCityByCoords(origin, dist);
    var destCity := FindCityByCoords(destination, dist);
    var waypoints := GenerateHighwayRoute(origin, destination, originCity, destCity, dist, sin, rand);
    var distance := CalculateRouteDistance(waypoints, dist);
    var duration := CalculateRealisticDuration(distance, |waypoints|, rand(|waypoints|));
    route := RouteData(waypoints, Round(distance), duration,
                       GenerateDetailedInstructions(originCity, destCity, distance));
    var control := ControlRoute(origin, destination, originCity, destCity, dist);
    DenseCountAtLeast(control, SegmentsOf(control), dist);
    if IsDistance(dist) {
      RouteGuarantees(origin, destination, dist, sin, rand);
    }
    RouteEndpoints(origin, destination, dist, sin, rand);
  }
}
