/** The routing service's static reference data: the city table
    `HIGHWAY_NETWORK` and the predefined corridors `HIGHWAY_JUNCTIONS`. */
module HighwayNetwork {
  import opened Geo
  import opened Wrappers
  import opened CityNames

  /** A `HIGHWAY_NETWORK` entry: the key, its coordinates and its advisory
      highway names (which no computation reads). */
  datatype NetworkCity = NetworkCity(name: string, coords: Point, highways: seq<string>)

  /** `HIGHWAY_NETWORK` in the order `Object.entries` enumerates it. */
  const Network: seq<NetworkCity> := [
    NetworkCity(Mumbai, Point(19.0760, 72.8777), ["NH48", "NH3", "NH17"]),
    NetworkCity(Pune, Point(18.5204, 73.8567), ["NH48", "NH50"]),
    NetworkCity(Delhi, Point(28.7041, 77.1025), ["NH1", "NH8", "NH24"]),
    NetworkCity(Bangalore, Point(12.9716, 77.5946), ["NH44", "NH75"]),
    NetworkCity(Chennai, Point(13.0827, 80.2707), ["NH16", "NH32"]),
    NetworkCity(Hyderabad, Point(17.3850, 78.4867), ["NH44", "NH65"]),
    NetworkCity(Kolkata, Point(22.5726, 88.3639), ["NH16", "NH19"]),
    NetworkCity(Ahmedabad, Point(23.0225, 72.5714), ["NH8", "NH27"]),
    NetworkCity(Aurangabad, Point(19.8762, 75.3433), ["NH52", "NH211"]),
    NetworkCity(Nashik, Point(19.9975, 73.7898), ["NH3", "NH50"])
  ]

  /** The keys of `HIGHWAY_NETWORK`, in order. */
  const NetworkNames: seq<string> := NamesOf(Network)

  function NamesOf(cities: seq<NetworkCity>): (names: seq<string>)
    ensures |names| == |cities|
    ensures forall i :: 0 <= i < |cities| ==> names[i] == cities[i].name
  {
    if cities == [] then [] else NamesOf(cities[..|cities| - 1]) + [cities[|cities| - 1].name]
  }

  /** `HIGHWAY_NETWORK[name]`: the coordinates stored under a key, if any. */
  function LookupCity(name: string): (r: Option<Point>)
    ensures r.Some? <==> name in NetworkNames
    ensures forall i :: 0 <= i < |Network| && Network[i].name == name ==> r == Some(Network[i].coords)
  {
    LookupCityIn(name, |Network|)
  }

  /** Searches the first n entries of the table, the last one first. */
  function LookupCityIn(name: string, n: nat): (r: Option<Point>)
    requires n <= |Network|
    ensures r.Some? <==> name in NetworkNames[..n]
    ensures forall i :: 0 <= i < n && Network[i].name == name ==> r == Some(Network[i].coords)
  {
    if n == 0 then None
    else if Network[n - 1].name == name then Some(Network[n - 1].coords)
    else LookupCityIn(name, n - 1)
  }

  predicate NoDash(s: string)
  {
    forall i :: 0 <= i < |s| ==> s[i] != '-'
  }

  /** The `${a}-${b}` key under which a corridor from a to b is stored. */
  function RouteKey(a: string, b: string): (k: string)
    ensures |k| == |a| + 1 + |b| && k[|a|] == '-'
  {
    a + "-" + b
  }

  /** `HIGHWAY_JUNCTIONS`: the predefined control-point corridors. */
  const Junctions: map<string, seq<Point>> := map[
    RouteKey(Mumbai, Pune) := [
      Point(19.0760, 72.8777), Point(19.1136, 73.0092), Point(19.2183, 73.0967),
      Point(18.7322, 73.4250), Point(18.5204, 73.8567)],
    RouteKey(Mumbai, Delhi) := [
      Point(19.0760, 72.8777), Point(19.9975, 73.7898), Point(23.2599, 77.4126),
      Point(26.9124, 75.7873), Point(28.7041, 77.1025)],
    RouteKey(Pune, Bangalore) := [
      Point(18.5204, 73.8567), Point(17.6599, 75.9064), Point(15.3173, 75.7139),
      Point(14.4426, 76.4648), Point(13.3409, 77.1172), Point(12.9716, 77.5946)],
    RouteKey(Delhi, Bangalore) := [
      Point(28.7041, 77.1025), Point(26.9124, 75.7873), Point(23.2599, 77.4126),
      Point(21.1458, 79.0882), Point(17.3850, 78.4867), Point(12.9716, 77.5946)]
  ]

  /** Ten cities, no key repeated. */
  lemma NamesDistinct()
    ensures |Network| == 10 && |NetworkNames| == 10
    ensures forall i, j :: 0 <= i < j < |Network| ==> Network[i].name != Network[j].name
  {
  }

  /** No key of the table contains the separator of corridor keys. */
  lemma NamesHaveNoDash(a: string)
    requires a in NetworkNames
    ensures NoDash(a)
  {
    var i :| 0 <= i < |NetworkNames| && NetworkNames[i] == a;
  }

  /** Different cities sit at different coordinates. */
  lemma CoordinatesDistinct()
    ensures forall i, j :: 0 <= i < j < |Network| ==> Network[i].coords != Network[j].coords
  {
  }

  /** The ten cities are a positive distance apart from one another. The
      haversine vanishes between some distinct points (at a pole, or across
      the antimeridian), but not between any two cities of the table. */
  ghost predicate CitiesApart(dist: DistanceFn)
  {
    forall i, j :: 0 <= i < |Network| && 0 <= j < |Network| && i != j ==>
      dist(Network[i].coords, Network[j].coords) > 0.0
  }

  /** A corridor key splits back into its two city names, since the first
      name contains no dash. */
  lemma RouteKeyInjective(a: string, b: string, c: string, d: string)
    requires NoDash(a) && NoDash(c)
    requires RouteKey(a, b) == RouteKey(c, d)
    ensures a == c && b == d
  {
    var k := RouteKey(a, b);
    assert |a| == |c| by {
      if |a| < |c| {
        assert k[|a|] == '-';
      } else if |c| < |a| {
        assert false;
      }
    }
    assert a == k[..|a|];
    assert b == k[|a| + 1..];
  }

  /** The entry of table position i is found under its own name. */
  lemma LookupAt(i: nat)
    requires i < |Network|
    ensures LookupCity(Network[i].name) == Some(Network[i].coords)
  {
  }

  /** `HIGHWAY_JUNCTIONS` has exactly these four keys. */
  lemma JunctionKeys()
    ensures Junctions.Keys
      == {RouteKey(Mumbai, Pune), RouteKey(Mumbai, Delhi), RouteKey(Pune, Bangalore), RouteKey(Delhi, Bangalore)}
  {
  }

  /** Hence a stored key is one of the four. */
  lemma JunctionKeyCases(k: string)
    requires k in Junctions
    ensures k == RouteKey(Mumbai, Pune) || k == RouteKey(Mumbai, Delhi) || k == RouteKey(Pune, Bangalore)
      || k == RouteKey(Delhi, Bangalore)
  {
    JunctionKeys();
  }

  /** A key built from table names i and j names exactly those two cities. */
  lemma KeyOfCities(a: string, b: string, i: nat, j: nat)
    requires i < |Network| && j < |Network|
    requires NoDash(a) && NoDash(Network[i].name)
    requires RouteKey(a, b) == RouteKey(Network[i].name, Network[j].name)
    ensures LookupCity(a) == Some(Network[i].coords) && LookupCity(b) == Some(Network[j].coords)
  {
    RouteKeyInjective(a, b, Network[i].name, Network[j].name);
    LookupAt(i);
    LookupAt(j);
  }

  /** Every predefined corridor joins two cities of the table: it starts at
      the coordinates of the first city of its key and ends at those of the
      second. */
  lemma CorridorEndpoints(a: string, b: string)
    requires NoDash(a) && NoDash(b)
    requires RouteKey(a, b) in Junctions
    ensures LookupCity(a).Some? && LookupCity(b).Some?
    ensures var c := Junctions[RouteKey(a, b)];
      |c| >= 2 && c[0] == LookupCity(a).value && c[|c| - 1] == LookupCity(b).value
  {
    var k := RouteKey(a, b);
    JunctionKeyCases(k);
    if k == RouteKey(Mumbai, Pune) {
      KeyOfCities(a, b, 0, 1);
    } else if k == RouteKey(Mumbai, Delhi) {
      KeyOfCities(a, b, 0, 2);
    } else if k == RouteKey(Pune, Bangalore) {
      KeyOfCities(a, b, 1, 3);
    } else {
      KeyOfCities(a, b, 2, 3);
    }
  }
}
