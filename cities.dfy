/** The shipment form's choices (`data/cities.ts`): the city list and the
    product list, and how they line up with the routing service's network,
    the weather table and the recommenders' switches. */
module CityList {
  import opened Geo
  import opened Types
  import opened CityNames
  import opened HighwayNetwork
  import Routing
  import Weather

  /** `cities`. */
  const Cities: seq<City> := [
    City(Mumbai, Point(19.0760, 72.8777)),
    City(Pune, Point(18.5204, 73.8567)),
    City(Delhi, Point(28.7041, 77.1025)),
    City(Bangalore, Point(12.9716, 77.5946)),
    City(Chennai, Point(13.0827, 80.2707)),
    City(Hyderabad, Point(17.3850, 78.4867)),
    City(Kolkata, Point(22.5726, 88.3639)),
    City(Ahmedabad, Point(23.0225, 72.5714)),
    City(Aurangabad, Point(19.8762, 75.3433)),
    City(Nashik, Point(19.9975, 73.7898))
  ]

  /** `products`. */
  const Products: seq<string> := [IceCream, Paneer, Chicken, FrozenPeas, FlavoredMilk, Curd]

  /** The city list is the routing network's table: same names, same
      coordinates, same order. */
  lemma CitiesMatchNetwork()
    ensures |Cities| == |Network|
    ensures forall i :: 0 <= i < |Cities| ==>
      Cities[i].name == Network[i].name && Cities[i].coordinates == Network[i].coords
  {
  }

  /** No city is offered twice. */
  lemma CitiesDistinct()
    ensures forall i, j :: 0 <= i < j < |Cities| ==> Cities[i].name != Cities[j].name
  {
    CitiesMatchNetwork();
    NamesDistinct();
  }

  /** The coordinates the form sends for a chosen city are resolved back to
      that city by `findCityByCoords`, so the corridor lookup sees the name
      the user picked. */
  lemma ChosenCityResolves(i: nat, dist: DistanceFn)
    requires i < |Cities|
    requires IsDistance(dist) && CitiesApart(dist)
    ensures Routing.NearestCity(Cities[i].coordinates, dist) == Cities[i].name
  {
    CitiesMatchNetwork();
    Routing.NearestOfNetworkCity(i, dist);
  }

  /** The weather table is keyed by exactly the routing network's cities, in
      the same order. */
  lemma WeatherKeysAreNetworkNames()
    ensures Weather.CitiesOf(Weather.MockWeatherData) == NetworkNames
  {
  }

  /** Every offered city has a forecast of its own in the weather table: the
      entry at the same position, never the Mumbai fallback (except for
      Mumbai itself). */
  lemma ChosenCityHasWeather(i: nat)
    requires i < |Cities|
    ensures Weather.MockWeatherData[i].city == Cities[i].name
    ensures Weather.GetWeatherData(Cities[i].name) == Weather.MockWeatherData[i].weather
  {
    WeatherKeysAreNetworkNames();
    CitiesMatchNetwork();
    Weather.WeatherLookup(Cities[i].name);
  }

  /** The product list is exactly the set of products with a case of their
      own, each selecting a different case. */
  lemma ProductsAreTheListedCases()
    ensures |Products| == 6
    ensures forall i :: 0 <= i < |Products| ==> IsListedProduct(Products[i])
    ensures forall product :: IsListedProduct(product) ==> product in Products
    ensures forall i, j :: 0 <= i < j < |Products| ==> CaseOf(Products[i]) != CaseOf(Products[j])
  {
  }
}
