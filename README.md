# Cold-chain route and recommendation core, in Dafny

This project models the computational core of a cold-chain logistics
dashboard written in TypeScript. The core has five parts.

- **Route synthesiser** (`src/services/routingService.ts`, modules
  `HighwayNetwork` and `Routing`). It resolves each end of a shipment to the
  nearest city of a fixed ten-city table, with the first city winning ties.
  It picks a corridor of control points: the stored corridor, the reversed
  stored corridor, or one synthesised through at most two cities near the
  midpoint. It densifies every segment of that corridor into interpolated
  points with curve and jitter terms, then smooths the path with a
  0.25/0.5/0.25 pass. Finally it sums the leg distances, derives a duration
  and emits a nine-line instruction template. Every loop of the source is a
  `method` whose `ensures` equates its result with a specification function.
  The lemmas state what those functions promise.
- **Weather-aware recommender** (`src/utils/enhancedMockAI.ts`, module
  `EnhancedAI`). A decision table keyed by the product's case of the
  `switch` and by whether the mean current temperature exceeds 30 degrees,
  plus the departure-time rule.
- **Plain recommender** (`src/utils/mockAI.ts`, module `MockAI`). A table
  keyed by product only. It is proved to quote the same fuel, saving, CO2
  and risk figures as the weather-aware one in mild weather.
- **Weather service** (`src/services/weatherService.ts`, module `Weather`).
  The ten fixed forecasts with their Mumbai fallback, and the icon table
  with its default.
- **Form data** (`src/data/cities.ts`, module `CityList`). The city and
  product lists, proved to line up with the network table, the weather
  table and the recommenders' switches.

Shared modules:
- `Geo`: points, and the haversine distance, `Math.sin` and `Math.random`
  as parameters. It also holds JavaScript's `Math.round` and the midpoint.
- `Decimal`: the decimal rendering of `${n}`, with its inverse.
- `Types`: the records of `src/types/index.ts`, the six product names and
  the cases of the product `switch`.
- `CityNames`: the ten city names.
- `Wrappers`: `Option`.

The distance function `dist` is a parameter throughout. Lemmas that need
its properties require `IsDistance(dist)`: never negative, zero between
equal points, symmetric. The lemmas about resolving a table city's own
coordinates also require `CitiesApart(dist)`: the ten cities of the table
are a positive distance from one another. The haversine gives zero between
some distinct points (at a pole, or across the antimeridian), so nothing
stronger is assumed. The k-th call of `Math.random()` in `getRoute`
returns `rand(k)`. Dense point t takes draw t, and the traffic delay takes
the draw after the last dense point.

## Model

| member | source | states |
|---|---|---|
| Geo.Round | src/services/routingService.ts:242 | `Math.round` returns an integer within half a unit of its argument, rounding halves up |
| Geo.RoundMonotone | src/services/routingService.ts:242 | `Math.round` never decreases as its argument grows |
| Geo.RoundNonNegative | src/services/routingService.ts:78 | the rounded distance of a non-negative length is non-negative |
| Geo.Midpoint | src/services/routingService.ts:138-139 | the midpoint is equidistant in latitude and in longitude from both ends |
| Decimal.NatToString | src/services/routingService.ts:262 | the rendering of a natural number is a non-empty string of digits without a leading zero |
| Decimal.IntToString | src/services/routingService.ts:262 | `${n}` is non-empty and starts with a digit exactly when n is not negative |
| Decimal.ParseNatToString | src/services/routingService.ts:262 | reading back the digits of a natural number gives the number |
| Decimal.IntToStringRoundTrip | src/services/routingService.ts:262 | `${n}` is a well-formed integer text and reads back as n |
| HighwayNetwork.NamesOf | src/services/routingService.ts:14-25 | the key list of `HIGHWAY_NETWORK` has one key per entry, in order |
| HighwayNetwork.LookupCity | src/services/routingService.ts:126 | `HIGHWAY_NETWORK[name]` is found exactly for the ten keys and gives that key's coordinates |
| HighwayNetwork.LookupCityIn | src/services/routingService.ts:126 | a search of the first n entries finds a name exactly when it is among them, and returns its coordinates |
| HighwayNetwork.RouteKey | src/services/routingService.ts:100-101 | the corridor key is the two names joined by one dash |
| HighwayNetwork.NamesDistinct | src/services/routingService.ts:14-25 | the table has ten entries, and no key is repeated |
| HighwayNetwork.NamesHaveNoDash | src/services/routingService.ts:14-25 | no city name contains the dash that separates corridor keys |
| HighwayNetwork.CoordinatesDistinct | src/services/routingService.ts:14-25 | no two cities share coordinates |
| HighwayNetwork.RouteKeyInjective | src/services/routingService.ts:100-101 | a corridor key determines both of its city names |
| HighwayNetwork.LookupAt | src/services/routingService.ts:126 | every entry is found under its own name |
| HighwayNetwork.JunctionKeys | src/services/routingService.ts:28-59 | the key set of `HIGHWAY_JUNCTIONS` is exactly {Mumbai-Pune, Mumbai-Delhi, Pune-Bangalore, Delhi-Bangalore} |
| HighwayNetwork.KeyOfCities | src/services/routingService.ts:100-101 | a key that equals the key of two table entries names exactly those two cities |
| HighwayNetwork.CorridorEndpoints | src/services/routingService.ts:28-59 | every stored corridor starts at its first city's coordinates and ends at its second city's |
| Routing.NearestIn | src/services/routingService.ts:88-94 | after scanning n cities the scan holds the nearest one, the earliest among equally near ones |
| Routing.NearestCityIsNearest | src/services/routingService.ts:84-97 | the chosen city is a table key no farther than any other and strictly nearer than every key before it |
| Routing.FindCityByCoords | src/services/routingService.ts:84-97 | the strict-`<` scan from `Infinity` returns the first nearest city |
| Routing.NearestOfNetworkCity | src/services/routingService.ts:84-97 | a table city's own coordinates resolve to that city when the ten table cities are a positive distance apart |
| Routing.Reverse | src/services/routingService.ts:106 | the reversed copy has the same length, and position i holds the element at the mirrored position |
| Routing.ReverseReverse | src/services/routingService.ts:106 | reversing twice gives back the corridor |
| Routing.PredefinedRoute | src/services/routingService.ts:100-107 | a stored corridor is found exactly when the forward or the backward key is stored, and it has at least five control points |
| Routing.ControlRoute | src/services/routingService.ts:99-112 | the control route has at least two points, and a synthesised one runs from the start to the end |
| Routing.ControlRouteCases | src/services/routingService.ts:99-112 | between two table cities the chosen corridor is the forward one, else the reversed backward one, else the synthesised one; it has at least two points; a stored corridor runs from the origin city's table coordinates to the destination city's |
| Routing.CorridorSymmetry | src/services/routingService.ts:99-107 | asking for the opposite direction of a stored corridor gives the same control points reversed |
| Routing.NoSelfCorridor | src/services/routingService.ts:28-59 | no corridor is stored from a city to itself |
| Routing.QualifyingIn | src/services/routingService.ts:142-151 | the filter keeps at most one name per scanned city |
| Routing.IntermediateCities | src/services/routingService.ts:153 | at most two intermediate cities are kept |
| Routing.QualifyingSound | src/services/routingService.ts:142-151 | every kept name is a table city within 0.3 times the direct distance of the midpoint and with a detour under 1.2 times the direct distance |
| Routing.QualifyingComplete | src/services/routingService.ts:142-151 | every table city that passes both strict tests is kept |
| Routing.QualifyingOrdered | src/services/routingService.ts:142-151 | the filter lists the cities it keeps in the order of the table |
| Routing.PrefixInTableOrder | src/services/routingService.ts:153 | the first k kept names are still in table order, and no passing city before one of them is missing |
| Routing.IntermediateCitiesChosen | src/services/routingService.ts:136-154 | the selection is the first two passing cities in table order: every selected city passes the tests, the selection lists them in table order, no passing city before a selected one is skipped, and a passing city is left out only when two are already selected |
| Routing.NoneQualifyForEqualEnds | src/services/routingService.ts:144-148 | when start equals end, no city passes the strict midpoint test |
| Routing.NoIntermediatesForEqualEnds | src/services/routingService.ts:136-154 | when start equals end, no intermediate city is selected |
| Routing.FindIntermediateCities | src/services/routingService.ts:136-154 | the loop pushing qualifying cities and the final `slice(0, 2)` compute the specified selection |
| Routing.CoordsOf | src/services/routingService.ts:125-130 | looking up the selected names yields at most one point per name |
| Routing.CoordsVia | src/services/routingService.ts:125-130 | a lookup that skips unknown names yields at most one point per name |
| Routing.CoordsViaFound | src/services/routingService.ts:125-130 | when every name is found, point k is the coordinates of name k |
| Routing.CoordsOfNetworkNames | src/services/routingService.ts:125-130 | table names contribute their own coordinates one for one |
| Routing.IsOnRouteSymmetric | src/services/routingService.ts:156-164 | `isOnRoute` (modelled by `IsOnRoute`): the detour test gives the same answer in both directions of travel, and an end of the trip passes it exactly when the two ends are apart |
| Routing.QualifiesSymmetric | src/services/routingService.ts:144-148 | the test of line 148 (modelled by `Qualifies`): the midpoint test and the detour test together give the same answer in both directions of travel |
| Routing.QualifyingInSymmetric | src/services/routingService.ts:142-151 | the filter keeps the same cities for the reverse trip |
| Routing.IntermediateCitiesSymmetric | src/services/routingService.ts:118-154 | the reverse trip is synthesised through the same cities in the same table order, so the interior of the corridor is not mirrored |
| Routing.IntelligentRouteShape | src/services/routingService.ts:118-134 | the synthesised corridor has 2 to 4 points, starts at start, ends at end, and every interior point is a qualifying table city |
| Routing.CoordsOfStep | src/services/routingService.ts:125-130 | one more selected name contributes its point exactly when the lookup finds it |
| Routing.CreateIntelligentRoute | src/services/routingService.ts:118-134 | the pushes build `[start, coordinates of the selected cities, end]`, of length 2 to 4 |
| Routing.SegmentCount | src/services/routingService.ts:175 | every segment is split into at least 8 intervals |
| Routing.DensePointJitter | src/services/routingService.ts:178-189 | the point formula of the inner loop (modelled by `DensePoint`): one jitter value, (r - 0.5) * 0.001, moves a point by the same amount on both axes, within [-0.0005, 0.0005) for a draw in [0, 1); where the sine vanishes, point 0 of a segment is its start and point n its end, up to that jitter |
| Routing.SegmentPoints | src/services/routingService.ts:177-192 | the inner loop's first m iterations emit m points |
| Routing.SegmentPointAt | src/services/routingService.ts:177-191 | point j of a segment is the interpolation at ratio j/n plus both curve terms, jittered by draw base + j |
| Routing.Segment | src/services/routingService.ts:177-192 | a segment emits n + 1 points, j = 0 .. n |
| Routing.DenseUpTo | src/services/routingService.ts:169-193 | the nested loops emit the sum over segments of n + 1 points |
| Routing.DenseCountAtLeast | src/services/routingService.ts:169-193 | shared segment ends are not merged, so k segments give at least 9k points |
| Routing.DenseEnd | src/services/routingService.ts:177-192 | where the sine vanishes at PI and 2 PI, the last dense point is the last control point of the last segment moved by the jitter of the draw that point consumes |
| Routing.RouteEnds | src/services/routingService.ts:166-218 | the smoothed path of a control route of at least two points starts at its first control point moved by the jitter of draw 0, and ends at its last control point moved by the jitter of the last draw the path consumes |
| Routing.DenseStart | src/services/routingService.ts:178-191 | the dense path has at least 9 points; its first point is the first control point moved by the first draw's jitter on both axes, so within 0.0005 degrees of it |
| Routing.Smooth | src/services/routingService.ts:199-218 | smoothing keeps the number of points |
| Routing.SmoothInterior | src/services/routingService.ts:204-214 | interior point i becomes the 0.25/0.5/0.25 blend of the unsmoothed points i-1, i and i+1 |
| Routing.SmoothProperties | src/services/routingService.ts:199-218 | smoothing keeps the length and both ends, blends every interior point from the unsmoothed input, and returns paths under three points unchanged |
| Routing.SmoothPath | src/services/routingService.ts:199-218 | the loop builds the specified smoothed path |
| Routing.AppendSegment | src/services/routingService.ts:177-192 | one pass of the inner loop appends the segment's n + 1 points, taking draws from the current point count |
| Routing.GenerateSmoothHighwayPath | src/services/routingService.ts:166-197 | the nested loops and `smoothPath` give the smoothed densification of the control route |
| Routing.ChooseBaseRoute | src/services/routingService.ts:99-112 | the lookup chain returns the specified control route |
| Routing.GenerateHighwayRoute | src/services/routingService.ts:99-116 | the route is the smoothed densification of the chosen control route |
| Routing.PathLengthNonNegative | src/services/routingService.ts:220-230 | the sum `calculateRouteDistance` computes (modelled by `PathLength`): a path's length is never negative |
| Routing.PathLengthAppend | src/services/routingService.ts:220-230 | `PathLength`, the sum of `calculateRouteDistance`: the length of two joined paths is the sum of their lengths plus the leg between them, so the length is the sum over consecutive pairs however the path is split |
| Routing.CalculateRouteDistance | src/services/routingService.ts:220-230 | the accumulator loop sums the distances of consecutive points, giving 0 for fewer than two points |
| Routing.DurationMonotone | src/services/routingService.ts:232-243 | `calculateRealisticDuration` (modelled by `CalculateRealisticDuration`): for a fixed draw, the duration never decreases with distance or with the number of waypoints |
| Routing.DurationBounds | src/services/routingService.ts:232-243 | `calculateRealisticDuration`: the traffic slack puts the duration between round(1.5d + 15n) and round(1.5d + 15n + 30) |
| Routing.DurationNonNegative | src/services/routingService.ts:232-243 | `calculateRealisticDuration`: a route of non-negative length and point count never takes negative time |
| Routing.GenerateDetailedInstructions | src/services/routingService.ts:257-271 | the template has exactly nine lines |
| Routing.InstructionsNameCities | src/services/routingService.ts:259-267 | line 1 names the origin; lines 6 and 9 name the destination |
| Routing.InstructionsCruiseFigure | src/services/routingService.ts:262 | line 4 quotes a figure that reads back as 70% of the distance, rounded |
| Routing.GetRoute | src/services/routingService.ts:61-82 | both ends resolve to their nearest cities; the coordinates are the smoothed densified corridor; the distance is the rounded path length; duration and instructions get the unrounded length; there are at least 9 coordinates and 9 instructions; the distance is never negative, nor is the duration for draws in [0, 1); a trip from a point to itself gives exactly 9 coordinates and instructions naming one city at both ends, and takes at least 135 minutes for draws in [0, 1); where the sine vanishes at 0, PI and 2 PI, the first and last coordinates are the control route's ends (the cities' table coordinates for a stored corridor, the requested points otherwise) moved by the jitter of the first and the last draw |
| Routing.StoredCorridorEnds | src/services/routingService.ts:100-107 | a stored corridor between two table cities, forward or reversed, starts at the first city's table coordinates and ends at the second's |
| Routing.ControlRouteEnds | src/services/routingService.ts:99-112 | the control route `getRoute` densifies starts at the origin city's table coordinates when a corridor is stored and at the requested origin otherwise, and ends likewise at the destination city's or the requested destination |
| Routing.RouteEndpoints | src/services/routingService.ts:61-82 | where the sine vanishes at 0, PI and 2 PI, the route's first point is that start moved by the jitter of draw 0, and its last point that end moved by the jitter of the last draw the path consumes |
| Routing.DegenerateRoute | src/services/routingService.ts:99-193 | a trip from a point to itself has the control route [p, p] and a smoothed path of 9 points |
| Routing.RouteGuarantees | src/services/routingService.ts:61-82 | the reported distance is never negative, the duration is never negative for draws in [0, 1), and a trip from a point to itself yields 9 coordinates with both ends resolved to the same city, and for draws in [0, 1) at least 135 minutes, since each of its nine dense points adds 15 |
| Types.CaseOf | src/utils/enhancedMockAI.ts:36-139 | a product selects the default case exactly when it is none of the six labels, and otherwise the case whose label it is |
| Types.SavingPercent | src/utils/enhancedMockAI.ts:44-148 | the rounded percentage of fuel saved is between 0 and 100 when the cold-chain plan uses no more than the default, and not positive when it uses more |
| Types.CaseOfLabel | src/utils/mockAI.ts:11-92 | each label selects its own case, so no case is dead |
| Weather.CitiesOf | src/services/weatherService.ts:25-106 | the keys of the table, one per entry, in order |
| Weather.Find | src/services/weatherService.ts:108 | `mockWeatherData[cityName]` is missing exactly for names that are not keys, and otherwise is the forecast stored under the name |
| Weather.TableWellFormed | src/services/weatherService.ts:25-106 | ten distinct keys, Mumbai first; every forecast has three days dated 2025-01-16 to 2025-01-18, each with its minimum below its maximum; each current reading equals its first day's maximum, condition and icon |
| Weather.WeatherLookup | src/services/weatherService.ts:21-108 | `getWeatherData`: a listed city gets its own forecast and any other name gets Mumbai's; either way a well-formed three-day forecast |
| Weather.IconCodes | src/services/weatherService.ts:112-122 | `iconMap` lists exactly eighteen codes, the day and night variants of nine |
| Weather.GetWeatherIcon | src/services/weatherService.ts:111-124 | a listed code gets its own icon; any other code gets the icon of `01d` |
| EnhancedAI.AverageTemperature | src/utils/enhancedMockAI.ts:16-19 | `avgTemp`: the mean lies halfway between the two current readings |
| EnhancedAI.HotWeatherOfReadings | src/utils/enhancedMockAI.ts:16-20 | `isHotWeather` (modelled by `IsHotWeather` of the mean): the weather is hot exactly when the two current readings add up to more than 60, so a mean of exactly 30 is not hot |
| EnhancedAI.GetOptimalDepartureTime | src/utils/enhancedMockAI.ts:24-32 | the time is HH:00 with two digits; ice cream and frozen peas leave at 22:00 above 30 degrees and 20:00 otherwise, chicken at 04:00 above 25 degrees and 06:00 otherwise, every other product at 05:00 above 30 degrees and 07:00 otherwise |
| EnhancedAI.DepartureShiftsWithHeat | src/utils/enhancedMockAI.ts:24-32 | a warmer mean moves a frozen departure later and any other departure earlier, never the reverse |
| EnhancedAI.GenerateEnhancedAIRecommendation | src/utils/enhancedMockAI.ts:4-155 | delivery is estimated 100 hours after `now`; the departure is 2025-07-11 for paneer, flavoured milk and curd and 2025-07-10 otherwise, at the optimal departure time |
| EnhancedAI.FuelSavingConsistent | src/utils/enhancedMockAI.ts:44-148 | in all fourteen branches the cold-chain fuel is positive and below the default fuel, and `fuelSaved` is the rounded percentage saved |
| EnhancedAI.HotNeverBelowMild | src/utils/enhancedMockAI.ts:36-155 | for the same product, the hot branch never quotes less fuel, a smaller saving, less CO2 avoided or a lower spoilage risk than the mild branch |
| EnhancedAI.RouteAlwaysReplaced | src/utils/enhancedMockAI.ts:12-152 | every branch overrides the base route advice |
| EnhancedAI.RiskExtremes | src/utils/enhancedMockAI.ts:88-137 | frozen peas are always low risk, and curd always high risk |
| EnhancedAI.DependsOnProductAndMean | src/utils/enhancedMockAI.ts:4-36 | only the product and the mean temperature matter: origin, destination, quantity, deadline and the individual temperatures do not |
| EnhancedAI.UnknownProductsAlike | src/utils/enhancedMockAI.ts:139-154 | every unlisted product gets the same default answer: 20 or 18 units of fuel, and high or medium risk |
| EnhancedAI.MockWeatherHeat | src/utils/enhancedMockAI.ts:16-20 | with the mock forecasts, Mumbai and Chennai average 31, which is hot; Mumbai and Pune average exactly 30, which is not |
| MockAI.GenerateAIRecommendation | src/utils/mockAI.ts:3-105 | delivery is estimated 24 hours after `now`; every departure is on 2025-07-11; it is at night exactly for ice cream and frozen peas, and otherwise between 04:00 and 08:00 |
| MockAI.FuelSavingConsistent | src/utils/mockAI.ts:18-99 | in every branch the cold-chain fuel is positive and below the default fuel, and `fuelSaved` is the rounded percentage saved |
| MockAI.RouteAlwaysReplaced | src/utils/mockAI.ts:8-102 | every branch overrides the base route advice |
| MockAI.DependsOnlyOnProduct | src/utils/mockAI.ts:3-103 | only the product matters; every unlisted product gets the 08:00 default with 18 units of fuel, 14 cold-chain units and medium risk |
| MockAI.AgreesWithEnhancedInMildWeather | src/utils/mockAI.ts:11-104 | in mild weather both recommenders quote the same fuel figures, saving, CO2 figure and risk for every product, and the same cooling plan except for ice cream and chicken |
| CityList.CitiesMatchNetwork | src/data/cities.ts:3-14 | the city list is the network table: same names, same coordinates, same order |
| CityList.CitiesDistinct | src/data/cities.ts:3-14 | no city is offered twice |
| CityList.ChosenCityResolves | src/data/cities.ts:4-13 | the coordinates of a chosen city resolve back to that city |
| CityList.WeatherKeysAreNetworkNames | src/services/weatherService.ts:25-106 | the weather table's keys are the network's ten cities, in the same order |
| CityList.ChosenCityHasWeather | src/data/cities.ts:3-14 | every offered city has its own forecast |
| CityList.ProductsAreTheListedCases | src/data/cities.ts:16-23 | the six products are exactly the products with a case of their own, each selecting a different case, so the form never reaches a default branch |

## Left out

- The haversine formula and `Math.sin` are parameters. Their floating-point
  trigonometry is not modelled, and all arithmetic is on exact reals rather
  than doubles.
- `Math.random` is a stream of draws `rand`. Their range [0, 1) is required
  only where a lemma needs it.
- `Date.now()` is the parameter `now`. `estimatedDelivery` stays a
  millisecond count; its `toISOString` formatting is not modelled.
- The simulated delays of `getRoute` and `getWeatherData`, and their
  `async` wrapping, are left out.
- JavaScript object lookups also see inherited keys such as `toString`.
  `mockWeatherData[cityName]`, `iconMap[iconCode]` and `HIGHWAY_NETWORK[city]`
  are modelled as lookups of the literal's own keys only.
- The fallback `baseRoute || [start, end]` of `generateHighwayRoute` is
  unreachable: every chosen corridor is a non-empty array. It is not
  modelled.
- `isColdWeather` in `enhancedMockAI.ts` is computed but never read. It is
  not modelled.
- The `highways` lists of `HIGHWAY_NETWORK` are kept as data; no code reads
  them.
- The icon strings are kept as the code points the source file holds, as
  opaque constants.
- The icon table has eighteen codes (day and night variants of nine).
- Several details of the routing follow the code as written, although they
  may be unexpected:
  - segment boundary points are not de-duplicated;
  - the first dense point is jittered rather than exact;
  - both corridor tests are strict;
  - the midpoint is the arithmetic mean of latitude and longitude;
  - an origin equal to its destination still yields a nine-point path;
  - the duration counts 15 minutes per dense point, not per control point,
    so a trip from a point to itself takes at least round(9 × 15) = 135
    minutes;
  - a stored corridor starts and ends at the two resolved cities' table
    coordinates and ignores the requested points: an origin of
    (19.2, 72.9) resolves to Mumbai, and a Mumbai–Pune route then starts
    at Mumbai's (19.0760, 72.8777) plus jitter.
- The React components and their timers are not part of this model.
  `src/types/index.ts` is kept as datatypes only.
- MockAI.GenerateAIRecommendation: its contract gives the departure hour
  per product group (night for frozen goods, 04:00 to 08:00 otherwise),
  not the exact hour of each case.
- EnhancedAI.GenerateEnhancedAIRecommendation: its contract gives delivery
  and departure. The cooling plans and route texts are stated only through
  RouteAlwaysReplaced and AgreesWithEnhancedInMildWeather.
- EnhancedAI.AverageTemperature: the temperatures (`temperature`,
  `temp_min`, `temp_max`) are JavaScript numbers but are modelled as
  integers, so this function and the recommender lemmas cover integer
  readings only. Every reading
  the application passes in comes from the integer table of
  `getWeatherData`, so no reachable input is lost.
