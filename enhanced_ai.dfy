/** The weather-aware recommender (`enhancedMockAI.ts`): a decision table
    keyed by product and by whether the mean current temperature of the two
    ends is above 30 degrees. */
module EnhancedAI {
  import opened Types
  import opened Weather
  import opened CityNames

  /** `avgTemp`: the mean of the two current temperatures. */
  function AverageTemperature(originWeather: WeatherForecast, destinationWeather: WeatherForecast): (avg: real)
    ensures var o := originWeather.current.temperature as real;
      var d := destinationWeather.current.temperature as real;
      avg - o == d - avg && (o <= d ==> o <= avg <= d) && (d <= o ==> d <= avg <= o)
  {
    (originWeather.current.temperature + destinationWeather.current.temperature) as real / 2.0
  }

  /** `isHotWeather`. */
  predicate IsHotWeather(avgTemp: real)
  {
    avgTemp > 30.0
  }

  /** The weather is hot exactly when the two current readings add up to
      more than 60 degrees; a mean of exactly 30 is not hot. */
  lemma HotWeatherOfReadings(originWeather: WeatherForecast, destinationWeather: WeatherForecast)
    ensures IsHotWeather(AverageTemperature(originWeather, destinationWeather))
      <==> originWeather.current.temperature + destinationWeather.current.temperature > 60
  {
  }

  /** The hour of an "HH:MM" time. */
  function HourOf(t: string): int
    requires |t| >= 2
  {
    (t[0] as int - '0' as int) * 10 + (t[1] as int - '0' as int)
  }

  /** `getOptimalDepartureTime`: frozen goods leave at night, everything
      else in the early morning. */
  function GetOptimalDepartureTime(product: string, weather: real): (t: string)
    ensures |t| == 5 && t[2] == ':' && t[3..] == "00"
    ensures (product == IceCream || product == FrozenPeas) <==> HourOf(t) >= 20
    ensures product != IceCream && product != FrozenPeas ==> 4 <= HourOf(t) <= 7
    ensures HourOf(t) in {4, 5, 22} <==> weather > (if product == Chicken then 25.0 else 30.0)
    ensures '0' <= t[0] <= '9' && '0' <= t[1] <= '9'
    ensures (product == IceCream || product == FrozenPeas) ==> HourOf(t) == (if weather > 30.0 then 22 else 20)
    ensures product == Chicken ==> HourOf(t) == (if weather > 25.0 then 4 else 6)
    ensures product != IceCream && product != FrozenPeas && product != Chicken ==>
      HourOf(t) == (if weather > 30.0 then 5 else 7)
  {
    if product == IceCream || product == FrozenPeas then
      (if weather > 30.0 then "22:00" else "20:00")
    else if product == Chicken then
      (if weather > 25.0 then "04:00" else "06:00")
    else
      (if weather > 30.0 then "05:00" else "07:00")
  }

  /** Heat moves a frozen departure later into the night and a fresh one
      earlier into the morning, never the other way. */
  lemma DepartureShiftsWithHeat(product: string, cooler: real, warmer: real)
    requires cooler <= warmer
    ensures var early := HourOf(GetOptimalDepartureTime(product, cooler));
      var late := HourOf(GetOptimalDepartureTime(product, warmer));
      if product == IceCream || product == FrozenPeas then early <= late else late <= early
  {
  }

  /** The two departure dates. */
  const July10: string := "2025-07-10T"
  const July11: string := "2025-07-11T"

  /** The date in front of the departure time: the fresh dairy products
      (paneer, flavoured milk, curd) leave a day later than the rest. */
  function DatePrefix(c: ProductCase): string
  {
    if c == PaneerCase || c == FlavoredMilkCase || c == CurdCase then July11 else July10
  }

  /** `baseRecommendation.routeOptimization`, which every case replaces. */
  const BaseRouteOptimization: string := "Optimized route with temperature monitoring"

  /** `generateEnhancedAIRecommendation`; `now` stands for `Date.now()`. */
  function GenerateEnhancedAIRecommendation(shipment: ShipmentData, originWeather: WeatherForecast,
                                            destinationWeather: WeatherForecast, now: int): (r: AIRecommendation)
    ensures r.estimatedDelivery == now + 100 * HourMillis
    ensures r.recommendedDeparture
      == DatePrefix(CaseOf(shipment.product))
         + GetOptimalDepartureTime(shipment.product, AverageTemperature(originWeather, destinationWeather))
  {
    var estimatedDelivery := now + 100 * HourMillis;
    var avgTemp := AverageTemperature(originWeather, destinationWeather);
    var isHotWeather := IsHotWeather(avgTemp);
    var departureTime := GetOptimalDepartureTime(shipment.product, avgTemp);
    match CaseOf(shipment.product)
    case IceCreamCase =>
      AIRecommendation(
        July10 + departureTime,
        if isHotWeather then IceCreamCoolingHot else IceCreamCoolingMild,
        if isHotWeather then 28 else 25,
        if isHotWeather then 16 else 15,
        if isHotWeather then 43 else 40,
        if isHotWeather then 28 else 26,
        if isHotWeather then Medium else Low,
        if isHotWeather then IceCreamRouteHot else IceCreamRouteMild,
        estimatedDelivery)
    case PaneerCase =>
      AIRecommendation(
        July11 + departureTime,
        if isHotWeather then PaneerCoolingHot else PaneerCoolingMild,
        if isHotWeather then 20 else 18,
        if isHotWeather then 13 else 12,
        if isHotWeather then 35 else 33,
        if isHotWeather then 17 else 15,
        if isHotWeather then Medium else Low,
        if isHotWeather then PaneerRouteHot else PaneerRouteMild,
        estimatedDelivery)
    case ChickenCase =>
      AIRecommendation(
        July10 + departureTime,
        if isHotWeather then ChickenCoolingHot else ChickenCoolingMild,
        if isHotWeather then 25 else 22,
        if isHotWeather then 18 else 16,
        if isHotWeather then 28 else 27,
        if isHotWeather then 20 else 18,
        if isHotWeather then High else Medium,
        if isHotWeather then ChickenRouteHot else ChickenRouteMild,
        estimatedDelivery)
    case FrozenPeasCase =>
      AIRecommendation(
        July10 + departureTime,
        if isHotWeather then FrozenPeasCoolingHot else FrozenPeasCoolingMild,
        if isHotWeather then 23 else 20,
        if isHotWeather then 14 else 13,
        if isHotWeather then 39 else 35,
        if isHotWeather then 21 else 19,
        Low,
        if isHotWeather then FrozenPeasRouteHot else FrozenPeasRouteMild,
        estimatedDelivery)
    case FlavoredMilkCase =>
      AIRecommendation(
        July11 + departureTime,
        if isHotWeather then FlavoredMilkCoolingHot else FlavoredMilkCoolingMild,
        if isHotWeather then 18 else 16,
        if isHotWeather then 12 else 11,
        if isHotWeather then 33 else 31,
        if isHotWeather then 15 else 13,
        if isHotWeather then High else Medium,
        if isHotWeather then FlavoredMilkRouteHot else FlavoredMilkRouteMild,
        estimatedDelivery)
    case CurdCase =>
      AIRecommendation(
        July11 + departureTime,
        if isHotWeather then CurdCoolingHot else CurdCoolingMild,
        if isHotWeather then 16 else 14,
        if isHotWeather then 11 else 10,
        if isHotWeather then 31 else 29,
        if isHotWeather then 13 else 11,
        if isHotWeather then High else High,
        if isHotWeather then CurdRouteHot else CurdRouteMild,
        estimatedDelivery)
    case DefaultCase =>
      AIRecommendation(
        July10 + departureTime,
        if isHotWeather then DefaultCoolingHot else DefaultCoolingMild,
        if isHotWeather then 20 else 18,
        if isHotWeather then 15 else 14,
        if isHotWeather then 25 else 22,
        if isHotWeather then 14 else 12,
        if isHotWeather then High else Medium,
        if isHotWeather then DefaultRouteHot else DefaultRouteMild,
        estimatedDelivery)
  }

  /** In all fourteen cases the cold-chain plan burns less fuel than the
      default plan, and `fuelSaved` is the saving in percent, rounded. */
  lemma FuelSavingConsistent(s: ShipmentData, originWeather: WeatherForecast, destinationWeather: WeatherForecast,
                             now: int)
    ensures var r := GenerateEnhancedAIRecommendation(s, originWeather, destinationWeather, now);
      0 < r.cciaFuel < r.defaultFuel && r.fuelSaved == SavingPercent(r.defaultFuel, r.cciaFuel)
  {
    assert SavingPercent(28, 16) == 43 && SavingPercent(25, 15) == 40;
    assert SavingPercent(20, 13) == 35 && SavingPercent(18, 12) == 33;
    assert SavingPercent(25, 18) == 28 && SavingPercent(22, 16) == 27;
    assert SavingPercent(23, 14) == 39 && SavingPercent(20, 13) == 35;
    assert SavingPercent(18, 12) == 33 && SavingPercent(16, 11) == 31;
    assert SavingPercent(16, 11) == 31 && SavingPercent(14, 10) == 29;
    assert SavingPercent(20, 15) == 25 && SavingPercent(18, 14) == 22;
  }

  /** For the same product, the hot case never quotes less fuel, a smaller
      saving or a lower spoilage risk than the mild case. */
  lemma HotNeverBelowMild(product: string, mild: (WeatherForecast, WeatherForecast),
                          hot: (WeatherForecast, WeatherForecast), s: ShipmentData, t: ShipmentData, now: int)
    requires s.product == product && t.product == product
    requires !IsHotWeather(AverageTemperature(mild.0, mild.1))
    requires IsHotWeather(AverageTemperature(hot.0, hot.1))
    ensures var m := GenerateEnhancedAIRecommendation(s, mild.0, mild.1, now);
      var h := GenerateEnhancedAIRecommendation(t, hot.0, hot.1, now);
      && h.defaultFuel >= m.defaultFuel && h.cciaFuel >= m.cciaFuel
      && h.fuelSaved >= m.fuelSaved && h.co2Avoided >= m.co2Avoided
      && h.spoilageRisk.Rank() >= m.spoilageRisk.Rank()
  {
  }

  /** Every case overrides the route advice of `baseRecommendation`. */
  lemma RouteAlwaysReplaced(s: ShipmentData, originWeather: WeatherForecast, destinationWeather: WeatherForecast,
                            now: int)
    ensures GenerateEnhancedAIRecommendation(s, originWeather, destinationWeather, now).routeOptimization
      != BaseRouteOptimization
  {
  }

  /** Frozen peas are always low risk and curd always high risk. */
  lemma RiskExtremes(s: ShipmentData, originWeather: WeatherForecast, destinationWeather: WeatherForecast, now: int)
    ensures var r := GenerateEnhancedAIRecommendation(s, originWeather, destinationWeather, now);
      && (s.product == FrozenPeas ==> r.spoilageRisk == Low)
      && (s.product == Curd ==> r.spoilageRisk == High)
  {
  }

  /** The recommendation reads only the product and the mean temperature:
      origin, destination, quantity and deadline do not matter. */
  lemma DependsOnProductAndMean(s: ShipmentData, t: ShipmentData, o1: WeatherForecast, d1: WeatherForecast,
                                o2: WeatherForecast, d2: WeatherForecast, now: int)
    requires s.product == t.product
    requires AverageTemperature(o1, d1) == AverageTemperature(o2, d2)
    ensures GenerateEnhancedAIRecommendation(s, o1, d1, now) == GenerateEnhancedAIRecommendation(t, o2, d2, now)
  {
  }

  /** Every product without a case of its own gets the same default
      recommendation: 18 or 20 units of fuel, medium or high risk. */
  lemma UnknownProductsAlike(s: ShipmentData, t: ShipmentData, originWeather: WeatherForecast,
                             destinationWeather: WeatherForecast, now: int)
    requires !IsListedProduct(s.product) && !IsListedProduct(t.product)
    ensures var r := GenerateEnhancedAIRecommendation(s, originWeather, destinationWeather, now);
      && r == GenerateEnhancedAIRecommendation(t, originWeather, destinationWeather, now)
      && r.defaultFuel == (if IsHotWeather(AverageTemperature(originWeather, destinationWeather)) then 20 else 18)
      && r.spoilageRisk == (if IsHotWeather(AverageTemperature(originWeather, destinationWeather)) then High else Medium)
  {
  }

  /** With the mock forecasts, Mumbai (32) and Chennai (30) average 31,
      which is hot; Mumbai and Pune (28) average exactly 30, which is not. */
  lemma MockWeatherHeat()
    ensures AverageTemperature(GetWeatherData(Mumbai), GetWeatherData(Chennai)) == 31.0
    ensures IsHotWeather(AverageTemperature(GetWeatherData(Mumbai), GetWeatherData(Chennai)))
    ensures AverageTemperature(GetWeatherData(Mumbai), GetWeatherData(Pune)) == 30.0
    ensures !IsHotWeather(AverageTemperature(GetWeatherData(Mumbai), GetWeatherData(Pune)))
  {
    assert MockWeatherData[0] == WeatherEntry(Mumbai, MumbaiWeather);
    assert MockWeatherData[1] == WeatherEntry(Pune, PuneWeather);
    assert MockWeatherData[4] == WeatherEntry(Chennai, ChennaiWeather);
    WeatherLookup(Mumbai);
    WeatherLookup(Pune);
    WeatherLookup(Chennai);
  }

  /** The texts of the decision table: the cooling plan and the route advice
      of each case, for hot and for mild weather. */
  const IceCreamCoolingHot: string := "Pre-chill to -25\U{B0}C, maintain -18\U{B0}C with enhanced insulation"
  const IceCreamCoolingMild: string := "Pre-chill to -22\U{B0}C, maintain -18\U{B0}C throughout journey"
  const IceCreamRouteHot: string := "Night route with 4 temperature checkpoints and enhanced cooling"
  const IceCreamRouteMild: string := "Night route with 3 temperature checkpoints"
  const PaneerCoolingHot: string := "Maintain 0\U{B0}C to 1\U{B0}C with humidity control and extra insulation"
  const PaneerCoolingMild: string := "Maintain 0\U{B0}C to 2\U{B0}C with humidity control"
  const PaneerRouteHot: string := "Early morning route with enhanced temperature monitoring"
  const PaneerRouteMild: string := "Morning route with standard temperature monitoring"
  const ChickenCoolingHot: string := "Maintain -2\U{B0}C to 0\U{B0}C with strict temperature control and backup cooling"
  const ChickenCoolingMild: string := "Maintain -1\U{B0}C to 0\U{B0}C with strict temperature control"
  const ChickenRouteHot: string := "Direct route with continuous monitoring and backup systems"
  const ChickenRouteMild: string := "Direct route with continuous cold chain monitoring"
  const FrozenPeasCoolingHot: string := "Maintain -20\U{B0}C with minimal temperature fluctuation and enhanced insulation"
  const FrozenPeasCoolingMild: string := "Maintain -18\U{B0}C with minimal temperature fluctuation"
  const FrozenPeasRouteHot: string := "Night route with optimized cooling cycles and weather monitoring"
  const FrozenPeasRouteMild: string := "Night route with optimized cooling cycles"
  const FlavoredMilkCoolingHot: string := "Maintain 1\U{B0}C to 3\U{B0}C with gentle handling and enhanced cooling"
  const FlavoredMilkCoolingMild: string := "Maintain 2\U{B0}C to 4\U{B0}C with gentle handling"
  const FlavoredMilkRouteHot: string := "Early morning route with enhanced cooling and smooth roads"
  const FlavoredMilkRouteMild: string := "Morning route with smooth road preference"
  const CurdCoolingHot: string := "Maintain 1\U{B0}C to 4\U{B0}C with minimal vibration and enhanced cooling"
  const CurdCoolingMild: string := "Maintain 2\U{B0}C to 6\U{B0}C with minimal vibration"
  const CurdRouteHot: string := "Shortest route with enhanced temperature control and minimal stops"
  const CurdRouteMild: string := "Shortest route with stable temperature zones"
  const DefaultCoolingHot: string := "Enhanced refrigeration at 2\U{B0}C with weather adaptation"
  const DefaultCoolingMild: string := "Standard refrigeration at 4\U{B0}C"
  const DefaultRouteHot: string := "Weather-optimized route with enhanced monitoring"
  const DefaultRouteMild: string := "Standard route with temperature monitoring"
}
