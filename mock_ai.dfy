/** The first recommender (`mockAI.ts`): a fixed answer per product, with
    no weather input. */
module MockAI {
  import opened Types
  import opened Weather
  import EnhancedAI

  /** `baseRecommendation.routeOptimization`, which every case replaces. */
  const BaseRouteOptimization: string := "Highway route with 2 temperature checkpoints"

  /** The day every departure is scheduled on. */
  const DepartureDate: string := "2025-07-11T"

  /** `generateAIRecommendation`; `now` stands for `Date.now()`. The
      departure of each case is the date followed by its time. */
  function GenerateAIRecommendation(shipment: ShipmentData, now: int): (r: AIRecommendation)
    ensures r.estimatedDelivery == now + 24 * HourMillis
    ensures |r.recommendedDeparture| == 16 && r.recommendedDeparture[..11] == DepartureDate
    ensures var c := CaseOf(shipment.product);
      var hour := EnhancedAI.HourOf(r.recommendedDeparture[11..]);
      && ((c == IceCreamCase || c == FrozenPeasCase) <==> hour >= 20)
      && (c != IceCreamCase && c != FrozenPeasCase ==> 4 <= hour <= 8)
  {
    var estimatedDelivery := now + 24 * HourMillis;
    match CaseOf(shipment.product)
    case IceCreamCase =>
      AIRecommendation(DepartureDate + "22:00", IceCreamCooling, 25, 15, 40, 26, Low, IceCreamRoute, estimatedDelivery)
    case PaneerCase =>
      AIRecommendation(DepartureDate + "05:00", PaneerCooling, 18, 12, 33, 15, Low, PaneerRoute, estimatedDelivery)
    case ChickenCase =>
      AIRecommendation(DepartureDate + "04:00", ChickenCooling, 22, 16, 27, 18, Medium, ChickenRoute, estimatedDelivery)
    case FrozenPeasCase =>
      AIRecommendation(DepartureDate + "20:00", FrozenPeasCooling, 20, 13, 35, 19, Low, FrozenPeasRoute,
                       estimatedDelivery)
    case FlavoredMilkCase =>
      AIRecommendation(DepartureDate + "06:00", FlavoredMilkCooling, 16, 11, 31, 13, Medium, FlavoredMilkRoute,
                       estimatedDelivery)
    case CurdCase =>
      AIRecommendation(DepartureDate + "07:00", CurdCooling, 14, 10, 29, 11, High, CurdRoute, estimatedDelivery)
    case DefaultCase =>
      AIRecommendation(DepartureDate + "08:00", DefaultCooling, 18, 14, 22, 12, Medium, DefaultRoute,
                       estimatedDelivery)
  }

  /** In every case the cold-chain plan burns less fuel than the default
      plan, and `fuelSaved` is the saving in percent, rounded. */
  lemma FuelSavingConsistent(s: ShipmentData, now: int)
    ensures var r := GenerateAIRecommendation(s, now);
      0 < r.cciaFuel < r.defaultFuel && r.fuelSaved == SavingPercent(r.defaultFuel, r.cciaFuel)
  {
    assert SavingPercent(25, 15) == 40 && SavingPercent(18, 12) == 33;
    assert SavingPercent(22, 16) == 27 && SavingPercent(20, 13) == 35;
    assert SavingPercent(16, 11) == 31 && SavingPercent(14, 10) == 29;
    assert SavingPercent(18, 14) == 22;
  }

  /** Every case overrides the route advice of `baseRecommendation`. */
  lemma RouteAlwaysReplaced(s: ShipmentData, now: int)
    ensures GenerateAIRecommendation(s, now).routeOptimization != BaseRouteOptimization
  {
  }

  /** Only the product matters, and every unlisted product gets the same
      default answer: an 08:00 departure, 18 units of fuel, medium risk. */
  lemma DependsOnlyOnProduct(s: ShipmentData, t: ShipmentData, now: int)
    requires s.product == t.product || (!IsListedProduct(s.product) && !IsListedProduct(t.product))
    ensures GenerateAIRecommendation(s, now) == GenerateAIRecommendation(t, now)
    ensures !IsListedProduct(s.product) ==>
      var r := GenerateAIRecommendation(s, now);
      && r.recommendedDeparture == DepartureDate + "08:00"
      && r.defaultFuel == 18 && r.cciaFuel == 14 && r.spoilageRisk == Medium
  {
  }

  /** In mild weather the weather-aware recommender quotes, for every
      product, the same fuel figures, saving, CO2 figure and spoilage risk
      as this one; apart from ice cream and chicken it also gives the same
      cooling plan. */
  lemma AgreesWithEnhancedInMildWeather(s: ShipmentData, originWeather: WeatherForecast,
                                        destinationWeather: WeatherForecast, now: int, later: int)
    requires !EnhancedAI.IsHotWeather(EnhancedAI.AverageTemperature(originWeather, destinationWeather))
    ensures var m := GenerateAIRecommendation(s, now);
      var e := EnhancedAI.GenerateEnhancedAIRecommendation(s, originWeather, destinationWeather, later);
      && m.defaultFuel == e.defaultFuel && m.cciaFuel == e.cciaFuel
      && m.fuelSaved == e.fuelSaved && m.co2Avoided == e.co2Avoided
      && m.spoilageRisk == e.spoilageRisk
      && (CaseOf(s.product) != IceCreamCase && CaseOf(s.product) != ChickenCase ==> m.coolingPlan == e.coolingPlan)
  {
  }

  /** The texts of each case: the cooling plan and the route advice. */
  const IceCreamCooling: string := "Pre-chill to -22\U{B0}C, then maintain -18\U{B0}C throughout journey"
  const IceCreamRoute: string := "Night departure route with 3 reefer stations"
  const PaneerCooling: string := "Maintain 0\U{B0}C to 2\U{B0}C with humidity control"
  const PaneerRoute: string := "Early morning departure with temperature monitoring"
  const ChickenCooling: string := "Maintain -5\U{B0}C to 0\U{B0}C with strict temperature control"
  const ChickenRoute: string := "Direct route with continuous cold chain monitoring"
  const FrozenPeasCooling: string := "Maintain -18\U{B0}C with minimal temperature fluctuation"
  const FrozenPeasRoute: string := "Night route with optimized reefer cycles"
  const FlavoredMilkCooling: string := "Maintain 2\U{B0}C to 4\U{B0}C with gentle handling"
  const FlavoredMilkRoute: string := "Morning departure with smooth road preference"
  const CurdCooling: string := "Maintain 2\U{B0}C to 6\U{B0}C with minimal vibration"
  const CurdRoute: string := "Shortest route with stable temperature zones"
  const DefaultCooling: string := "Standard refrigeration at 4\U{B0}C"
  const DefaultRoute: string := "Standard route with temperature monitoring"
}
