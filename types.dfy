/** The records the recommenders and the city list exchange (`types/index.ts`). */
module Types {
  import opened Geo

  /** What the shipment form submits. */
  datatype ShipmentData = ShipmentData(
    origin: string,
    destination: string,
    product: string,
    quantity: real,
    deadline: string)

  /** `'Low' | 'Medium' | 'High'`. */
  datatype SpoilageRisk = Low | Medium | High
  {
    /** The order Low < Medium < High. */
    function Rank(): nat
    {
      match this
      case Low => 0
      case Medium => 1
      case High => 2
    }
  }

  /** A recommendation. `estimatedDelivery` is kept as the millisecond
      timestamp the source formats with `toISOString`. */
  datatype AIRecommendation = AIRecommendation(
    recommendedDeparture: string,
    coolingPlan: string,
    defaultFuel: int,
    cciaFuel: int,
    fuelSaved: int,
    co2Avoided: int,
    spoilageRisk: SpoilageRisk,
    routeOptimization: string,
    estimatedDelivery: int)

  /** An entry of the city list. */
  datatype City = City(name: string, coordinates: Point)

  /** The share of the default plan's fuel that the cold-chain plan saves,
      in percent and rounded: the relation the tables' `fuelSaved` column
      follows. */
  function SavingPercent(defaultFuel: int, cciaFuel: int): (p: int)
    requires defaultFuel > 0
    ensures 0 <= cciaFuel <= defaultFuel ==> 0 <= p <= 100
    ensures cciaFuel > defaultFuel ==> p <= 0
  {
    var saving := 100.0 * (defaultFuel - cciaFuel) as real / defaultFuel as real;
    assert 0 <= cciaFuel <= defaultFuel ==> 0.0 <= saving <= 100.0 by {
      if 0 <= cciaFuel <= defaultFuel {
        var d := defaultFuel as real;
        assert saving * d == 100.0 * (defaultFuel - cciaFuel) as real <= 100.0 * d;
      }
    }
    assert cciaFuel > defaultFuel ==> saving < 0.0;
    Round(saving)
  }

  /** The product names both recommenders switch on. */
  const IceCream: string := "Ice Cream"
  const Paneer: string := "Paneer"
  const Chicken: string := "Chicken"
  const FrozenPeas: string := "Frozen Peas"
  const FlavoredMilk: string := "Flavored Milk"
  const Curd: string := "Curd"

  /** A product with a case of its own in the recommenders' switches. */
  predicate IsListedProduct(product: string)
  {
    product == IceCream || product == Paneer || product == Chicken
    || product == FrozenPeas || product == FlavoredMilk || product == Curd
  }

  /** The cases of the recommenders' `switch (shipment.product)`: one per
      listed product and the `default` case. */
  datatype ProductCase = IceCreamCase | PaneerCase | ChickenCase | FrozenPeasCase | FlavoredMilkCase | CurdCase
                       | DefaultCase
  {
    /** The case label, for the six listed cases. */
    function Label(): string
      requires this != DefaultCase
    {
      match this
      case IceCreamCase => IceCream
      case PaneerCase => Paneer
      case ChickenCase => Chicken
      case FrozenPeasCase => FrozenPeas
      case FlavoredMilkCase => FlavoredMilk
      case CurdCase => Curd
    }
  }

  /** The case a product name selects: the first label equal to it, else
      `default`. */
  function CaseOf(product: string): (c: ProductCase)
    ensures c == DefaultCase <==> !IsListedProduct(product)
    ensures c != DefaultCase ==> c.Label() == product
  {
    if product == IceCream then IceCreamCase
    else if product == Paneer then PaneerCase
    else if product == Chicken then ChickenCase
    else if product == FrozenPeas then FrozenPeasCase
    else if product == FlavoredMilk then FlavoredMilkCase
    else if product == Curd then CurdCase
    else DefaultCase
  }

  /** Each label selects its own case, so no case of the switch is dead. */
  lemma CaseOfLabel(c: ProductCase)
    requires c != DefaultCase
    ensures CaseOf(c.Label()) == c
  {
  }

  /** Milliseconds in an hour, as `60 * 60 * 1000`. */
  const HourMillis: int := 60 * 60 * 1000
}
