/** The mock weather service (`weatherService.ts`): a fixed forecast per
    city with a Mumbai fallback, and the icon table with its default. */
module Weather {
  import opened Wrappers
  import opened CityNames

  /** Current conditions; temperatures in whole degrees Celsius. */
  datatype WeatherData = WeatherData(temperature: int, condition: string, humidity: int, windSpeed: int, icon: string)

  /** One day of the forecast (`temp_min`, `temp_max`). */
  datatype ForecastDay = ForecastDay(date: string, tempMin: int, tempMax: int, condition: string, icon: string)

  datatype WeatherForecast = WeatherForecast(current: WeatherData, forecast: seq<ForecastDay>)

  /** One key of `mockWeatherData` with its value. */
  datatype WeatherEntry = WeatherEntry(city: string, weather: WeatherForecast)

  /** `mockWeatherData`, in declaration order. */
  const MockWeatherData: seq<WeatherEntry> := [
    WeatherEntry(Mumbai, MumbaiWeather),
    WeatherEntry(Pune, PuneWeather),
    WeatherEntry(Delhi, DelhiWeather),
    WeatherEntry(Bangalore, BangaloreWeather),
    WeatherEntry(Chennai, ChennaiWeather),
    WeatherEntry(Hyderabad, HyderabadWeather),
    WeatherEntry(Kolkata, KolkataWeather),
    WeatherEntry(Ahmedabad, AhmedabadWeather),
    WeatherEntry(Aurangabad, AurangabadWeather),
    WeatherEntry(Nashik, NashikWeather)
  ]

  /** The forecasts stored under the ten keys. */
  const MumbaiWeather: WeatherForecast := WeatherForecast(
    WeatherData(32, "Partly Cloudy", 78, 12, "02d"),
    [ForecastDay(Jan16, 24, 32, "Partly Cloudy", "02d"),
     ForecastDay(Jan17, 26, 34, "Sunny", "01d"),
     ForecastDay(Jan18, 25, 33, "Cloudy", "03d")])
  const PuneWeather: WeatherForecast := WeatherForecast(
    WeatherData(28, "Sunny", 65, 8, "01d"),
    [ForecastDay(Jan16, 20, 28, "Sunny", "01d"),
     ForecastDay(Jan17, 22, 30, "Partly Cloudy", "02d"),
     ForecastDay(Jan18, 21, 29, "Sunny", "01d")])
  const DelhiWeather: WeatherForecast := WeatherForecast(
    WeatherData(18, "Foggy", 85, 5, "50d"),
    [ForecastDay(Jan16, 8, 18, "Foggy", "50d"),
     ForecastDay(Jan17, 10, 20, "Partly Cloudy", "02d"),
     ForecastDay(Jan18, 12, 22, "Sunny", "01d")])
  const BangaloreWeather: WeatherForecast := WeatherForecast(
    WeatherData(24, "Pleasant", 70, 10, "02d"),
    [ForecastDay(Jan16, 18, 24, "Pleasant", "02d"),
     ForecastDay(Jan17, 19, 26, "Sunny", "01d"),
     ForecastDay(Jan18, 17, 25, "Cloudy", "03d")])
  const ChennaiWeather: WeatherForecast := WeatherForecast(
    WeatherData(30, "Hot", 82, 15, "01d"),
    [ForecastDay(Jan16, 26, 30, "Hot", "01d"),
     ForecastDay(Jan17, 27, 32, "Very Hot", "01d"),
     ForecastDay(Jan18, 25, 31, "Hot", "02d")])
  const HyderabadWeather: WeatherForecast := WeatherForecast(
    WeatherData(26, "Warm", 68, 9, "02d"),
    [ForecastDay(Jan16, 20, 26, "Warm", "02d"),
     ForecastDay(Jan17, 22, 28, "Sunny", "01d"),
     ForecastDay(Jan18, 21, 27, "Partly Cloudy", "02d")])
  const KolkataWeather: WeatherForecast := WeatherForecast(
    WeatherData(22, "Mild", 75, 7, "03d"),
    [ForecastDay(Jan16, 16, 22, "Mild", "03d"),
     ForecastDay(Jan17, 18, 24, "Cloudy", "03d"),
     ForecastDay(Jan18, 17, 23, "Partly Cloudy", "02d")])
  const AhmedabadWeather: WeatherForecast := WeatherForecast(
    WeatherData(25, "Pleasant", 60, 11, "01d"),
    [ForecastDay(Jan16, 18, 25, "Pleasant", "01d"),
     ForecastDay(Jan17, 20, 27, "Sunny", "01d"),
     ForecastDay(Jan18, 19, 26, "Clear", "01d")])
  const AurangabadWeather: WeatherForecast := WeatherForecast(
    WeatherData(27, "Warm", 65, 8, "02d"),
    [ForecastDay(Jan16, 19, 27, "Warm", "02d"),
     ForecastDay(Jan17, 21, 29, "Hot", "01d"),
     ForecastDay(Jan18, 20, 28, "Sunny", "01d")])
  const NashikWeather: WeatherForecast := WeatherForecast(
    WeatherData(26, "Pleasant", 62, 9, "02d"),
    [ForecastDay(Jan16, 18, 26, "Pleasant", "02d"),
     ForecastDay(Jan17, 20, 28, "Warm", "01d"),
     ForecastDay(Jan18, 19, 27, "Sunny", "01d")])

  /** The keys of a table, in order. */
  function CitiesOf(table: seq<WeatherEntry>): (names: seq<string>)
    ensures |names| == |table|
    ensures forall i :: 0 <= i < |table| ==> names[i] == table[i].city
  {
    if table == [] then [] else CitiesOf(table[..|table| - 1]) + [table[|table| - 1].city]
  }

  /** `table[cityName]`: the value stored under the key, if any. */
  function Find(table: seq<WeatherEntry>, cityName: string): (r: Option<WeatherForecast>)
    ensures r.None? <==> cityName !in CitiesOf(table)
    ensures r.Some? ==> exists i :: 0 <= i < |table| && table[i].city == cityName && r.value == table[i].weather
  {
    if table == [] then None
    else if table[|table| - 1].city == cityName then Some(table[|table| - 1].weather)
    else Find(table[..|table| - 1], cityName)
  }

  /** The dates of the three forecast days. */
  const Jan16: string := "2025-01-16"
  const Jan17: string := "2025-01-17"
  const Jan18: string := "2025-01-18"
  const ForecastDates: seq<string> := [Jan16, Jan17, Jan18]

  /** Three days, dated in order, each with a minimum below its maximum. */
  predicate IsThreeDayForecast(w: WeatherForecast)
  {
    && |w.forecast| == 3
    && (forall k :: 0 <= k < 3 ==> w.forecast[k].date == ForecastDates[k])
    && (forall k :: 0 <= k < 3 ==> w.forecast[k].tempMin < w.forecast[k].tempMax)
  }

  /** The current reading is the first forecast day's maximum, under the
      same condition and icon. */
  predicate CurrentIsFirstDay(w: WeatherForecast)
    requires |w.forecast| >= 1
  {
    && w.current.temperature == w.forecast[0].tempMax
    && w.current.condition == w.forecast[0].condition
    && w.current.icon == w.forecast[0].icon
  }

  /** `getWeatherData` without its simulated delay: the entry stored under
      the name, else Mumbai's. */
  function GetWeatherData(cityName: string): WeatherForecast
  {
    match Find(MockWeatherData, cityName)
    case Some(w) => w
    case None => MockWeatherData[0].weather
  }

  /** Every entry of the table is a three-day forecast whose current
      reading is its first day, and no key is listed twice. */
  lemma TableWellFormed()
    ensures |MockWeatherData| == 10 && MockWeatherData[0].city == Mumbai
    ensures forall i, j :: 0 <= i < j < |MockWeatherData| ==> MockWeatherData[i].city != MockWeatherData[j].city
    ensures forall i :: 0 <= i < |MockWeatherData| ==>
      IsThreeDayForecast(MockWeatherData[i].weather) && CurrentIsFirstDay(MockWeatherData[i].weather)
  {
  }

  /** A listed city gets its own entry, any other name Mumbai's; either way
      the result is a well-formed three-day forecast. */
  lemma WeatherLookup(cityName: string)
    ensures forall i :: 0 <= i < |MockWeatherData| && MockWeatherData[i].city == cityName ==>
      GetWeatherData(cityName) == MockWeatherData[i].weather
    ensures cityName !in CitiesOf(MockWeatherData) ==> GetWeatherData(cityName) == MockWeatherData[0].weather
    ensures IsThreeDayForecast(GetWeatherData(cityName)) && CurrentIsFirstDay(GetWeatherData(cityName))
  {
    TableWellFormed();
  }

  /** `iconMap`. The strings are the table's own characters, kept as they are. */
  const IconMap: map<string, string> := map[
    "01d" := "\U{E2}\U{2DC}\U{20AC}\U{EF}\U{B8}",
    "01n" := "\U{11F}\U{178}\U{152}\U{2122}",
    "02d" := "\U{E2}\U{203A}\U{2026}",
    "02n" := "\U{E2}\U{2DC}\U{EF}\U{B8}",
    "03d" := "\U{E2}\U{2DC}\U{EF}\U{B8}",
    "03n" := "\U{E2}\U{2DC}\U{EF}\U{B8}",
    "04d" := "\U{E2}\U{2DC}\U{EF}\U{B8}",
    "04n" := "\U{E2}\U{2DC}\U{EF}\U{B8}",
    "09d" := "\U{11F}\U{178}\U{152}\U{A7}\U{EF}\U{B8}",
    "09n" := "\U{11F}\U{178}\U{152}\U{A7}\U{EF}\U{B8}",
    "10d" := "\U{11F}\U{178}\U{152}\U{A6}\U{EF}\U{B8}",
    "10n" := "\U{11F}\U{178}\U{152}\U{A7}\U{EF}\U{B8}",
    "11d" := "\U{E2}\U{203A}\U{2C6}\U{EF}\U{B8}",
    "11n" := "\U{E2}\U{203A}\U{2C6}\U{EF}\U{B8}",
    "13d" := "\U{E2}\U{201E}\U{EF}\U{B8}",
    "13n" := "\U{E2}\U{201E}\U{EF}\U{B8}",
    "50d" := "\U{11F}\U{178}\U{152}\U{AB}\U{EF}\U{B8}",
    "50n" := "\U{11F}\U{178}\U{152}\U{AB}\U{EF}\U{B8}"
  ]

  /** The eighteen codes `iconMap` lists: day and night variants of nine. */
  lemma IconCodes()
    ensures IconMap.Keys == {"01d", "01n", "02d", "02n", "03d", "03n", "04d", "04n", "09d", "09n",
                             "10d", "10n", "11d", "11n", "13d", "13n", "50d", "50n"}
  {
  }

  /** What `getWeatherIcon` returns for a code it does not know. */
  const DefaultIcon: string := "\U{E2}\U{2DC}\U{20AC}\U{EF}\U{B8}"

  /** `getWeatherIcon`. */
  function GetWeatherIcon(iconCode: string): (icon: string)
    ensures iconCode in IconMap ==> icon == IconMap[iconCode]
    ensures iconCode !in IconMap ==> "01d" in IconMap && icon == IconMap["01d"]
  {
    if iconCode in IconMap then IconMap[iconCode] else DefaultIcon
  }
}
