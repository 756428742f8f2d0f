/** Calls to the two tools (New York in several casings, Paris, Tokyo), worked through the model. */
module Scenarios {
  import opened Wrappers
  import opened Text
  import opened CaseFold
  import opened ToolResults
  import opened Handlers

  /** "New York" in three casings. */
  lemma KnownCityCasings()
    ensures IsKnownCity("New York") && IsKnownCity("NEW YORK") && IsKnownCity("new york")
  {
  }

  /** A KELVIN SIGN folds with 'k', so it may stand for the final letter. */
  lemma KelvinSignSpelling()
    ensures IsKnownCity("new yor\U{212A}")
  {
    var city := "new yor\U{212A}";
    KnownCitySpellings(city);
    forall i | 0 <= i < |city| ensures FoldKey(city[i]) == KnownCity[i] {
    }
  }

  /** Other cities, and longer names that begin with New York, are not known. */
  lemma UnknownCities()
    ensures !IsKnownCity("Paris") && !IsKnownCity("Tokyo") && !IsKnownCity("new york city")
  {
  }

  /** The weather for New York mentions both temperatures. */
  lemma WeatherNewYork()
    ensures GetWeather(CityArgs("New York")).result.Success?
    ensures Contains(GetWeather(CityArgs("New York")).result.report, Celsius)
    ensures Contains(GetWeather(CityArgs("New York")).result.report, Fahrenheit)
  {
    KnownCityCasings();
    WeatherReportTemperatures();
  }

  /** Paris gets an error that names Paris. */
  lemma WeatherParis()
    ensures GetWeather(CityArgs("Paris")).result.Error?
    ensures Contains(GetWeather(CityArgs("Paris")).result.message, "Paris")
  {
    UnknownCities();
  }

  /** Tokyo gets an error that names Tokyo, whatever the zone database and clock say. */
  lemma TimeTokyo(tz: TzLoad, now: string)
    ensures GetCurrentTime(CityArgs("Tokyo"), tz, now).result.Error?
    ensures Contains(GetCurrentTime(CityArgs("Tokyo"), tz, now).result.message, "Tokyo")
  {
    UnknownCities();
  }

  /**
   * The report repeats the caller's spelling of the city, not a normalised
   * one, followed by the rendered time.
   */
  lemma TimeReportKeepsSpelling(now: string)
    ensures GetCurrentTime(CityArgs("NEW YORK"), TzLoaded, now).result.Success?
    ensures TimeReportParts(GetCurrentTime(CityArgs("NEW YORK"), TzLoaded, now).result.report) == Some(("NEW YORK", now))
  {
    KnownCityCasings();
  }
}
