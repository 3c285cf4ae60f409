/**
 * The direct weather lookup (`getWeather`): split the location, ask the
 * weather provider about the city and country, and judge the reading. It
 * never throws: every failure is reported in the returned record.
 */
module Lookup {
  import opened Wrappers
  import opened Weather
  import opened Location

  /** What the provider request gives: the reading, or the message of the error it raised. */
  datatype Fetch = Fetched(reading: Reading) | FetchFailed(message: string)

  /** The weather provider, seen from the route: the reply it gives for a city and an optional country. */
  type Provider = (string, Option<string>) -> Fetch

  /** The record `getWeather` resolves to: `{success, message}`. */
  datatype WeatherData = WeatherData(success: bool, message: string)

  /** The lookup: one provider request for the location's city and country, then the verdict. */
  function GetWeather(location: string, provider: Provider): (data: WeatherData)
    ensures data.success ==> data.message == "good_weather" || data.message == "bad_weather"
  {
    match provider(City(location), Country(location))
    case Fetched(reading) => WeatherData(true, Verdict(reading).Text())
    case FetchFailed(e) => WeatherData(false, e)
  }

  /**
   * A successful request gives `{success: true}` with the verdict's label,
   * a failed one `{success: false}` with the request's error message; these
   * are the only two outcomes.
   */
  lemma GetWeatherOutcome(location: string, provider: Provider)
    ensures var reply := provider(City(location), Country(location));
      && (reply.Fetched? ==> GetWeather(location, provider) == WeatherData(true, Verdict(reply.reading).Text()))
      && (reply.FetchFailed? ==> GetWeather(location, provider) == WeatherData(false, reply.message))
  {
  }

  /** The provider is asked about the split location only: two locations with the same city and country get the same answer. */
  lemma GetWeatherReadsCityAndCountry(a: string, b: string, provider: Provider)
    requires City(a) == City(b) && Country(a) == Country(b)
    ensures GetWeather(a, provider) == GetWeather(b, provider)
  {
  }

  /** A second comma and what follows it never change the lookup. */
  lemma GetWeatherIgnoresTail(city: string, country: string, tail: string, provider: Provider)
    requires Comma !in city && Comma !in country
    ensures GetWeather(city + [Comma] + country + [Comma] + tail, provider) == GetWeather(city + [Comma] + country, provider)
  {
    TailIgnored(city, country, tail);
    FirstCommaSeparates(city, country);
    NoCommaIsCityOnly(country);
  }
}
