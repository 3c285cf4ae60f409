/**
 * The outdoor rule of the weather route: a reading of the current weather is
 * judged good for going outside when it is not too warm, not too humid, not
 * raining and not too windy. Every comparison is strict.
 */
module Weather {
  import opened Wrappers

  /** Felt temperature limit, in degrees Celsius (the provider is asked for metric units). */
  const FeelsLikeLimit: real := 25.0
  /** Relative humidity limit, in percent. */
  const HumidityLimit: real := 80.0
  /** Wind speed limit, in metres per second. */
  const WindSpeedLimit: real := 5.0
  /** The condition name that rules going outside out. */
  const Rain: string := "Rain"

  /**
   * The four fields the rule reads from the provider's reply. `condition` is
   * the value read at `weather.main`; it is absent whenever the reply carries
   * `weather` as a list, and an absent condition is never "Rain".
   */
  datatype Reading = Reading(feelsLike: real, humidity: real, condition: Option<string>, windSpeed: real)

  /** The two verdicts, sent to the client as the texts `good_weather` and `bad_weather`. */
  datatype Label = GoodWeather | BadWeather {
    function Text(): string {
      match this
      case GoodWeather => "good_weather"
      case BadWeather => "bad_weather"
    }
  }

  /** True when the condition read is the literal "Rain". */
  predicate IsRain(condition: Option<string>) {
    condition.Some? && condition.value == Rain
  }

  /** The verdict, by the route's single conjunction of strict comparisons. */
  function Verdict(r: Reading): Label {
    if r.feelsLike < FeelsLikeLimit && r.humidity < HumidityLimit && !IsRain(r.condition) && r.windSpeed < WindSpeedLimit
    then GoodWeather
    else BadWeather
  }

  /** The reasons a reading can be judged bad, one per comparison. */
  datatype Cause = TooWarm | TooHumid | Raining | TooWindy

  /** The comparisons a reading fails, each stated on its own. */
  function Violations(r: Reading): set<Cause> {
    (if r.feelsLike >= FeelsLikeLimit then {TooWarm} else {})
    + (if r.humidity >= HumidityLimit then {TooHumid} else {})
    + (if IsRain(r.condition) then {Raining} else {})
    + (if r.windSpeed >= WindSpeedLimit then {TooWindy} else {})
  }

  /** The verdict is good exactly when the reading fails none of the four comparisons. */
  lemma VerdictIffNoViolation(r: Reading)
    ensures Verdict(r) == GoodWeather <==> Violations(r) == {}
    ensures Verdict(r) == BadWeather <==> Violations(r) != {}
  {
    if Violations(r) == {} {
      assert TooWarm !in Violations(r) && TooHumid !in Violations(r);
      assert Raining !in Violations(r) && TooWindy !in Violations(r);
    }
  }

  /**
   * The rule in the route's own numbers: good exactly when the felt
   * temperature is below 25, the humidity below 80, the condition is not
   * "Rain" (an absent one is not) and the wind below 5.
   */
  lemma GoodWeatherIff(r: Reading)
    ensures Verdict(r) == GoodWeather <==>
      r.feelsLike < 25.0 && r.humidity < 80.0
      && (r.condition == None || r.condition.value != "Rain")
      && r.windSpeed < 5.0
    ensures Verdict(r) == GoodWeather || Verdict(r) == BadWeather
  {
  }

  /** All comparisons are strict: a reading exactly at any one limit is bad weather. */
  lemma LimitsAreExclusive(r: Reading)
    requires r.feelsLike == 25.0 || r.humidity == 80.0 || r.windSpeed == 5.0
    ensures Verdict(r) == BadWeather
  {
  }

  /** A single violated comparison makes the verdict bad, whatever the other three fields say. */
  lemma AnyViolationIsBad(r: Reading, c: Cause)
    requires c in Violations(r)
    ensures Verdict(r) == BadWeather
  {
    VerdictIffNoViolation(r);
  }

  /**
   * Milder weather never turns a good verdict bad: a reading that is no
   * warmer, no more humid and no windier than a good one, and not rain, is good.
   */
  lemma MilderStaysGood(good: Reading, r: Reading)
    requires Verdict(good) == GoodWeather
    requires r.feelsLike <= good.feelsLike && r.humidity <= good.humidity && r.windSpeed <= good.windSpeed
    requires !IsRain(r.condition)
    ensures Verdict(r) == GoodWeather
  {
  }

  /**
   * Since the condition is read at `weather.main`, a reply without it is
   * judged by the three numeric limits alone.
   */
  lemma AbsentConditionIgnored(r: Reading)
    requires r.condition == None
    ensures Verdict(r) == GoodWeather <==>
      r.feelsLike < FeelsLikeLimit && r.humidity < HumidityLimit && r.windSpeed < WindSpeedLimit
  {
  }

  /** The label text is one of the two strings the client recognises, and tells the labels apart. */
  lemma LabelTextIsKnown(l: Label)
    ensures l.Text() == "good_weather" || l.Text() == "bad_weather"
    ensures l.Text() == "good_weather" <==> l == GoodWeather
  {
  }
}
