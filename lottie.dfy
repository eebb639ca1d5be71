/**
 * The weather animation chosen for a condition category (`weather[0].main`),
 * used for the current conditions and for each forecast card.
 */
module Lottie {

  /** The four animation assets the app bundles. */
  datatype Animation = Sunny | Cloud | Rain | Snow

  /** The condition name each animation is picked for; the sunny one doubles as the default. */
  function ConditionFor(a: Animation): (condition: string)
    ensures condition != ""
  {
    match a
    case Sunny => "Clear"
    case Cloud => "Clouds"
    case Rain => "Rain"
    case Snow => "Snow"
  }

  /**
   * `getWeatherLottie`: a switch on the exact condition string with the sunny animation as
   * default. Any animation other than the default is picked by exactly one condition.
   */
  function WeatherLottie(condition: string): (a: Animation)
    ensures a != Sunny ==> condition == ConditionFor(a)
  {
    if condition == "Clear" then Sunny
    else if condition == "Clouds" then Cloud
    else if condition == "Rain" then Rain
    else if condition == "Snow" then Snow
    else Sunny
  }

  /** Every animation is reachable: its own condition name selects it. */
  lemma WeatherLottieRoundTrip(a: Animation)
    ensures WeatherLottie(ConditionFor(a)) == a
  {
  }

  /**
   * The default case: a condition that names none of the four animations (say "Mist",
   * "Drizzle" or "Thunderstorm", or a different letter case) shows the sunny one.
   */
  lemma WeatherLottieDefault(condition: string)
    requires forall a: Animation :: condition != ConditionFor(a)
    ensures WeatherLottie(condition) == Sunny
  {
  }
}
