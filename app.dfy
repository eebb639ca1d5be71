/**
 * The weather query controller of the app's top-level component: six pieces of state
 * and the event handlers that change them. Every `await` in a handler ends an event;
 * what happens when the awaited network call or geolocation request settles is a
 * separate event method, called with the outcome. A forecast answer carries no mark of
 * the query that asked for it, so one that arrives after a later query has started is
 * applied all the same. (A second current-weather request cannot overlap the first: the
 * search controls are disabled while loading.)
 */
module App {
  import opened ForecastSelection

  datatype Option<T> = None | Some(value: T)

  /** A geographic position, as the API's `coord` and the browser's position give it. */
  datatype Coords = Coords(lat: real, lon: real)

  /**
   * The `cod` field of a response body. The weather endpoint reports success as the
   * number 200, the forecast endpoint as the string "200", and the app compares with
   * strict equality, so the two are different values here.
   */
  datatype Cod = NumCod(n: int) | StrCod(s: string) | NoCod

  /** The parsed body of a current-weather response; on success the app stores all of it. */
  datatype WeatherData = WeatherData(
    cod: Cod, message: Option<string>,
    name: string, country: string, coord: Coords,
    condition: string, description: string,
    temp: real, feelsLike: real, tempMin: real, tempMax: real,
    humidity: int, pressure: int, windSpeed: real, visibility: int, cloudiness: int,
    sunrise: int, sunset: int, timezone: int)

  /** The parsed body of a forecast response. */
  datatype ForecastData = ForecastData(cod: Cod, list: seq<ForecastItem>)

  /** How the current-weather request settled: a parsed body, or `fetch`/`json()` threw. */
  datatype PrimaryResult = PrimaryReceived(data: WeatherData) | PrimaryThrew

  /** How the forecast request settled. */
  datatype ForecastResult = ForecastReceived(data: ForecastData) | ForecastThrew

  /** The current-weather request a fetch issues: by city name (`q=`) or by position (`lat=`, `lon=`). */
  datatype Query = ByCity(name: string) | ByCoords(coords: Coords)

  const DefaultCity: string := "London"
  const EmptyCityMessage: string := "Please enter a city name."
  const CityNotFoundMessage: string := "City not found."
  const FetchFailedMessage: string := "Failed to fetch weather data. Please try again."
  const GeolocationUnsupportedMessage: string := "Geolocation is not supported by your browser."
  const PositionFailedMessage: string := "Unable to retrieve your location."

  /** `data.cod === 200`. */
  predicate IsWeatherSuccess(data: WeatherData) {
    data.cod == NumCod(200)
  }

  /** `data.cod === "200"`. */
  predicate IsForecastSuccess(data: ForecastData) {
    data.cod == StrCod("200")
  }

  /**
   * `data.message || 'City not found.'`: the API's own message unless it is missing or
   * empty. Either way the banner has something to show.
   */
  function ApiErrorText(message: Option<string>): (text: string)
    ensures text != ""
    ensures message.Some? && message.value != "" ==> text == message.value
    ensures message.None? || message.value == "" ==> text == CityNotFoundMessage
  {
    match message
    case Some(m) => if m != "" then m else CityNotFoundMessage
    case None => CityNotFoundMessage
  }

  class WeatherController {
    var weather: Option<WeatherData>
    var forecast: seq<ForecastItem>
    var loading: bool
    var error: string
    var city: string
    var usingLocation: bool

    /**
     * What every event keeps true: a stored current-weather body is a successful one,
     * and the stored forecast has at most five entries, all at the midday slot.
     */
    ghost predicate Valid()
      reads this
    {
      && (weather.Some? ==> IsWeatherSuccess(weather.value))
      && |forecast| <= ForecastDays
      && (forall item :: item in forecast ==> IsMidday(item))
    }

    /** The error banner is rendered. */
    predicate ShowsErrorBanner()
      reads this
    {
      error != ""
    }

    /** The current-conditions panel (with the forecast strip inside it) is rendered. */
    predicate ShowsWeatherPanel()
      reads this
    {
      weather.Some? && !loading
    }

    /** The forecast strip inside the panel is rendered (`forecast.length > 0`). */
    predicate ShowsForecastStrip()
      reads this
    {
      ShowsWeatherPanel() && |forecast| > 0
    }

    /** The search field and the search button are disabled. */
    predicate SearchDisabled()
      reads this
    {
      loading
    }

    /** The location button is disabled. */
    predicate LocationDisabled()
      reads this
    {
      loading || usingLocation
    }

    /** The initial state: nothing loaded, nothing typed, no error. */
    constructor ()
      ensures Valid()
      ensures weather == None && forecast == [] && !loading && error == ""
      ensures city == "" && !usingLocation
    {
      weather := None;
      forecast := [];
      loading := false;
      error := "";
      city := "";
      usingLocation := false;
    }

    /** The search field's `onChange`: the draft city name follows the input. */
    method EditCity(value: string)
      requires Valid()
      modifies this
      ensures Valid()
      ensures city == value
      ensures weather == old(weather) && forecast == old(forecast) && loading == old(loading)
      ensures error == old(error) && usingLocation == old(usingLocation)
    {
      city := value;
    }

    /**
     * `fetchWeather` up to its first `await`. Every call first clears the previous result
     * and error and marks loading. Coordinates win over a city name; with neither (an empty
     * name counts as none) no request is issued and the empty-name error is shown.
     */
    method StartFetch(cityName: string, coords: Option<Coords>) returns (request: Option<Query>)
      requires Valid()
      modifies this
      ensures Valid()
      ensures weather == None && forecast == []
      ensures city == old(city) && usingLocation == old(usingLocation)
      ensures coords.Some? ==> request == Some(ByCoords(coords.value))
      ensures coords.None? && cityName != "" ==> request == Some(ByCity(cityName))
      ensures request.None? <==> coords.None? && cityName == ""
      ensures request.Some? ==> loading && error == ""
      ensures request.None? ==> !loading && error == EmptyCityMessage
      ensures !ShowsWeatherPanel()
    {
      loading := true;
      error := "";
      weather := None;
      forecast := [];
      if coords.Some? {
        request := Some(ByCoords(coords.value));
      } else if cityName != "" {
        request := Some(ByCity(cityName));
      } else {
        error := EmptyCityMessage;
        loading := false;
        request := None;
      }
    }

    /**
     * `fetchWeather` after its `await`s. A body with `cod === 200` is stored whole and the
     * forecast is requested for its coordinates; any other body shows the API's message (or
     * the not-found fallback); a throw shows the generic failure message. Loading ends in
     * every case (the `finally`). The forecast, the draft name and the location flag are
     * left alone, and so is the error on success.
     */
    method OnPrimaryResult(result: PrimaryResult) returns (forecastRequest: Option<Coords>)
      requires Valid()
      modifies this
      ensures Valid()
      ensures !loading
      ensures forecast == old(forecast) && city == old(city) && usingLocation == old(usingLocation)
      ensures result.PrimaryReceived? && IsWeatherSuccess(result.data) ==>
        weather == Some(result.data) && error == old(error) && forecastRequest == Some(result.data.coord)
      ensures result.PrimaryReceived? && !IsWeatherSuccess(result.data) ==>
        weather == old(weather) && error == ApiErrorText(result.data.message) && forecastRequest == None
      ensures result.PrimaryThrew? ==>
        weather == old(weather) && error == FetchFailedMessage && forecastRequest == None
      ensures forecastRequest.None? ==> ShowsErrorBanner()
    {
      forecastRequest := None;
      match result {
        case PrimaryReceived(data) =>
          if IsWeatherSuccess(data) {
            weather := Some(data);
            forecastRequest := Some(data.coord);
          } else {
            error := ApiErrorText(data.message);
          }
        case PrimaryThrew =>
          error := FetchFailedMessage;
      }
      loading := false;
    }

    /**
     * `fetchForecast` after its `await`s. A body with `cod === "200"` replaces the forecast
     * by the first five midday entries of its list; any other body, or a throw, changes
     * nothing. No other field is ever touched.
     */
    method OnForecastResult(result: ForecastResult)
      requires Valid()
      modifies this
      ensures Valid()
      ensures result.ForecastReceived? && IsForecastSuccess(result.data) ==>
        forecast == DailyForecast(result.data.list)
      ensures !(result.ForecastReceived? && IsForecastSuccess(result.data)) ==> forecast == old(forecast)
      ensures weather == old(weather) && loading == old(loading) && error == old(error)
      ensures city == old(city) && usingLocation == old(usingLocation)
    {
      if result.ForecastReceived? && IsForecastSuccess(result.data) {
        forecast := DailyForecast(result.data.list);
      }
    }

    /** `handleSubmit`: leave location mode, then fetch by the draft city name. */
    method Submit() returns (request: Option<Query>)
      requires Valid()
      modifies this
      ensures Valid()
      ensures !usingLocation && city == old(city) && weather == None && forecast == []
      ensures old(city) != "" ==> request == Some(ByCity(old(city))) && loading && error == ""
      ensures old(city) == "" ==> request == None && !loading && error == EmptyCityMessage
    {
      usingLocation := false;
      request := StartFetch(city, None);
    }

    /**
     * `handleLocation` up to the position request. Without geolocation only the error
     * changes. With it, location mode and loading are switched on and the error cleared,
     * while the previous result stays stored (hidden only because loading is on).
     */
    method RequestLocation(geolocationSupported: bool) returns (positionRequested: bool)
      requires Valid()
      modifies this
      ensures Valid()
      ensures positionRequested == geolocationSupported
      ensures weather == old(weather) && forecast == old(forecast) && city == old(city)
      ensures !geolocationSupported ==>
        error == GeolocationUnsupportedMessage && loading == old(loading) && usingLocation == old(usingLocation)
      ensures geolocationSupported ==> usingLocation && error == "" && loading
    {
      if !geolocationSupported {
        error := GeolocationUnsupportedMessage;
        positionRequested := false;
        return;
      }
      usingLocation := true;
      error := "";
      loading := true;
      positionRequested := true;
    }

    /** The position callback: fetch by the browser's coordinates. Location mode stays on. */
    method OnPositionOk(position: Coords) returns (request: Option<Query>)
      requires Valid()
      modifies this
      ensures Valid()
      ensures request == Some(ByCoords(position))
      ensures loading && error == "" && weather == None && forecast == []
      ensures city == old(city) && usingLocation == old(usingLocation)
    {
      request := StartFetch("", Some(position));
    }

    /**
     * The position error callback: show the location error and leave loading and location
     * mode. Whatever result was stored before stays stored, and so shows again.
     */
    method OnPositionFail()
      requires Valid()
      modifies this
      ensures Valid()
      ensures error == PositionFailedMessage && !loading && !usingLocation
      ensures weather == old(weather) && forecast == old(forecast) && city == old(city)
      ensures ShowsErrorBanner() && !SearchDisabled() && !LocationDisabled()
    {
      error := PositionFailedMessage;
      loading := false;
      usingLocation := false;
    }
  }

  /** Mounting the app: a fresh controller that immediately fetches the default city. */
  method Mount() returns (app: WeatherController, request: Option<Query>)
    ensures fresh(app) && app.Valid()
    ensures request == Some(ByCity(DefaultCity))
    ensures app.loading && app.error == "" && app.weather == None && app.forecast == []
    ensures app.city == "" && !app.usingLocation
  {
    app := new WeatherController();
    request := app.StartFetch(DefaultCity, None);
  }

  /**
   * A failed lookup: the API answers `{cod: "404", message: "city not found"}`. The banner
   * shows the API's message verbatim and no current conditions are shown.
   */
  method CityNotFoundScenario(app: WeatherController, body: WeatherData)
    requires app.Valid()
    requires body.cod == StrCod("404") && body.message == Some("city not found")
    modifies app
    ensures app.Valid()
    ensures app.error == "city not found" && app.weather == None && !app.loading
    ensures app.ShowsErrorBanner() && !app.ShowsWeatherPanel()
  {
    app.EditCity("Atlantis");
    var request := app.Submit();
    assert request == Some(ByCity("Atlantis"));
    var forecastRequest := app.OnPrimaryResult(PrimaryReceived(body));
  }

  /** The user denies the position request: fixed error, loading and location mode both off. */
  method LocationDeniedScenario(app: WeatherController)
    requires app.Valid()
    modifies app
    ensures app.Valid()
    ensures app.error == PositionFailedMessage && !app.loading && !app.usingLocation
  {
    var asked := app.RequestLocation(true);
    app.OnPositionFail();
  }

  /**
   * After a successful lookup by position, location mode is never switched off again by
   * the fetch, so the location button stays disabled until the next search or position error.
   */
  method LocationModeStaysScenario(app: WeatherController, position: Coords, body: WeatherData)
    requires app.Valid() && IsWeatherSuccess(body)
    modifies app
    ensures app.Valid()
    ensures app.ShowsWeatherPanel() && app.weather == Some(body)
    ensures app.usingLocation && app.LocationDisabled()
  {
    var asked := app.RequestLocation(true);
    var request := app.OnPositionOk(position);
    var forecastRequest := app.OnPrimaryResult(PrimaryReceived(body));
  }

  /**
   * Without geolocation support, pressing the location button while results are shown adds
   * the error banner and leaves the old results on screen.
   */
  method GeolocationUnsupportedScenario(app: WeatherController, body: WeatherData)
    requires app.Valid() && IsWeatherSuccess(body)
    modifies app
    ensures app.Valid()
    ensures app.ShowsErrorBanner() && app.ShowsWeatherPanel()
    ensures app.error == GeolocationUnsupportedMessage && app.weather == Some(body)
  {
    var request := app.StartFetch(DefaultCity, None);
    var forecastRequest := app.OnPrimaryResult(PrimaryReceived(body));
    var asked := app.RequestLocation(false);
  }

  /**
   * No protection against stale forecasts: query A succeeds and requests its forecast,
   * query B starts before that forecast arrives, and A's forecast is then stored while B
   * is still loading. B's current conditions arrive and its own forecast request throws,
   * so the panel shows B's weather with A's forecast days.
   */
  method StaleResponseScenario(app: WeatherController, first: WeatherData, second: string,
                               firstForecast: ForecastData, next: WeatherData)
    requires app.Valid()
    requires IsWeatherSuccess(first) && second != "" && IsWeatherSuccess(next)
    requires IsForecastSuccess(firstForecast) && MiddayEntries(firstForecast.list) != []
    modifies app
    ensures app.Valid()
    ensures app.weather == Some(next) && app.forecast == DailyForecast(firstForecast.list)
    ensures app.ShowsForecastStrip()
  {
    var requestA := app.StartFetch(DefaultCity, None);
    var forecastRequestA := app.OnPrimaryResult(PrimaryReceived(first));
    assert forecastRequestA == Some(first.coord);
    app.EditCity(second);
    var requestB := app.Submit();
    assert requestB == Some(ByCity(second));
    app.OnForecastResult(ForecastReceived(firstForecast));
    DailyForecastSpec(firstForecast.list);
    assert app.loading && app.weather == None && app.forecast != [];
    var forecastRequestB := app.OnPrimaryResult(PrimaryReceived(next));
    app.OnForecastResult(ForecastThrew);
  }
}
