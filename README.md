# Weather lookup widget: a Dafny model of its query controller

The app's logic lives in its top-level React component (`src/App.js`). A user types a city name or shares
their position; the app asks a public weather API for the current conditions and, once
those arrive, for a five-day forecast, and renders both. This project models the three
pieces of logic in that component:

- **The query controller** (`app.dfy`, module `App`): the six pieces of component state
  (`weather`, `forecast`, `loading`, `error`, `city`, `usingLocation`) as the fields of
  the class `App.WeatherController`, with one method per event. A handler that awaits
  something is split at each `await`: `StartFetch` is `fetchWeather` up to its request,
  `OnPrimaryResult` is what happens when that request settles, `OnForecastResult` is the
  settled forecast request, `RequestLocation` / `OnPositionOk` / `OnPositionFail` are
  `handleLocation` and its two callbacks, `Submit` is `handleSubmit`, `EditCity` is the
  search field's `onChange`. Network outcomes are parameters: a parsed response body or
  "it threw". The methods return the request they would issue next, if any. Every method
  keeps the class invariant `Valid()`: a stored current-weather body has `cod === 200`,
  and the stored forecast holds at most five entries, all at the midday slot. The render
  gates are predicates of the state: `ShowsErrorBanner` (`error` non-empty),
  `ShowsWeatherPanel` (`weather && !loading`), `ShowsForecastStrip`, `SearchDisabled` and
  `LocationDisabled`. Scenario methods at the end of the module are clients that exercise
  the event methods, showing what their contracts give a caller.
- **Forecast day selection** (`forecast.dfy`, module `ForecastSelection`):
  `list.filter(item => item.dt_txt.includes('12:00:00')).slice(0, 5)`, as `MiddayEntries`
  and `DailyForecast`. `includes` is substring search (`strings.dfy`, module `Strings`),
  proved equal to "occurs at some position".
- **Condition to animation** (`lottie.dfy`, module `Lottie`): `getWeatherLottie` as a total
  function onto a four-constructor datatype, with the sunny animation as default.

Events may be called in any order. The code does not tag a forecast request with the query
that issued it, so a late forecast answer to an old query is applied like any other. The
model therefore proves nothing of the form "the last submission wins".
`StaleResponseScenario` shows the opposite. Current-weather answers cannot go stale this
way, because the search field and both buttons are disabled while `loading` is on.

Behaviour of the code that the model keeps on purpose:

- The city name is not trimmed. Only the empty string counts as "no city", so a name made
  of spaces issues a request.
- An API error whose `message` is missing or empty shows "City not found.". Otherwise the
  API's message is shown verbatim.
- The weather endpoint's success code is compared with the number `200`. The forecast
  endpoint's is compared with the string `"200"`. Both comparisons are strict.
- `RequestLocation` does not clear the stored result. The result stays hidden only
  because `loading` is on. If the position request then fails, the old result shows again
  beside the location error.
- When geolocation is unsupported, only `error` changes. An already shown result stays
  on screen under the banner.
- `usingLocation` is switched off only by `Submit` and by a position failure. It stays on
  after a successful lookup by position.
- A failed or non-"200" forecast response changes nothing at all.
- While a query is loading, `weather` and `forecast` are not always empty: a stale
  forecast response can fill `forecast` in the meantime.

## Model

| member | source | states |
|---|---|---|
| `Strings.IncludesSound` | src/App.js:82 | when `includes` answers true, the searched text occurs at some position |
| `Strings.IncludesComplete` | src/App.js:82 | every occurrence of the searched text makes `includes` answer true |
| `Strings.IncludesIff` | src/App.js:82 | `includes` is exactly substring containment (both directions) |
| `ForecastSelection.MiddayEntries` | src/App.js:82 | the filter result is no longer than the list; each kept entry comes from the list and has "12:00:00" in its `dt_txt` |
| `ForecastSelection.DailyForecast` | src/App.js:82-83 | the stored forecast has at most 5 entries, each from the list and each at midday |
| `ForecastSelection.MiddayEntriesComplete` | src/App.js:82 | an entry is kept by the filter if and only if it is in the list and its `dt_txt` contains "12:00:00" |
| `ForecastSelection.MiddayEntriesAppend` | src/App.js:82 | the filter preserves order: filtering a concatenation gives the concatenation of the filtered parts |
| `ForecastSelection.MiddayPrefixCut` | src/App.js:82-83 | the first n midday entries are exactly the midday entries of some prefix of the series |
| `ForecastSelection.DailyForecastSpec` | src/App.js:82-83 | the stored forecast is the first min(5, #midday) midday entries in order; all of them when fewer than 5 match; exactly the midday entries of a prefix of the series |
| `ForecastSelection.MiddayStamp` | src/App.js:82 | for API-style stamps "YYYY-MM-DD hh:mm:ss", the substring test holds exactly when the time is 12:00:00 |
| `Lottie.ConditionFor` | src/App.js:18-21 | each animation's condition name is non-empty; that the name selects the animation is proved by `Lottie.WeatherLottieRoundTrip` |
| `Lottie.WeatherLottie` | src/App.js:16-24 | any animation other than the sunny default is chosen by exactly its own condition name |
| `Lottie.WeatherLottieRoundTrip` | src/App.js:18-21 | every animation's condition name maps back to that animation |
| `Lottie.WeatherLottieDefault` | src/App.js:22 | a condition matching none of the four cases gets the sunny animation |
| `Strings.Includes` | src/App.js:82 | `String.prototype.includes`; its meaning is stated by `Strings.IncludesIff` |
| `ForecastSelection.IsMidday` | src/App.js:82 | the filter callback: `dt_txt` contains "12:00:00" |
| `App.IsWeatherSuccess` | src/App.js:62 | `data.cod === 200`, the number |
| `App.IsForecastSuccess` | src/App.js:81 | `data.cod === "200"`, the string |
| `App.WeatherController.ShowsErrorBanner` | src/App.js:145 | the banner shows exactly when `error` is non-empty |
| `App.WeatherController.ShowsWeatherPanel` | src/App.js:149 | the panel shows exactly when a result is stored and not loading |
| `App.WeatherController.ShowsForecastStrip` | src/components/WeatherDisplay.js:40 | the strip shows inside the panel exactly when the forecast is non-empty |
| `App.WeatherController.SearchDisabled` | src/components/SearchBar.js:23-27 | the field and search button are disabled exactly while loading |
| `App.WeatherController.LocationDisabled` | src/components/SearchBar.js:36 | the location button is disabled while loading or in location mode |
| `App.ApiErrorText` | src/App.js:66 | the API's message when present and non-empty, otherwise "City not found."; never empty |
| `App.WeatherController.constructor` | src/App.js:29-34 | initial state: no weather, empty forecast, not loading, no error, empty city, not using location |
| `App.WeatherController.EditCity` | src/components/SearchBar.js:22 | only the draft city changes |
| `App.WeatherController.StartFetch` | src/App.js:41-56 | result and forecast cleared; coordinates win over a name; an empty name with no coordinates issues no request, ends loading and sets "Please enter a city name."; otherwise loading with no error; city and location mode untouched |
| `App.WeatherController.OnPrimaryResult` | src/App.js:58-72 | loading always ends; `cod === 200` stores the body and requests the forecast for its `coord`, leaving `error` alone; other bodies set the API message or fallback; a throw sets the generic message; forecast, city, location mode untouched |
| `App.WeatherController.OnForecastResult` | src/App.js:75-86 | a `"200"` body sets the forecast to the first five midday entries; anything else changes nothing; no other field ever changes |
| `App.WeatherController.Submit` | src/App.js:88-92 | location mode off, then a fetch by the draft city name with the outcomes of `StartFetch` |
| `App.WeatherController.RequestLocation` | src/App.js:94-102 | unsupported: only `error` changes; supported: location mode on, error cleared, loading on, stored result kept |
| `App.WeatherController.OnPositionOk` | src/App.js:103-108 | a fetch by the position is issued; loading, no error, cleared result; location mode stays on |
| `App.WeatherController.OnPositionFail` | src/App.js:109-113 | "Unable to retrieve your location.", loading off, location mode off; stored result kept |
| `App.Mount` | src/App.js:121-123 | a fresh controller that is loading the default city "London" |
| `App.CityNotFoundScenario` | src/App.js:62-67 | a `{cod: "404", message: "city not found"}` answer shows that message and no current conditions |
| `App.LocationDeniedScenario` | src/App.js:109-113 | after a denied position request: the location error, loading off, location mode off |
| `App.LocationModeStaysScenario` | src/App.js:99-108 | after a successful lookup by position the location button stays disabled |
| `App.GeolocationUnsupportedScenario` | src/App.js:95-98 | without geolocation the error banner and the old results show together |
| `App.StaleResponseScenario` | src/App.js:75-86 | query A's forecast, arriving after query B started, is stored; after B's weather arrives and B's forecast throws, the panel shows B's weather with A's forecast days |

## Left out

- The `fetch` calls, URL building, the API key and its environment lookup, and JSON
  parsing (src/App.js:37-39, 49-51, 59-60, 77-80): network I/O. Their outcomes are the
  `PrimaryResult` and `ForecastResult` values passed to the event methods, and the request
  a fetch would make is the returned `Query` or coordinates.
- `formatTime` (src/App.js:11-14): it formats the timestamp it is given, and its output depends
  on the host's time zone and locale.
- The presentation components (`WeatherDisplay`, `SearchBar`, `WeatherDetail`): JSX layout,
  `Math.round`, `toFixed(1)` and locale weekday names. Only their gating conditions are
  modelled, as predicates of the controller state.
- The animation assets, CSS, the focus effect (src/App.js:117-119) and React's rendering
  schedule. Setter calls made in one event are modelled as applied together, in order.
- Response bodies whose fields are missing or of another type. Examples: a success body
  without `coord`, or a forecast body without `list`. In the code these throw inside a
  `try` and are swallowed. The model's bodies always have these fields.
- JavaScript truthiness beyond strings: coordinates are either present or absent, and the
  `null` city name of the position callback is passed as the empty string. Both are
  falsy, so the behaviour is the same.
- Temperatures, coordinates and wind speed are kept as exact reals. The model does no
  arithmetic on them.
