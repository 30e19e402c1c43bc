# Weather app core, modelled in Dafny

This project models the logic of a small Expo/React Native weather app.
The logic sits in three screens. The network and device calls are replaced
by abstract inputs.

- **Daily forecast screen** (`Forecast`). Four ordered coordinate guards run
  before any request. A reply must carry `daily`. The screen keeps three
  pieces of state: `loading`, `error` and `forecast`. The `daily` arrays are
  projected into one row per entry of `time`.
- **Current-weather screen** (`Weather`). A refresh resets the state first.
  A permission denial ends it early with its own message. Any other failure
  gives one fixed message. The panel shows the Fahrenheit temperature and a
  three-way precipitation status.
- **Hourly forecast screen** (`Hourly`). The `hourly` arrays are zipped into
  records by index. The screen keeps `hourlyData` and `loading`. Each record
  is shown as converted values with an `'N/A'` default for a missing UV index.
- **Shared pieces.** `Units` holds the three unit converters over exact
  reals. `Js` holds the JavaScript semantics the screens rely on: numbers
  with NaN and infinities, `<` that is false on NaN, and array reads that give
  `undefined` past the end. `Wrappers` holds `Option` and `Result`.

Each screen is a class whose fields are its React state. Its fetch is a
method whose `ensures` ties the new state to a specification function
(`FetchOutcome`, `RefreshOutcome`, `FormatHourly`). The lemmas state the
properties of those functions. A fetch method returns `requested`, which
says whether the network request was issued.

Inputs the model takes as parameters instead of performing:
- the forecast request's reply (`Forecast.Response`, `Hourly.HourlyReply`, `Weather.WeatherReply`);
- the location permission status and the position query (`Weather.PermissionReply`, `Weather.PositionReply`);
- the route parameters after `parseFloat`, as a `Js.Number` that may be NaN or infinite.

Where the code does less than a weather client of this kind is usually expected to do, the model follows the code:
- An infinite coordinate is not reported as invalid. It passes the NaN guard
  and fails the range guard of its own axis: "Latitude out of range" for an
  infinite latitude, and "Longitude out of range" for an infinite longitude
  when the latitude is valid.
- No array-length check exists anywhere. A sibling array shorter than `time`
  gives absent fields. It raises no error.
- The current-weather refresh does not check the reply's shape. A reply
  without `current_weather` stores `undefined`, and the panel stays hidden.
- The hourly screen validates no coordinates. It reports no error either: a
  failed fetch only logs and leaves the list as it was.
- No activity-recommendation rules exist in the code, so none are modelled.

## Model

| member | source | states |
|---|---|---|
| `Js.Less` | src/screens/ForecastScreen.js:18-19 | `<` is false whenever either side is NaN, and on finite numbers it agrees with `<` on reals |
| `Js.LessIsStrictOrder` | src/screens/ForecastScreen.js:18-19 | `<` is irreflexive, asymmetric, transitive and total on non-NaN numbers; every finite number lies strictly between the two infinities |
| `Js.Index` | src/screens/ForecastScreen.js:81-84 | reading index `i` gives a value exactly when `i` is within the array, and that value is the element at `i` |
| `Units.ConvertToFahrenheit` | src/screens/WeatherScreen.js:47 | the inverse map `(f - 32) * 5 / 9` recovers the Celsius input |
| `Units.ConvertToInches` | src/screens/HourlyForecastScreen.js:37 | multiplying the result by 25.4 recovers the millimetres |
| `Units.ConvertToMph` | src/screens/HourlyForecastScreen.js:39 | dividing the result by 0.621371 recovers the km/h |
| `Units.FahrenheitLandmarks` | src/screens/HourlyForecastScreen.js:35 | 0 °C is 32 °F, 100 °C is 212 °F and -40 is a fixed point |
| `Units.ZeroIsFixed` | src/screens/HourlyForecastScreen.js:37-39 | 0 mm is 0 in and 0 km/h is 0 mph |
| `Units.ConvertersStrictlyIncreasing` | src/screens/HourlyForecastScreen.js:35-39 | each converter is strictly increasing, in both directions of the if-and-only-if |
| `Forecast.ValidateCoordinates` | src/screens/ForecastScreen.js:16-19 | the coordinates are accepted exactly when latitude is finite in [-90, 90] and longitude is finite in [-180, 180]; any rejection carries one of the four guard messages |
| `Forecast.GuardOrder` | src/screens/ForecastScreen.js:16-19 | NaN latitude wins over everything; NaN longitude wins over an out-of-range latitude; an out-of-range latitude wins over the longitude check |
| `Forecast.LatitudeRange` | src/screens/ForecastScreen.js:18 | with no NaN, "Latitude out of range" is reported exactly when latitude is outside the closed interval [-90, 90] |
| `Forecast.LongitudeRange` | src/screens/ForecastScreen.js:19 | with a valid latitude, "Longitude out of range" is reported exactly when longitude is outside the closed interval [-180, 180] |
| `Forecast.RangeBoundaries` | src/screens/ForecastScreen.js:18-19 | ±90 and ±180 are accepted; 91, 181 and +Infinity are rejected as out of range |
| `Forecast.FetchOutcome` | src/screens/ForecastScreen.js:15-38 | a guard failure is the outcome; otherwise a transport failure fails with that error's own message, a reply without `daily` fails with "Invalid data format from API", and the fetch succeeds exactly when the reply carries `daily`, with `daily` itself as the value |
| `Forecast.ErrorText` | src/screens/ForecastScreen.js:41 | the shown error is never empty: the message itself when it is non-empty, else "Failed to load forecast" |
| `Forecast.TransportErrorText` | src/screens/ForecastScreen.js:39-41 | with valid coordinates, a transport error shows its own message, or "Failed to load forecast" exactly when that message is empty |
| `Forecast.RowsFrom` | src/screens/ForecastScreen.js:77-87 | from index `start` on, there is one row per remaining `time` entry, and each row is the projection at its own index |
| `Forecast.DailyRows` | src/screens/ForecastScreen.js:77-85 | there are exactly `time.length` rows; row `i` pairs `time[i]` with `temperature_2m_min[i]`, `temperature_2m_max[i]` and `precipitation_sum[i]` |
| `Forecast.DatesFrom` | src/screens/ForecastScreen.js:77-79 | the dates of the rows from `start` on are exactly `time[start..]` |
| `Forecast.DatesAreTime` | src/screens/ForecastScreen.js:77-79 | the rows' dates are exactly `time`, one-to-one and in order |
| `Forecast.MissingValuesFollowShortArrays` | src/screens/ForecastScreen.js:81-84 | a row's field is absent exactly when its sibling array is too short to reach that index |
| `Forecast.TwoDayExample` | src/screens/ForecastScreen.js:77-85 | a two-day series gives the two expected rows |
| `Forecast.ForecastScreen.constructor` | src/screens/ForecastScreen.js:6-8 | the screen starts with no forecast, loading, and no error |
| `Forecast.ForecastScreen.BeginFetch` | src/screens/ForecastScreen.js:12-13 | a fetch first sets `loading` and clears `error`, keeping `forecast` |
| `Forecast.ForecastScreen.FetchForecast` | src/screens/ForecastScreen.js:10-45 | the request is issued exactly when the guards pass; `loading` always ends false; on success `forecast` is the payload and `error` is empty; on failure `forecast` is unchanged and `error` is the shown error text; the list is visible exactly on success |
| `Weather.GetPrecipitationStatus` | src/screens/WeatherScreen.js:49-54 | for a finite amount p: Snowing exactly when p > 1, Raining exactly when 0 < p ≤ 1, No Precipitation exactly when p ≤ 0; NaN (an absent field) and -Infinity give No Precipitation, +Infinity gives Snowing |
| `Weather.PrecipitationBoundaries` | src/screens/WeatherScreen.js:49-54 | 0 is none, 0.5 and 1 are rain, 1.5 is snow |
| `Weather.PrecipitationMonotonic` | src/screens/WeatherScreen.js:49-54 | more precipitation never gives a lower category |
| `Weather.RefreshOutcome` | src/screens/WeatherScreen.js:20-42 | a refresh is denied exactly when the permission status is not "granted"; it loads exactly when permission is granted, the position is found and the request succeeds, and then it loads the reply's `current_weather` |
| `Weather.RefreshMessage` | src/screens/WeatherScreen.js:22-41 | the error text is empty exactly on success; a denial gives the permission message and any other failure gives the fixed connection message |
| `Weather.StatusLabelsDistinct` | src/screens/WeatherScreen.js:49-54 | the three status labels are pairwise different, so the text shown identifies the category |
| `Weather.PanelOf` | src/screens/WeatherScreen.js:68-74 | the panel's temperature converts back to the Celsius reading, the wind speed is shown as given, and the precipitation line is the label of the classifier's category |
| `Weather.WeatherScreen.constructor` | src/screens/WeatherScreen.js:7-9 | the screen starts with no weather, not loading, and no error |
| `Weather.WeatherScreen.Reset` | src/screens/WeatherScreen.js:16-18 | a refresh first sets `loading`, clears `error` and clears `weather` |
| `Weather.WeatherScreen.GetLocationAndWeather` | src/screens/WeatherScreen.js:15-45 | the weather request is issued exactly when permission is granted and the position is found; `loading` always ends false; `error` and `weather` are those of the outcome; the panel shows exactly when a `current_weather` value was loaded |
| `Hourly.UvAt` | src/screens/HourlyForecastScreen.js:25 | the UV value is present exactly when the index is within the array and the entry is not null |
| `Hourly.RecordsFrom` | src/screens/HourlyForecastScreen.js:20-26 | from index `start` on, there is one record per remaining `time` entry, and each record is the zip at its own index |
| `Hourly.FormatHourly` | src/screens/HourlyForecastScreen.js:20-26 | `formattedData` has exactly `time.length` records; record `i` takes index `i` of `time`, `temperature_2m`, `windspeed_10m`, `precipitation` and `uv_index` |
| `Hourly.TimesFrom` | src/screens/HourlyForecastScreen.js:20-21 | the times of the records from `start` on are exactly `time[start..]` |
| `Hourly.TimesAreTime` | src/screens/HourlyForecastScreen.js:20-21 | the records' times are exactly `time`, one-to-one and in order |
| `Hourly.MissingValuesFollowShortArrays` | src/screens/HourlyForecastScreen.js:22-25 | a record's field is absent exactly when its sibling array is too short (or, for UV, the entry is null) |
| `Hourly.UvIndexOrMarker` | src/screens/HourlyForecastScreen.js:50 | the marker 'N/A' is shown exactly when the UV index is absent; a present value, zero included, passes through |
| `Hourly.ViewOf` | src/screens/HourlyForecastScreen.js:46-50 | each displayed value is present exactly when its input is, and converts back to it; the UV marker appears exactly when the UV index is absent, and a present UV index is shown unchanged |
| `Hourly.HourlyForecastScreen.constructor` | src/screens/HourlyForecastScreen.js:6-7 | the screen starts with an empty list, loading |
| `Hourly.HourlyForecastScreen.FetchHourlyForecast` | src/screens/HourlyForecastScreen.js:13-33 | `loading` always ends false; a failed request or a reply without `hourly` leaves `hourlyData` as it was; otherwise `hourlyData` is the formatted records |
| `Hourly.MountAndFetch` | src/screens/HourlyForecastScreen.js:6-32 | after the one fetch on mount the list is exactly the formatted records on success and is empty on any failure |

## Left out

- Network and device I/O: the axios requests, the 10-second timeout, the query parameters, and the expo-location calls. Each becomes an abstract input.
- Rendering, styles, navigation and `useEffect` triggering. Only the visibility conditions of the lists and the panel are modelled (`VisibleRows`, `VisiblePanel`, `VisibleItems`).
- Floating point: the converters and comparisons are modelled over exact reals. Rounding and formatting by `toFixed`, `toLocaleDateString` and `toLocaleTimeString` are not modelled.
- Wind chill (`getWindChillStatus`): it needs the fractional power `** 0.16`, which reals in Dafny cannot express. It is also fed the strings from `toFixed`.
- The `'N/A'.toFixed(0)` call throws whenever the UV index is absent. Only the defaulting that precedes it is modelled.
- A `daily` or `hourly` object that lacks one of its arrays, or holds `null` or other non-numbers. Each array is modelled as present and numeric, except for the `null` entries of `uv_index`. On the daily screen such an object is stored, and the render throws at `forecast.time.map` when `time` is missing, or when a sibling array is missing and `time` is non-empty. On the hourly screen the same read throws inside the fetch's `try`; the error is caught and logged, and the list stays as it was (`[]` after mount), so nothing throws during rendering. A `null` entry renders blank in a daily row. In an hourly item a `null` temperature, wind speed or precipitation is coerced to 0 and shows as 32.0 °F, 0.0 mph and 0.00 in.
- The distinction between `null` and `undefined` in a UV entry is not kept, since `??` treats both alike.
- Concurrency: overlapping fetches racing on the same state are not modelled. Each method is one fetch attempt run to completion.
- The intermediate renders between React state updates. Only the state after `BeginFetch`/`Reset` and the final state are stated.
- `console.error` logging.
