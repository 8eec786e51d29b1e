# Weather page: view selection, hourly sampling, icons and page state

A model of the logic inside `src/App.js` of a small React weather page. The
user submits a place name; the page asks a geocoding service for its
coordinates and a quality code, then asks a weather service for the forecast
at those coordinates, and shows either nothing, a "Location not found."
message, or the current conditions with up to six hourly cells.

Modules:

- `Wrappers` (`wrappers.dfy`): the `Option` used for JavaScript's `undefined`
  and for a promise chain that stopped.
- `Icons` (`icons.dfy`): `tern`, the lookup from condition code to glyph, and
  the colour of the current-conditions glyph.
- `HourlyForecast` (`hourly.dfy`): the `Hourly` component's index filter
  (entries at even indices below 12) and the cells it draws.
- `Display` (`display.dfy`): the `Results` selector, JavaScript's
  `substring`, and the `WeatherData` panel.
- `WeatherApp` (`app.dfy`): the `App` component as a class whose fields are
  the members of `this.state`, with the submit handler and its two state
  updates. Each step is also a pure function on an `AppState` record, and the
  methods are proved against those functions. The geocoding and forecast
  replies are parameters of the handler.

Three behaviours of the code are easy to misread:

- Only a location of length 0 is rejected. A whitespace-only location is
  submitted.
- The quality code does not gate the forecast request. Both requests are
  issued whenever the geocoding reply has a first location. Only `Results`
  looks at the quality code (`WeatherApp.QualityDoesNotGate`).
- A forecast reply without a `currently` block does not lead to an error
  view. Reading `data.currently.summary` throws and the second update is
  skipped, but the first update has already written the new lat, lon and
  quality code. The previous summary and payload are kept. When that summary
  is not empty, the page keeps showing the previous panel, unless the new
  quality code is low, in which case it shows the error message
  (`WeatherApp.StalePanelAfterIncompleteForecast`).

## Model

| member | source | states |
|---|---|---|
| `Icons.TernDefinedExactly` | src/App.js:72-81 | the glyph lookup gives a glyph for exactly the ten known condition codes and `undefined` (None) for every other string |
| `Icons.TernMatchesTable` | src/App.js:72-81 | the chain of tests agrees, on every string, with a code-to-glyph table of the ten codes |
| `Icons.TernSharedGlyphs` | src/App.js:76-78 | "snow" and "sleet" both give the snowflake; "cloudy" and "fog" both give the cloud |
| `Icons.TernSunOnlyForClearDay` | src/App.js:73-81 | the sun glyph is given for "clear-day" and for no other code |
| `Icons.IconColor` | src/App.js:64-67 | the colour is "yellow" exactly when the code is "clear-day", and "white" exactly otherwise |
| `Icons.YellowExactlyForSun` | src/App.js:64-81 | the current glyph is coloured yellow exactly when the lookup draws it as the sun |
| `HourlyForecast.FilterFromEven` | src/App.js:26-28 | from an even index, the filter keeps the entries two apart up to index 12 or the end of the series, and counts them |
| `HourlyForecast.SampleHourly` | src/App.js:26-28 | the `.filter`, modelled by `FilterFrom` from index 0: entry k of the sample is entry 2k of the series; the sample has at most 6 entries, exactly 6 when the series has at least 11 |
| `HourlyForecast.SampleHourlyKeepsExactly` | src/App.js:26-28 | an entry is kept exactly when its index is even and below 12, and then sits at half its index in the sample |
| `HourlyForecast.Hourly` | src/App.js:26-38 | `SampleCount` cells (half the series rounded up, at most 6), so 6 for a series of at least 11; cell k shows the timestamp and the looked-up glyph of hourly entry 2k |
| `Display.Substring` | src/App.js:108 | `substring(start)`, for strings of one-code-unit characters, is empty when start is at or past the end, and otherwise holds the characters from start on |
| `Display.LowQualityExactly` | src/App.js:108 | the test `LowQuality` (`quality.substring(2) === "XXX"`) holds exactly when a quality code (of one-code-unit characters) has 5 characters of which the last three are 'X' |
| `Display.WeatherData` | src/App.js:61-95 | the panel shows the given summary and the current glyph, yellow exactly when it is the sun and white otherwise, and `SampleCount` hourly cells (at most 6), cell k carrying the timestamp and looked-up glyph of hourly entry 2k |
| `Display.Results` | src/App.js:100-119 | nothing for an empty summary; otherwise the error view exactly for a low quality code and the weather panel for any other code; the weather panel is shown only when the payload has a `currently` block |
| `Display.ResultsErrorExactly` | src/App.js:108-117 | with a non-empty summary: the error view iff the quality code is 5 characters ending in "XXX", the weather view iff not, so a code shorter than 5 always shows the weather |
| `Display.NothingForEmptySummary` | src/App.js:103-105 | an empty summary shows nothing whatever the quality code and payload |
| `WeatherApp.Geocoded` | src/App.js:165-171 | `FirstLocation` reads `data.results[0].locations[0]`; a reply with a first location writes its latitude, longitude and quality code and leaves summary and payload alone; a reply without one stops the chain |
| `WeatherApp.ForecastArrived` | src/App.js:177-180 | a payload with `currently` writes its summary and the payload and leaves lat, lon and quality alone; one without stops the chain |
| `WeatherApp.Submitted` | src/App.js:152-181 | an empty location changes nothing and sends nothing; otherwise the geocoding request comes first, the forecast request (with the new coordinates) follows exactly when the geocoding reply has a location. A chain stopped at the geocoding step leaves the state as it was. Otherwise lat, lon and quality come from the first location, and summary and payload come from the forecast reply when it has `currently` and stay as they were when it does not |
| `WeatherApp.EmptySubmitIsNoop` | src/App.js:157-159 | submitting the empty location issues no request and leaves every field as it was |
| `WeatherApp.QualityDoesNotGate` | src/App.js:165-177 | two geocoding replies with the same coordinates lead to the same requests and the same summary and payload, whatever their quality codes |
| `WeatherApp.ShownAfterSubmit` | src/App.js:152-199 | after a geocoding reply with a first location and a forecast reply whose `currently` has a non-empty summary, the page shows the error view for a low quality code and the new payload's panel otherwise, having issued both requests |
| `WeatherApp.StalePanelAfterIncompleteForecast` | src/App.js:176-180 | a forecast reply without `currently` keeps the previous summary and payload beside the new quality code, so the old panel stays unless the new code is low |
| `WeatherApp.SubmitIdempotent` | src/App.js:152-181 | submitting the same location twice with the same replies ends in the same state and requests as submitting it once |
| `WeatherApp.App.constructor` | src/App.js:135-143 | the state starts with empty coordinates, quality and summary and the empty payload `{}` |
| `WeatherApp.App.GeocodeLoaded` | src/App.js:165-171 | the fields become `Geocoded` of the old state, or stay as they were when the reply has no location; summary and payload never change |
| `WeatherApp.App.ForecastLoaded` | src/App.js:177-180 | the fields become `ForecastArrived` of the old state, or stay as they were; lat, lon and quality never change |
| `WeatherApp.App.UserInput` | src/App.js:152-181 | the new state and the requests issued are exactly `Submitted` of the old state, and the summary keeps matching the stored payload |
| `WeatherApp.App.Render` | src/App.js:184-199 | through `ViewOf`, which hands the state to `Results`: an empty summary renders nothing, and a weather panel always shows the stored payload's own summary |

## Left out

- The `fetch` calls, the URL strings with their API keys from the environment, the CORS proxy prefix and `response.json()` (src/App.js:161-177): network I/O. A request is a value carrying the location or the coordinates, and each reply is a parameter. A failed fetch or an unparsable body stops the chain just as a reply without the needed field does, so it is not modelled separately.
- Reading the input through the form event and `preventDefault` (src/App.js:153-154): the submitted location is a parameter.
- Time-zone and hour formatting with `moment`, `moment-timezone` and `Intl`, and their calls at module load (src/App.js:17-18, 30-31): foreign libraries. A cell keeps the raw timestamp.
- `Math.round` of the temperatures and the daily high and low (src/App.js:39, 89-91): floating-point display. Temperatures are carried as `real` and never shown.
- The JSX tree, the FontAwesome components and the CSS classes (src/App.js:35-48, 53-58, 83-95, 122-131, 184-199): presentation. The view is a datatype.
- Interleaving of the promise chains of several submits in flight at once: the model runs one chain to its end before the next submit.
- The payload's `daily` block and the presence of `hourly.data`: a payload with `currently` is assumed to carry `hourly.data` and a non-empty `daily.data`. A payload without them is still stored by the second update, and `WeatherData` would then throw while rendering (src/App.js:26, 90). The model has no such payload and no crash outcome.
- The forecast request reads `this.state.lat` and `this.state.lon` just after the first `setState` (src/App.js:174). The model assumes that `setState` called from a promise callback takes effect at once, as in React's legacy rendering mode. Under automatic batching the request would carry the previous coordinates.
- Display.Substring: strings are sequences of Unicode characters, while JavaScript's `substring` counts UTF-16 code units. So `Substring`, `LowQuality` and the "5 characters" of `LowQualityExactly` agree with the source only on strings with no character outside the Basic Multilingual Plane. The geocoder's quality codes are ASCII.
- Latitude, longitude and coordinates are opaque `real` values. Their JavaScript number formatting in the URL is not modelled.
