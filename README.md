# Open-Meteo weather widget — a Dafny model

The page script has one component with real decision logic: the weather
widget, which turns a city name or the browser's position into a forecast
shown in fixed page slots. It uses the Open-Meteo geocoding and forecast
services. `app.js` and `weather.js` carry two nearly identical copies of it.
`app.js` also has a small dark-mode toggle. Both copies share this one model.

- `js.dfy` (module `Js`): the JavaScript built-ins the widget relies on.
  These are the truthiness and template interpolation of JSON values,
  `String.prototype.trim` and `Array.prototype.indexOf`.
- `lexicon.dfy` (module `Lexicon`): the `WCODE` table of weather codes, with
  its `("N/A", "❔")` fallback.
- `geocoding.dfy` (module `Geocoding`): the name search and the reverse
  lookup, from the service's response to a location and its label.
- `forecast.dfy` (module `Forecast`): the forecast response, the next-hour
  precipitation text and what `renderWeather` writes.
- `storage.dfy` (module `Storage`): `localStorage` as one shared
  string-to-string map.
- `widget.dfy` (module `Widget`): the class `WeatherWidget`. It holds the
  status line, its error flag, the result panel's `hidden` attribute, the
  slot texts and the city input. Its methods are the steps of `loadByCity`,
  `loadByGeolocation`, the submit handler and the page-load auto-fetch.
- `theme.dfy` (module `Theme`): the class `ThemeToggle`, with its click
  handler and its restore step.

Each network service is an input. The search is a function from the query
text to a `SearchResponse`. The forecast and the reverse lookup are
functions from coordinates to a `ForecastResponse` or a `ReverseResponse`.
The geolocation answer is a `Geolocation` value. Each response is either a
rejection (`fetch` or `res.json()` failed, with the error's message), a
response that is not ok, or the decoded JSON. Each pipeline runs to the end
before the next event is handled.

Two behaviours of the code are kept as written:

- The label leaves out a falsy `admin1` or `country`. But app.js:103
  interpolates `${r.name}` unguarded, so a forward-search result without a
  `name` is labelled with the text `undefined` (or `null`). `CityLabel`
  keeps that.
- `weather.js` does not check that the city input exists before the
  page-load fetch. When it is missing, the handler throws a `TypeError`
  before `loadByCity` is called. So, as in `app.js`, nothing is loaded.
  `PageLoad` models both copies this way.

## Model

| member | source | states |
|---|---|---|
| `Js.Trim` | app.js:194 | The trimmed input is a contiguous part of the input. Only whitespace comes before and after it, and it neither starts nor ends with whitespace. |
| `Js.TrimEmptyIffBlank` | weather.js:139-140 | The trimmed input is empty exactly when the input is all whitespace. So a blank submission never starts a search. |
| `Js.IndexOf` | app.js:125 | Returns -1 exactly when the current time is absent. Otherwise it returns an index holding it, and no earlier index does. |
| `Lexicon.Describe` | weather.js:66 | A code gets the fallback `("N/A", "❔")` exactly when it is not one of the 28 listed codes. No listed code has the description "N/A". |
| `Lexicon.TableCodes` | app.js:72-84 | The table's keys are exactly the 28 codes listed independently. Every code lies in the vendor's range 0 to 99. |
| `Lexicon.LightRain` | app.js:77 | Code 61 gives `("Light rain", "🌧️")`. |
| `Geocoding.CityLabelIsJoin` | app.js:103 | The forward label is the name joined by ", " with the truthy admin1 and country parts only. No separator is added for an empty or missing part. |
| `Geocoding.ReverseLabelIsJoin` | app.js:178 | The reverse label has the same shape. "Your location" takes the place of a falsy name. |
| `Geocoding.JoinParts` | weather.js:52 | Appending `", " + v` for each truthy value equals joining the head with the truthy values by ", ". This holds for any number of optional parts. |
| `Geocoding.ReverseLabelDefaultsName` | weather.js:123 | With a truthy name, the reverse label equals the forward label. Otherwise it starts with "Your location". It is never empty. |
| `Geocoding.Geocode` | app.js:97-104 | Succeeds exactly when the response is ok with at least one result. It then gives the first result's coordinates and label. A response that is not ok gives "Failed to search city". Empty results give "City not found". A rejection passes its message on. |
| `Geocoding.ReverseLookup` | app.js:171-181 | Never fails and never gives an empty label. A throw, a response that is not ok, or empty results give "Your location". Otherwise it gives the first result's reverse label. |
| `Forecast.FetchForecast` | app.js:106-111 | Succeeds exactly when the response is ok. A response that is not ok gives "Failed to load weather". A rejection passes its message on. |
| `Forecast.NextHourPrecipitation` | app.js:122-129 | The text is the precipitation amount plus " mm", taken at the first hourly time equal to the current time, when that index is inside the amounts array. It is "—" exactly when that is not so: no hourly block, no time or precipitation array, no exact match, or an index out of range. |
| `Forecast.FirstMatchUnique` | weather.js:71 | Any first exact match is the index `indexOf` reports. |
| `Forecast.PrecipitationExample` | weather.js:68-75 | With times 10:00 and 11:00, amounts "0" and "1.2" and current time 11:00, the text is "1.2 mm". With a current time not in the list, it is "—". |
| `Forecast.Render` | app.js:113-139 | The place slot is the label as given. The icon and description are the lexicon's entry for the current code. The precipitation slot is the next-hour text. The timezone is the payload's. |
| `Forecast.RenderLightRain` | app.js:116-119 | A payload with code 61 renders "Light rain" with the icon "🌧️". |
| `Widget.ErrorStatus` | app.js:154 | A failure's status is the error message, or "Something went wrong" when the message is empty. It is never empty. |
| `Widget.CityPipeline` | app.js:145-151 | The failure messages in order: the search's rejection message, "Failed to search city", "City not found", then the forecast's rejection message or "Failed to load weather". The forecast is fetched for the first result's coordinates. On success the result is rendered under that result's label. |
| `Widget.CityPipelineSucceeds` | weather.js:95-97 | A city load succeeds exactly when the search finds a place and that place's forecast request is ok. |
| `Widget.AutoLoadCity` | app.js:201-209 | Page load searches for the stored `lastCity` when it is non-empty, else for "Stockholm". The city is never empty. |
| `Widget.ReloadAfterSearch` | app.js:201-205 | After a successful search for a non-empty name is stored, a reload searches for that name again. |
| `Widget.ReloadAfterLocate` | weather.js:145-152 | After a successful geolocation has removed `lastCity`, a reload searches for "Stockholm". |
| `Widget.WeatherWidget.SetStatus` | app.js:86-90 | Sets the status text and the error flag, and nothing else. |
| `Widget.WeatherWidget.ShowResult` | app.js:92-95 | Sets the panel's `hidden` to the negation of `show`, and nothing else. |
| `Widget.WeatherWidget.ShowProgress` | app.js:147-148 | Shows a progress message without the error flag and hides the panel. Both pipelines start this way. |
| `Widget.WeatherWidget.ShowFailure` | weather.js:99-102 | Shows the error status with the error flag set and hides the panel. |
| `Widget.WeatherWidget.RenderWeather` | app.js:131-142 | Fills the slots with the rendered payload, clears the status and its error flag, and shows the panel. |
| `Widget.WeatherWidget.LoadByCity` | app.js:145-157 | On success the weather is shown with an empty status and no error flag, and `lastCity` is set to the name. The name is stored only in this case. On any failure the status is the failure message, the error flag is set, the panel is hidden, and the slots and the store are unchanged. |
| `Widget.WeatherWidget.OnPosition` | app.js:166-186 | A failed forecast gives "Couldn't load weather for your location." with the error flag set. The panel's visibility, the slots and the store are left alone. On success the weather is shown under the reverse-lookup label, which falls back to "Your location", and `lastCity` is removed. |
| `Widget.WeatherWidget.LoadByGeolocation` | app.js:159-190 | Without geolocation: "Geolocation not supported in this browser." with the error flag set, and the panel, the slots and the store untouched. When denied: "Location permission denied or unavailable." with the panel hidden. With a position: as `OnPosition`, with the panel hidden on failure. It never stores an empty `lastCity`. |
| `Widget.WeatherWidget.Submit` | app.js:192-197 | A blank trimmed input, or a missing input element, changes nothing. Otherwise the trimmed text is loaded as by `LoadByCity`. It never stores an empty `lastCity`. |
| `Widget.WeatherWidget.PageLoad` | app.js:200-210 | With a city input, the input is set to the auto-load city, which is then loaded as by `LoadByCity`. Without one, nothing changes. It never stores an empty `lastCity`. |
| `Theme.ButtonLabel` | app.js:12-15 | The button reads "☀️ Light Mode" exactly in dark mode and "🌙 Dark Mode" exactly in light mode. |
| `Theme.StoredFlag` | app.js:16 | The stored flag is "1" exactly in dark mode, and "0" exactly in light mode. |
| `Theme.ThemeToggle.Click` | app.js:10-17 | Flips the theme and sets the matching button label. It writes the matching flag under `darkMode`, and no other stored key changes. After a click the label and the flag agree with the theme. |
| `Theme.ThemeToggle.Restore` | app.js:18-22 | Dark mode and the "☀️ Light Mode" label are applied when the stored flag is exactly "1". Any other flag, or none, leaves the toggle as the page had it. |
| `Theme.ClickTwice` | app.js:11-16 | Two clicks restore the theme. When the label and the stored flag agreed with it before, they are restored too. |

## Left out

- Network I/O: `fetch`, `res.json()` and building the request URLs. Each response is an input (see above). A JSON decoding failure is a rejection with its message.
- Temperature, feels-like, wind speed and the daily minimum and maximum. These are floats passed through `Math.round`, so they are not modelled. Precipitation amounts are kept as the text JavaScript prints for them.
- The "Updated:" time. It is formatted by `Date` and `toLocaleString`, which depend on locale and timezone. Only the timezone identifier is kept.
- Malformed forecast payloads. The model's payload always has `current` and `daily`; only `hourly` and its arrays may be missing. A missing `current` makes `renderWeather` throw a `TypeError` at `new Date(data.current.time)` (app.js:115, weather.js:64), before any slot is written. A missing `daily` makes it throw after seven slots are written (app.js:138, weather.js:84). In `loadByCity` that throw shows the `TypeError`'s message with the error flag set and the panel hidden (app.js:153-155). In the position callback it shows "Couldn't load weather for your location." (app.js:184-185).
- Widget.WeatherWidget.LoadByCity, Widget.WeatherWidget.OnPosition: their success branches assume the store never throws. `localStorage.setItem("lastCity", name)` (app.js:152, weather.js:98) sits inside `loadByCity`'s `try`. If the store throws (quota full, storage disabled), the result already on screen gives way to an error status with the error flag set and the panel hidden (app.js:153-155). A throwing `removeItem` (app.js:183) leaves "Couldn't load weather for your location." with the error flag set over a visible panel (app.js:184-185).
- Place fields that are numbers or booleans. `JsValue` covers only a missing field, `null` or a string, so the truthiness and `${}` text of a numeric or boolean `name`, `admin1` or `country` are outside the model.
- Coordinates are `real` values that are only passed on. The weather code is an integer; codes that are not integers are not modelled.
- Missing page elements. Without the weather form the widget does not exist. The element guards in `setStatus`, `showResult` and app.js's `renderWeather` are not modelled, nor does the model cover weather.js's `renderWeather` throwing for a missing slot. The model assumes every element exists, except the city input, which `hasCityInput` covers.
- Geolocation options (`enableHighAccuracy`, the 10-second timeout, the 5-minute maximum age). Denial, timeout and unavailability all reach the one error callback, modelled as `Denied`.
- Overlapping pipelines, where a second load starts before the first ends and the last to finish wins. Each pipeline is one atomic method call.
- Registering the event listeners and `preventDefault`. The typewriter tagline, the fade-in observer, the `$`/`$all` helpers and the scroll-to-top button in java.js are page decoration with no decision logic.
