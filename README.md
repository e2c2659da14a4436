# Weather monitor client: a verified model

This project models the browser logic of the weather monitor. The browser client asks a small proxy for the current weather and the five-day forecast of a city, then renders them. It keeps the user's favorite cities, settings and last searched city in the browser's local storage. The model covers the logic that can be stated without the page:

- **The presenter state** (`public/script.js`). The global `state` record becomes the class `Presenter.App`. Its fields are the current city, the current observation, the favorites, the settings, the dark-mode flag of the page body, and the local storage it writes.
  - The methods are fetch, search, default-city load, forecast load, favorite toggle and removal, settings update, clear-all-data and start-up.
  - The class invariant `Persisted` states that a reload would read back the favorites and settings held in memory.
- **The favorites list** (`Favorites`). This is a sequence of `{name, country}` records keyed by name, with the `some` membership test, the `filter` removal and the push-or-filter toggle. The lemmas prove:
  - the removal deletes exactly the entries with that name;
  - the other entries keep their order and multiplicity;
  - uniqueness of names is preserved;
  - removal is idempotent;
  - toggling a city that is not a favorite twice restores the list.
- **The forecast reduction** (`Forecast`). The `forEach` loop fills a date-keyed object, then `Object.values(...).slice(0, 5)` takes the first five groups. This is an imperative method, proved against the specification function `Firsts`. The lemmas about `Firsts` prove:
  - every input date is represented;
  - each group is the first sample of its date;
  - groups come in first-occurrence order with distinct dates;
  - there is one group per distinct date.
- **Display rules** (`Display`). The Celsius/Fahrenheit rule and the dark-mode rule.
- **Trimming** (`JsText`). `String.prototype.trim`, as the search box uses it.
- **Page helpers** (`public/js/script.js`, module `Nav`):
  - `split("/").pop()` with its round trip through `join`;
  - `getCurrentPage`;
  - `setActiveNavLink`, as an in-place loop over an array of link records;
  - the zero-padded `HH:MM` clock text, and `updateLastUpdate` writing it into every `#lastUpdate` element.

Everything outside the page logic is an input:
- the outcome of a fetch (`Fetched`: a parsed body, or a failure of any kind);
- the answer to `confirm`;
- the `prefers-color-scheme: dark` media query;
- the locale's calendar date of a timestamp (`dateOf`);
- the clock's hours and minutes;
- the pathname.

Local storage is a record with one optional slot per key (`favorites`, `settings`, `defaultCity`). A stored value is the value that was serialised into it.

Behaviour of the code worth noting, which the model follows:
- Unreadable stored JSON is not replaced by defaults. `JSON.parse` throws at start-up, so no fallback is modelled.
- "Add to favorites" on a city that is already a favorite is not a no-op. It removes every entry with that name, so the button toggles.
- A stored default city that is the empty string is replaced by "London", because of `|| "London"`.
- `loadForecast` also skips when the current city is the empty string.

## Model

| member | source | states |
|---|---|---|
| Favorites.HasName | weather-monitor/public/script.js:216-218 | the `some` test is false on an empty list, and otherwise true exactly when the first entry or some later entry carries the name |
| Favorites.WithoutName | weather-monitor/public/script.js:270-272 | after `filter(fav => fav.name !== name)` no entry carries the name, and a list without the name comes back unchanged (removing an absent name is a no-op) |
| Favorites.WithoutNameKeepsOthers | weather-monitor/public/script.js:221-223 | every entry with another name survives with its multiplicity, and the result is a subsequence of the input (relative order kept) |
| Favorites.WithoutNameIdempotent | weather-monitor/public/script.js:271 | removing the same name twice is the same as removing it once |
| Favorites.WithoutNameKeepsUnique | weather-monitor/public/script.js:221-223 | filtering by name preserves "no two favorites share a name" |
| Favorites.Toggled | weather-monitor/public/script.js:216-229 | the toggle flips whether the name is a favorite; when absent it appends exactly the one `{name, country}` at the end; the entries with other names are the same sequence before and after; unique names are preserved |
| Favorites.ToggleTwice | weather-monitor/public/script.js:216-229 | toggling a city that is not a favorite twice restores the original list exactly |
| Forecast.FirstsDates | weather-monitor/public/script.js:165-171 | the groups carry exactly the dates of the input: every input date is represented before truncation, none is invented |
| Forecast.FirstsAreFirst | weather-monitor/public/script.js:166-170 | each group is the first sample of the input with its date (`if (!forecasts[date])` keeps the first) |
| Forecast.FirstsOrdered | weather-monitor/public/script.js:165-175 | groups appear in the order their dates first occur (insertion order of the date-keyed object), so no date has two groups |
| Forecast.FirstsCount | weather-monitor/public/script.js:165-171 | there are exactly as many groups as distinct dates (three dates give three groups) |
| Forecast.FirstDays | weather-monitor/public/script.js:174-175 | `slice(0, 5)` yields a prefix of the groups of length at most 5: all of them when there are at most 5, and exactly the first 5 otherwise |
| Forecast.ReduceForecast | weather-monitor/public/script.js:165-175 | the loop over the samples and the values of the date-keyed object give exactly the first five groups of the reduction, and as many cards as distinct dates up to five |
| Display.ToFahrenheit | weather-monitor/public/script.js:98 | C × 9/5 + 32 loses nothing (converting back gives the Celsius value), and a reading is below 32 °F exactly when it is below 0 °C, and 32 °F exactly at 0 °C |
| Display.ShownTemperature | weather-monitor/public/script.js:96-103 | a temperature is labelled "F" exactly when the unit is "fahrenheit", and then converting back gives the stored Celsius value; any other unit shows the value unchanged, labelled "C" |
| Display.FahrenheitLandmarks | weather-monitor/public/script.js:96-99 | 0 °C is shown as 32 °F and 100 °C as 212 °F |
| Display.DarkMode | weather-monitor/public/script.js:295-299 | the body is dark for theme "dark", follows the system preference for theme "auto", and is light for every other theme |
| Display.DarkModeFollowsSystemOnlyOnAuto | weather-monitor/public/script.js:295-303 | the system preference matters only for theme "auto", which follows it; any other theme is dark exactly when it is "dark" |
| JsText.Trim | weather-monitor/public/script.js:58 | `trim()` returns a contiguous piece of the input with no white space at either end, only white space is cut, and the result is empty exactly when the input is blank |
| Presenter.StoredFavorites | weather-monitor/public/script.js:5 | favorites start as the stored list, or `[]` when the key is absent |
| Presenter.StoredSettings | weather-monitor/public/script.js:6-10 | settings start as the stored record, or `{unit: "celsius", theme: "light", notifications: false}` when the key is absent |
| Presenter.StartupCity | weather-monitor/public/script.js:52 | the start-up city is never empty: the stored default city, or "London" when the key is absent or empty |
| Presenter.ClearedStoreGivesDefaults | weather-monitor/public/script.js:306-317 | a reload after `localStorage.clear()` starts from no favorites, the default settings and London, the same values clearAllData puts in memory |
| Presenter.SearchedCityLoadsNext | weather-monitor/public/script.js:57-63 | after a non-blank search the next start-up loads the trimmed search text |
| Presenter.Card | weather-monitor/public/script.js:85-141 | the rendered card shows "name, country", the temperature and the feels-like temperature of the observation each shown by the unit rule of `Display.ShownTemperature` (so both on the same scale), and a remove button exactly when the city's name is among the favorites |
| Presenter.App.constructor | weather-monitor/public/script.js:2-11 | the initial state has no current city or observation, and takes favorites and settings from storage with their defaults, so Persisted holds |
| Presenter.App.ApplySettings | weather-monitor/public/script.js:289-304 | dark mode is on exactly for theme "dark", or "auto" with a dark system preference |
| Presenter.App.FetchWeather | weather-monitor/public/script.js:66-82 | on a failed request or an unreadable body the current observation and city are unchanged and nothing is rendered; on success they become the response and the requested city, and the card is rendered |
| Presenter.App.LoadDefaultCity | weather-monitor/public/script.js:51-54 | the requested city is the start-up city, and the state changes as for FetchWeather |
| Presenter.App.SearchWeather | weather-monitor/public/script.js:57-63 | a blank input requests nothing and changes nothing; otherwise the trimmed input is fetched and written as `defaultCity` even when the fetch failed |
| Presenter.App.LoadForecast | weather-monitor/public/script.js:144-156 | without a current city (null or empty) nothing is requested; otherwise the current city's forecast is requested, and a failure shows "unavailable" while a success shows the reduced cards; the state is untouched |
| Presenter.App.AddToFavorites | weather-monitor/public/script.js:213-233 | without a current observation nothing changes; otherwise the favorites become the toggle of the current city and are written to storage, the button flips, and unique names are preserved |
| Presenter.App.RemoveFavorite | weather-monitor/public/script.js:270-274 | the favorites lose every entry with the name, the stored list equals the in-memory list, and unique names are preserved |
| Presenter.App.UpdateSettings | weather-monitor/public/script.js:277-287 | the form values replace the settings and are stored, the theme is applied, and the cached observation is re-rendered in the new unit without a fetch |
| Presenter.App.ClearAllData | weather-monitor/public/script.js:306-317 | if confirmed, storage is emptied and favorites and settings are reset to `[]` and the defaults; otherwise nothing changes |
| Presenter.App.Start | weather-monitor/public/script.js:14-18 | start-up applies the theme and then loads the start-up city, with the state changes and the rendered card of loadDefaultCity |
| Nav.SplitSlash | weather-monitor/public/js/script.js:17 | `split("/")` gives at least one piece, and no piece contains a slash |
| Nav.SplitJoin | weather-monitor/public/js/script.js:17 | joining the pieces with "/" gives the pathname back |
| Nav.LastPieceAfterLastSlash | weather-monitor/public/js/script.js:17 | the last piece of the split is the part of the pathname after its last slash (all of it when there is none) |
| Nav.LastPiece | weather-monitor/public/js/script.js:17 | `split("/").pop()` is a suffix of the pathname with no slash, and it is preceded by a slash unless it is the whole pathname |
| Nav.CurrentPage | weather-monitor/public/js/script.js:15-19 | the page is never empty and never contains "/"; it is "index.html" when the pathname is empty or ends in "/", and otherwise the segment after the last slash |
| Nav.MarkActiveLinks | weather-monitor/public/js/script.js:26-37 | the loop over the links sets each link's active flag by its three branches: the root-path case (current page "" or "/" with href "index.html"), an href equal to the current page, and otherwise off; hrefs and order are unchanged |
| Nav.SetActiveNavLink | weather-monitor/public/js/script.js:22-38 | afterwards a link is active exactly when its href equals the current page, and only the active flags change; the root-path case of the loop never applies, since the current page is never "" or "/" |
| Nav.Decimal | weather-monitor/public/js/script.js:4-5 | `String(n)` is one or more decimal digits that read back as n, with no leading zero (it starts with 0 only for 0 itself), a single digit exactly when n < 10 |
| Nav.PadStart | weather-monitor/public/js/script.js:4-5 | `padStart(width, fill)` fills on the left up to the width and keeps a longer string whole |
| Nav.TwoDigits | weather-monitor/public/js/script.js:4-5 | `String(n).padStart(2, "0")` is at least two digits that read back as n, exactly two when n < 100, and `String(n)` itself from 10 on |
| Nav.TimeString | weather-monitor/public/js/script.js:3-6 | for hours 0..23 and minutes 0..59 (indeed any two numbers below 100) the clock text is five characters `HH:MM`, and its two fields read back as the hours and minutes |
| Nav.SetAllTexts | weather-monitor/public/js/script.js:9-11 | after the `forEach` every element's text is the given text |
| Nav.UpdateLastUpdate | weather-monitor/public/js/script.js:8-11 | every element of the `#lastUpdate` collection receives the same clock text |

## Left out

- `weather-monitor/app.js`, the Express proxy, is not part of this model. It is I/O over a web framework and an HTTP client. Its only logic is that every upstream failure becomes a fixed 404 body. The client sees this only as a failed fetch (`Fetched.Failed`).
- DOM work is not modelled:
  - `showLoading`, `showError`, `closeError`, the error-modal click handler, and the input box cleared after a successful fetch;
  - the Enter-key listener;
  - `showPage`, which relies on the global `event`;
  - the icon URLs and the forecast card markup, whose icon expression is malformed;
  - the humidity, wind, pressure and visibility texts.
- `displayFavorites` is not modelled: its empty-list placeholder and favorite cards are markup only. A click on a favorite card is `fetchWeather(city.name)` followed by `showPage`, which is `App.FetchWeather`.
- Locale and clock sources are parameters: `toLocaleDateString` (`dateOf`), and `new Date().getHours()` and `getMinutes()`.
- The "Updated <time>" text that `displayWeather` writes with `toLocaleTimeString` is not modelled. `WeatherCard` does not hold it, like the other DOM texts.
- Forecast.ReduceForecast: the date-keyed object is taken to enumerate its keys in insertion order for every date string `dateOf` returns. A JavaScript object lists integer-like keys first, in ascending order. The locale's date strings (such as "1/2/2024") are never integer-like, but the model does not constrain `dateOf` to such strings.
- Floating-point rendering is not modelled: `Math.round` of temperatures and `toFixed(1)`. The model states the conversion over exact reals.
- `JSON.parse` and `JSON.stringify` are not modelled. A stored value is the value that was written. Malformed stored JSON, or a stored literal `null`, is out of the model.
- Concurrency and events are not modelled:
  - overlapping fetches resolving out of order: each operation runs to completion;
  - `setInterval`;
  - `visibilitychange`;
  - `location.reload` after clearAllData. What a reload would read back is stated by `ClearedStoreGivesDefaults` and the `Persisted` invariant.
- Presenter.App.FetchWeather: a received body is assumed to hold every field `displayWeather` reads (`sys`, `main`, `weather[0]`). In the source, a 200 response without one of them throws inside `displayWeather`, after lines 74-75 have already set the current observation and city (and, when `main` is missing, after the city name and update time were written). The catch then shows an error and undoes nothing. The model does not capture that half-updated state. The same assumption holds for `LoadDefaultCity`, `SearchWeather` and `Start`.
- Presenter.App.LoadForecast: every received sample is assumed to hold the fields `displayForecast` reads. In the source, a sample without `main` throws in the card loop after earlier cards were appended, so the page shows some cards and "Could not load forecast" together. `ForecastView` has no such mixed outcome.
- Presenter.App.UpdateSettings: the source assigns the three fields of the existing settings object one by one. The model replaces the record with one of the same three values.
- Presenter.App.LoadForecast: a forecast card's temperature uses the same unit rule as `Display.ShownTemperature`. The method returns the chosen samples, not their rendered text.
- JsText.Trim: JavaScript strings are UTF-16 code units. The model's characters are Unicode scalar values, and the white-space set is the ECMAScript one.
