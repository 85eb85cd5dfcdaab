# Weather component model

A Dafny model of the weather component in `src/app/Weather.tsx`. The
component resolves a location at mount time: the browser's reported
coordinates, or the default city "London". It can also be given a city name
through a form. For that location it asks the weather provider for three
things in strict sequence: current conditions, a forecast and air quality.
The results go into four state slots: `weather`, `forecast`, `airQuality` and
`error`. It also maps a condition label to a display glyph.

Layout:

- `payloads.dfy` (module `Payloads`): the decoded JSON bodies the component
  reads, and what each awaited request hands back. The first request's `ok`
  flag is checked (`Checked`: `Ok`, `NotOk` or `Threw`). The second and
  third requests' `ok` flags are never looked at (`Unchecked`: `Parsed` or
  `Failed`). A thrown value is either an `Error` with a message or something
  else.
- `array_slice.dfy` (module `ArraySlice`): `Array.prototype.slice` for
  integer arguments, as the ECMAScript language specification defines it.
  The bounds are clamped relative to the length, then copied element by
  element.
- `weather.dfy` (module `Weather`):
  - `WeatherEmoji`, the glyph lookup;
  - `Cycle`, one fetch cycle as a pure value, meaning the requests issued in
    order and the slots it leaves;
  - `StartupLocation`, the mount-time decision;
  - the class `WeatherPanel`, which holds the state slots. Its fetch
    methods are the component's sequential code, proved to leave exactly
    what `Cycle` describes and to keep the invariant `Valid()`. That
    invariant says that either all three data slots are set and `error` is
    null, or all three are cleared.

The network is reduced to inputs. Each fetch method takes the outcomes of its
three requests and returns the requests it actually issued, in order.
Responses to requests that were never issued are ignored. The browser's
geolocation request becomes a `Geolocation` value: unavailable, error, or a
position.

Behaviour of the code that the model keeps:

- There is no loading state. A cycle writes the slots only at its end.
- A thrown `Error`'s message is shown as it is, TypeErrors included. Only a
  thrown non-`Error` value gets "An unexpected error occurred".
- Only the first response's `ok` flag is checked, and a first response that
  is not ok aborts the cycle. The forecast and air-quality responses are
  decoded whatever their status. A forecast reply without `list` fails at
  the `slice` call with a TypeError, and its message is shown. An
  air-quality error body is stored as if it were data.
- On the name path the code reads `coord` from the current-conditions body
  before the third request. A body without `coord` throws a TypeError there.
  `WeatherData` therefore carries `coord` (and `dt`, which the display reads)
  even though the TypeScript type declares neither.
- `setWeather` runs before `forecastData.list.slice(0, 5)`. When that call
  throws, the catch block clears `weather` again in the same synchronous
  step, so the final slots are still fully cleared. The methods model this
  ordering.

## Model

| member | source | states |
|---|---|---|
| `Weather.WeatherEmoji` | src/app/Weather.tsx:44-65 | Total over every string. Each of the eight labels Clear, Clouds, Rain, Snow, Thunderstorm, Drizzle, Mist and Haze gets its own glyph from the table. Every other string gets the rainbow fallback, and only those strings do. |
| `Weather.GlyphsDistinct` | src/app/Weather.tsx:44-61 | There are eight labels with pairwise different glyphs, and none of them is the fallback. |
| `Weather.EmojiCaseSensitive` | src/app/Weather.tsx:62-63 | Matching is exact: "clear", "CLOUDS" and the empty string all fall to the default arm. |
| `ArraySlice.Clamp` | src/app/Weather.tsx:114 | A slice bound is clamped into [0, len]. A negative bound counts from the end. |
| `ArraySlice.CopyFrom` | src/app/Weather.tsx:114 | The copy from k up to final has length final - k and holds the source elements in their original order. |
| `ArraySlice.Slice` | src/app/Weather.tsx:114 | `s.slice(start, end)` is the contiguous run between the clamped bounds, or empty when they cross. |
| `ArraySlice.SliceHead` | src/app/Weather.tsx:151 | `s.slice(0, n)` is the prefix of length min(n, \|s\|). It is a prefix of `s` and has at most n entries. |
| `Weather.NotFoundMessage` | src/app/Weather.tsx:98-99 | A first response that is not ok throws "City not found" on the name path. On the coordinate path (lines 135-136) it throws "Location not found". |
| `Weather.MessageOf` | src/app/Weather.tsx:117-122 | The catch block shows the message of a thrown `Error`, and "An unexpected error occurred" for anything else. |
| `Weather.AirKey` | src/app/Weather.tsx:108-109 | The air-quality request is keyed by the current-conditions body's `coord` on the name path. On the coordinate path (line 146) it uses the input coordinates unchanged. |
| `Weather.Failure` | src/app/Weather.tsx:117-126 | After the catch block, all three data slots are cleared and `error` holds the thrown value's message. |
| `Weather.Cycle` | src/app/Weather.tsx:92-127 | A cycle issues current, then forecast, then air quality, each only after the previous one went through. It issues exactly one current-conditions request. The slots never mix set and cleared values. `error` is null exactly when every step succeeds. In that case `weather` and `airQuality` are the payloads and `forecast` is the first min(5, \|list\|) provider entries in order. A first response that is not ok issues nothing more and leaves everything cleared with the not-found message. Every other failure clears all three data slots and sets `error`. |
| `Weather.StartupLocation` | src/app/Weather.tsx:74-90 | A reported position gives a coordinate fetch with exactly that latitude and longitude. A geolocation error or missing geolocation gives a name fetch for "London". |
| `Weather.WeatherPanel.constructor` | src/app/Weather.tsx:68-72 | The initial slots: empty city text, null `weather`, empty `forecast`, null `airQuality` and null `error`. The invariant holds. |
| `Weather.WeatherPanel.SetCity` | src/app/Weather.tsx:179 | The input's change handler replaces the city text. |
| `Weather.WeatherPanel.FetchWeatherData` | src/app/Weather.tsx:92-127 | Whatever the slots held before, the name-keyed cycle leaves the slots and issues the requests that `Cycle` gives. It keeps the invariant. |
| `Weather.WeatherPanel.FetchWeatherDataByCoords` | src/app/Weather.tsx:129-164 | The same as `FetchWeatherData`, for the coordinate-keyed cycle. |
| `Weather.WeatherPanel.Mount` | src/app/Weather.tsx:74-90 | The mount effect runs exactly one cycle, keyed by `StartupLocation` of the geolocation outcome. |
| `Weather.WeatherPanel.HandleSubmit` | src/app/Weather.tsx:166-169 | Submitting runs exactly one name-keyed cycle with the current city text. |

## Left out

- The HTTP requests themselves, the URLs and the API key read from the
  environment (src/app/Weather.tsx:93-111). Each request is the `Request`
  value the methods return, and each response is an input. The city name is
  interpolated into the URL without encoding. That is not modelled.
- JSON decoding. A decoded body is a Dafny value. Only the absence of `coord`
  and of the forecast `list` is represented, because the code fails on those.
  Other malformed bodies are not.
- The TypeError messages are V8's wording. Other JavaScript engines phrase
  them differently.
- The Kelvin-to-Celsius display, the visibility division and `toFixed(2)`
  (src/app/Weather.tsx:193, 200, 212). These are floating-point arithmetic
  and formatting.
- Date and time formatting of `dt` (src/app/Weather.tsx:203, 209). It depends
  on the locale and the clock.
- Rendering: the JSX, the use of `WeatherEmoji` on the first condition of
  each record, and `airQuality?.list[0]`. Also left out are React's
  `useState`/`useEffect` scheduling, update batching and `console.error`.
- Overlapping cycles. Nothing cancels a stale request, so whichever cycle
  finishes last wins. Each cycle is modelled as one atomic method, and the
  methods' contracts show that a cycle's result does not depend on the slots
  it started from.
- `Mount`: the model can run it more than once. The component runs its
  effect once per mount (empty dependency list).
- A geolocation request or a `fetch` that never settles. No timeout is set
  (src/app/Weather.tsx:76-86, 95-111), so such a request either runs no
  cycle or leaves a cycle that never finishes and never writes the slots.
  Every `Geolocation` and response input in the model is a settled outcome.
- The static pages and the layout (src/app/about, contact, services,
  layout.tsx). They contain markup only.
