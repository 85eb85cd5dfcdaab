/** The values the weather component receives from the provider and from the
    runtime: decoded JSON bodies, and the outcome of each awaited request. */
module Payloads {

  datatype Option<+T> = None | Some(value: T)

  /** A latitude/longitude pair, as reported by the provider or by the browser. */
  datatype Coord = Coord(lat: real, lon: real)

  /** One element of a body's `weather` array: the condition label and its text. */
  datatype Condition = Condition(main: string, description: string)

  /** Body of the current-conditions reply. Besides the fields of the component's
      `WeatherData` type it carries `coord`, read on the name path to key the
      air-quality request, and `dt`, read by the display; the type declares
      neither, so a body without `coord` is representable. */
  datatype WeatherData = WeatherData(
    name: string,
    country: string,
    temp: real,
    pressure: real,
    humidity: real,
    conditions: seq<Condition>,
    windSpeed: real,
    visibility: real,
    coord: Option<Coord>,
    dt: int)

  /** One element of the forecast body's `list`. */
  datatype ForecastEntry = ForecastEntry(dt: int, temp: real, conditions: seq<Condition>)

  /** Body of the forecast reply. It is not typed by the component, and a body
      without `list` (what the provider sends with a failure status) is possible. */
  datatype ForecastBody = ForecastBody(list: Option<seq<ForecastEntry>>)

  datatype AirQualityEntry = AirQualityEntry(aqi: int)

  /** Body of the air-quality reply. */
  datatype AirQualityData = AirQualityData(list: seq<AirQualityEntry>)

  /** A value thrown inside the fetch cycle: an `Error` instance with its
      message, or anything else. */
  datatype Thrown = ErrorObject(message: string) | NonError

  /** Outcome of the first request, whose `ok` flag is checked before the body
      is decoded: a decoded body, a failure status, or a throw from `fetch` or
      from decoding. */
  datatype Checked<T> = Ok(body: T) | NotOk | Threw(thrown: Thrown)

  /** Outcome of the second and third requests, whose `ok` flag is never
      looked at: whatever body came back is decoded, or something is thrown. */
  datatype Unchecked<T> = Parsed(body: T) | Failed(thrown: Thrown)
}
