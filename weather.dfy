/** The weather component: the condition-to-glyph lookup, the fetch cycle that
    fills the component's four state slots from three provider requests, the
    start-up choice between the coordinate and the name fetch, and the form
    submit. The network and the browser are reduced to the outcomes they hand
    back; the requests the component issues are returned in order. */
module Weather {
  import opened Payloads
  import ArraySlice

  // ---------------------------------------------------------------------------
  // Presentation: condition label to glyph

  /** The glyph shown for a label outside the fixed vocabulary. */
  const Rainbow := "\U{1F308}"

  /** The fixed vocabulary of condition labels and the glyph of each. */
  const Glyphs: map<string, string> := map[
    "Clear" := "\U{2600}\U{FE0F}",
    "Clouds" := "\U{2601}\U{FE0F}",
    "Rain" := "\U{1F327}\U{FE0F}",
    "Snow" := "\U{2744}\U{FE0F}",
    "Thunderstorm" := "\U{26C8}\U{FE0F}",
    "Drizzle" := "\U{1F326}\U{FE0F}",
    "Mist" := "\U{1F32B}\U{FE0F}",
    "Haze" := "\U{1F301}"
  ]

  /** `getWeatherEmoji`: total over all strings, the label's own glyph on the
      vocabulary (matched exactly, case included) and the rainbow elsewhere. */
  function WeatherEmoji(main: string): (glyph: string)
    ensures main in Glyphs ==> glyph == Glyphs[main]
    ensures main !in Glyphs ==> glyph == Rainbow
    ensures glyph == Rainbow <==> main !in Glyphs
  {
    match main
    case "Clear" => "\U{2600}\U{FE0F}"
    case "Clouds" => "\U{2601}\U{FE0F}"
    case "Rain" => "\U{1F327}\U{FE0F}"
    case "Snow" => "\U{2744}\U{FE0F}"
    case "Thunderstorm" => "\U{26C8}\U{FE0F}"
    case "Drizzle" => "\U{1F326}\U{FE0F}"
    case "Mist" => "\U{1F32B}\U{FE0F}"
    case "Haze" => "\U{1F301}"
    case _ => Rainbow
  }

  /** The eight labels get eight different glyphs, none of them the fallback. */
  lemma GlyphsDistinct()
    ensures |Glyphs| == 8
    ensures forall a, b :: a in Glyphs && b in Glyphs && a != b ==> WeatherEmoji(a) != WeatherEmoji(b)
    ensures forall a :: a in Glyphs ==> WeatherEmoji(a) != Rainbow
  {
  }

  /** Matching is exact: a case variant or the empty string is not a label.
      These are instances of the second `ensures` of `WeatherEmoji`, which
      states it for every string outside the vocabulary. */
  lemma EmojiCaseSensitive()
    ensures WeatherEmoji("clear") == Rainbow
    ensures WeatherEmoji("CLOUDS") == Rainbow
    ensures WeatherEmoji("") == Rainbow
  {
  }

  // ---------------------------------------------------------------------------
  // The fetch cycle, as a value

  /** What a fetch is keyed by: a city name, or coordinates. */
  datatype Location = ByName(city: string) | ByCoords(at: Coord)

  /** A request the component issues to the provider. */
  datatype Request = Current(key: Location) | Forecast(key: Location) | AirPollution(at: Coord)

  /** The four state slots `weather`, `forecast`, `airQuality` and `error`. */
  datatype View = View(
    weather: Option<WeatherData>,
    forecast: seq<ForecastEntry>,
    airQuality: Option<AirQualityData>,
    error: Option<string>)

  /** The requests one cycle issues, in order, and the slots it leaves. */
  datatype CycleResult = CycleResult(issued: seq<Request>, view: View)

  const DefaultCity := "London"
  const CityNotFound := "City not found"
  const LocationNotFound := "Location not found"
  const UnexpectedMessage := "An unexpected error occurred"
  /** How many forecast entries are kept. */
  const ForecastLength := 5
  /** Message of the TypeError the runtime (V8 wording) throws when a body
      without `coord` is read at `coord.lat`. */
  const LatOfUndefined := "Cannot read properties of undefined (reading 'lat')"
  /** Message of the TypeError the runtime (V8 wording) throws when a forecast
      body without `list` is sliced. */
  const SliceOfUndefined := "Cannot read properties of undefined (reading 'slice')"

  /** The slots before any cycle has finished. */
  const Initial := View(None, [], None, None)

  /** The message thrown when the first response is not ok. */
  function NotFoundMessage(loc: Location): (msg: string)
    ensures loc.ByName? ==> msg == CityNotFound
    ensures loc.ByCoords? ==> msg == LocationNotFound
  {
    match loc
    case ByName(_) => CityNotFound
    case ByCoords(_) => LocationNotFound
  }

  /** The text the catch block stores in `error` for a thrown value. */
  function MessageOf(t: Thrown): (msg: string)
    ensures t.ErrorObject? ==> msg == t.message
    ensures t.NonError? ==> msg == UnexpectedMessage
  {
    match t
    case ErrorObject(m) => m
    case NonError => UnexpectedMessage
  }

  /** The coordinates the air-quality request uses: on the name path those of
      the current-conditions body (if it has any), on the coordinate path the
      input unchanged. */
  function AirKey(loc: Location, current: WeatherData): (key: Option<Coord>)
    ensures loc.ByCoords? ==> key == Some(loc.at)
    ensures loc.ByName? ==> key == current.coord
  {
    match loc
    case ByName(_) => current.coord
    case ByCoords(c) => Some(c)
  }

  /** All three data slots are set and no error is shown. */
  predicate Populated(v: View) {
    v.weather.Some? && v.airQuality.Some? && |v.forecast| <= ForecastLength && v.error.None?
  }

  /** All three data slots are at their empty values. */
  predicate Cleared(v: View) {
    v.weather.None? && v.forecast == [] && v.airQuality.None?
  }

  /** The invariant of the component: never a mixture of set and cleared slots. */
  predicate Consistent(v: View) {
    Populated(v) || Cleared(v)
  }

  /** The slots after the catch block has run for `t`. */
  function Failure(t: Thrown): (v: View)
    ensures Cleared(v) && v.error == Some(MessageOf(t))
  {
    View(None, [], None, Some(MessageOf(t)))
  }

  /** Every step of a cycle goes through: the first response is ok, the other
      two are decoded, the air-quality key exists and the forecast has a list. */
  predicate Succeeds(loc: Location, current: Checked<WeatherData>,
                     forecast: Unchecked<ForecastBody>, air: Unchecked<AirQualityData>)
  {
    current.Ok? && forecast.Parsed? && air.Parsed?
    && AirKey(loc, current.body).Some? && forecast.body.list.Some?
  }

  /** One fetch cycle keyed by `loc`, given what the three requests hand back.
      The requests are issued current, forecast, air quality, each only once the
      previous one has gone through; the cycle either sets all three data slots
      and clears `error`, or clears all three and sets `error`. */
  function Cycle(loc: Location, current: Checked<WeatherData>,
                 forecast: Unchecked<ForecastBody>, air: Unchecked<AirQualityData>): (c: CycleResult)
    ensures Consistent(c.view)
    // request order, and exactly one current-conditions request
    ensures 1 <= |c.issued| <= 3 && c.issued[0] == Current(loc)
    ensures |c.issued| >= 2 <==> current.Ok?
    ensures |c.issued| >= 2 ==> c.issued[1] == Forecast(loc)
    ensures |c.issued| == 3 <==> current.Ok? && forecast.Parsed? && AirKey(loc, current.body).Some?
    ensures |c.issued| == 3 ==> c.issued[2] == AirPollution(AirKey(loc, current.body).value)
    // success
    ensures c.view.error.None? <==> Succeeds(loc, current, forecast, air)
    ensures Succeeds(loc, current, forecast, air) ==>
      var list := forecast.body.list.value;
      c.view == View(Some(current.body), list[..ArraySlice.Min(ForecastLength, |list|)], Some(air.body), None)
    // failures
    ensures !Succeeds(loc, current, forecast, air) ==> Cleared(c.view) && c.view.error.Some?
    ensures current.NotOk? ==> c == CycleResult([Current(loc)], View(None, [], None, Some(NotFoundMessage(loc))))
    ensures current.Threw? ==> c == CycleResult([Current(loc)], Failure(current.thrown))
    ensures current.Ok? && forecast.Failed? ==> c.view == Failure(forecast.thrown)
    ensures current.Ok? && forecast.Parsed? && AirKey(loc, current.body).Some? && air.Failed? ==>
      c.view == Failure(air.thrown)
  {
    if current.NotOk? then
      CycleResult([Current(loc)], Failure(ErrorObject(NotFoundMessage(loc))))
    else if current.Threw? then
      CycleResult([Current(loc)], Failure(current.thrown))
    else
      var sent := [Current(loc), Forecast(loc)];
      if forecast.Failed? then
        CycleResult(sent, Failure(forecast.thrown))
      else
        match AirKey(loc, current.body)
        case None => CycleResult(sent, Failure(ErrorObject(LatOfUndefined)))
        case Some(key) =>
          var all := sent + [AirPollution(key)];
          if air.Failed? then
            CycleResult(all, Failure(air.thrown))
          else
            match forecast.body.list
            case None => CycleResult(all, Failure(ErrorObject(SliceOfUndefined)))
            case Some(list) =>
              ArraySlice.SliceHead(list, ForecastLength);
              CycleResult(all, View(Some(current.body), ArraySlice.Slice(list, 0, ForecastLength), Some(air.body), None))
  }

  /** What the browser's geolocation request comes to. */
  datatype Geolocation = Unavailable | PositionError | Position(lat: real, lon: real)

  /** The start-up decision: the reported coordinates when there are any,
      otherwise the default city. */
  function StartupLocation(geo: Geolocation): (loc: Location)
    ensures loc.ByCoords? <==> geo.Position?
    ensures geo.Position? ==> loc == ByCoords(Coord(geo.lat, geo.lon))
    ensures !geo.Position? ==> loc == ByName(DefaultCity)
  {
    match geo
    case Position(lat, lon) => ByCoords(Coord(lat, lon))
    case _ => ByName(DefaultCity)
  }

  // ---------------------------------------------------------------------------
  // The component and its state slots

  class WeatherPanel {
    /** The text of the city input. */
    var city: string
    var weather: Option<WeatherData>
    var forecast: seq<ForecastEntry>
    var airQuality: Option<AirQualityData>
    var error: Option<string>

    /** The four slots as one value. */
    function Slots(): View
      reads this
    {
      View(weather, forecast, airQuality, error)
    }

    ghost predicate Valid()
      reads this
    {
      Consistent(Slots())
    }

    constructor ()
      ensures Valid()
      ensures city == "" && Slots() == Initial
    {
      city := "";
      weather := None;
      forecast := [];
      airQuality := None;
      error := None;
    }

    /** The input's change handler. */
    method SetCity(text: string)
      requires Valid()
      modifies this`city
      ensures Valid()
      ensures city == text
    {
      city := text;
    }

    /** `fetchWeatherData`: one cycle keyed by a city name. Whatever the slots
        held before, they end as `Cycle` says. */
    method FetchWeatherData(name: string, current: Checked<WeatherData>,
                            forecastReply: Unchecked<ForecastBody>,
                            airReply: Unchecked<AirQualityData>)
      returns (issued: seq<Request>)
      modifies this`weather, this`forecast, this`airQuality, this`error
      ensures Valid()
      ensures issued == Cycle(ByName(name), current, forecastReply, airReply).issued
      ensures Slots() == Cycle(ByName(name), current, forecastReply, airReply).view
    {
      var loc := ByName(name);
      var caught: Option<Thrown> := None;
      issued := [Current(loc)];
      if current.NotOk? {
        caught := Some(ErrorObject(CityNotFound));
      } else if current.Threw? {
        caught := Some(current.thrown);
      } else {
        var weatherData := current.body;
        issued := issued + [Forecast(loc)];
        if forecastReply.Failed? {
          caught := Some(forecastReply.thrown);
        } else if weatherData.coord.None? {
          caught := Some(ErrorObject(LatOfUndefined));
        } else {
          issued := issued + [AirPollution(weatherData.coord.value)];
          if airReply.Failed? {
            caught := Some(airReply.thrown);
          } else {
            weather := Some(weatherData);
            if forecastReply.body.list.None? {
              caught := Some(ErrorObject(SliceOfUndefined));
            } else {
              forecast := ArraySlice.Slice(forecastReply.body.list.value, 0, ForecastLength);
              airQuality := Some(airReply.body);
              error := None;
            }
          }
        }
      }
      if caught.Some? {
        error := Some(MessageOf(caught.value));
        weather := None;
        forecast := [];
        airQuality := None;
      }
    }

    /** `fetchWeatherDataByCoords`: one cycle keyed by coordinates, which also
        key the air-quality request. */
    method FetchWeatherDataByCoords(lat: real, lon: real, current: Checked<WeatherData>,
                                    forecastReply: Unchecked<ForecastBody>,
                                    airReply: Unchecked<AirQualityData>)
      returns (issued: seq<Request>)
      modifies this`weather, this`forecast, this`airQuality, this`error
      ensures Valid()
      ensures issued == Cycle(ByCoords(Coord(lat, lon)), current, forecastReply, airReply).issued
      ensures Slots() == Cycle(ByCoords(Coord(lat, lon)), current, forecastReply, airReply).view
    {
      var loc := ByCoords(Coord(lat, lon));
      var caught: Option<Thrown> := None;
      issued := [Current(loc)];
      if current.NotOk? {
        caught := Some(ErrorObject(LocationNotFound));
      } else if current.Threw? {
        caught := Some(current.thrown);
      } else {
        var weatherData := current.body;
        issued := issued + [Forecast(loc)];
        if forecastReply.Failed? {
          caught := Some(forecastReply.thrown);
        } else {
          issued := issued + [AirPollution(Coord(lat, lon))];
          if airReply.Failed? {
            caught := Some(airReply.thrown);
          } else {
            weather := Some(weatherData);
            if forecastReply.body.list.None? {
              caught := Some(ErrorObject(SliceOfUndefined));
            } else {
              forecast := ArraySlice.Slice(forecastReply.body.list.value, 0, ForecastLength);
              airQuality := Some(airReply.body);
              error := None;
            }
          }
        }
      }
      if caught.Some? {
        error := Some(MessageOf(caught.value));
        weather := None;
        forecast := [];
        airQuality := None;
      }
    }

    /** The mount effect: one fetch, by the reported coordinates when the
        geolocation request succeeds, by the default city otherwise. */
    method Mount(geo: Geolocation, current: Checked<WeatherData>,
                 forecastReply: Unchecked<ForecastBody>, airReply: Unchecked<AirQualityData>)
      returns (issued: seq<Request>)
      modifies this`weather, this`forecast, this`airQuality, this`error
      ensures Valid()
      ensures issued == Cycle(StartupLocation(geo), current, forecastReply, airReply).issued
      ensures Slots() == Cycle(StartupLocation(geo), current, forecastReply, airReply).view
    {
      match geo
      case Position(lat, lon) =>
        issued := FetchWeatherDataByCoords(lat, lon, current, forecastReply, airReply);
      case PositionError =>
        issued := FetchWeatherData(DefaultCity, current, forecastReply, airReply);
      case Unavailable =>
        issued := FetchWeatherData(DefaultCity, current, forecastReply, airReply);
    }

    /** `handleSubmit`: one fetch by the current text of the city input. */
    method HandleSubmit(current: Checked<WeatherData>,
                        forecastReply: Unchecked<ForecastBody>, airReply: Unchecked<AirQualityData>)
      returns (issued: seq<Request>)
      modifies this`weather, this`forecast, this`airQuality, this`error
      ensures Valid()
      ensures issued == Cycle(ByName(city), current, forecastReply, airReply).issued
      ensures Slots() == Cycle(ByName(city), current, forecastReply, airReply).view
    {
      issued := FetchWeatherData(city, current, forecastReply, airReply);
    }
  }
}
