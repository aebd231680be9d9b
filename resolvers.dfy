/** The resolvers behind the three query modes (src/pages/api/owm.js:1-81).
    Each outbound `fetch` is an oracle in `Upstream`: a function from what the
    request sends to what the provider answers, including a rejected promise. */
module Resolvers {
  import opened Js
  import opened Geocode

  /** What the weather provider's `fetch(...).then(res => res.json())` settles to. */
  datatype WeatherResponse = WeatherJson(json: string) | WeatherRejected(error: Error)

  /** The value `fetchWeather` returns: the provider's JSON, or the name of the
      error that rejected the fetch or the parse. */
  datatype WeatherData = Reading(json: string) | ErrorName(name: string)

  /** The fields `getRegion` destructures from the IP-geolocation body. */
  datatype IpRecord = IpRecord(
    city: Option<string>,
    regionCode: Option<string>,
    latitude: Coordinate,
    longitude: Coordinate)

  /** The IP-geolocation provider's answer: a rejected fetch, or a response with
      its `ok` flag and its body. The body is `None` when it does not parse or
      parses to `null`; a primitive body reads every field as `undefined`. */
  datatype IpResponse = IpRejected(error: Error) | IpAnswered(ok: bool, body: Option<IpRecord>)

  /** The geocoding provider's parsed answer: `results` may be absent. */
  datatype GeocodeResponse =
    | GeocodeRejected(error: Error)
    | GeocodeAnswered(results: Option<seq<GeocodeResult>>)

  /** The three providers. Forward and reverse geocoding are the same endpoint,
      queried with free text or with "<lat>,<long>". */
  datatype Upstream = Upstream(
    weather: (Coordinate, Coordinate) -> WeatherResponse,
    ipLookup: string -> IpResponse,
    geocode: string -> GeocodeResponse)

  /** The `locationData` part of a payload, which differs by mode. */
  datatype LocationData =
    | Record(location: LocationRecord)
    | Label(formatString: string)
    | Message(text: string)

  datatype Payload = Payload(weatherData: WeatherData, locationData: LocationData)

  /** The fixed location used when the IP-geolocation provider answers with a
      non-success status. */
  const FallbackLocation := IpRecord(Some("Melbourne"), Some("VIC"), Number(-37.81), Number(144.9644))

  /** The `TypeError` raised by the array pattern `[data]` on an `undefined` value. */
  const NotIterable := TypeError("undefined is not iterable (cannot read property Symbol(Symbol.iterator))")

  /** `fetchWeather(lat, long)`: never throws; a rejection becomes the error's name. */
  function FetchWeather(up: Upstream, lat: Coordinate, long: Coordinate): (w: WeatherData)
    ensures w.ErrorName? <==> up.weather(lat, long).WeatherRejected?
    ensures w.ErrorName? ==> w.name == up.weather(lat, long).error.name
    ensures w.Reading? ==> w.json == up.weather(lat, long).json
  {
    match up.weather(lat, long)
    case WeatherJson(json) => Reading(json)
    case WeatherRejected(e) => ErrorName(e.name)
  }

  /** What the promise chain in `getRegion` settles to: the parsed body on a
      success status, the fallback location on any other status, and
      `undefined` (the rejection is only logged) when the fetch or the parse
      rejects. */
  function IpLookupValue(resp: IpResponse): (v: Option<IpRecord>)
    ensures resp.IpAnswered? && !resp.ok ==> v == Some(FallbackLocation)
    ensures resp.IpAnswered? && resp.ok ==> v == resp.body
    ensures v.None? <==> resp.IpRejected? || (resp.ok && resp.body.None?)
  {
    match resp
    case IpRejected(_) => None
    case IpAnswered(ok, body) => if ok then body else Some(FallbackLocation)
  }

  /** The region label "<city>, <region_code>", with no fallbacks of its own. */
  function RegionLabel(rec: IpRecord): string {
    Render(rec.city) + ", " + Render(rec.regionCode)
  }

  /** `getRegion(clientIP)`: throws only when the lookup settled to `undefined`,
      which the destructuring of `city` then reads. */
  function GetRegion(up: Upstream, clientIP: string): (r: Result<Payload>)
    ensures r.Thrown? <==> IpLookupValue(up.ipLookup(clientIP)).None?
    ensures r.Thrown? ==> r.error.name == "TypeError"
    ensures r.Ok? ==>
              var rec := IpLookupValue(up.ipLookup(clientIP)).value;
              r.value == Payload(FetchWeather(up, rec.latitude, rec.longitude), Label(RegionLabel(rec)))
  {
    match IpLookupValue(up.ipLookup(clientIP))
    case None => Thrown(TypeError("Cannot destructure property 'city' of undefined"))
    case Some(rec) => Ok(Payload(FetchWeather(up, rec.latitude, rec.longitude), Label(RegionLabel(rec))))
  }

  /** A non-success status from the IP-geolocation provider yields the
      Melbourne, VIC location and the weather at its fixed coordinates. */
  lemma RegionFallback(up: Upstream, clientIP: string)
    requires up.ipLookup(clientIP).IpAnswered? && !up.ipLookup(clientIP).ok
    ensures GetRegion(up, clientIP)
              == Ok(Payload(FetchWeather(up, Number(-37.81), Number(144.9644)), Label("Melbourne, VIC")))
  {
    assert RegionLabel(FallbackLocation) == "Melbourne" + ", " + "VIC";
    assert "Melbourne" + ", " + "VIC" == "Melbourne, VIC";
  }

  /** The first element of `results`, `undefined` when there is none. */
  function First(results: seq<GeocodeResult>): (data: Option<GeocodeResult>)
    ensures data.Some? <==> |results| > 0
    ensures data.Some? ==> data.value == results[0]
  {
    if |results| == 0 then None else Some(results[0])
  }

  /** `getGeocode(lat, long)`: never throws. A rejected fetch settles to the
      error object, whose missing `results` the array pattern then rejects; any
      `TypeError` is returned as its text instead of a record. */
  function GetGeocode(up: Upstream, lat: string, long: string): (d: LocationData)
    ensures !d.Label?
    ensures d.Record? <==>
              && up.geocode(lat + "," + long).GeocodeAnswered?
              && up.geocode(lat + "," + long).results.Some?
              && LocationFormat(First(up.geocode(lat + "," + long).results.value)).Ok?
    ensures d.Record? ==> d.location == LocationFormat(First(up.geocode(lat + "," + long).results.value)).value
    ensures d.Message? ==> |d.text| > 11 && d.text[..11] == "TypeError: "
  {
    match up.geocode(lat + "," + long)
    case GeocodeRejected(_) => Message(ErrorToString(NotIterable))
    case GeocodeAnswered(None) => Message(ErrorToString(NotIterable))
    case GeocodeAnswered(Some(results)) =>
      match LocationFormat(First(results))
      case Ok(location) => Record(location)
      case Thrown(e) => Message(ErrorToString(e))
  }

  /** `getSearchData(query)`: a rejected fetch propagates unchanged; no result,
      no `results` or no `geometry` throws a `TypeError`; so does a result
      that `locationFormat` rejects. */
  function GetSearchData(up: Upstream, query: string): (r: Result<Payload>)
    ensures up.geocode(query).GeocodeRejected? ==> r == Thrown(up.geocode(query).error)
    ensures up.geocode(query).GeocodeAnswered? ==>
              (r.Thrown? ==> r.error.name == "TypeError")
    ensures r.Ok? <==>
              && up.geocode(query).GeocodeAnswered?
              && up.geocode(query).results.Some?
              && |up.geocode(query).results.value| > 0
              && up.geocode(query).results.value[0].geometry.Some?
              && LocationFormat(Some(up.geocode(query).results.value[0])).Ok?
    ensures r.Ok? ==>
              var data := up.geocode(query).results.value[0];
              && r.value.weatherData == FetchWeather(up, data.geometry.value.lat, data.geometry.value.lng)
              && r.value.locationData == Record(LocationFormat(Some(data)).value)
  {
    match up.geocode(query)
    case GeocodeRejected(e) => Thrown(e)
    case GeocodeAnswered(None) => Thrown(NotIterable)
    case GeocodeAnswered(Some(results)) =>
      if |results| == 0 then Thrown(TypeError(ReadOfUndefined("geometry")))
      else
        var data := results[0];
        match data.geometry
        case None => Thrown(TypeError(ReadOfUndefined("lat")))
        case Some(g) =>
          var weatherData := FetchWeather(up, g.lat, g.lng);
          match LocationFormat(Some(data))
          case Thrown(e) => Thrown(e)
          case Ok(location) => Ok(Payload(weatherData, Record(location)))
  }
}
