/** The exported request handler (src/pages/api/owm.js:83-122): it picks one
    of three mutually exclusive modes from the query and maps the resolver's
    outcome to an HTTP status and body. */
module Dispatch {
  import opened Js
  import opened Geocode
  import opened Resolvers

  /** The query parameters the handler reads; each may be absent. */
  datatype Query = Query(
    lat: Option<string>,
    long: Option<string>,
    region: Option<string>,
    search: Option<string>)

  /** What the handler reads from a request: the query, the `x-forwarded-for`
      header and the connection's remote address. */
  datatype Request = Request(query: Query, forwardedFor: Option<string>, remoteAddress: Option<string>)

  datatype Mode = SearchMode(text: string) | RegionMode | CoordsMode(lat: string, long: string) | MissingCoords

  datatype Body = Text(text: string) | Data(payload: Payload)

  datatype Response = Response(status: int, body: Body)

  const MissingCoordsMessage := "Error: Missing Latitude (and/or) Longitude attributes"

  /** The query value that selects region mode. */
  const RegionFlag := "true"

  /** The mode the handler's `if` chain selects: a truthy `search` first, then
      `region` equal to "true", then both coordinates truthy. */
  function SelectMode(q: Query): (m: Mode)
    ensures m.SearchMode? <==> Truthy(q.search)
    ensures m.SearchMode? ==> q.search == Some(m.text)
    ensures m.RegionMode? <==> !Truthy(q.search) && q.region == Some(RegionFlag)
    ensures m.CoordsMode? <==>
              !Truthy(q.search) && q.region != Some(RegionFlag) && Truthy(q.lat) && Truthy(q.long)
    ensures m.CoordsMode? ==> q.lat == Some(m.lat) && q.long == Some(m.long)
    ensures m.MissingCoords? <==>
              !Truthy(q.search) && q.region != Some(RegionFlag) && (!Truthy(q.lat) || !Truthy(q.long))
  {
    if Truthy(q.search) then SearchMode(q.search.value)
    else if q.region == Some(RegionFlag) then RegionMode
    else if !Truthy(q.lat) || !Truthy(q.long) then MissingCoords
    else CoordsMode(q.lat.value, q.long.value)
  }

  /** The client IP: the forwarded-for header when it is non-empty, otherwise
      the connection's remote address. */
  function ClientIP(req: Request): (ip: Option<string>)
    ensures Truthy(req.forwardedFor) ==> ip == req.forwardedFor
    ensures !Truthy(req.forwardedFor) ==> ip == req.remoteAddress
  {
    Or(req.forwardedFor, req.remoteAddress)
  }

  /** The handler: status 200 with the payload, or 500 with a text body. */
  function Handle(req: Request, up: Upstream): (r: Response)
    ensures r.status == 200 || r.status == 500
    ensures r.status == 200 <==> r.body.Data?
    ensures SelectMode(req.query).MissingCoords? ==> r == Response(500, Text(MissingCoordsMessage))
    ensures SelectMode(req.query).CoordsMode? ==> r.status == 200
    ensures SelectMode(req.query).SearchMode? ==>
              var found := GetSearchData(up, SelectMode(req.query).text);
              && (r.status == 500 <==> found.Thrown?)
              && (found.Thrown? ==> r.body == Text(found.error.name))
              && (found.Ok? ==> r == Response(200, Data(found.value)))
  {
    var clientIP := ClientIP(req);
    match SelectMode(req.query)
    case SearchMode(text) =>
      (match GetSearchData(up, text)
       case Ok(payload) => Response(200, Data(payload))
       case Thrown(e) => Response(500, Text(e.name)))
    case RegionMode => RegionResponse(GetRegion(up, Render(clientIP)))
    case MissingCoords => Response(500, Text(MissingCoordsMessage))
    case CoordsMode(lat, long) =>
      var weatherData := FetchWeather(up, QueryText(lat), QueryText(long));
      var locationData := GetGeocode(up, lat, long);
      Response(200, Data(Payload(weatherData, locationData)))
  }

  /** Without search or region mode, a missing coordinate gives the fixed 500
      answer whatever the providers would have said: none of them is consulted. */
  lemma MissingCoordsConsultsNoProvider(req: Request, up1: Upstream, up2: Upstream)
    requires !Truthy(req.query.search) && req.query.region != Some(RegionFlag)
    requires !Truthy(req.query.lat) || !Truthy(req.query.long)
    ensures Handle(req, up1) == Handle(req, up2) == Response(500, Text(MissingCoordsMessage))
  {
  }

  /** A non-empty search decides the answer alone: region, coordinates and the
      client's address do not matter. */
  lemma SearchWins(req1: Request, req2: Request, up: Upstream)
    requires Truthy(req1.query.search) && req2.query.search == req1.query.search
    ensures Handle(req1, up) == Handle(req2, up)
  {
  }

  /** The answer in region mode, from the outcome of `getRegion` for the client IP. */
  function RegionResponse(region: Result<Payload>): (r: Response)
    ensures region.Ok? ==> r == Response(200, Data(region.value))
    ensures region.Thrown? ==> r == Response(500, Text(ErrorToString(region.error)))
  {
    match region
    case Ok(payload) => Response(200, Data(payload))
    case Thrown(e) => Response(500, Text(ErrorToString(e)))
  }

  /** In region mode the only IP-geolocation answer consulted is the one for
      the client IP. */
  lemma RegionUsesClientIP(req: Request, up1: Upstream, up2: Upstream)
    requires SelectMode(req.query).RegionMode?
    requires up1.ipLookup(Render(ClientIP(req))) == up2.ipLookup(Render(ClientIP(req)))
    requires forall lat, long :: up1.weather(lat, long) == up2.weather(lat, long)
    ensures Handle(req, up1) == Handle(req, up2)
  {
    var ip := Render(ClientIP(req));
    var r := GetRegion(up1, ip);
    if r.Ok? {
      var rec := IpLookupValue(up1.ipLookup(ip)).value;
      assert FetchWeather(up1, rec.latitude, rec.longitude) == FetchWeather(up2, rec.latitude, rec.longitude);
    }
    assert GetRegion(up1, ip) == GetRegion(up2, ip);
  }

  /** Region mode fails, with status 500, exactly when the lookup settled to
      `undefined`; the text then names a "TypeError" and is never the
      missing-coordinates message. */
  lemma RegionFailure(req: Request, up: Upstream)
    requires SelectMode(req.query).RegionMode?
    ensures Handle(req, up).status == 500 <==> IpLookupValue(up.ipLookup(Render(ClientIP(req)))).None?
    ensures Handle(req, up).body != Text(MissingCoordsMessage)
  {
    var r := GetRegion(up, Render(ClientIP(req)));
    assert Handle(req, up) == RegionResponse(r);
    if r.Thrown? {
      TypeErrorIsNotMissingCoords(r.error);
    }
  }

  /** The text of a `TypeError` never reads as the missing-coordinates message. */
  lemma TypeErrorIsNotMissingCoords(e: Error)
    requires e.name == "TypeError"
    ensures ErrorToString(e) != MissingCoordsMessage
  {
    TypeErrorTextStart(e);
    MissingCoordsMessageStart();
  }

  lemma TypeErrorTextStart(e: Error)
    requires e.name == "TypeError"
    ensures |ErrorToString(e)| > 0 && ErrorToString(e)[0] == 'T'
  {
    if e.message != "" {
      assert ErrorToString(e)[..|e.name|] == e.name;
    }
  }

  lemma MissingCoordsMessageStart()
    ensures |MissingCoordsMessage| > 0 && MissingCoordsMessage[0] == 'E'
  {
    var head, tail := "Error: Missing Latitude", " (and/or) Longitude attributes";
    assert MissingCoordsMessage == head + tail;
    assert (head + tail)[0] == head[0];
  }

  /** Region mode with a non-success status from the IP-geolocation provider:
      status 200, label "Melbourne, VIC", weather at (-37.81, 144.9644). */
  lemma RegionFallbackResponse(req: Request, up: Upstream)
    requires SelectMode(req.query).RegionMode?
    requires up.ipLookup(Render(ClientIP(req))).IpAnswered? && !up.ipLookup(Render(ClientIP(req))).ok
    ensures Handle(req, up)
              == Response(200, Data(Payload(FetchWeather(up, Number(-37.81), Number(144.9644)), Label("Melbourne, VIC"))))
  {
    RegionFallback(up, Render(ClientIP(req)));
  }

  /** Region mode with a success status and a parsed body: status 200, label
      "<city>, <region_code>" and the weather at the body's coordinates. */
  lemma RegionLookupResponse(req: Request, up: Upstream)
    requires SelectMode(req.query).RegionMode?
    requires var resp := up.ipLookup(Render(ClientIP(req))); resp.IpAnswered? && resp.ok && resp.body.Some?
    ensures var rec := up.ipLookup(Render(ClientIP(req))).body.value;
            Handle(req, up)
              == Response(200, Data(Payload(
                   FetchWeather(up, rec.latitude, rec.longitude),
                   Label(Render(rec.city) + ", " + Render(rec.regionCode)))))
  {
  }

  /** Coordinates mode: the weather for the two query texts and the reverse
      geocoding of "<lat>,<long>", which is a location record or the text of
      the error that stopped it. */
  lemma CoordsAnswer(req: Request, up: Upstream)
    requires SelectMode(req.query).CoordsMode?
    ensures var m := SelectMode(req.query);
            && Handle(req, up).body.Data?
            && Handle(req, up).body.payload.weatherData == FetchWeather(up, QueryText(m.lat), QueryText(m.long))
            && Handle(req, up).body.payload.locationData == GetGeocode(up, m.lat, m.long)
            && (Handle(req, up).body.payload.locationData.Record? || Handle(req, up).body.payload.locationData.Message?)
  {
  }

  /** A search the geocoding provider finds nothing for is answered with
      status 500 and the text "TypeError". */
  lemma SearchWithoutResults(req: Request, up: Upstream)
    requires Truthy(req.query.search)
    requires up.geocode(req.query.search.value) == GeocodeAnswered(Some([]))
    ensures Handle(req, up) == Response(500, Text("TypeError"))
  {
  }
}
