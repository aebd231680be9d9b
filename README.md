# Weather endpoint handler, modelled in Dafny

The repository serves one HTTP route, `src/pages/api/owm.js`. The route combines
three outside providers: a weather service queried by coordinates, an
IP-geolocation service, and a geocoding service used both forwards (free text)
and in reverse (coordinates). Three query modes decide which providers are used.
The query has priority `search` > `region=true` > `lat`/`long`. This model covers
all of the handler's own logic:

- `locationFormat` turns a geocoding result into a location record
  (`Geocode.LocationFormat`). That means the address up to its first comma, the
  upper-cased country code, and the label "<suburb or address>, <state code or
  country code>".
- The resolvers (`Resolvers`): `fetchWeather`, `getRegion` with its fixed
  Melbourne/VIC fallback, `getGeocode` and `getSearchData`. Each provider is an
  oracle function in `Resolvers.Upstream`. It maps what the request sends to what
  the provider answers, including a rejected promise.
- The exported handler (`Dispatch.Handle`): mode selection, the client-IP choice,
  and how each outcome becomes status 200 or 500 and a body.

The JavaScript semantics the code relies on are written out in module `Js`:

- `undefined` is `None`.
- Truthiness: `undefined` and `""` are falsy.
- `${...}` renders `undefined` as the text "undefined".
- `split(',', 1)` followed by `toString()`.
- ASCII `toUpperCase`.
- `Error.prototype.toString`.

A thrown error is `Js.Error(name, message)`. A computation that may throw returns
`Js.Result` (`Ok` or `Thrown`).

Two consequences of the code are easy to miss:

- `split(',', 1)` keeps only the first comma-separated segment. So
  `formatted = "Melbourne, VIC, Australia"` with only `country_code: "au"` gives
  `fullAddress = "Melbourne"` and the label "Melbourne, AU"
  (`Geocode.MelbourneExample`).
- `fetchWeather` and `getGeocode` absorb every failure. So the coordinates-mode
  `catch` at src/pages/api/owm.js:119-121 is never reached, and coordinates mode
  always answers 200 (`Dispatch.Handle`).

## Model

| member | source | states |
|---|---|---|
| `Js.Or` | src/pages/api/owm.js:87 | `a \|\| b` yields `a` exactly when `a` is a non-empty string, otherwise `b`; a truthy result comes from a truthy operand |
| `Js.ErrorToString` | src/pages/api/owm.js:102 | `error.toString()` is the name when the message is empty, the message when the name is empty, otherwise name, ": ", message |
| `Js.Split` | src/pages/api/owm.js:10 | `split(',')` yields at least one piece, no piece contains the separator, and joining the pieces with it gives the input back |
| `Js.SplitJoin` | src/pages/api/owm.js:10 | splitting the join of separator-free pieces returns exactly those pieces (split and join are inverse) |
| `Js.SplitLimit` | src/pages/api/owm.js:10 | `split(sep, limit)` keeps a prefix of the pieces whose length is the smaller of `limit` and the piece count |
| `Js.ToUpperCase` | src/pages/api/owm.js:19 | upper-casing keeps the length and maps every character through the ASCII capital mapping |
| `Js.ToUpperCaseIdempotent` | src/pages/api/owm.js:19 | an upper-cased text holds no ASCII lower-case letter, differs from its input only at such letters, and upper-casing it again changes nothing |
| `Geocode.FullAddressIsFirstSegment` | src/pages/api/owm.js:10 | `fullAddress` has no comma, is a prefix of `formatted`, and is all of it or stops right before a comma |
| `Geocode.FullAddressUnique` | src/pages/api/owm.js:10 | any comma-free prefix of `formatted` that ends at a comma or at the end is `fullAddress` |
| `Geocode.LocationFormat` | src/pages/api/owm.js:9-23 | throws a TypeError exactly when the data, `formatted`, `components` or `country_code` is absent; otherwise suburb, city and state code pass through unchanged, the country code is upper-cased, and the label is (suburb if non-empty else fullAddress) + ", " + (state code if non-empty else the upper-cased country code) |
| `Geocode.LocationFormatWithPrefix` | src/pages/api/owm.js:9-23 | when `prefix` is the comma-free first segment of `formatted` and a country code is present, formatting succeeds with `prefix` as the full address and the label (suburb or `prefix`) + ", " + (state code or upper-cased country code) |
| `Geocode.CountryCodeIsUpperCase` | src/pages/api/owm.js:19 | the record's country code has no lower-case letter and upper-casing it again leaves it unchanged |
| `Geocode.RichmondExample` | src/pages/api/owm.js:9-23 | "Richmond, Melbourne, VIC, Australia" with suburb Richmond, state VIC and country "au" gives country "AU", fullAddress "Richmond", label "Richmond, VIC" |
| `Geocode.MelbourneExample` | src/pages/api/owm.js:9-23 | "Melbourne, VIC, Australia" with only country "au" gives fullAddress "Melbourne" and label "Melbourne, AU", not the whole address |
| `Resolvers.FetchWeather` | src/pages/api/owm.js:1-7 | never throws: the provider's JSON when the fetch and parse succeed, otherwise the rejecting error's name |
| `Resolvers.IpLookupValue` | src/pages/api/owm.js:27-42 | a non-ok response settles to the fallback location, an ok one to its body; it is `undefined` exactly when the fetch rejects or an ok body does not parse or is `null` |
| `Resolvers.GetRegion` | src/pages/api/owm.js:26-46 | throws, always a TypeError, exactly when the lookup settled to `undefined`; otherwise the label is "<city>, <region_code>" and the weather is fetched at the looked-up coordinates |
| `Resolvers.RegionFallback` | src/pages/api/owm.js:30-43 | a non-ok IP-lookup response gives label "Melbourne, VIC" and the weather at (-37.81, 144.9644) |
| `Resolvers.First` | src/pages/api/owm.js:55-56 | the array pattern `[data]` yields the first result, or `undefined` exactly when there is none |
| `Resolvers.GetGeocode` | src/pages/api/owm.js:50-64 | never throws: a location record exactly when the reverse lookup answered with results that `locationFormat` accepts, otherwise the text of a TypeError; never a bare label |
| `Resolvers.GetSearchData` | src/pages/api/owm.js:68-81 | a rejected lookup propagates its own error; any other failure is a TypeError; it succeeds exactly when there is a first result with a geometry that `locationFormat` accepts, with the weather at that geometry and the formatted record |
| `Dispatch.SelectMode` | src/pages/api/owm.js:88-110 | search mode exactly when `search` is non-empty; region mode exactly when it is not and `region` is exactly "true"; coordinates mode exactly when neither holds and `lat` and `long` are both non-empty; otherwise missing coordinates |
| `Dispatch.ClientIP` | src/pages/api/owm.js:87 | the client IP is the forwarded-for header when it is non-empty, otherwise the remote address |
| `Dispatch.Handle` | src/pages/api/owm.js:83-122 | every answer is 200 with a payload or 500 with text; missing coordinates give 500 with the fixed message; coordinates mode is always 200; in search mode the answer is 200 with exactly `getSearchData`'s payload when it succeeds, and 500 with the error's name as body when it throws |
| `Dispatch.RegionResponse` | src/pages/api/owm.js:96-104 | region mode answers 200 with exactly `getRegion`'s payload when it succeeds, and 500 with the error's `toString()` when it throws |
| `Dispatch.MissingCoordsConsultsNoProvider` | src/pages/api/owm.js:106-110 | without search or region mode and with `lat` or `long` empty or absent, the answer is 500 "Error: Missing Latitude (and/or) Longitude attributes" whatever the providers would say |
| `Dispatch.SearchWins` | src/pages/api/owm.js:88-95 | two requests with the same non-empty `search` get the same answer, whatever their region, coordinates and client address |
| `Dispatch.RegionUsesClientIP` | src/pages/api/owm.js:87-99 | in region mode the answer depends only on the IP-lookup answer for the client IP (and the weather provider) |
| `Dispatch.RegionFailure` | src/pages/api/owm.js:96-104 | region mode answers 500 exactly when the lookup settled to `undefined`, and its body is never the missing-coordinates message |
| `Dispatch.TypeErrorIsNotMissingCoords` | src/pages/api/owm.js:100-110 | the text of a TypeError always differs from the missing-coordinates message |
| `Dispatch.RegionFallbackResponse` | src/pages/api/owm.js:96-99 | region mode with a non-ok IP lookup answers 200 with label "Melbourne, VIC" and the weather at (-37.81, 144.9644) |
| `Dispatch.RegionLookupResponse` | src/pages/api/owm.js:27-45 | region mode with an ok lookup whose body parses answers 200 with label "<city>, <region_code>" and the weather at the body's latitude and longitude |
| `Dispatch.CoordsAnswer` | src/pages/api/owm.js:111-118 | coordinates mode answers with the weather for the two query texts and the reverse geocoding of "<lat>,<long>", which is a record or an error text |
| `Dispatch.SearchWithoutResults` | src/pages/api/owm.js:72-75 | a search with zero geocoding results answers 500 with the text "TypeError" |

## Left out

- Network I/O is not modelled. The `fetch` calls, the URLs and the API keys read
  from the environment (src/pages/api/owm.js:2-5, 27-29, 51-53, 69-71) are
  replaced by the oracle functions of `Resolvers.Upstream`. The model keeps only
  the `q` text sent to the geocoder and the IP sent to the lookup.
- Promise sequencing (`async`/`await`) and the order of the calls are not
  modelled. Every call is awaited in turn and none depends on another's side
  effect, so the result is a function of the providers' answers.
- `console.log` on a failed IP lookup is not modelled. Only its result,
  `undefined`, is kept.
- The weather JSON is treated as opaque text, passed through as it arrives.
- Coordinates are opaque `Geocode.Coordinate` values: query text, a number from
  JSON, or `undefined`. There is no arithmetic or validation on them in the
  source.
- Js.TypeError: only the name "TypeError" is the runtime's. The message texts
  follow V8's wording but are not claimed to match any engine exactly.
- Js.ToUpperCase: maps only the ASCII letters a-z. Unicode case mapping beyond
  ASCII (for example 'ß' becoming "SS") is not modelled, because country codes
  are two ASCII letters.
- Query values given several times (arrays in `req.query`) are not modelled.
  Each parameter is a string or absent.
- Upstream text fields (`formatted`, the components, `city`, `region_code`) are
  modelled as strings or absent. A number or other non-string value in one of
  them is not modelled. Coordinates from upstream JSON are modelled as numbers
  or absent.
- An IP-lookup body that does not parse, or that parses to `null`, is `None`.
  Destructuring it then throws. A body that parses to another primitive (a
  number, string or boolean) does not throw: every field reads as `undefined`.
  The model expresses that case as `IpRecord(None, None, Missing, Missing)`,
  which answers 200 with the label "undefined, undefined".
- The `.send(...)` serialisation of the payload is not modelled. Neither are
  failures inside `res.status(...).send(...)` itself, which are the only way
  the coordinates-mode `catch` could run.
