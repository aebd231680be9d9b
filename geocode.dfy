/** `locationFormat` (src/pages/api/owm.js:9-23): reshapes one geocoding
    result into the location record that the endpoint returns. */
module Geocode {
  import opened Js

  /** A coordinate as it reaches the weather provider's URL: the raw text of a
      query parameter, a number from an upstream JSON body, or `undefined`. */
  datatype Coordinate = QueryText(text: string) | Number(value: real) | Missing

  /** The `components` object of a geocoding result; every field may be absent. */
  datatype Components = Components(
    suburb: Option<string>,
    city: Option<string>,
    stateCode: Option<string>,
    countryCode: Option<string>)

  datatype Geometry = Geometry(lat: Coordinate, lng: Coordinate)

  /** One element of the geocoding provider's `results` array. */
  datatype GeocodeResult = GeocodeResult(
    formatted: Option<string>,
    components: Option<Components>,
    geometry: Option<Geometry>)

  /** The record `locationFormat` returns. */
  datatype LocationRecord = LocationRecord(
    suburb: Option<string>,
    city: Option<string>,
    stateCode: Option<string>,
    countryCode: string,
    fullAddress: string,
    formatString: string)

  /** The message of the `TypeError` thrown when property `name` is read from `undefined`. */
  function ReadOfUndefined(name: string): string {
    "Cannot read properties of undefined (reading '" + name + "')"
  }

  /** `formatted.split(',', 1).toString()`. */
  function FullAddress(formatted: string): string {
    Join(SplitLimit(formatted, ',', 1), ',')
  }

  /** The full address is the part of the formatted address before its first
      comma, or all of it when it has no comma. */
  lemma FullAddressIsFirstSegment(formatted: string)
    ensures ',' !in FullAddress(formatted)
    ensures FullAddress(formatted) <= formatted
    ensures |FullAddress(formatted)| == |formatted| || formatted[|FullAddress(formatted)|] == ','
  {
    var parts := Split(formatted, ',');
    assert SplitLimit(formatted, ',', 1) == [parts[0]];
    if |parts| > 1 {
      assert formatted == parts[0] + [','] + Join(parts[1..], ',');
      assert formatted[..|parts[0]|] == parts[0];
    }
  }

  /** The three facts above pin the full address down: any comma-free prefix
      that reaches a comma or the end of the text is it. */
  lemma FullAddressUnique(formatted: string, prefix: string)
    requires ',' !in prefix
    requires prefix <= formatted
    requires |prefix| == |formatted| || formatted[|prefix|] == ','
    ensures FullAddress(formatted) == prefix
  {
    FullAddressIsFirstSegment(formatted);
  }

  /** `locationFormat({ data })`: `data` is `undefined` when the provider
      returned no results. A missing `formatted`, `components` or
      `country_code` makes the function throw, like the reads it performs. */
  function LocationFormat(data: Option<GeocodeResult>): (r: Result<LocationRecord>)
    ensures r.Thrown? <==>
              || data.None?
              || data.value.formatted.None?
              || data.value.components.None?
              || data.value.components.value.countryCode.None?
    ensures r.Thrown? ==> r.error.name == "TypeError"
    ensures r.Ok? ==>
              var w := data.value.components.value;
              && r.value.suburb == w.suburb
              && r.value.city == w.city
              && r.value.stateCode == w.stateCode
              && r.value.countryCode == ToUpperCase(w.countryCode.value)
              && r.value.fullAddress == FullAddress(data.value.formatted.value)
    ensures r.Ok? ==>
              var w := data.value.components.value;
              var place := if Truthy(w.suburb) then w.suburb.value else r.value.fullAddress;
              var code := if Truthy(w.stateCode) then w.stateCode.value else r.value.countryCode;
              r.value.formatString == place + ", " + code
  {
    match data
    case None => Thrown(TypeError(ReadOfUndefined("components")))
    case Some(d) =>
      if d.formatted.None? then Thrown(TypeError(ReadOfUndefined("split")))
      else if d.components.None? then Thrown(TypeError(ReadOfUndefined("suburb")))
      else
        var w := d.components.value;
        if w.countryCode.None? then Thrown(TypeError(ReadOfUndefined("toUpperCase")))
        else
          var fullAddress := FullAddress(d.formatted.value);
          var countryCode := ToUpperCase(w.countryCode.value);
          var formatString :=
            Render(Or(w.suburb, Some(fullAddress))) + ", " + Render(Or(w.stateCode, Some(countryCode)));
          Ok(LocationRecord(w.suburb, w.city, w.stateCode, countryCode, fullAddress, formatString))
  }

  /** The record's country code is already upper case: formatting it again
      would not change it. */
  lemma CountryCodeIsUpperCase(data: Option<GeocodeResult>)
    requires LocationFormat(data).Ok?
    ensures ToUpperCase(LocationFormat(data).value.countryCode) == LocationFormat(data).value.countryCode
    ensures forall i :: 0 <= i < |LocationFormat(data).value.countryCode| ==>
              !('a' <= LocationFormat(data).value.countryCode[i] <= 'z')
  {
    ToUpperCaseIdempotent(data.value.components.value.countryCode.value);
  }

  /** With `prefix` the comma-free first segment of `formatted`, formatting
      succeeds with `prefix` as the full address and a label built from it. */
  lemma LocationFormatWithPrefix(formatted: string, prefix: string, w: Components, geometry: Option<Geometry>)
    requires ',' !in prefix && prefix <= formatted
    requires |prefix| == |formatted| || formatted[|prefix|] == ','
    requires w.countryCode.Some?
    ensures var countryCode := ToUpperCase(w.countryCode.value);
            var place := if Truthy(w.suburb) then w.suburb.value else prefix;
            var code := if Truthy(w.stateCode) then w.stateCode.value else countryCode;
            LocationFormat(Some(GeocodeResult(Some(formatted), Some(w), geometry)))
              == Ok(LocationRecord(w.suburb, w.city, w.stateCode, countryCode, prefix, place + ", " + code))
  {
    FullAddressUnique(formatted, prefix);
  }

  /** A result with suburb, state code and a lower-case country code. */
  lemma RichmondExample()
    ensures LocationFormat(Some(GeocodeResult(
              Some("Richmond, Melbourne, VIC, Australia"),
              Some(Components(Some("Richmond"), None, Some("VIC"), Some("au"))),
              None)))
            == Ok(LocationRecord(Some("Richmond"), None, Some("VIC"), "AU", "Richmond", "Richmond, VIC"))
  {
    assert ToUpperCase("au") == "AU";
    assert "Richmond" + ", " + "VIC" == "Richmond, VIC";
    LocationFormatWithPrefix("Richmond, Melbourne, VIC, Australia", "Richmond",
      Components(Some("Richmond"), None, Some("VIC"), Some("au")), None);
  }

  /** Without suburb and state code the label falls back to the first segment
      of the address and the upper-cased country code, not the whole address. */
  lemma MelbourneExample()
    ensures LocationFormat(Some(GeocodeResult(
              Some("Melbourne, VIC, Australia"),
              Some(Components(None, None, None, Some("au"))),
              None)))
            == Ok(LocationRecord(None, None, None, "AU", "Melbourne", "Melbourne, AU"))
  {
    assert ToUpperCase("au") == "AU";
    assert "Melbourne" + ", " + "AU" == "Melbourne, AU";
    LocationFormatWithPrefix("Melbourne, VIC, Australia", "Melbourne", Components(None, None, None, Some("au")), None);
  }
}
