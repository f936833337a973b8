/** What the two API routes see of HTTP and of the Google Geocoding reply. A fetch is an
    injected function returning a `Fetched`: either it threw, or it answered with a status,
    the outcome of reading the body as text and the outcome of parsing it as JSON. */
module Http {
  import opened Wrappers
  import opened Text
  import opened JsValues

  /** `await res.json()`: the parsed value, or the message of the error it threw. */
  datatype BodyRead = Parsed(value: JsValue) | Unparsable(message: string)

  /** `await res.text()`: the body text, or the message of the error it threw. */
  datatype TextRead = TextOk(value: string) | TextFailed(message: string)

  /** The outcome of one `fetch`. */
  datatype Fetched = Threw(message: string) | Answered(status: int, text: TextRead, json: BodyRead)

  /** `response.ok`. */
  predicate IsOk(status: int) {
    200 <= status <= 299
  }

  /** Whether property access on the value throws a `TypeError`. */
  predicate Nullish(v: JsValue) {
    v == JsNull || v == JsUndefined
  }

  /** A map viewport; each side is whatever value the corner object held. */
  datatype Viewport = Viewport(north: JsValue, south: JsValue, east: JsValue, west: JsValue)

  /** A `{ lat, lng }` pair. */
  datatype LatLng = LatLng(lat: JsValue, lng: JsValue)

  /** `process.env.GOOGLE_MAPS_API_KEY || process.env.NEXT_PUBLIC_GOOGLE_MAPS_API_KEY`. */
  function ApiKey(serverKey: Option<string>, publicKey: Option<string>): (k: Option<string>)
    ensures k.Some? && k.value != "" <==>
              (serverKey.Some? && serverKey.value != "") || (publicKey.Some? && publicKey.value != "")
    ensures serverKey.Some? && serverKey.value != "" ==> k == serverKey
    ensures !(serverKey.Some? && serverKey.value != "") ==> k == publicKey
  {
    if serverKey.Some? && serverKey.value != "" then serverKey else publicKey
  }

  /** `${line}, ${city}, ${state} ${zip}`: the four parts in order, separated by ", ", ", "
      and " ". */
  function QueryText(line: string, city: string, state: string, zip: string): (r: string)
    ensures |r| == |line| + |city| + |state| + |zip| + 5
    ensures r[..|line|] == line && r[|line|..|line| + 2] == ", "
    ensures r[|line| + 2..|line| + 2 + |city|] == city
    ensures r[|line| + 2 + |city|..|line| + 4 + |city|] == ", "
    ensures r[|r| - |zip| - |state| - 1..|r| - |zip| - 1] == state
    ensures r[|r| - |zip| - 1] == ' ' && r[|r| - |zip|..] == zip
  {
    var head := line + ", " + city + ", ";
    var tail := state + " " + zip;
    assert head[..|line|] == line && head[|line|..|line| + 2] == ", ";
    assert head[|line| + 2..|line| + 2 + |city|] == city && head[|line| + 2 + |city|..] == ", ";
    assert tail[..|state|] == state && tail[|state|] == ' ' && tail[|state| + 1..] == zip;
    head + tail
  }

  /** The text of the four address fields, as template literals print them. */
  function AddressParts(address: JsValue, numberText: NumberText): (string, string, string, string) {
    (ToText(Get(address, "address1"), numberText), ToText(Get(address, "city"), numberText),
     ToText(Get(address, "state"), numberText), ToText(Get(address, "zip"), numberText))
  }

  /** `${a.address1}, ${a.city}, ${a.state} ${a.zip}`: the query both routes geocode. */
  function FormatAddress(address: JsValue, numberText: NumberText): (r: string)
    ensures var (line, city, state, zip) := AddressParts(address, numberText);
            && |r| == |line| + |city| + |state| + |zip| + 5
            && r[..|line|] == line && r[|line|..|line| + 2] == ", "
            && r[|line| + 2..|line| + 2 + |city|] == city
            && r[|line| + 2 + |city|..|line| + 4 + |city|] == ", "
            && r[|r| - |zip| - |state| - 1..|r| - |zip| - 1] == state
            && r[|r| - |zip| - 1] == ' '
            && r[|r| - |zip|..] == zip
  {
    var (line, city, state, zip) := AddressParts(address, numberText);
    QueryText(line, city, state, zip)
  }

  /** Whether all four address fields are truthy (both routes reject the address otherwise). */
  predicate AddressComplete(address: JsValue) {
    Truthy(Get(address, "address1")) && Truthy(Get(address, "city"))
    && Truthy(Get(address, "state")) && Truthy(Get(address, "zip"))
  }

  /** The first result of a geocoding reply whose status is "OK" and whose results are a
      non-empty array; `None` for any other reply. */
  function FirstGeocodeResult(geoJson: JsValue): (r: Option<JsValue>)
    ensures r.Some? <==> Get(geoJson, "status") == JsString("OK")
                         && Get(geoJson, "results").JsArray? && |Get(geoJson, "results").items| > 0
    ensures r.Some? ==> r.value == Get(geoJson, "results").items[0]
  {
    var results := Get(geoJson, "results");
    if Get(geoJson, "status") == JsString("OK") && results.JsArray? && |results.items| > 0
    then Some(results.items[0])
    else None
  }

  /** `r.geometry?.viewport?.northeast` and `…southwest`. */
  function Corners(result: JsValue): (JsValue, JsValue) {
    var vp := Get(Get(result, "geometry"), "viewport");
    (Get(vp, "northeast"), Get(vp, "southwest"))
  }

  /** The viewport both routes build from two truthy corners: north and east from the
      north-east corner, south and west from the south-west one. */
  function CornersViewport(ne: JsValue, sw: JsValue): (v: Viewport)
    ensures v.north == Get(ne, "lat") && v.east == Get(ne, "lng")
    ensures v.south == Get(sw, "lat") && v.west == Get(sw, "lng")
  {
    Viewport(Get(ne, "lat"), Get(sw, "lat"), Get(ne, "lng"), Get(sw, "lng"))
  }
}
