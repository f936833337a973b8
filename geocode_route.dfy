/** `POST /api/geocode` (src/app/api/geocode/route.ts): validate the address, require an API
    key, geocode the formatted address and return the first result's location and viewport. */
module GeocodeRoute {
  import opened Wrappers
  import opened Text
  import opened JsValues
  import opened Http

  const BODY_UNPARSABLE: string := "failed to parse request body"
  const MISSING_ADDRESS: string := "missing address in request body"
  const INVALID_ADDRESS: string := "invalid address format"
  const KEY_MISSING: string := "google maps api key not configured"
  const GEOCODING_FAILED_PREFIX: string := "google geocoding failed: "
  const GEOCODING_STATUS_PREFIX: string := "geocoding returned status "

  /** The route's JSON reply. Absent `lat`/`lng` are `JsUndefined` (left out of the JSON). */
  datatype GeocodeResponse =
    | GeocodeFailed(status: int, message: string)
    | Located(lat: JsValue, lng: JsValue, viewport: Option<Viewport>)

  /** `body?.address ?? null`, truthy: the address the route goes on with. */
  function RequestAddress(body: JsValue): JsValue {
    Get(body, "address")
  }

  /** The route. `geocoder` stands for the `fetch` of the Geocoding API (given the formatted
      address and the key); `typeErrorMessage` is the host's message for reading a property
      of `null`. */
  function Post(body: Option<JsValue>, serverKey: Option<string>, publicKey: Option<string>,
                geocoder: (string, string) -> Fetched, numberText: NumberText, typeErrorMessage: string)
    : (resp: GeocodeResponse)
    ensures body.None? ==> resp == GeocodeFailed(400, BODY_UNPARSABLE)
    ensures body.Some? && !Truthy(RequestAddress(body.value)) ==>
              resp == GeocodeFailed(400, MISSING_ADDRESS)
    ensures body.Some? && Truthy(RequestAddress(body.value)) && !AddressComplete(RequestAddress(body.value)) ==>
              resp == GeocodeFailed(400, INVALID_ADDRESS)
    ensures resp.GeocodeFailed? && resp.status == 400 <==>
              body.None? || !Truthy(RequestAddress(body.value)) || !AddressComplete(RequestAddress(body.value))
    ensures body.Some? && Truthy(RequestAddress(body.value)) && AddressComplete(RequestAddress(body.value))
              && (var key := ApiKey(serverKey, publicKey); !(key.Some? && key.value != "")) ==>
              resp == GeocodeFailed(500, KEY_MISSING)
    ensures resp.GeocodeFailed? ==> resp.status in {400, 404, 500, 502}
    ensures body.Some? && Truthy(RequestAddress(body.value)) && AddressComplete(RequestAddress(body.value))
            && ApiKey(serverKey, publicKey).Some? && ApiKey(serverKey, publicKey).value != "" ==>
              var reply := geocoder(FormatAddress(RequestAddress(body.value), numberText),
                                    ApiKey(serverKey, publicKey).value);
              && (reply.Threw? ==> resp == GeocodeFailed(500, reply.message))
              && (reply.Answered? && !IsOk(reply.status) && reply.text.TextOk? ==>
                    resp == GeocodeFailed(502, GEOCODING_FAILED_PREFIX + IntToString(reply.status) + " " + reply.text.value))
              && (reply.Answered? && !IsOk(reply.status) && reply.text.TextFailed? ==>
                    resp == GeocodeFailed(500, reply.text.message))
              && (reply.Answered? && IsOk(reply.status) && reply.json.Unparsable? ==>
                    resp == GeocodeFailed(500, reply.json.message))
              && (reply.Answered? && IsOk(reply.status) && reply.json.Parsed? && Nullish(reply.json.value) ==>
                    resp == GeocodeFailed(500, typeErrorMessage))
              && (reply.Answered? && IsOk(reply.status) && reply.json.Parsed? && !Nullish(reply.json.value) ==>
                    var first := FirstGeocodeResult(reply.json.value);
                    && (first.None? ==>
                          resp == GeocodeFailed(404, GEOCODING_STATUS_PREFIX + ToText(Get(reply.json.value, "status"), numberText)))
                    && (first.Some? && Nullish(first.value) ==> resp == GeocodeFailed(500, typeErrorMessage))
                    && (first.Some? && !Nullish(first.value) ==> resp.Located?))
    ensures resp.Located? || (resp.GeocodeFailed? && resp.status in {404, 502}) ==>
              body.Some? && AddressComplete(RequestAddress(body.value))
              && var key := ApiKey(serverKey, publicKey);
                 key.Some? && key.value != ""
                 && var reply := geocoder(FormatAddress(RequestAddress(body.value), numberText), key.value);
                    && reply.Answered?
                    && (resp.GeocodeFailed? && resp.status == 502 <==> !IsOk(reply.status) && reply.text.TextOk?)
                    && (resp.GeocodeFailed? && resp.status == 502 ==>
                          resp.message == GEOCODING_FAILED_PREFIX + IntToString(reply.status) + " " + reply.text.value)
                    && (resp.GeocodeFailed? && resp.status == 404 ==>
                          reply.json.Parsed? && FirstGeocodeResult(reply.json.value).None?)
                    && (resp.Located? ==>
                          && reply.json.Parsed?
                          && FirstGeocodeResult(reply.json.value).Some?
                          && var r := FirstGeocodeResult(reply.json.value).value;
                             var (ne, sw) := Corners(r);
                             && resp.lat == Get(Get(Get(r, "geometry"), "location"), "lat")
                             && resp.lng == Get(Get(Get(r, "geometry"), "location"), "lng")
                             && (resp.viewport.Some? <==> Truthy(ne) && Truthy(sw))
                             && (resp.viewport.Some? ==> resp.viewport.value == CornersViewport(ne, sw)))
  {
    if body.None? then GeocodeFailed(400, BODY_UNPARSABLE)
    else
      var address := RequestAddress(body.value);
      if !Truthy(address) then GeocodeFailed(400, MISSING_ADDRESS)
      else if !AddressComplete(address) then GeocodeFailed(400, INVALID_ADDRESS)
      else
        var apiKey := ApiKey(serverKey, publicKey);
        if !(apiKey.Some? && apiKey.value != "") then GeocodeFailed(500, KEY_MISSING)
        else
          var formatted := FormatAddress(address, numberText);
          match geocoder(formatted, apiKey.value)
          case Threw(message) => GeocodeFailed(500, message)
          case Answered(status, text, json) =>
            if !IsOk(status) then
              match text
              case TextFailed(message) => GeocodeFailed(500, message)
              case TextOk(t) => GeocodeFailed(502, GEOCODING_FAILED_PREFIX + IntToString(status) + " " + t)
            else if json.Unparsable? then GeocodeFailed(500, json.message)
            else if Nullish(json.value) then GeocodeFailed(500, typeErrorMessage)
            else
              match FirstGeocodeResult(json.value)
              case None =>
                GeocodeFailed(404, GEOCODING_STATUS_PREFIX + ToText(Get(json.value, "status"), numberText))
              case Some(r) =>
                if Nullish(r) then GeocodeFailed(500, typeErrorMessage)
                else
                  var (vpNE, vpSW) := Corners(r);
                  Located(Get(Get(Get(r, "geometry"), "location"), "lat"),
                          Get(Get(Get(r, "geometry"), "location"), "lng"),
                          if Truthy(vpNE) && Truthy(vpSW) then Some(CornersViewport(vpNE, vpSW)) else None)
  }

  /** An invalid request is refused before the key is looked at or the geocoder is called:
      the answer is the same whatever the keys and the geocoder. */
  lemma ValidationComesFirst(body: Option<JsValue>, k1: Option<string>, k2: Option<string>,
                             g1: (string, string) -> Fetched, k3: Option<string>, k4: Option<string>,
                             g2: (string, string) -> Fetched, numberText: NumberText, typeErrorMessage: string)
    requires body.None? || !AddressComplete(RequestAddress(body.value))
    ensures Post(body, k1, k2, g1, numberText, typeErrorMessage) == Post(body, k3, k4, g2, numberText, typeErrorMessage)
    ensures Post(body, k1, k2, g1, numberText, typeErrorMessage).status == 400
  {
  }

  /** A geocoder reply with status "OK" and a non-empty result list, answered 200 with parseable
      JSON, yields a location read from the first result. */
  lemma OkReplyLocates(address: JsValue, key: string, geocoder: (string, string) -> Fetched,
                       numberText: NumberText, typeErrorMessage: string)
    requires Truthy(address) && AddressComplete(address) && key != ""
    requires var reply := geocoder(FormatAddress(address, numberText), key);
      reply.Answered? && IsOk(reply.status) && reply.json.Parsed?
      && FirstGeocodeResult(reply.json.value).Some? && !Nullish(FirstGeocodeResult(reply.json.value).value)
    ensures Post(Some(JsObject(map["address" := address])), Some(key), None, geocoder, numberText,
                 typeErrorMessage).Located?
  {
    var reply := geocoder(FormatAddress(address, numberText), key);
    assert Get(reply.json.value, "status") == JsString("OK");
  }
}
