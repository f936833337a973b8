/** `POST /api/check-address` (src/app/api/check-address/route.ts): validate the request,
    ask the city's GIS service whether the address is inside the listing's boundary, then
    attach map coordinates from Google geocoding, falling back to the GIS extent. */
module CheckAddressRoute {
  import opened Wrappers
  import opened Text
  import opened JsValues
  import opened Http

  /** The fixed test person sent as both member and applicant. */
  datatype Person = Person(firstName: string, lastName: string, dob: string)

  const TEST_PERSON: Person := Person("First", "Last", "1960-01-01")

  /** The body posted to the GIS service. `address` is the request's address object as it
      came; the listing carries only `Id` and `Name`. */
  datatype ExternalPayload = ExternalPayload(address: JsValue, listingId: JsValue, listingName: JsValue,
                                             projectId: JsValue, member: Person, applicant: Person)

  /** The route's JSON reply: an error with its status, or the verdict with optional coordinates. */
  datatype CheckResponse =
    | CheckFailed(status: int, message: string)
    | CheckResult(isMatch: bool, message: string, lat: Option<real>, lng: Option<real>,
                  viewport: Option<Viewport>)

  /** `webMercatorToLatLng` applied to two extent coordinates (floating point, not modelled). */
  type Mercator = (JsValue, JsValue) -> LatLng

  const WITHIN_MESSAGE: string := "\U{2705} Address is within the listing boundary."
  const OUTSIDE_MESSAGE: string := "\U{274C} Address is NOT within the listing boundary."
  const UNDETERMINED_MESSAGE: string :=
    "Could not determine boundary match from API response (null or invalid value received)."

  const BODY_UNPARSABLE: string := "Failed to parse request body"
  const MISSING_DATA: string := "Missing address or listing data in request body"
  const INVALID_ADDRESS: string := "Invalid address format"
  const INVALID_LISTING: string := "Invalid listing format"

  const SERVICE_STATUS_PREFIX: string := "External API request failed with status "
  const MISSING_GIS_DATA: string := "Invalid response format from external API (missing gis_data)"

  /** The request's defect, if any, as the 400 message the route answers with. `None` means
      the route goes on to call the GIS service. */
  function RequestError(body: Option<JsValue>): (e: Option<string>)
    ensures e.None? <==>
              body.Some? && !Nullish(body.value)
              && Truthy(Get(body.value, "address")) && AddressComplete(Get(body.value, "address"))
              && Truthy(Get(body.value, "listing"))
              && Truthy(Get(Get(body.value, "listing"), "Id")) && Truthy(Get(Get(body.value, "listing"), "Name"))
    ensures body.None? || (body.Some? && Nullish(body.value)) ==> e == Some(BODY_UNPARSABLE)
    ensures e.Some? ==> e.value in {BODY_UNPARSABLE, MISSING_DATA,
                                    INVALID_ADDRESS, INVALID_LISTING}
    ensures e == Some(INVALID_LISTING) ==> AddressComplete(Get(body.value, "address"))
    ensures body.Some? && !Nullish(body.value)
            && (!Truthy(Get(body.value, "address")) || !Truthy(Get(body.value, "listing"))) ==>
              e == Some(MISSING_DATA)
    ensures body.Some? && !Nullish(body.value)
            && Truthy(Get(body.value, "address")) && Truthy(Get(body.value, "listing"))
            && !AddressComplete(Get(body.value, "address")) ==>
              e == Some(INVALID_ADDRESS)
    ensures body.Some? && !Nullish(body.value)
            && Truthy(Get(body.value, "address")) && Truthy(Get(body.value, "listing"))
            && AddressComplete(Get(body.value, "address"))
            && (!Truthy(Get(Get(body.value, "listing"), "Id")) || !Truthy(Get(Get(body.value, "listing"), "Name"))) ==>
              e == Some(INVALID_LISTING)
  {
    if body.None? || Nullish(body.value) then Some(BODY_UNPARSABLE)
    else
      var address := Get(body.value, "address");
      var listing := Get(body.value, "listing");
      if !Truthy(address) || !Truthy(listing) then Some(MISSING_DATA)
      else if !AddressComplete(address) then Some(INVALID_ADDRESS)
      else if !Truthy(Get(listing, "Id")) || !Truthy(Get(listing, "Name")) then Some(INVALID_LISTING)
      else None
  }

  /** What the service is told: the project id is the listing's `Project_ID` when truthy,
      otherwise the empty string; member and applicant are the fixed test person. */
  function Payload(address: JsValue, listing: JsValue): (p: ExternalPayload)
    ensures p.address == address
    ensures p.listingId == Get(listing, "Id") && p.listingName == Get(listing, "Name")
    ensures Truthy(p.projectId) <==> Truthy(Get(listing, "Project_ID"))
    ensures Truthy(p.projectId) ==> p.projectId == Get(listing, "Project_ID")
    ensures !Truthy(p.projectId) ==> p.projectId == JsString("")
    ensures p.member == TEST_PERSON && p.applicant == TEST_PERSON
  {
    var projectId := Get(listing, "Project_ID");
    ExternalPayload(address, Get(listing, "Id"), Get(listing, "Name"),
                    if Truthy(projectId) then projectId else JsString(""), TEST_PERSON, TEST_PERSON)
  }

  /** The classification of `boundary_match`: a match only for `true`, the undetermined
      message exactly when the value is not a boolean. */
  function Verdict(boundaryMatch: JsValue): (v: (bool, string))
    ensures v.0 <==> boundaryMatch == JsBool(true)
    ensures v.1 == WITHIN_MESSAGE <==> v.0
    ensures v.1 == OUTSIDE_MESSAGE <==> boundaryMatch == JsBool(false)
    ensures v.1 == UNDETERMINED_MESSAGE <==> !boundaryMatch.JsBool?
  {
    if boundaryMatch.JsBool? then
      (boundaryMatch.b, if boundaryMatch.b then WITHIN_MESSAGE else OUTSIDE_MESSAGE)
    else (false, UNDETERMINED_MESSAGE)
  }

  /** The coordinates the geocoding step contributes. */
  datatype GeoFix = GeoFix(lat: Option<real>, lng: Option<real>, viewport: Option<Viewport>)

  const NO_FIX: GeoFix := GeoFix(None, None, None)

  /** The geocoding step, on the reply it got: only an OK, parseable reply with a first result
      contributes; `lat`/`lng` come together and only when both are numbers; the viewport
      needs both corners. Any failure leaves everything unset. */
  function GeocodeFix(reply: Fetched): (fix: GeoFix)
    ensures fix.lat.Some? <==> fix.lng.Some?
    ensures fix != NO_FIX ==>
              reply.Answered? && IsOk(reply.status) && reply.json.Parsed?
              && FirstGeocodeResult(reply.json.value).Some?
    ensures fix.viewport.Some? <==>
              reply.Answered? && IsOk(reply.status) && reply.json.Parsed?
              && FirstGeocodeResult(reply.json.value).Some?
              && var (ne, sw) := Corners(FirstGeocodeResult(reply.json.value).value);
                 Truthy(ne) && Truthy(sw) && fix.viewport == Some(CornersViewport(ne, sw))
    ensures fix.lat.Some? <==>
              reply.Answered? && IsOk(reply.status) && reply.json.Parsed?
              && FirstGeocodeResult(reply.json.value).Some?
              && var location := Get(Get(FirstGeocodeResult(reply.json.value).value, "geometry"), "location");
                 Truthy(location) && Get(location, "lat").JsNumber? && Get(location, "lng").JsNumber?
    ensures fix.lat.Some? ==>
              var location := Get(Get(FirstGeocodeResult(reply.json.value).value, "geometry"), "location");
              Get(location, "lat") == JsNumber(fix.lat.value) && Get(location, "lng") == JsNumber(fix.lng.value)
  {
    if reply.Answered? && IsOk(reply.status) && reply.json.Parsed? then
      match FirstGeocodeResult(reply.json.value)
      case None => NO_FIX
      case Some(r) =>
        var location := Get(Get(r, "geometry"), "location");
        var lat := Get(location, "lat");
        var lng := Get(location, "lng");
        var (ne, sw) := Corners(r);
        GeoFix(if Truthy(location) && lat.JsNumber? && lng.JsNumber? then Some(lat.n) else None,
               if Truthy(location) && lat.JsNumber? && lng.JsNumber? then Some(lng.n) else None,
               if Truthy(ne) && Truthy(sw) then Some(CornersViewport(ne, sw)) else None)
    else NO_FIX
  }

  /** The viewport taken from the GIS extent: south-west from `(xmin, ymin)`, north-east from
      `(xmax, ymax)`. */
  function ExtentViewport(extent: JsValue, mercator: Mercator): (v: Viewport)
    ensures v.north == mercator(Get(extent, "xmax"), Get(extent, "ymax")).lat
    ensures v.east == mercator(Get(extent, "xmax"), Get(extent, "ymax")).lng
    ensures v.south == mercator(Get(extent, "xmin"), Get(extent, "ymin")).lat
    ensures v.west == mercator(Get(extent, "xmin"), Get(extent, "ymin")).lng
  {
    var sw := mercator(Get(extent, "xmin"), Get(extent, "ymin"));
    var ne := mercator(Get(extent, "xmax"), Get(extent, "ymax"));
    Viewport(ne.lat, sw.lat, ne.lng, sw.lng)
  }

  /** The viewport returned: the geocoded one, else the extent's when there is one. */
  function ChosenViewport(geocoded: Option<Viewport>, gis: JsValue, mercator: Mercator): (v: Option<Viewport>)
    ensures geocoded.Some? ==> v == geocoded
    ensures geocoded.None? ==> (v.Some? <==> Truthy(Get(gis, "extent")))
    ensures geocoded.None? && v.Some? ==> v.value == ExtentViewport(Get(gis, "extent"), mercator)
  {
    if geocoded.None? && Truthy(Get(gis, "extent")) then Some(ExtentViewport(Get(gis, "extent"), mercator))
    else geocoded
  }

  /** The geocoding step of the route, run on the reply the geocoder gave: a location made of
      two numbers and a viewport made of two truthy corners are each taken when present. */
  method GeocodeStep(geoRes: Fetched) returns (fix: GeoFix)
    ensures fix == GeocodeFix(geoRes)
  {
    var lat: Option<real> := None;
    var lng: Option<real> := None;
    var viewport: Option<Viewport> := None;
    if geoRes.Answered? && IsOk(geoRes.status) && geoRes.json.Parsed? {
      var first := FirstGeocodeResult(geoRes.json.value);
      if first.Some? {
        var r := first.value;
        var location := Get(Get(r, "geometry"), "location");
        if Truthy(location) && Get(location, "lat").JsNumber? && Get(location, "lng").JsNumber? {
          lat := Some(Get(location, "lat").n);
          lng := Some(Get(location, "lng").n);
        }
        var (ne, sw) := Corners(r);
        if Truthy(ne) && Truthy(sw) {
          viewport := Some(CornersViewport(ne, sw));
        }
      }
    }
    return GeoFix(lat, lng, viewport);
  }

  /** The answer built from a truthy `gis_data` value `g`: the verdict on its `boundary_match`,
      the geocoded coordinates when a key is configured, and the extent as the fallback viewport. */
  method Respond(g: JsValue, address: JsValue, serverKey: Option<string>, publicKey: Option<string>,
                 geocoder: (string, string) -> Fetched, mercator: Mercator, numberText: NumberText)
    returns (resp: CheckResponse)
    ensures var key := ApiKey(serverKey, publicKey);
            var fix := if key.Some? && key.value != ""
                       then GeocodeFix(geocoder(FormatAddress(address, numberText), key.value))
                       else NO_FIX;
            resp == CheckResult(Verdict(Get(g, "boundary_match")).0, Verdict(Get(g, "boundary_match")).1,
                                fix.lat, fix.lng, ChosenViewport(fix.viewport, g, mercator))
  {
    var boundaryMatch := Get(g, "boundary_match");
    var isMatch := false;
    var message := UNDETERMINED_MESSAGE;
    if boundaryMatch.JsBool? {
      isMatch := boundaryMatch.b;
      message := if boundaryMatch.b then WITHIN_MESSAGE else OUTSIDE_MESSAGE;
    }

    var apiKey := ApiKey(serverKey, publicKey);
    var fix := NO_FIX;
    if apiKey.Some? && apiKey.value != "" {
      fix := GeocodeStep(geocoder(FormatAddress(address, numberText), apiKey.value));
    }
    var lat, lng, viewport := fix.lat, fix.lng, fix.viewport;

    if viewport.None? && Truthy(Get(g, "extent")) {
      var extent := Get(g, "extent");
      var sw := mercator(Get(extent, "xmin"), Get(extent, "ymin"));
      var ne := mercator(Get(extent, "xmax"), Get(extent, "ymax"));
      viewport := Some(Viewport(ne.lat, sw.lat, ne.lng, sw.lng));
    }

    return CheckResult(isMatch, message, lat, lng, viewport);
  }

  /** The route once the request is valid (from building the payload on): the GIS service is
      called with the payload, any failure of it is a 500 with its message, and a usable reply
      gives the verdict with the coordinates geocoding adds. */
  method Forward(address: JsValue, listing: JsValue, gisService: ExternalPayload -> Fetched,
                 serverKey: Option<string>, publicKey: Option<string>, geocoder: (string, string) -> Fetched,
                 mercator: Mercator, numberText: NumberText, typeErrorMessage: string)
    returns (resp: CheckResponse, sent: ExternalPayload)
    ensures sent == Payload(address, listing)
    ensures var reply := gisService(sent);
              && (reply.Threw? ==> resp == CheckFailed(500, reply.message))
              && (reply.Answered? && !IsOk(reply.status) ==>
                    resp == CheckFailed(500, SERVICE_STATUS_PREFIX + IntToString(reply.status)))
              && (reply.Answered? && IsOk(reply.status) && reply.json.Unparsable? ==>
                    resp == CheckFailed(500, reply.json.message))
              && (reply.Answered? && IsOk(reply.status) && reply.json.Parsed? ==>
                    var data := reply.json.value;
                    && (Nullish(data) ==> resp == CheckFailed(500, typeErrorMessage))
                    && (!Nullish(data) && !Truthy(Get(data, "gis_data")) ==>
                          resp == CheckFailed(500, MISSING_GIS_DATA))
                    && (!Nullish(data) && Truthy(Get(data, "gis_data")) ==>
                          var gis := Get(data, "gis_data");
                          var key := ApiKey(serverKey, publicKey);
                          var fix := if key.Some? && key.value != ""
                                     then GeocodeFix(geocoder(FormatAddress(address, numberText), key.value))
                                     else NO_FIX;
                          resp == CheckResult(Verdict(Get(gis, "boundary_match")).0,
                                              Verdict(Get(gis, "boundary_match")).1,
                                              fix.lat, fix.lng, ChosenViewport(fix.viewport, gis, mercator))))
    ensures resp.CheckFailed? ==> resp.status == 500
  {
    var externalPayload := ExternalPayload(address, Get(listing, "Id"), Get(listing, "Name"), JsString(""),
                                           TEST_PERSON, TEST_PERSON);
    if Truthy(Get(listing, "Project_ID")) {
      externalPayload := externalPayload.(projectId := Get(listing, "Project_ID"));
    }

    sent := externalPayload;
    var externalResponse := gisService(externalPayload);
    if externalResponse.Threw? {
      return CheckFailed(500, externalResponse.message), sent;
    }
    if !IsOk(externalResponse.status) {
      return CheckFailed(500, SERVICE_STATUS_PREFIX + IntToString(externalResponse.status)), sent;
    }
    if externalResponse.json.Unparsable? {
      return CheckFailed(500, externalResponse.json.message), sent;
    }
    var data := externalResponse.json.value;
    if Nullish(data) {
      return CheckFailed(500, typeErrorMessage), sent;
    }
    if !Truthy(Get(data, "gis_data")) {
      return CheckFailed(500, MISSING_GIS_DATA), sent;
    }

    resp := Respond(Get(data, "gis_data"), address, serverKey, publicKey, geocoder, mercator, numberText);
  }

  /** The route. `gisService` and `geocoder` stand for the two `fetch` calls (the geocoder is
      given the formatted address and the key); `typeErrorMessage` is the host's message for
      reading a property of `null`. Validation failures are answered with 400 and nothing is
      sent; a failing GIS call is answered with 500 and its message; otherwise the verdict
      depends on `boundary_match` alone, and geocoding only adds coordinates. */
  method Post(body: Option<JsValue>, gisService: ExternalPayload -> Fetched,
              serverKey: Option<string>, publicKey: Option<string>, geocoder: (string, string) -> Fetched,
              mercator: Mercator, numberText: NumberText, typeErrorMessage: string)
    returns (resp: CheckResponse, sent: Option<ExternalPayload>)
    ensures RequestError(body).Some? ==> resp == CheckFailed(400, RequestError(body).value) && sent.None?
    ensures RequestError(body).None? ==>
              var address := Get(body.value, "address");
              var payload := Payload(address, Get(body.value, "listing"));
              var reply := gisService(payload);
              && sent == Some(payload)
              && (reply.Threw? ==> resp == CheckFailed(500, reply.message))
              && (reply.Answered? && !IsOk(reply.status) ==>
                    resp == CheckFailed(500, SERVICE_STATUS_PREFIX + IntToString(reply.status)))
              && (reply.Answered? && IsOk(reply.status) && reply.json.Unparsable? ==>
                    resp == CheckFailed(500, reply.json.message))
              && (reply.Answered? && IsOk(reply.status) && reply.json.Parsed? ==>
                    var data := reply.json.value;
                    && (Nullish(data) ==> resp == CheckFailed(500, typeErrorMessage))
                    && (!Nullish(data) && !Truthy(Get(data, "gis_data")) ==>
                          resp == CheckFailed(500, MISSING_GIS_DATA))
                    && (!Nullish(data) && Truthy(Get(data, "gis_data")) ==>
                          var gis := Get(data, "gis_data");
                          var key := ApiKey(serverKey, publicKey);
                          var fix := if key.Some? && key.value != ""
                                     then GeocodeFix(geocoder(FormatAddress(address, numberText), key.value))
                                     else NO_FIX;
                          resp == CheckResult(Verdict(Get(gis, "boundary_match")).0,
                                              Verdict(Get(gis, "boundary_match")).1,
                                              fix.lat, fix.lng, ChosenViewport(fix.viewport, gis, mercator))))
    ensures resp.CheckFailed? ==> resp.status == 400 || resp.status == 500
  {
    sent := None;
    if body.None? || Nullish(body.value) {
      return CheckFailed(400, BODY_UNPARSABLE), None;
    }
    var address := Get(body.value, "address");
    var listing := Get(body.value, "listing");
    if !Truthy(address) || !Truthy(listing) {
      return CheckFailed(400, MISSING_DATA), None;
    }
    if !Truthy(Get(address, "address1")) || !Truthy(Get(address, "city"))
       || !Truthy(Get(address, "state")) || !Truthy(Get(address, "zip")) {
      return CheckFailed(400, INVALID_ADDRESS), None;
    }
    if !Truthy(Get(listing, "Id")) || !Truthy(Get(listing, "Name")) {
      return CheckFailed(400, INVALID_LISTING), None;
    }
    assert RequestError(body).None?;
    var payload;
    resp, payload := Forward(address, listing, gisService, serverKey, publicKey, geocoder,
                             mercator, numberText, typeErrorMessage);
    sent := Some(payload);
  }
}
