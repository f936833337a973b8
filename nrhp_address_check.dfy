/** The NRHP boundary check panel (src/components/NrhpAddressCheck.tsx): it learns from the
    listing details whether the listing has a Neighborhood Resident Housing Preference and
    which project it belongs to, then posts the typed address to `/api/check-address` and
    shows the verdict and a map. Each asynchronous handler is modelled from its start to the
    moment its promise settles, with the replies it awaited as parameters. */
module NrhpAddressCheck {
  import opened Wrappers
  import opened Text
  import opened JsValues
  import opened Http

  /** `Lottery_Preference` of one entry: its `Name` and `Preference_Short_Code`. */
  datatype PreferenceInfo = PreferenceInfo(name: Option<string>, shortCode: Option<string>)

  /** `data.listing` of the details reply. An entry whose `Lottery_Preference` is missing
      is `None`. */
  datatype NrhpListing = NrhpListing(projectId: Option<string>, preferences: Option<seq<Option<PreferenceInfo>>>)

  /** The `fetch` of `/api/listings/{id}`: it threw (including a body that is not JSON or is
      `null`), answered with a non-OK status, or gave the details with an optional `listing`. */
  datatype DetailsReply = DetailsThrew(message: string) | DetailsNotOk(status: int) | DetailsLoaded(listing: Option<NrhpListing>)

  /** One preference names NRHP: its upper-cased short code is "NRHP", or its upper-cased
      name contains "NRHP". */
  predicate IsNrhp(p: PreferenceInfo) {
    (p.shortCode.Some? && ToUpper(p.shortCode.value) == "NRHP")
    || (p.name.Some? && Contains(ToUpper(p.name.value), "NRHP"))
  }

  /** `prefs.some(pref => …)`, which stops at the first NRHP entry and throws (`None`) on
      reaching an entry without `Lottery_Preference`. */
  function ScanNrhp(prefs: seq<Option<PreferenceInfo>>): (r: Option<bool>)
    ensures r == Some(true) <==>
              exists i :: 0 <= i < |prefs| && prefs[i].Some? && IsNrhp(prefs[i].value)
                          && forall k :: 0 <= k < i ==> prefs[k].Some?
    ensures r == Some(false) <==> forall k :: 0 <= k < |prefs| ==> prefs[k].Some? && !IsNrhp(prefs[k].value)
  {
    if prefs == [] then Some(false)
    else if prefs[0].None? then None
    else if IsNrhp(prefs[0].value) then Some(true)
    else
      var r := ScanNrhp(prefs[1..]);
      assert forall k :: 1 <= k < |prefs| ==> prefs[k] == prefs[1..][k - 1];
      assert r == Some(true) ==>
               exists i :: 0 <= i < |prefs| && prefs[i].Some? && IsNrhp(prefs[i].value)
                           && forall k :: 0 <= k < i ==> prefs[k].Some? by {
        if r == Some(true) {
          var i :| 0 <= i < |prefs[1..]| && prefs[1..][i].Some? && IsNrhp(prefs[1..][i].value)
                   && forall k :: 0 <= k < i ==> prefs[1..][k].Some?;
          assert prefs[i + 1] == prefs[1..][i];
        }
      }
      r
  }

  /** What the details reply decides: the project id to keep, and the error to show if the
      handler threw. */
  datatype DetailsOutcome = DetailsOutcome(projectId: Option<string>, error: Option<string>)

  /** The project id is kept only when the listing has an NRHP preference and a truthy
      `Project_ID`; a thrown error clears it and is shown. */
  function DetailsDecision(reply: DetailsReply, typeErrorMessage: string): (d: DetailsOutcome)
    ensures d.projectId.Some? ==>
              && reply.DetailsLoaded? && reply.listing.Some?
              && reply.listing.value.projectId == d.projectId && d.projectId.value != ""
              && reply.listing.value.preferences.Some?
              && ScanNrhp(reply.listing.value.preferences.value) == Some(true)
    ensures reply.DetailsLoaded? && reply.listing.Some? && reply.listing.value.preferences.Some?
            && ScanNrhp(reply.listing.value.preferences.value) == Some(true)
            && reply.listing.value.projectId.Some? && reply.listing.value.projectId.value != ""
            ==> d == DetailsOutcome(reply.listing.value.projectId, None)
    ensures reply.DetailsThrew? ==> d == DetailsOutcome(None, Some(reply.message))
    ensures reply.DetailsNotOk? ==> d == DetailsOutcome(None, None)
    ensures d.error.Some? <==>
              reply.DetailsThrew?
              || (reply.DetailsLoaded? && reply.listing.Some? && reply.listing.value.preferences.Some?
                  && ScanNrhp(reply.listing.value.preferences.value).None?)
    ensures reply.DetailsLoaded? && reply.listing.Some? && reply.listing.value.preferences.Some?
            && ScanNrhp(reply.listing.value.preferences.value).None?
            ==> d == DetailsOutcome(None, Some(typeErrorMessage))
  {
    match reply
    case DetailsThrew(message) => DetailsOutcome(None, Some(message))
    case DetailsNotOk(_) => DetailsOutcome(None, None)
    case DetailsLoaded(listing) =>
      if listing.None? || listing.value.preferences.None? then DetailsOutcome(None, None)
      else
        match ScanNrhp(listing.value.preferences.value)
        case None => DetailsOutcome(None, Some(typeErrorMessage))
        case Some(hasNrhpPreference) =>
          var projectId := listing.value.projectId;
          if hasNrhpPreference && projectId.Some? && projectId.value != "" then DetailsOutcome(projectId, None)
          else DetailsOutcome(None, None)
  }

  /** The body posted to `/api/check-address`. */
  datatype CheckRequest = CheckRequest(address1: string, city: string, state: string, zip: string,
                                       listingId: string, listingName: string, projectId: Option<string>)

  /** The request: state "CA" and zip "00000" always; `Project_ID` only when truthy. */
  function RequestPayload(listingId: string, listingName: string, projectId: Option<string>,
                          address1: string, city: string): (p: CheckRequest)
    ensures p.state == "CA" && p.zip == "00000"
    ensures p.address1 == address1 && p.city == city
    ensures p.listingId == listingId && p.listingName == listingName
    ensures p.projectId.Some? <==> projectId.Some? && projectId.value != ""
    ensures p.projectId.Some? ==> p.projectId == projectId
  {
    CheckRequest(address1, city, "CA", "00000", listingId, listingName,
                 if projectId.Some? && projectId.value != "" then projectId else None)
  }

  /** The verdict shown. */
  datatype GisResult = GisResult(message: string, isMatch: bool)

  /** A reply is accepted only when it is truthy and has a boolean `isMatch` and a string
      `message`. */
  function AcceptedResult(data: JsValue): (r: Option<GisResult>)
    ensures r.Some? <==> Get(data, "isMatch").JsBool? && Get(data, "message").JsString?
    ensures r.Some? ==> r.value == GisResult(Get(data, "message").s, Get(data, "isMatch").b)
  {
    if Truthy(data) && Get(data, "isMatch").JsBool? && Get(data, "message").JsString?
    then Some(GisResult(Get(data, "message").s, Get(data, "isMatch").b))
    else None
  }

  /** The error for a rejected reply: its `message` when truthy, else the fixed text. */
  function RejectionMessage(data: JsValue, numberText: NumberText): (m: string)
    ensures !Truthy(Get(data, "message")) ==> m == INVALID_RESPONSE
    ensures Get(data, "message").JsString? && Get(data, "message").s != "" ==> m == Get(data, "message").s
    ensures Truthy(Get(data, "message")) ==> m == ToText(Get(data, "message"), numberText)
  {
    var message := Get(data, "message");
    if Truthy(message) then ToText(message, numberText) else INVALID_RESPONSE
  }

  const HTTP_ERROR_PREFIX: string := "HTTP error! status: "
  const INVALID_RESPONSE: string := "Invalid response format from API"
  const DEFAULT_CITY: string := "San Francisco"

  const MAP_IMAGE_PREFIX: string := "/api/map-image?address="

  /** The map image URL: only when the trimmed address and city are both non-empty, for
      "address, city, CA" passed through `encodeURIComponent` (`encode`). */
  function MapImageUrl(address1: string, city: string, encode: string -> string): (u: Option<string>)
    ensures u.Some? <==> Trim(address1) != "" && Trim(city) != ""
    ensures u.Some? ==> u.value == MAP_IMAGE_PREFIX + encode(Trim(address1) + ", " + Trim(city) + ", CA")
  {
    var addr1 := Trim(address1);
    var c := Trim(city);
    if addr1 != "" && c != "" then Some(MAP_IMAGE_PREFIX + encode(addr1 + ", " + c + ", CA")) else None
  }

  /** A form with an address that is only whitespace never gets a map. */
  lemma BlankAddressNoMap(address1: string, city: string, encode: string -> string)
    requires forall i :: 0 <= i < |address1| ==> IsJsWhitespace(address1[i])
    ensures MapImageUrl(address1, city, encode).None?
  {
    TrimEmptyIff(address1);
  }

  /** The two inputs of the form. */
  datatype FormField = Address1 | City

  /** The panel's state. */
  class Panel {
    var address1: string
    var city: string
    var gisResult: Option<GisResult>
    var isCheckingAddress: bool
    var addressCheckError: Option<string>
    var dynamicProjectId: Option<string>
    var isLoadingListingDetails: bool
    var mapImageUrl: Option<string>

    /** The blank form. */
    predicate IsReset()
      reads this
    {
      address1 == "" && city == DEFAULT_CITY && gisResult.None? && !isCheckingAddress
      && addressCheckError.None? && dynamicProjectId.None? && mapImageUrl.None?
    }

    /** The initial state. */
    constructor ()
      ensures IsReset() && !isLoadingListingDetails
    {
      address1 := "";
      city := DEFAULT_CITY;
      gisResult := None;
      isCheckingAddress := false;
      addressCheckError := None;
      dynamicProjectId := None;
      isLoadingListingDetails := false;
      mapImageUrl := None;
    }

    /** The effect on a new `listingId`: reset the form and results; loading starts only
        when there is an id to load details for. */
    method OnListingChange(listingId: string)
      modifies this
      ensures IsReset()
      ensures isLoadingListingDetails <==> listingId != ""
    {
      address1, city := "", DEFAULT_CITY;
      gisResult := None;
      isCheckingAddress := false;
      addressCheckError := None;
      dynamicProjectId := None;
      mapImageUrl := None;
      isLoadingListingDetails := listingId != "";
    }

    /** The details request settling: the project id and error follow `DetailsDecision`,
        and loading ends. */
    method OnListingDetails(reply: DetailsReply, typeErrorMessage: string)
      modifies this`dynamicProjectId, this`addressCheckError, this`isLoadingListingDetails
      ensures dynamicProjectId == DetailsDecision(reply, typeErrorMessage).projectId
      ensures addressCheckError ==
                if DetailsDecision(reply, typeErrorMessage).error.Some?
                then DetailsDecision(reply, typeErrorMessage).error else old(addressCheckError)
      ensures !isLoadingListingDetails
    {
      match reply {
        case DetailsThrew(message) =>
          addressCheckError := Some(message);
          dynamicProjectId := None;
        case DetailsNotOk(_) =>
          dynamicProjectId := None;
        case DetailsLoaded(listing) =>
          var hasNrhpPreference: Option<bool> := Some(false);
          if listing.Some? && listing.value.preferences.Some? {
            hasNrhpPreference := ScanNrhp(listing.value.preferences.value);
          }
          if hasNrhpPreference.None? {
            addressCheckError := Some(typeErrorMessage);
            dynamicProjectId := None;
          } else if hasNrhpPreference.value && listing.value.projectId.Some? && listing.value.projectId.value != "" {
            dynamicProjectId := listing.value.projectId;
          } else {
            dynamicProjectId := None;
          }
      }
      isLoadingListingDetails := false;
    }

    /** Typing into an input; when the value changes, the effect on the form clears the map
        and the verdict. */
    method OnInputChange(field: FormField, value: string)
      modifies this`address1, this`city, this`mapImageUrl, this`gisResult
      ensures field == Address1 ==> address1 == value && city == old(city)
      ensures field == City ==> city == value && address1 == old(address1)
      ensures address1 != old(address1) || city != old(city) ==> mapImageUrl.None? && gisResult.None?
      ensures address1 == old(address1) && city == old(city) ==>
                mapImageUrl == old(mapImageUrl) && gisResult == old(gisResult)
    {
      var before1, beforeCity := address1, city;
      match field {
        case Address1 => address1 := value;
        case City => city := value;
      }
      if address1 != before1 || city != beforeCity {
        mapImageUrl := None;
        gisResult := None;
      }
    }

    /** `handleAddressCheck`, from submit until it settles. Without a listing id nothing
        happens. Otherwise the request is built from the form and the project id; an accepted
        reply is shown (with a map when the trimmed address and city are non-empty), and any
        failure becomes the error. */
    method HandleAddressCheck(listingId: string, listingName: string, reply: Fetched,
                              encode: string -> string, numberText: NumberText)
      returns (sent: Option<CheckRequest>)
      modifies this`isCheckingAddress, this`gisResult, this`addressCheckError, this`mapImageUrl
      ensures listingId == "" ==> sent.None? && unchanged(this)
      ensures listingId != "" ==>
                && sent == Some(RequestPayload(listingId, listingName, dynamicProjectId, address1, city))
                && !isCheckingAddress
                && var accepted := if reply.Answered? && IsOk(reply.status) && reply.json.Parsed?
                                   then AcceptedResult(reply.json.value) else None;
                   && gisResult == accepted
                   && mapImageUrl == (if accepted.Some? then MapImageUrl(address1, city, encode) else None)
                   && (addressCheckError.None? <==> accepted.Some?)
                   && (reply.Threw? ==> addressCheckError == Some(reply.message))
                   && (reply.Answered? && !IsOk(reply.status) ==>
                         addressCheckError == Some(HTTP_ERROR_PREFIX + IntToString(reply.status)))
                   && (reply.Answered? && IsOk(reply.status) && reply.json.Unparsable? ==>
                         addressCheckError == Some(reply.json.message))
                   && (reply.Answered? && IsOk(reply.status) && reply.json.Parsed? && accepted.None? ==>
                         addressCheckError == Some(RejectionMessage(reply.json.value, numberText)))
    {
      if listingId == "" {
        return None;
      }
      isCheckingAddress := true;
      gisResult := None;
      addressCheckError := None;
      mapImageUrl := None;

      var payload := CheckRequest(address1, city, "CA", "00000", listingId, listingName, None);
      if dynamicProjectId.Some? && dynamicProjectId.value != "" {
        payload := payload.(projectId := dynamicProjectId);
      }
      sent := Some(payload);

      if reply.Threw? {
        addressCheckError := Some(reply.message);
      } else if !IsOk(reply.status) {
        addressCheckError := Some(HTTP_ERROR_PREFIX + IntToString(reply.status));
      } else if reply.json.Unparsable? {
        addressCheckError := Some(reply.json.message);
      } else {
        var data := reply.json.value;
        var accepted := AcceptedResult(data);
        if accepted.Some? {
          gisResult := accepted;
          mapImageUrl := MapImageUrl(address1, city, encode);
        } else {
          addressCheckError := Some(RejectionMessage(data, numberText));
        }
      }
      isCheckingAddress := false;
    }
  }
}
