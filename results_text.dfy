/** `buildResultsText` (src/utils/resultsText.ts): the line above the results list. */
module ResultsText {
  import opened Text

  const LOADING_TEXT: string := "Loading listings..."
  const ERROR_TEXT: string := "Error loading listings"
  const NO_LISTINGS: string := "No listings found"

  /** Whether a message is one of the four "no results" messages. */
  predicate IsNoResultsMessage(r: string, term: string, filter: string) {
    r == "No listings match \"" + term + "\" with filter: " + filter
    || r == "No listings match \"" + term + "\""
    || r == "No " + filter + " listings found"
    || r == NO_LISTINGS
  }

  /** The message ladder: loading, then error, then the four no-result messages, then the
      count. `hasError` is the truthiness of the `error` argument. */
  function BuildResultsText(filteredCount: nat, isLoading: bool, hasError: bool, term: string,
                            filter: string): (r: string)
    ensures isLoading ==> r == LOADING_TEXT
    ensures !isLoading && hasError ==> r == ERROR_TEXT
    ensures !isLoading && !hasError && filteredCount == 0 ==>
              && (term != "" && filter != "All" ==> r == "No listings match \"" + term + "\" with filter: " + filter)
              && (term != "" && filter == "All" ==> r == "No listings match \"" + term + "\"")
              && (term == "" && filter != "All" ==> r == "No " + filter + " listings found")
              && (term == "" && filter == "All" ==> r == NO_LISTINGS)
    ensures !isLoading && !hasError && filteredCount > 0 ==>
              var count := NatToString(filteredCount);
              && (term != "" && filter != "All" ==> r == count + " " + filter + " listings match \"" + term + "\"")
              && (term != "" && filter == "All" ==> r == count + " listings match \"" + term + "\"")
              && (term == "" && filter != "All" ==> r == count + " " + filter + " listings")
              && (term == "" && filter == "All" ==> r == count + " listings")
  {
    if isLoading then LOADING_TEXT
    else if hasError then ERROR_TEXT
    else if filteredCount == 0 then
      if term != "" && filter != "All" then "No listings match \"" + term + "\" with filter: " + filter
      else if term != "" then "No listings match \"" + term + "\""
      else if filter != "All" then "No " + filter + " listings found"
      else NO_LISTINGS
    else
      var count := NatToString(filteredCount);
      if term != "" && filter != "All" then count + " " + filter + " listings match \"" + term + "\""
      else if term != "" then count + " listings match \"" + term + "\""
      else if filter != "All" then count + " " + filter + " listings"
      else count + " listings"
  }

  /** With no results the message is one of the four, and it tells apart the two extreme
      cases: the message names both term and filter exactly when both are set, and it is the
      bare "No listings found" exactly when neither is. */
  lemma NoResultsCases(term: string, filter: string)
    ensures var r := BuildResultsText(0, false, false, term, filter);
      && IsNoResultsMessage(r, term, filter)
      && (term != "" && filter != "All" <==> r == "No listings match \"" + term + "\" with filter: " + filter)
      && (term == "" && filter == "All" <==> r == NO_LISTINGS)
  {
    var r := BuildResultsText(0, false, false, term, filter);
    var both := "No listings match \"" + term + "\" with filter: " + filter;
    if term == "" {
      assert |both| > |"No " + filter + " listings found"| && |both| > |NO_LISTINGS|;
    }
    if term != "" || filter != "All" {
      if term != "" {
        assert r[12] == 'm' && NO_LISTINGS[12] == 'f';
      } else {
        assert |r| != |NO_LISTINGS|;
      }
    }
  }

  /** Every count message is built the same way: the count, the filter unless it is "All",
      the word "listings", and the quoted term when there is one. */
  lemma CountMessageShape(filteredCount: nat, term: string, filter: string)
    requires filteredCount > 0
    ensures BuildResultsText(filteredCount, false, false, term, filter)
            == NatToString(filteredCount) + (if filter != "All" then " " + filter else "") + " listings"
               + (if term != "" then " match \"" + term + "\"" else "")
  {
    var count := NatToString(filteredCount);
    if term != "" && filter != "All" {
      assert count + " " + filter + " listings match \"" + term + "\""
             == count + (" " + filter) + " listings" + (" match \"" + term + "\"");
    } else if term != "" {
      assert count + " listings match \"" + term + "\"" == count + "" + " listings" + (" match \"" + term + "\"");
    } else if filter != "All" {
      assert count + " " + filter + " listings" == count + (" " + filter) + " listings" + "";
    } else {
      assert count + " listings" == count + "" + " listings" + "";
    }
  }

  /** Once loading and errors are out of the way, the message starts with a digit exactly
      when there are results, and the count can be read back from its leading digits. */
  lemma CountLeadsMessage(filteredCount: nat, term: string, filter: string)
    ensures var r := BuildResultsText(filteredCount, false, false, term, filter);
      && |r| > 0
      && ('0' <= r[0] <= '9' <==> filteredCount > 0)
      && (filteredCount > 0 ==>
            var digits := NatToString(filteredCount);
            && DigitsValue(r[..|digits|]) == filteredCount
            && |r| > |digits| && r[|digits|] == ' ')
  {
    var r := BuildResultsText(filteredCount, false, false, term, filter);
    if filteredCount > 0 {
      CountMessageShape(filteredCount, term, filter);
      var digits := NatToString(filteredCount);
      var tail := (if filter != "All" then " " + filter else "") + " listings"
                  + (if term != "" then " match \"" + term + "\"" else "");
      assert r == digits + tail;
      assert r[..|digits|] == digits;
      NatToStringRoundTrip(filteredCount);
    } else {
      assert r[0] == 'N';
    }
  }

  /** Loading wins over an error, and an error over any count. */
  lemma LadderPrecedence(filteredCount: nat, hasError: bool, term: string, filter: string)
    ensures BuildResultsText(filteredCount, true, hasError, term, filter) == LOADING_TEXT
    ensures BuildResultsText(filteredCount, false, true, term, filter) == ERROR_TEXT
  {
  }
}
