# DAHLIA listings lister — a verified model of its core

The DAHLIA listings lister is a Next.js client for San Francisco's affordable-housing
listings. This project models the parts of it that decide what the user sees, and proves
properties about them:

- **Finder pane.** The due-date comparator (`ListingSort`) and the memoised type and
  search filtering that sorts its output with it (`FilteredListings`).
- **Selection and navigation.** The two effects that keep the selected listing valid
  against the full and the filtered list (`ListingSelection`). The keyboard handler that
  moves the selection by arrow, page and home/end keys (`KeyboardNavigation`).
- **Display text.** The results line above the list (`ResultsText`). The preference
  summary and asynchronous field values of the details pane (`ListingDetailFields`).
- **Persisted state.** The listing-type filter persisted in browser storage
  (`ListingFilterState`). The listings cache with its memoised storage snapshot
  (`ListingsCache`).
- **NRHP address check.** The panel that checks an address against a listing's
  Neighborhood Resident Housing Preference boundary (`NrhpAddressCheck`).
- **Server routes.** The two routes that panel and the map depend on:
  `POST /api/check-address` (`CheckAddressRoute`) and `POST /api/geocode`
  (`GeocodeRoute`).

JSON values are modelled as the `JsValues.JsValue` datatype:

- `Get` is optional chaining on an object field.
- `Truthy` is JavaScript truthiness.
- `ToText` is `String(v)` as used in template literals.

Behaviour of the host is a parameter of the functions that need it:

- date parsing (`ListingSort.DateParser`)
- `Number.prototype.toString` (`JsValues.NumberText`)
- `JSON.parse` and `JSON.stringify`
- `encodeURIComponent`
- the Web Mercator conversion
- the message of the `TypeError` thrown when a property of `null` is read
- every `fetch`, as a `Http.Fetched` value: it threw, or it answered with a status, a body
  text and a body that parsed or not

Components whose state the source updates are classes:

- `ListingSelection.SelectionHook`
- `KeyboardNavigation.Navigator`
- `ListingFilterState.FilterStore`
- `ListingsCache.Cache`
- `NrhpAddressCheck.Panel`

Each of their methods states its new state in terms of the pure functions beside it.

## Model

| member | source | states |
|---|---|---|
| `ListingSort.CompareDates` | src/utils/listingSort.ts:3-18 | The result is negative exactly when a's key strictly precedes b's, and zero exactly for two equal parsed dates. Two parsed dates compare by b's time minus a's (latest first), and a missing first date always gives 1 |
| `ListingSort.KeyLeTotalPreorder` | src/utils/listingSort.ts:3-18 | The key order the comparator induces (parsed dates latest first, then unparsable, then missing) is reflexive, transitive and total |
| `ListingSort.CompareDatesAgreesWithKeys` | src/utils/listingSort.ts:3-18 | Comparing b with a gives a non-negative result exactly when a's key is at or before b's: the comparator decides the key order |
| `ListingSort.UndatedPairsNotAntisymmetric` | src/utils/listingSort.ts:5 | Two listings without a due date each compare after the other, so the comparator is not a consistent ordering on them |
| `ListingSort.DatedBeforeUndated` | src/utils/listingSort.ts:5-14 | A listing with a parsable date compares before one with a missing or unparsable date, and an unparsable date before a missing one |
| `ListingSort.SortedIffKeyOrdered` | src/utils/listingSort.ts:3-18 | A list is sorted for the comparator exactly when its keys are in order |
| `ListingSort.InsertByDue` | src/utils/listingSort.ts:3-18 | Inserting into a list adds exactly the new element (as a multiset) |
| `ListingSort.InsertByDueElements` | src/utils/listingSort.ts:3-18 | After an insertion every element is the new one or one of the old ones |
| `ListingSort.InsertByDueOrdered` | src/utils/listingSort.ts:3-18 | Inserting into a key-ordered list keeps it key-ordered |
| `ListingSort.SortByDue` | src/hooks/useFilteredListings.ts:27 | Sorting by the comparator returns a permutation of the input that is sorted by due date |
| `ListingSort.SortByDueKeepsSorted` | src/hooks/useFilteredListings.ts:27 | Sorting an already sorted list returns it unchanged |
| `ListingSort.SortedDatedPrefix` | src/utils/listingSort.ts:5-6 | In a sorted list, no listing with a parsed date follows one whose date is missing or unparsable, and parsed dates run from latest to earliest |
| `FilteredListings.MatchesTermIff` | src/hooks/useFilteredListings.ts:32-41 | A listing matches a term exactly when its Id equals the term, or the lower-cased term occurs in the lower-cased name or in a present tenure, status, listing type or record-type name |
| `FilteredListings.NarrowByType` | src/hooks/useFilteredListings.ts:14-24 | The type filter keeps each listing as often as it occurs if it matches the filter, and drops it otherwise; "All" keeps every listing |
| `FilteredListings.NarrowByTerm` | src/hooks/useFilteredListings.ts:30-41 | The search filter keeps each listing as often as it occurs if it matches the term, and drops it otherwise |
| `FilteredListings.FilterListings` | src/hooks/useFilteredListings.ts:11-43 | The result is sorted by due date. It holds each input listing as often as it occurs if it passes the type filter and (when the term is non-empty) the search, and never otherwise |
| `FilteredListings.FilterListingsElements` | src/hooks/useFilteredListings.ts:11-43 | Every listing in the result is one of the inputs and passes both filters |
| `FilteredListings.EmptyTermAllIsSortedInput` | src/hooks/useFilteredListings.ts:26-28 | With no term and the "All" filter the result is the input sorted by due date |
| `FilteredListings.ExactIdMatchKept` | src/hooks/useFilteredListings.ts:33 | A listing whose Id equals the term is kept whatever its text fields, if it passes the type filter |
| `FilteredListings.MissingRecordTypeExcluded` | src/hooks/useFilteredListings.ts:16-21 | Under the "Rental" or "Sales" filter a listing without a record type is never in the result |
| `FilteredListings.NarrowByTypeIdentity` | src/hooks/useFilteredListings.ts:14-24 | When every listing matches the type filter, the type filter returns its input unchanged |
| `FilteredListings.NarrowByTermIdentity` | src/hooks/useFilteredListings.ts:30-41 | When every listing matches the term, the search filter returns its input unchanged |
| `FilteredListings.FilterListingsIdempotent` | src/hooks/useFilteredListings.ts:11-43 | Filtering the filtered output again with the same term and filter gives the same list |
| `FilteredListings.FilterListingsIdsWithin` | src/hooks/useFilteredListings.ts:11-43 | Every Id in the filtered list is an Id of the full list |
| `ListingSelection.FullListEffect` | src/hooks/useListingSelection.ts:11-24 | The full-list effect clears the selection for an empty list. It selects the first listing when nothing (or an empty Id) is selected or the selected Id is not in the list, and otherwise makes no call |
| `ListingSelection.FilteredListEffect` | src/hooks/useListingSelection.ts:27-35 | The filtered-list effect clears the selection for an empty filtered list. It selects the first filtered listing when a selected Id is missing from it, and otherwise makes no call, also when nothing is selected |
| `ListingSelection.FilteredListEffectCorrected` | src/hooks/useListingSelection.ts:27-35 | Corrected filtered-list effect: as written, except that with nothing selected over a non-empty filtered list it selects the first filtered listing |
| `ListingSelection.ReconcileStep` | src/hooks/useListingSelection.ts:11-35 | After a commit that runs both effects (the later write wins): nothing for an empty filtered list; the first filtered listing when a selected Id is missing from it; with no selection the first listing of the full list as written (the first filtered listing when corrected); a selection in the filtered list is kept when the full list has it, and replaced by the first listing otherwise |
| `ListingSelection.NoRedundantWrites` | src/hooks/useListingSelection.ts:11-35 | A selection present in both lists triggers no setter call and is a fixed point |
| `ListingSelection.ReconcileSettles` | src/hooks/useListingSelection.ts:11-35 | When every filtered Id is an Id of the full list and no Id is empty, a third commit running both effects changes nothing after two |
| `ListingSelection.Commit` | src/hooks/useListingSelection.ts:11-35 | An effect runs only when its list's identity or the selection changed since its last run. With neither running the selection is kept; with both it takes the reconcile step; a call of the filtered-list effect wins; when only the filtered-list effect runs and it makes no call, the selection is kept; otherwise the full-list effect's call applies. Both effects record this render's dependencies |
| `ListingSelection.CommitKeepsFitted` | src/hooks/useListingSelection.ts:27-35 | A commit keeps the selection fitted to the filtered list its effect last saw: once that effect has seen the current selection, that selection is null over an empty list and otherwise one of its Ids (or, as written, null) |
| `ListingSelection.SettleStops` | src/hooks/useListingSelection.ts:11-35 | The re-renders caused by the effects' own setter calls stop within three commits after the first |
| `ListingSelection.RerenderSettles` | src/hooks/useListingSelection.ts:11-35 | Re-rendering until a commit leaves the selection alone ends in a state that another commit of the same inputs does not change, with no commit pending and the selection still fitted |
| `ListingSelection.SettledSelection` | src/hooks/useListingSelection.ts:11-35 | After a render settles no effect changes anything. The selection is null when the filtered list is empty and otherwise an Id of it, or (as written only) null. A selection in both lists survives |
| `ListingSelection.CorrectedSettledSelects` | src/hooks/useListingSelection.ts:11-35 | With the corrected effect, after any render settles, the selection is null exactly when the filtered list is empty and is otherwise one of its listings |
| `ListingSelection.MountSettles` | src/hooks/useListingSelection.ts:8-35 | The mount selects nothing when no listing passes the filter. As written it selects the first listing when that passes, else the first filtered listing; corrected, the first filtered listing |
| `ListingSelection.SelectionLostAfterClearedSearch` | src/hooks/useListingSelection.ts:11-35 | As written: mounting with two listings selects the first; a search matching nothing clears the selection; clearing the search shows both listings with nothing selected |
| `ListingSelection.CorrectedSelectionRecovers` | src/hooks/useListingSelection.ts:11-35 | With the corrected effect the same sequence selects the first listing again when the search is cleared |
| `ListingSelection.CurrentSelectedListing` | src/hooks/useListingSelection.ts:37-40 | The current listing is absent exactly when nothing is selected or no listing has the selected Id; otherwise it is the first listing of the full list with that Id |
| `ListingSelection.FindById` | src/hooks/useListingSelection.ts:39 | `find` by Id is absent exactly when no listing has the Id, and otherwise returns the first listing of the list with that Id |
| `ListingSelection.FindByIdTail` | src/hooks/useListingSelection.ts:39 | When the head does not have the Id, `find` on the list is `find` on its tail |
| `ListingSelection.ScanForId` | src/hooks/useListingSelection.ts:20 | The `some` scan is true exactly when a listing has the Id |
| `ListingSelection.SelectionHook.constructor` | src/hooks/useListingSelection.ts:8 | The selection starts null and neither effect has run |
| `ListingSelection.SelectionHook.CommitEffects` | src/hooks/useListingSelection.ts:11-35 | One commit moves the hook to the commit step of its old state: each effect runs only when its dependencies changed |
| `ListingSelection.SelectionHook.Render` | src/hooks/useListingSelection.ts:11-35 | A render and the re-renders it causes end in the settled state, whose selection fits the filtered list |
| `ListingSelection.SelectionHook.SetSelectedListingId` | src/hooks/useListingSelection.ts:8 | The setter replaces the selection; called between renders it keeps the selection fitted |
| `KeyboardNavigation.IndexOfId` | src/hooks/useKeyboardNavigation.ts:47 | `findIndex` is -1 exactly when no listing has the Id, and otherwise the first index holding it |
| `KeyboardNavigation.CurrentIndex` | src/hooks/useKeyboardNavigation.ts:46-48 | The current index is a valid index exactly when a selected Id is in the filtered list, and names that listing; otherwise it is -1 |
| `KeyboardNavigation.FirstElement` | src/hooks/useKeyboardNavigation.ts:55 | The sample item is absent exactly when every registered ref is null, and otherwise is one of them |
| `KeyboardNavigation.PageSize` | src/hooks/useKeyboardNavigation.ts:51-60 | The page size is 5 without a container or a sample item, otherwise the container height divided by the item height (at least 1, rounded down), and never below 1 |
| `KeyboardNavigation.TargetIndex` | src/hooks/useKeyboardNavigation.ts:62-87 | Down and page-down move forward by 1 or a page, clamped to the last index, and only when not already last; up and page-up move back likewise to index 0; Home and End go to the ends; other keys do nothing; every target is a valid index |
| `KeyboardNavigation.Navigate` | src/hooks/useKeyboardNavigation.ts:32-90 | The key is consumed exactly when the list is non-empty and the key is a navigation key. A consumed key sets the Id of the listing at the key's target index from the current index, and sets nothing when the key has no target; an unconsumed key sets nothing |
| `KeyboardNavigation.ArrowDownEnds` | src/hooks/useKeyboardNavigation.ts:62-65 | Arrow-down on the last listing sets nothing; with no selection it selects the first listing |
| `KeyboardNavigation.HomeThenEnd` | src/hooks/useKeyboardNavigation.ts:80-87 | Home selects the first listing, and End from there selects the last |
| `KeyboardNavigation.PageDownClamps` | src/hooks/useKeyboardNavigation.ts:70-74 | Page-down selects the listing a page ahead, or the last listing when fewer than a page remain |
| `KeyboardNavigation.ScrollTarget` | src/hooks/useKeyboardNavigation.ts:23-30 | The element scrolled into view is the selected Id's ref, and exists exactly when an Id is selected and its ref is registered and non-null |
| `KeyboardNavigation.Navigator.constructor` | src/hooks/useKeyboardNavigation.ts:9-11 | The refs start empty |
| `KeyboardNavigation.Navigator.SyncFiltered` | src/hooks/useKeyboardNavigation.ts:14-16 | The handler's list ref is replaced by the latest filtered list |
| `KeyboardNavigation.Navigator.RegisterItemRef` | src/hooks/useKeyboardNavigation.ts:18-20 | The ref of the Id is set to the element; a new Id is appended to the registration order, which decides the sample item |
| `KeyboardNavigation.Navigator.OnKeyDown` | src/hooks/useKeyboardNavigation.ts:32-90 | The handler is `Navigate` over the list ref with the page size measured from the container and the first registered element |
| `ResultsText.BuildResultsText` | src/utils/resultsText.ts:1-37 | Loading wins over an error, an error wins over the count. A zero count gives one of four "no listings" messages by whether a term and a non-"All" filter are set; a positive count gives the matching count message |
| `ResultsText.NoResultsCases` | src/utils/resultsText.ts:16-26 | With no results the text is a "no listings" message; it names both term and filter exactly when both are set, and is the bare "No listings found" exactly when neither is |
| `ResultsText.CountMessageShape` | src/utils/resultsText.ts:28-36 | Every count message is the count, then the filter unless it is "All", then "listings", then the quoted term when there is one |
| `ResultsText.CountLeadsMessage` | src/utils/resultsText.ts:28-36 | The message starts with a digit exactly when the count is non-zero; then it starts with the count's decimal digits, which read back as the count, followed by a space |
| `ResultsText.LadderPrecedence` | src/utils/resultsText.ts:8-14 | While loading the text is the loading message whatever the error; with an error and not loading it is the error message whatever the count |
| `ListingDetailFields.InsertByOrder` | src/components/ListingDetailFields.tsx:15-16 | Inserting a preference adds exactly that entry (as a multiset) and one to the length |
| `ListingDetailFields.InsertByOrderSorted` | src/components/ListingDetailFields.tsx:15-16 | Inserting into a list sorted by Order keeps it sorted |
| `ListingDetailFields.InsertByOrderWithOrder` | src/components/ListingDetailFields.tsx:15-16 | Insertion puts the new entry before the entries that share its Order and leaves the other entries of each Order as they were, which keeps the sort stable |
| `ListingDetailFields.SortByOrder` | src/components/ListingDetailFields.tsx:15-16 | The sorted list is a permutation of the input, sorted by Order with a missing Order as the largest safe integer, and stable: the entries with any one Order appear in their original order |
| `ListingDetailFields.ShortCodes` | src/components/ListingDetailFields.tsx:17-19 | The codes are exactly the non-empty short codes carried by the preferences; one entry gives its own truthy code or nothing |
| `ListingDetailFields.ShortCodesAppend` | src/components/ListingDetailFields.tsx:17-19 | Mapping and filtering go entry by entry: the codes of two lists joined are the first list's codes followed by the second's, so the entries' order is kept |
| `ListingDetailFields.ShortCodesKeepOrder` | src/components/ListingDetailFields.tsx:17-19 | Of two codes, the one whose first occurrence comes earlier is carried by an entry that comes before every entry carrying the later code |
| `ListingDetailFields.FirstIndex` | src/components/ListingDetailFields.tsx:21 | The index of the first occurrence of a code |
| `ListingDetailFields.FirstIndexInPrefix` | src/components/ListingDetailFields.tsx:21 | A code occurring within a prefix has its first occurrence in that prefix |
| `ListingDetailFields.Dedupe` | src/components/ListingDetailFields.tsx:21 | The `Set` has no duplicates and holds the same codes as the list |
| `ListingDetailFields.DedupeKeepsFirstOccurrenceOrder` | src/components/ListingDetailFields.tsx:21 | The `Set` lists codes in the order of their first occurrence |
| `ListingDetailFields.SummaryCodesSpec` | src/components/ListingDetailFields.tsx:15-21 | The summary codes have no duplicates and are non-empty. They are exactly the codes the preferences carry, ordered by first occurrence in the Order-sorted list: of two summary codes, the earlier one is carried by an entry of the sorted preferences before every entry carrying the later one |
| `ListingDetailFields.SortPreferences` | src/components/ListingDetailFields.tsx:7-22 | The summary is empty for null details or a missing or empty preference list; it is empty exactly when no preference carries a code; otherwise it is the summary codes joined by ", " |
| `ListingDetailFields.AsyncValue` | src/components/ListingDetailFields.tsx:24-52 | The field keeps its label. Its value is the string from `createValue` (or the field under the key when there is none), and absent when that is not a string. The copy text equals the value, and the error text is `Error loading "<label>".` |
| `ListingFilterState.ParseFilter` | src/hooks/useListingFilter.ts:13 | Stored text is accepted exactly when it is "All", "Rental" or "Sales", and is read as the filter of that name |
| `ListingFilterState.ParseFilterName` | src/hooks/useListingFilter.ts:13-27 | A persisted filter reads back as itself |
| `ListingFilterState.Hydrate` | src/hooks/useListingFilter.ts:10-20 | A whitelisted saved name is adopted; a missing, unreadable or other value leaves the filter alone |
| `ListingFilterState.FilterStore.constructor` | src/hooks/useListingFilter.ts:7-8 | The first render shows "All" and is not hydrated |
| `ListingFilterState.FilterStore.MountEffects` | src/hooks/useListingFilter.ts:10-31 | The mount commit as written: it hydrates the state, raises the flag, then writes the value this render saw (the initial filter) unless the write throws |
| `ListingFilterState.FilterStore.MountEffectsCorrected` | src/hooks/useListingFilter.ts:10-31 | Corrected mount: it hydrates the same way but writes only when the render it belongs to had already seen the flag raised |
| `ListingFilterState.FilterStore.SetFilter` | src/hooks/useListingFilter.ts:33 | The setter changes the state for the next render |
| `ListingFilterState.FilterStore.Render` | src/hooks/useListingFilter.ts:22-31 | A render with a changed filter persists it once hydrated; an unchanged one writes nothing |
| `ListingFilterState.FilterStore.RenderCorrected` | src/hooks/useListingFilter.ts:22-31 | Corrected render: the persist effect re-runs when the filter or the flag changed, and writes only when the flag is raised |
| `ListingFilterState.MountOverwritesSavedFilter` | src/hooks/useListingFilter.ts:10-31 | With "Rental" saved, the mount commit adopts Rental but leaves "All" in storage |
| `ListingFilterState.ReplayedMountLosesSavedFilter` | src/hooks/useListingFilter.ts:10-31 | With "Rental" saved and the mount effects run twice, the filter ends as All and storage holds "All" |
| `ListingFilterState.CorrectedMountKeepsSavedFilter` | src/hooks/useListingFilter.ts:10-31 | With the corrected hook the same sequence ends with the filter Rental and "Rental" stored |
| `ListingsCache.SnapshotFromStorage` | src/utils/api.ts:21-32 | A missing or empty entry and unparsable text give null; non-empty text that parses gives its parse, and a non-null snapshot is always the parse of the stored text |
| `ListingsCache.Cache.constructor` | src/utils/api.ts:7-8 | The snapshot starts null and uninitialised |
| `ListingsCache.Cache.GetCachedListings` | src/utils/api.ts:13-36 | Null on the server. Once initialised it is the memoised snapshot, with no read. Otherwise it reads storage once, and that read initialises the cache even when the text does not parse. Storage is read at most once |
| `ListingsCache.Cache.CacheListings` | src/utils/api.ts:41-53 | On the server, or when the write throws, nothing changes; otherwise storage holds the serialised data and the snapshot is the data |
| `ListingsCache.Cache.FetchListings` | src/utils/api.ts:58-85 | Fetched data is returned without reading storage; in the browser it is written to storage and becomes the initialised snapshot unless the write throws, and otherwise nothing changes. On a thrown fetch, a non-ok status ("API request failed with status N") or an unparsable body, storage is not written and the fallback is what `getCachedListings` gives from the state before the call: null on the server (nothing changes), the memoised snapshot once initialised, else the snapshot parsed from the stored text, which one more storage read makes the initialised snapshot. The result is that fallback when it is truthy, and otherwise a rejection with that error's message |
| `Http.ApiKey` | src/app/api/geocode/route.ts:58 | The key is the server key when that is non-empty, otherwise the public key; it is non-empty exactly when one of the two is |
| `Http.FirstGeocodeResult` | src/app/api/geocode/route.ts:73-76 | A first result exists exactly when the status is "OK" and the results are a non-empty array, and is its first element |
| `Http.QueryText` | src/app/api/geocode/route.ts:63 | The query is the address line, ", ", the city, ", ", the state, " " and the zip, in that order |
| `Http.FormatAddress` | src/app/api/check-address/route.ts:202 | The geocoding query is the text of the address line, city, state and zip in the "{address1}, {city}, {state} {zip}" shape: each part at its place, the two ", " separators and the space before the zip, and nothing else |
| `Http.CornersViewport` | src/app/api/geocode/route.ts:82-84 | North and east come from the northeast corner, south and west from the southwest corner |
| `GeocodeRoute.Post` | src/app/api/geocode/route.ts:40-91 | 400 with the three messages for an unparsable body, a missing address and an incomplete address, and 400 only then. 500 without an API key. For a valid request with a key: a throwing geocoder gives 500 with its message; a non-ok status gives 502 quoting status and body text, and 502 only then, unless reading that text throws, which gives 500 with the read's message; an unparsable or null body gives 500; no first result gives 404 quoting the reply's status; a null first result gives 500; otherwise the first result's location, with a viewport exactly when both corners are truthy |
| `GeocodeRoute.ValidationComesFirst` | src/app/api/geocode/route.ts:43-61 | An invalid request gets the same 400 answer whatever the keys and the geocoder |
| `GeocodeRoute.OkReplyLocates` | src/app/api/geocode/route.ts:63-86 | A complete address, a key and an ok "OK" reply with a first result give a location |
| `CheckAddressRoute.RequestError` | src/app/api/check-address/route.ts:102-123 | The request is accepted exactly when it parsed, has truthy address and listing, a complete address and a truthy listing Id and Name; otherwise the first failing check's message: an unparsable or null body gives "Failed to parse request body", a falsy address or listing "Missing address or listing data in request body", an incomplete address "Invalid address format", and a falsy listing Id or Name "Invalid listing format" |
| `CheckAddressRoute.Payload` | src/app/api/check-address/route.ts:128-151 | The external payload carries the address, the listing's Id and Name, the project id when it is truthy (else ""), and the fixed test person as member and applicant |
| `CheckAddressRoute.Verdict` | src/app/api/check-address/route.ts:184-194 | A match only for `true`; the within message exactly for `true`, the outside message exactly for `false`, and the undetermined message exactly for a non-boolean |
| `CheckAddressRoute.GeocodeFix` | src/app/api/check-address/route.ts:203-229 | Any fix needs an ok reply with a parsed first result; a failed or throwing geocoder gives none. Latitude and longitude are set, together, exactly when the first result has a truthy location with two numbers, and are those numbers; the viewport is set exactly when both corners are truthy, from those corners |
| `CheckAddressRoute.ExtentViewport` | src/app/api/check-address/route.ts:235-239 | North and east come from the converted (xmax, ymax) corner, south and west from the converted (xmin, ymin) corner |
| `CheckAddressRoute.ChosenViewport` | src/app/api/check-address/route.ts:234-239 | The geocoded viewport is kept when present; otherwise the GIS extent is used exactly when it is truthy |
| `CheckAddressRoute.GeocodeStep` | src/app/api/check-address/route.ts:204-229 | The coordinates taken from the geocoder's reply are those of the geocoding fix |
| `CheckAddressRoute.Respond` | src/app/api/check-address/route.ts:183-241 | The answer for a usable `gis_data`: the verdict on `boundary_match`, the geocoding fix when a key is configured (none otherwise), and the chosen viewport |
| `CheckAddressRoute.Forward` | src/app/api/check-address/route.ts:128-241 | The payload is sent. A throwing service, a non-ok status ("External API request failed with status N"), an unparsable body, a null body or a missing `gis_data` give 500 with their message; otherwise the answer for `gis_data` |
| `CheckAddressRoute.Post` | src/app/api/check-address/route.ts:98-247 | An invalid request gets 400 with its message, and nothing is sent. A valid one sends the payload. A throwing service, a non-ok status ("External API request failed with status N"), an unparsable body or a missing `gis_data` give 500. Otherwise the verdict, with location and viewport from the geocoder (only when a key is configured) and the extent fallback |
| `NrhpAddressCheck.ScanNrhp` | src/components/NrhpAddressCheck.tsx:64-67 | The scan is true exactly when some preference before any missing one has the short code or a name containing "NRHP", case-insensitively; false exactly when every preference is present and none is NRHP; otherwise it throws |
| `NrhpAddressCheck.DetailsDecision` | src/components/NrhpAddressCheck.tsx:53-80 | The project id is kept only with an NRHP preference and a truthy Project_ID. A thrown fetch sets the error and a non-ok status clears the id. A scan that reads a missing preference fails with exactly the host's `TypeError` message |
| `NrhpAddressCheck.RequestPayload` | src/components/NrhpAddressCheck.tsx:106-123 | The request carries the form's address with state "CA" and zip "00000", the listing's Id and name, and the project id exactly when it is truthy |
| `NrhpAddressCheck.AcceptedResult` | src/components/NrhpAddressCheck.tsx:140-144 | A reply is accepted exactly when `isMatch` is a boolean and `message` a string, and the result is those two |
| `NrhpAddressCheck.RejectionMessage` | src/components/NrhpAddressCheck.tsx:153 | The error is the text of the reply's truthy message (the string itself for a string), else "Invalid response format from API" |
| `NrhpAddressCheck.MapImageUrl` | src/components/NrhpAddressCheck.tsx:146-151 | A map URL exists exactly when the trimmed address line and city are both non-empty, and encodes "<address>, <city>, CA" after the map-image prefix |
| `NrhpAddressCheck.BlankAddressNoMap` | src/components/NrhpAddressCheck.tsx:146-148 | An address line of whitespace gives no map |
| `NrhpAddressCheck.Panel.constructor` | src/components/NrhpAddressCheck.tsx:26-35 | The form starts with an empty address and "San Francisco", and no result, error, project id or map |
| `NrhpAddressCheck.Panel.OnListingChange` | src/components/NrhpAddressCheck.tsx:37-52 | A new listing resets the form and results, and loads details exactly when the Id is non-empty |
| `NrhpAddressCheck.Panel.OnListingDetails` | src/components/NrhpAddressCheck.tsx:51-84 | The project id and the error are those of the details decision, and loading ends |
| `NrhpAddressCheck.Panel.OnInputChange` | src/components/NrhpAddressCheck.tsx:87-95 | The named field takes the value and the other is kept; a changed form clears the map and the result |
| `NrhpAddressCheck.Panel.HandleAddressCheck` | src/components/NrhpAddressCheck.tsx:97-162 | No listing: nothing happens. Otherwise the request is sent and the check ends. An accepted reply sets the result and (for a non-blank address) the map; a thrown fetch, a non-ok status ("HTTP error! status: N") or a rejected reply sets the error |
| `Text.ToLower` | src/hooks/useFilteredListings.ts:30 | Lower-casing keeps the length and maps each character |
| `Text.ToUpper` | src/components/NrhpAddressCheck.tsx:65-66 | Upper-casing keeps the length and maps each character |
| `Text.ToLowerIdempotent` | src/hooks/useFilteredListings.ts:30-39 | Lower-casing twice is lower-casing once |
| `Text.ContainsIffOccurs` | src/hooks/useFilteredListings.ts:35-39 | `includes` is true exactly when the substring occurs at some position |
| `Text.NatToStringRoundTrip` | src/utils/resultsText.ts:28-36 | The decimal digits of a count read back as the count |
| `Text.Trim` | src/components/NrhpAddressCheck.tsx:146-147 | `trim` returns a slice of its input that neither starts nor ends with whitespace, and everything cut off before and after the slice is whitespace |
| `Text.TrimEmptyIff` | src/components/NrhpAddressCheck.tsx:148 | A trimmed string is empty exactly when every character is whitespace |
| `Text.Join` | src/components/ListingDetailFields.tsx:21 | Joining nothing gives the empty string and one string gives that string |
| `Text.JoinAppend` | src/components/ListingDetailFields.tsx:21 | Joining one more string appends the separator and that string |
| `JsValues.Get` | src/app/api/geocode/route.ts:77-80 | Optional chaining yields the field's value for a present field of an object, and `undefined` otherwise |

## Left out

- Date parsing, `Number.prototype.toString`, `encodeURIComponent`, `JSON.parse`/`JSON.stringify`
  and the Web Mercator formula are parameters, not definitions: floating point and Unicode are
  outside the model.
- `Text.ToLower`: maps ASCII letters only; JavaScript's full Unicode case mapping is not modelled.
- `Text.ToUpper`: maps ASCII letters only and always keeps the length, whereas JavaScript's `toUpperCase` can lengthen a string ("ß" becomes "SS"); full Unicode case mapping is not modelled.
- `ListingSort.SortByDue`: the engine's `Array.prototype.sort` is modelled as a stable insertion
  sort. The comparator is not consistent on two undated listings, so an engine may order them
  differently; the proved properties (permutation, sorted by due date) hold for any stable sort.
- `ListingSort.CompareDates`: the difference of two timestamps is taken over unbounded integers;
  NaN and infinite timestamps other than "invalid date" are not modelled.
- `ListingDetailFields.SortByOrder`: `Order` values are integers and the subtraction is exact; NaN
  and non-integer orders are not modelled.
- `GeocodeRoute.Post`: the missing-key answer is stated one way only, because a thrown geocoder
  message could equal "google maps api key not configured". The fallback message for a thrown
  value that is not an `Error` ("unknown geocoding error") is not modelled: every throw carries a message.
- `CheckAddressRoute.Post`, `CheckAddressRoute.Forward`: the fallback message for a thrown value
  that is not an `Error` ("An unknown error occurred while checking the address.") is not
  modelled: every throw carries a message.
- `NrhpAddressCheck.Panel.HandleAddressCheck`, `NrhpAddressCheck.Panel.OnListingDetails`: the
  fallback errors for a thrown value that is not an `Error` ("An unknown error occurred",
  "Failed to load listing preference details.") are not modelled: every throw carries a message.
- `KeyboardNavigation.FirstElement`: visits the refs in registration order. `Object.values` lists
  integer-like keys (numeric Ids) first, in ascending order, so for such Ids the sample item whose
  height sets the page size can differ.
- `ListingSelection.SelectionHook.Render`: requires that every filtered Id is an Id of the full
  list and that Ids are non-empty, as the page guarantees. Without that the two effects can keep
  overriding each other, which React stops with an error; that case is not modelled.
- `CheckAddressRoute.Post`, `NrhpAddressCheck.Panel.HandleAddressCheck`,
  `NrhpAddressCheck.Panel.OnListingDetails`: asynchronous handlers are modelled run to completion.
  The interim "checking"/"loading" flags, overlapping requests, and replies that arrive after the
  listing changed are not modelled.
- `ListingsCache.Cache.GetCachedListings`: a `localStorage.getItem` that throws is not modelled
  (the source does not catch it either).
- Console logging, the copy-to-clipboard timer and all JSX rendering are not modelled.
- The pass-through routes (listings, listing details, preferences, NRHP geometry, map image), the
  React Query hooks, `useListings`, `useSearchTerm`, the page component, the formatters and the
  Google Maps components are not part of this model.

## Findings

| source | as written | input that shows it | evidently intended | confidence | as-written member | corrected member |
|---|---|---|---|---|---|---|
| src/hooks/useListingSelection.ts:27-35 | The filtered-list effect leaves a null selection alone, and the full-list effect runs only when the full list or the selection changed, so nothing selects a listing again after a search that matched nothing is cleared | Two listings; a search matching nothing clears the selection; clearing the search gives a new filtered list with both listings while the full list and the null selection are unchanged, so only the filtered-list effect runs and makes no call | With listings shown, one is selected | medium, not executed | `ListingSelection.SelectionLostAfterClearedSearch` | `ListingSelection.CorrectedSettledSelects` |
| src/hooks/useListingFilter.ts:10-31 | The hydration effect raises the flag before the persist effect of the same mount commit runs, so the guard passes and the initial "All" is written over the saved value | Storage holds "Rental" and the mount effects run twice (React's development replay): the second hydration reads "All" and the saved filter is lost | Nothing is written until the hydrated value has been rendered | medium, not executed | `ListingFilterState.ReplayedMountLosesSavedFilter` | `ListingFilterState.CorrectedMountKeepsSavedFilter` |
