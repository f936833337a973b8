/** The body of `useFilteredListings` (src/hooks/useFilteredListings.ts): narrow by record
    type, then by search term, then sort by due date. Nothing is mutated: every step
    builds a new sequence. */
module FilteredListings {
  import opened Wrappers
  import opened Text
  import opened Listings
  import opened ListingSort

  /** The type predicate: Rental keeps record type "Rental", Sales keeps "Ownership",
      All keeps everything; a missing record type passes only All. */
  predicate MatchesType(l: Listing, filter: ListingFilter) {
    match filter
    case All => true
    case Rental => l.recordTypeName == Some("Rental")
    case Sales => l.recordTypeName == Some("Ownership")
  }

  /** `field && field.toLowerCase().includes(termLower)`: absent or empty fields never match. */
  predicate FieldIncludes(field: Option<string>, termLower: string) {
    Truthy(field) && Contains(ToLower(field.value), termLower)
  }

  /** The specification of a field match, stated with `OccursIn` instead of the scan. */
  ghost predicate FieldHas(field: Option<string>, termLower: string) {
    field.Some? && field.value != "" && OccursIn(termLower, ToLower(field.value))
  }

  /** The term predicate: the exact, case-sensitive Id, or the lower-cased term inside one of
      Name, Tenure, Status, Listing_Type or RecordType.Name. */
  predicate MatchesTerm(l: Listing, term: string) {
    var t := ToLower(term);
    l.id == term
    || Contains(ToLower(l.name), t)
    || FieldIncludes(l.tenure, t)
    || FieldIncludes(l.status, t)
    || FieldIncludes(l.listingType, t)
    || FieldIncludes(l.recordTypeName, t)
  }

  /** The term predicate agrees with its substring specification. */
  lemma MatchesTermIff(l: Listing, term: string)
    ensures MatchesTerm(l, term) <==>
      var t := ToLower(term);
      l.id == term || OccursIn(t, ToLower(l.name)) || FieldHas(l.tenure, t) || FieldHas(l.status, t)
      || FieldHas(l.listingType, t) || FieldHas(l.recordTypeName, t)
  {
    var t := ToLower(term);
    ContainsIffOccurs(ToLower(l.name), t);
    if l.tenure.Some? { ContainsIffOccurs(ToLower(l.tenure.value), t); }
    if l.status.Some? { ContainsIffOccurs(ToLower(l.status.value), t); }
    if l.listingType.Some? { ContainsIffOccurs(ToLower(l.listingType.value), t); }
    if l.recordTypeName.Some? { ContainsIffOccurs(ToLower(l.recordTypeName.value), t); }
  }

  /** `listings.filter(...)` with the type predicate; each listing keeps all its copies or none. */
  function NarrowByType(xs: seq<Listing>, filter: ListingFilter): (r: seq<Listing>)
    ensures forall l :: multiset(r)[l] == if MatchesType(l, filter) then multiset(xs)[l] else 0
  {
    if xs == [] then []
    else
      assert xs == [xs[0]] + xs[1..];
      (if MatchesType(xs[0], filter) then [xs[0]] else []) + NarrowByType(xs[1..], filter)
  }

  /** `.filter(...)` with the term predicate. */
  function NarrowByTerm(xs: seq<Listing>, term: string): (r: seq<Listing>)
    ensures forall l :: multiset(r)[l] == if MatchesTerm(l, term) then multiset(xs)[l] else 0
  {
    if xs == [] then []
    else
      assert xs == [xs[0]] + xs[1..];
      (if MatchesTerm(xs[0], term) then [xs[0]] else []) + NarrowByTerm(xs[1..], term)
  }

  /** What survives both narrowing steps. */
  predicate Keeps(l: Listing, term: string, filter: ListingFilter) {
    MatchesType(l, filter) && (term == "" || MatchesTerm(l, term))
  }

  /** The memoised value of `useFilteredListings(listings, term, filter)`. */
  function FilterListings(listings: seq<Listing>, term: string, filter: ListingFilter, parse: DateParser)
    : (r: seq<Listing>)
    ensures forall l :: multiset(r)[l] == if Keeps(l, term, filter) then multiset(listings)[l] else 0
    ensures SortedByDue(r, parse)
  {
    if |listings| == 0 then []
    else
      var typeFiltered := if filter != All then NarrowByType(listings, filter) else listings;
      if term == "" then SortByDue(typeFiltered, parse)
      else SortByDue(NarrowByTerm(typeFiltered, term), parse)
  }

  /** Every element of the result passes both predicates and comes from the input. */
  lemma FilterListingsElements(listings: seq<Listing>, term: string, filter: ListingFilter,
                               parse: DateParser, k: int)
    requires 0 <= k < |FilterListings(listings, term, filter, parse)|
    ensures var l := FilterListings(listings, term, filter, parse)[k];
      Keeps(l, term, filter) && l in listings
  {
    var r := FilterListings(listings, term, filter, parse);
    assert r[k] in multiset(r);
  }

  /** With no term and the All filter the result is the whole input, sorted by due date. */
  lemma EmptyTermAllIsSortedInput(listings: seq<Listing>, parse: DateParser)
    ensures FilterListings(listings, "", All, parse) == SortByDue(listings, parse)
  {
  }

  /** A listing whose Id is the term and whose type passes is kept, whatever its other fields. */
  lemma ExactIdMatchKept(listings: seq<Listing>, term: string, filter: ListingFilter,
                         parse: DateParser, l: Listing)
    requires l in listings && l.id == term && MatchesType(l, filter)
    ensures l in FilterListings(listings, term, filter, parse)
  {
    assert multiset(listings)[l] > 0;
    assert multiset(FilterListings(listings, term, filter, parse))[l] > 0;
  }

  /** Under Rental or Sales a listing without a record type never survives. */
  lemma MissingRecordTypeExcluded(listings: seq<Listing>, term: string, filter: ListingFilter,
                                  parse: DateParser, l: Listing)
    requires filter != All && l.recordTypeName.None?
    ensures l !in FilterListings(listings, term, filter, parse)
  {
    assert multiset(FilterListings(listings, term, filter, parse))[l] == 0;
  }

  /** Narrowing a list whose every element passes changes nothing. */
  lemma {:induction false} NarrowByTypeIdentity(xs: seq<Listing>, filter: ListingFilter)
    requires forall k :: 0 <= k < |xs| ==> MatchesType(xs[k], filter)
    ensures NarrowByType(xs, filter) == xs
  {
    if xs != [] {
      NarrowByTypeIdentity(xs[1..], filter);
    }
  }

  lemma {:induction false} NarrowByTermIdentity(xs: seq<Listing>, term: string)
    requires forall k :: 0 <= k < |xs| ==> MatchesTerm(xs[k], term)
    ensures NarrowByTerm(xs, term) == xs
  {
    if xs != [] {
      NarrowByTermIdentity(xs[1..], term);
    }
  }

  /** Filtering an already filtered list with the same term and filter gives it back. */
  lemma FilterListingsIdempotent(listings: seq<Listing>, term: string, filter: ListingFilter,
                                 parse: DateParser)
    ensures var r := FilterListings(listings, term, filter, parse);
      FilterListings(r, term, filter, parse) == r
  {
    var r := FilterListings(listings, term, filter, parse);
    forall k | 0 <= k < |r| ensures Keeps(r[k], term, filter) {
      FilterListingsElements(listings, term, filter, parse, k);
    }
    if |r| > 0 {
      NarrowByTypeIdentity(r, filter);
      if term != "" {
        NarrowByTermIdentity(r, term);
      }
      SortByDueKeepsSorted(r, parse);
    }
  }

  /** The filtered list only holds Ids of the full list (what the selection hooks rely on). */
  lemma FilterListingsIdsWithin(listings: seq<Listing>, term: string, filter: ListingFilter,
                                parse: DateParser)
    ensures IdsWithin(FilterListings(listings, term, filter, parse), listings)
  {
    var r := FilterListings(listings, term, filter, parse);
    forall k | 0 <= k < |r| ensures HasId(listings, r[k].id) {
      FilterListingsElements(listings, term, filter, parse, k);
      var i :| 0 <= i < |listings| && listings[i] == r[k];
    }
  }
}
