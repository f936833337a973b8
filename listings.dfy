/** The listing record as far as the finder pane reads it, the type filter, and
    the truthiness test the source applies to optional strings. */
module Listings {
  import opened Wrappers

  /** An upstream listing. Optional strings are `None` when the field is absent or null.
      `recordTypeName` is `RecordType.Name`; a missing `RecordType` object and a
      missing `Name` inside it are read the same way by every core function. */
  datatype Listing = Listing(
    id: string,
    name: string,
    tenure: Option<string>,
    status: Option<string>,
    listingType: Option<string>,
    recordTypeName: Option<string>,
    applicationDueDate: Option<string>)

  /** The three buttons of the filter bar. */
  datatype ListingFilter = All | Rental | Sales

  /** The text the filter bar shows and stores for a filter. */
  function FilterName(f: ListingFilter): string {
    match f
    case All => "All"
    case Rental => "Rental"
    case Sales => "Sales"
  }

  /** JavaScript truthiness of an optional string: present and not empty. */
  predicate Truthy(s: Option<string>) {
    s.Some? && s.value != ""
  }

  /** `xs.some(l => l.Id === id)`. */
  predicate HasId(xs: seq<Listing>, id: string) {
    exists i :: 0 <= i < |xs| && xs[i].id == id
  }

  /** Every Id of `sub` is an Id of `xs`. */
  ghost predicate IdsWithin(sub: seq<Listing>, xs: seq<Listing>) {
    forall i :: 0 <= i < |sub| ==> HasId(xs, sub[i].id)
  }
}
