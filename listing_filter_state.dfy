/** `useListingFilter` (src/hooks/useListingFilter.ts): the type filter, hydrated once from
    browser storage and persisted back after every change. Storage is a string map; a read
    or write that throws is a `readFails`/`writeFails` flag, and the error is swallowed.

    The state setter does not change what the current commit's effects see: `rendered` is
    the value of the render being committed, `currentFilter` the state including updates
    that have not been rendered yet. `renderedHydrated` is the hydration flag as the
    rendered commit saw it; only the corrected hook reads it. */
module ListingFilterState {
  import opened Wrappers
  import opened Listings

  const STORAGE_KEY: string := "listingFilter"

  /** The stored text of a filter, read back: only the three exact names are accepted. */
  function ParseFilter(s: string): (r: Option<ListingFilter>)
    ensures r.Some? <==> s == "All" || s == "Rental" || s == "Sales"
    ensures r.Some? ==> FilterName(r.value) == s
  {
    if s == "All" then Some(All)
    else if s == "Rental" then Some(Rental)
    else if s == "Sales" then Some(Sales)
    else None
  }

  /** What is written is read back as the same filter. */
  lemma ParseFilterName(f: ListingFilter)
    ensures ParseFilter(FilterName(f)) == Some(f)
  {
  }

  /** The filter after hydration from the stored text (absent when the key is missing or the
      read failed): a whitelisted name is adopted, anything else leaves `current` alone. */
  function Hydrate(saved: Option<string>, current: ListingFilter): (f: ListingFilter)
    ensures saved.Some? && ParseFilter(saved.value).Some? ==> FilterName(f) == saved.value
    ensures saved.None? || ParseFilter(saved.value).None? ==> f == current
  {
    if saved.Some? then ParseFilter(saved.value).GetOr(current) else current
  }

  /** `storage.getItem(key)`, or nothing when the read throws. */
  function StoredValue(storage: map<string, string>, readFails: bool): Option<string> {
    if !readFails && STORAGE_KEY in storage then Some(storage[STORAGE_KEY]) else None
  }

  class FilterStore {
    var currentFilter: ListingFilter
    var rendered: ListingFilter
    var hasHydrated: bool
    var renderedHydrated: bool
    var storage: map<string, string>

    /** The first render: state "All", not yet hydrated. */
    constructor (initialStorage: map<string, string>)
      ensures currentFilter == All && rendered == All && !hasHydrated && !renderedHydrated
      ensures storage == initialStorage
    {
      currentFilter := All;
      rendered := All;
      hasHydrated := false;
      renderedHydrated := false;
      storage := initialStorage;
    }

    /** The effects of the mount commit, as the hook orders them: the hydration effect runs
        first and raises the flag, so the persist effect of the same commit passes the guard
        and writes the value this render saw, the initial "All". */
    method MountEffects(readFails: bool, writeFails: bool)
      modifies this
      ensures currentFilter == Hydrate(StoredValue(old(storage), readFails), old(currentFilter))
      ensures hasHydrated && rendered == old(rendered) && renderedHydrated == old(renderedHydrated)
      ensures storage == if writeFails then old(storage) else old(storage)[STORAGE_KEY := FilterName(old(rendered))]
    {
      // hydrate from storage
      if !readFails && STORAGE_KEY in storage {
        var saved := storage[STORAGE_KEY];
        var parsed := ParseFilter(saved);
        if parsed.Some? {
          currentFilter := parsed.value;
        }
      }
      hasHydrated := true;
      // persist, guarded by the flag
      if hasHydrated && !writeFails {
        storage := storage[STORAGE_KEY := FilterName(rendered)];
      }
    }

    /** The mount commit with the flag kept as state: the persist effect sees the flag of the
        render it belongs to, which on mount is still false, so the mount commit (and any
        replay of it) writes nothing. */
    method MountEffectsCorrected(readFails: bool, writeFails: bool)
      modifies this
      ensures currentFilter == Hydrate(StoredValue(old(storage), readFails), old(currentFilter))
      ensures hasHydrated && rendered == old(rendered) && renderedHydrated == old(renderedHydrated)
      ensures storage == if renderedHydrated && !writeFails
                         then old(storage)[STORAGE_KEY := FilterName(rendered)] else old(storage)
      ensures !renderedHydrated ==> storage == old(storage)
    {
      if !readFails && STORAGE_KEY in storage {
        var parsed := ParseFilter(storage[STORAGE_KEY]);
        if parsed.Some? {
          currentFilter := parsed.value;
        }
      }
      hasHydrated := true;
      if renderedHydrated && !writeFails {
        storage := storage[STORAGE_KEY := FilterName(rendered)];
      }
    }

    /** `setCurrentFilter(f)`: a state update, seen from the next render on. */
    method SetFilter(f: ListingFilter)
      modifies this`currentFilter
      ensures currentFilter == f
    {
      currentFilter := f;
    }

    /** A later render. When the state differs from the last rendered value the persist
        effect re-runs and, once hydrated, writes the new value; otherwise nothing happens. */
    method Render(writeFails: bool)
      modifies this`rendered, this`storage
      ensures rendered == currentFilter && renderedHydrated == old(renderedHydrated)
      ensures storage == if old(rendered) != currentFilter && hasHydrated && !writeFails
                         then old(storage)[STORAGE_KEY := FilterName(currentFilter)]
                         else old(storage)
    {
      if currentFilter != rendered {
        rendered := currentFilter;
        if hasHydrated && !writeFails {
          storage := storage[STORAGE_KEY := FilterName(rendered)];
        }
      }
    }

    /** A later render of the corrected hook: the persist effect depends on the filter and the
        flag, and writes only from a render that saw the flag raised. */
    method RenderCorrected(writeFails: bool)
      modifies this`rendered, this`renderedHydrated, this`storage
      ensures rendered == currentFilter && renderedHydrated == hasHydrated
      ensures storage == if (old(rendered) != currentFilter || old(renderedHydrated) != hasHydrated)
                            && hasHydrated && !writeFails
                         then old(storage)[STORAGE_KEY := FilterName(currentFilter)]
                         else old(storage)
    {
      if currentFilter != rendered || hasHydrated != renderedHydrated {
        rendered := currentFilter;
        renderedHydrated := hasHydrated;
        if renderedHydrated && !writeFails {
          storage := storage[STORAGE_KEY := FilterName(rendered)];
        }
      }
    }
  }

  /** The mount commit overwrites a saved "Rental" with "All" before "Rental" is rendered. */
  method MountOverwritesSavedFilter() returns (storedAfterMount: string, adopted: ListingFilter)
    ensures storedAfterMount == "All" && adopted == Rental
  {
    var s := new FilterStore(map[STORAGE_KEY := "Rental"]);
    s.MountEffects(false, false);
    storedAfterMount := s.storage[STORAGE_KEY];
    adopted := s.currentFilter;
  }

  /** When the mount effects run twice before the next render (as React's development mode
      replays them), the second hydration reads back that "All", and the saved filter is lost. */
  method ReplayedMountLosesSavedFilter() returns (finalFilter: ListingFilter, stored: string)
    ensures finalFilter == All && stored == "All"
  {
    var s := new FilterStore(map[STORAGE_KEY := "Rental"]);
    s.MountEffects(false, false);
    s.MountEffects(false, false);
    s.Render(false);
    finalFilter := s.currentFilter;
    stored := s.storage[STORAGE_KEY];
  }

  /** With the corrected mount the saved filter survives the mount commit, a replay of it,
      and the render that follows. */
  method CorrectedMountKeepsSavedFilter() returns (finalFilter: ListingFilter, stored: string)
    ensures finalFilter == Rental && stored == "Rental"
  {
    var s := new FilterStore(map[STORAGE_KEY := "Rental"]);
    s.MountEffectsCorrected(false, false);
    s.MountEffectsCorrected(false, false);
    s.RenderCorrected(false);
    finalFilter := s.currentFilter;
    stored := s.storage[STORAGE_KEY];
  }
}
