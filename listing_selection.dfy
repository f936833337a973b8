/** `useListingSelection` (src/hooks/useListingSelection.ts): the selected Id and the two
    effects that keep it valid, first against the full list and then against the filtered
    list.

    React runs an effect in a commit only when an entry of its dependency array changed
    (`Object.is`): the full-list effect depends on `[listings, selectedListingId]`, the
    filtered-list effect on `[filteredListings, selectedListingId]`. Arrays compare by
    identity, so each render's input carries an `ArrayRef` per list; a memoised list keeps
    its reference until it is recomputed. Both effects of one commit read the value that
    render saw; when both call the setter, the second (filtered-list) call is the one that
    sticks. A commit that changed the selection is followed by another render. */
module ListingSelection {
  import opened Wrappers
  import opened Listings

  /** A setter call: `None` when the effect does not call `setSelectedListingId`. */
  type SetterCall = Option<Option<string>>

  /** The filtered-list effect the hook runs: the source's, or the corrected one that also
      selects the first filtered listing when nothing is selected. */
  datatype Variant = AsWritten | Corrected

  /** The first effect: keep the selection valid against the full list. */
  function FullListEffect(listings: seq<Listing>, selected: Option<string>): (call: SetterCall)
    ensures listings == [] ==> call == Some(None)
    ensures listings != [] && !Truthy(selected) ==> call == Some(Some(listings[0].id))
    ensures listings != [] && Truthy(selected) ==>
              call == if HasId(listings, selected.value) then None else Some(Some(listings[0].id))
  {
    if listings == [] then Some(None)
    else if !Truthy(selected) then Some(Some(listings[0].id))
    else if !HasId(listings, selected.value) then Some(Some(listings[0].id))
    else None
  }

  /** The second effect as written: keep the selection valid against the filtered list. A
      missing selection is left to the first effect. */
  function FilteredListEffect(filtered: seq<Listing>, selected: Option<string>): (call: SetterCall)
    ensures filtered == [] ==> call == Some(None)
    ensures filtered != [] ==>
              call == if Truthy(selected) && !HasId(filtered, selected.value)
                      then Some(Some(filtered[0].id)) else None
  {
    if filtered == [] then Some(None)
    else if Truthy(selected) && !HasId(filtered, selected.value) then Some(Some(filtered[0].id))
    else None
  }

  /** The corrected second effect: a missing selection over a non-empty filtered list is
      replaced by the first filtered listing too. */
  function FilteredListEffectCorrected(filtered: seq<Listing>, selected: Option<string>): (call: SetterCall)
    ensures filtered == [] ==> call == Some(None)
    ensures filtered != [] ==>
              call == if Truthy(selected) && HasId(filtered, selected.value)
                      then None else Some(Some(filtered[0].id))
  {
    if filtered == [] then Some(None)
    else if !Truthy(selected) || !HasId(filtered, selected.value) then Some(Some(filtered[0].id))
    else None
  }

  /** The second effect of the chosen variant. */
  function FilteredEffect(v: Variant, filtered: seq<Listing>, selected: Option<string>): SetterCall {
    match v
    case AsWritten => FilteredListEffect(filtered, selected)
    case Corrected => FilteredListEffectCorrected(filtered, selected)
  }

  /** The selection after a setter call, if there was one. */
  function After(call: SetterCall, selected: Option<string>): Option<string> {
    match call
    case Some(s) => s
    case None => selected
  }

  /** The selection after a commit in which both effects run (the later write wins). */
  function ReconcileStep(v: Variant, listings: seq<Listing>, filtered: seq<Listing>, selected: Option<string>)
    : (next: Option<string>)
    ensures filtered == [] ==> next == None
    ensures filtered != [] && Truthy(selected) && !HasId(filtered, selected.value) ==>
              next == Some(filtered[0].id)
    ensures filtered != [] && !Truthy(selected) ==>
              next == if v == Corrected then Some(filtered[0].id)
                      else if listings == [] then None else Some(listings[0].id)
    ensures Truthy(selected) && HasId(filtered, selected.value) ==>
              next == if HasId(listings, selected.value) then selected
                      else if listings == [] then None else Some(listings[0].id)
  {
    After(FilteredEffect(v, filtered, selected), After(FullListEffect(listings, selected), selected))
  }

  /** A selection present in both lists triggers no setter call and is a fixed point. */
  lemma NoRedundantWrites(v: Variant, listings: seq<Listing>, filtered: seq<Listing>, selected: Option<string>)
    requires Truthy(selected) && HasId(listings, selected.value) && HasId(filtered, selected.value)
    ensures FullListEffect(listings, selected) == None
    ensures FilteredEffect(v, filtered, selected) == None
    ensures ReconcileStep(v, listings, filtered, selected) == selected
  {
  }

  /** What the page guarantees: the filtered list is drawn from the full list, and Ids are
      non-empty strings. */
  ghost predicate Coherent(listings: seq<Listing>, filtered: seq<Listing>) {
    IdsWithin(filtered, listings) && forall i :: 0 <= i < |listings| ==> listings[i].id != ""
  }

  /** Three commits that run both effects end where two do. */
  lemma {:induction false} ReconcileSettles(v: Variant, listings: seq<Listing>, filtered: seq<Listing>,
                                            s: Option<string>)
    requires Coherent(listings, filtered)
    ensures var t := ReconcileStep(v, listings, filtered, ReconcileStep(v, listings, filtered, s));
      ReconcileStep(v, listings, filtered, t) == t
  {
    if filtered != [] {
      assert HasId(listings, filtered[0].id);
      assert listings != [];
      assert HasId(filtered, filtered[0].id);
      var s1 := ReconcileStep(v, listings, filtered, s);
      if s1 == Some(listings[0].id) {
        assert Truthy(s1);
      }
    }
  }

  /** The identity of an array. */
  type ArrayRef = nat

  /** An effect's dependency array as React keeps it: the list's identity and the selection.
      `list` is the content that identity denotes; React compares only `ref` and `selected`. */
  datatype Deps = Deps(ref: ArrayRef, list: seq<Listing>, selected: Option<string>)

  /** One render's inputs: both lists with their identities. */
  datatype Inputs = Inputs(listings: seq<Listing>, listingsRef: ArrayRef,
                           filtered: seq<Listing>, filteredRef: ArrayRef)

  /** The hook between commits: the selection and each effect's dependencies at its last
      commit (`None` before the first). */
  datatype Hook = Hook(selected: Option<string>, fullDeps: Option<Deps>, filteredDeps: Option<Deps>)

  /** `useState(null)` before the mount commit. */
  const MOUNT: Hook := Hook(None, None, None)

  /** Whether an effect with last dependencies `deps` runs for a list identity and selection. */
  predicate Runs(deps: Option<Deps>, ref: ArrayRef, selected: Option<string>) {
    !(deps.Some? && deps.value.ref == ref && deps.value.selected == selected)
  }

  /** One commit of the render with inputs `r`: each effect runs only when its dependencies
      changed, and both record the dependencies this render saw. */
  function Commit(v: Variant, h: Hook, r: Inputs): (next: Hook)
    ensures next.fullDeps == Some(Deps(r.listingsRef, r.listings, h.selected))
    ensures next.filteredDeps == Some(Deps(r.filteredRef, r.filtered, h.selected))
    ensures !Runs(h.fullDeps, r.listingsRef, h.selected) && !Runs(h.filteredDeps, r.filteredRef, h.selected) ==>
              next.selected == h.selected
    ensures Runs(h.fullDeps, r.listingsRef, h.selected) && Runs(h.filteredDeps, r.filteredRef, h.selected) ==>
              next.selected == ReconcileStep(v, r.listings, r.filtered, h.selected)
    ensures Runs(h.filteredDeps, r.filteredRef, h.selected) && FilteredEffect(v, r.filtered, h.selected).Some? ==>
              next.selected == FilteredEffect(v, r.filtered, h.selected).value
    ensures Runs(h.filteredDeps, r.filteredRef, h.selected) && FilteredEffect(v, r.filtered, h.selected).None?
              && !Runs(h.fullDeps, r.listingsRef, h.selected) ==>
              next.selected == h.selected
    ensures !Runs(h.filteredDeps, r.filteredRef, h.selected) ==>
              next.selected == if Runs(h.fullDeps, r.listingsRef, h.selected)
                               then After(FullListEffect(r.listings, h.selected), h.selected) else h.selected
  {
    var full := if Runs(h.fullDeps, r.listingsRef, h.selected) then FullListEffect(r.listings, h.selected) else None;
    var filtered := if Runs(h.filteredDeps, r.filteredRef, h.selected) then FilteredEffect(v, r.filtered, h.selected) else None;
    Hook(After(filtered, After(full, h.selected)),
         Some(Deps(r.listingsRef, r.listings, h.selected)),
         Some(Deps(r.filteredRef, r.filtered, h.selected)))
  }

  /** Commits of the same inputs while the previous one changed the selection, at most
      `fuel` more after the first. */
  function Rerender(v: Variant, h: Hook, r: Inputs, fuel: nat): Hook
    decreases fuel
  {
    var next := Commit(v, h, r);
    if next.selected == h.selected || fuel == 0 then next else Rerender(v, next, r, fuel - 1)
  }

  /** The hook after a render with inputs `r` and the renders its own setter calls cause. */
  function Settle(v: Variant, h: Hook, r: Inputs): Hook {
    Rerender(v, h, r, 3)
  }

  /** The re-renders stop on their own: within `fuel` further commits one leaves the
      selection as it was. */
  ghost predicate Stops(v: Variant, h: Hook, r: Inputs, fuel: nat)
    decreases fuel
  {
    var next := Commit(v, h, r);
    next.selected == h.selected || (fuel > 0 && Stops(v, next, r, fuel - 1))
  }

  /** A list identity always denotes the same content. */
  ghost predicate RefsDenote(h: Hook, r: Inputs) {
    && (h.fullDeps.Some? && h.fullDeps.value.ref == r.listingsRef ==> h.fullDeps.value.list == r.listings)
    && (h.filteredDeps.Some? && h.filteredDeps.value.ref == r.filteredRef ==> h.filteredDeps.value.list == r.filtered)
  }

  /** What the filtered-list effect guarantees of a selection it has settled: nothing over an
      empty filtered list, and a selected Id from the filtered list. The corrected effect also
      never leaves a non-empty filtered list without a selection. */
  predicate SelectionFits(v: Variant, filtered: seq<Listing>, s: Option<string>) {
    && (filtered == [] ==> s == None)
    && (Truthy(s) ==> HasId(filtered, s.value))
    && (v == Corrected && filtered != [] ==> Truthy(s))
  }

  /** The selection fits the filtered list the second effect last saw, unless it changed
      since that commit. */
  predicate Fitted(v: Variant, h: Hook) {
    h.filteredDeps.Some? && h.filteredDeps.value.selected == h.selected ==>
      SelectionFits(v, h.filteredDeps.value.list, h.selected)
  }

  /** No commit is pending: both effects last saw the current selection. */
  predicate Idle(h: Hook) {
    && (h.fullDeps.Some? ==> h.fullDeps.value.selected == h.selected)
    && (h.filteredDeps.Some? ==> h.filteredDeps.value.selected == h.selected)
  }

  /** A commit keeps the selection fitted to the filtered list. */
  lemma CommitKeepsFitted(v: Variant, h: Hook, r: Inputs)
    requires Coherent(r.listings, r.filtered) && RefsDenote(h, r) && Fitted(v, h)
    ensures Fitted(v, Commit(v, h, r)) && RefsDenote(Commit(v, h, r), r)
  {
    var next := Commit(v, h, r);
    if next.selected == h.selected && r.filtered != [] {
      assert HasId(r.listings, r.filtered[0].id);
      assert HasId(r.filtered, r.filtered[0].id);
    }
  }

  /** From a settled render, the re-renders stop within three further commits. */
  lemma SettleStops(v: Variant, h: Hook, r: Inputs)
    requires Coherent(r.listings, r.filtered)
    ensures Stops(v, h, r, 3)
  {
    var h1 := Commit(v, h, r);
    if h1.selected != h.selected {
      var h2 := Commit(v, h1, r);
      assert h2.selected == ReconcileStep(v, r.listings, r.filtered, h1.selected);
      if h2.selected != h1.selected {
        var h3 := Commit(v, h2, r);
        assert h3.selected == ReconcileStep(v, r.listings, r.filtered, h2.selected);
        ReconcileSettles(v, r.listings, r.filtered, h1.selected);
      }
    }
  }

  /** Rerendering until a commit leaves the selection alone ends in a state no further
      commit of the same inputs changes, with nothing pending and the selection fitted. */
  lemma {:induction false} RerenderSettles(v: Variant, h: Hook, r: Inputs, fuel: nat)
    requires Coherent(r.listings, r.filtered) && RefsDenote(h, r) && Fitted(v, h)
    requires Stops(v, h, r, fuel)
    ensures var t := Rerender(v, h, r, fuel);
      Commit(v, t, r) == t && Idle(t) && Fitted(v, t) && RefsDenote(t, r)
    decreases fuel
  {
    var next := Commit(v, h, r);
    CommitKeepsFitted(v, h, r);
    if next.selected != h.selected {
      RerenderSettles(v, next, r, fuel - 1);
    }
  }

  /** The settled render: no further commit changes anything, and the selection fits the
      filtered list (nothing over an empty one; an Id of it otherwise, or, as written,
      possibly no selection). A selection in both lists survives the render. */
  lemma SettledSelection(v: Variant, h: Hook, r: Inputs)
    requires Coherent(r.listings, r.filtered) && RefsDenote(h, r) && Fitted(v, h)
    ensures var t := Settle(v, h, r);
      && Commit(v, t, r) == t
      && SelectionFits(v, r.filtered, t.selected)
      && Fitted(v, t) && Idle(t) && RefsDenote(t, r)
    ensures Truthy(h.selected) && HasId(r.listings, h.selected.value) && HasId(r.filtered, h.selected.value) ==>
              Settle(v, h, r).selected == h.selected
  {
    SettleStops(v, h, r);
    RerenderSettles(v, h, r, 3);
  }

  /** With the corrected effect a settled render selects nothing exactly when the filtered
      list is empty, and otherwise one of its listings. */
  lemma CorrectedSettledSelects(h: Hook, r: Inputs)
    requires Coherent(r.listings, r.filtered) && RefsDenote(h, r) && Fitted(Corrected, h)
    ensures var t := Settle(Corrected, h, r);
      && (t.selected == None <==> r.filtered == [])
      && (r.filtered != [] ==> Truthy(t.selected) && HasId(r.filtered, t.selected.value))
  {
    SettledSelection(Corrected, h, r);
  }

  /** The mount render selects nothing when no listing passes the filter. As written it
      selects the first listing when that passes the filter, else the first filtered listing;
      the corrected hook selects the first filtered listing. */
  lemma MountSettles(v: Variant, r: Inputs)
    requires Coherent(r.listings, r.filtered)
    ensures Settle(v, MOUNT, r).selected ==
              if r.filtered == [] then None
              else if v == AsWritten && r.listings != [] && HasId(r.filtered, r.listings[0].id)
              then Some(r.listings[0].id)
              else Some(r.filtered[0].id)
  {
    if r.filtered != [] {
      assert HasId(r.listings, r.filtered[0].id);
      assert r.listings[0].id != "";
      var h1 := Commit(v, MOUNT, r);
      assert h1.selected == Some(if v == AsWritten then r.listings[0].id else r.filtered[0].id);
    }
  }

  /** Listings `a` and `b` for the scenario below. */
  const LISTING_A: Listing := Listing("a", "Alpha", None, None, None, None, None)
  const LISTING_B: Listing := Listing("b", "Beta", None, None, None, None, None)

  /** The hook as written, after mounting with two listings, searching for a term nothing
      matches and clearing the search again: the filtered list shows both listings while
      nothing is selected. The search change gives the filtered list a new identity, but
      with the selection null the second effect makes no call and the first does not run. */
  lemma SelectionLostAfterClearedSearch()
    ensures var listings := [LISTING_A, LISTING_B];
      var mounted := Settle(AsWritten, MOUNT, Inputs(listings, 0, listings, 0));
      var searched := Settle(AsWritten, mounted, Inputs(listings, 0, [], 1));
      var cleared := Settle(AsWritten, searched, Inputs(listings, 0, listings, 2));
      mounted.selected == Some("a") && searched.selected == None && cleared.selected == None
  {
    var listings := [LISTING_A, LISTING_B];
    assert listings[0].id == "a";
    var mounted := Settle(AsWritten, MOUNT, Inputs(listings, 0, listings, 0));
    assert mounted.selected == Some("a");
    var searched := Settle(AsWritten, mounted, Inputs(listings, 0, [], 1));
    assert searched.selected == None;
  }

  /** The corrected hook, on the same sequence, selects the first listing again. */
  lemma CorrectedSelectionRecovers()
    ensures var listings := [LISTING_A, LISTING_B];
      var mounted := Settle(Corrected, MOUNT, Inputs(listings, 0, listings, 0));
      var searched := Settle(Corrected, mounted, Inputs(listings, 0, [], 1));
      var cleared := Settle(Corrected, searched, Inputs(listings, 0, listings, 2));
      mounted.selected == Some("a") && searched.selected == None && cleared.selected == Some("a")
  {
    var listings := [LISTING_A, LISTING_B];
    assert listings[0].id == "a";
    var mounted := Settle(Corrected, MOUNT, Inputs(listings, 0, listings, 0));
    assert mounted.selected == Some("a");
    var searched := Settle(Corrected, mounted, Inputs(listings, 0, [], 1));
    assert searched.selected == None;
  }

  /** `currentSelectedListing`: the first full-list listing with the selected Id. */
  function CurrentSelectedListing(listings: seq<Listing>, selected: Option<string>): (r: Option<Listing>)
    ensures r.None? <==> !Truthy(selected) || !HasId(listings, selected.value)
    ensures r.Some? ==> exists i :: 0 <= i < |listings| && listings[i] == r.value
                          && r.value.id == selected.value
                          && forall k :: 0 <= k < i ==> listings[k].id != selected.value
  {
    if !Truthy(selected) then None else FindById(listings, selected.value)
  }

  /** `xs.find(l => l.Id === id) ?? null`. */
  function FindById(xs: seq<Listing>, id: string): (r: Option<Listing>)
    ensures r.None? <==> !HasId(xs, id)
    ensures r.Some? ==> exists i :: 0 <= i < |xs| && xs[i] == r.value && r.value.id == id
                          && forall k :: 0 <= k < i ==> xs[k].id != id
    decreases |xs|, 1
  {
    if xs == [] then None
    else if xs[0].id == id then Some(xs[0])
    else
      FindByIdTail(xs, id);
      FindById(xs[1..], id)
  }

  /** A match in the tail is a match in the list when the head does not match. */
  lemma FindByIdTail(xs: seq<Listing>, id: string)
    requires xs != [] && xs[0].id != id
    ensures var r := FindById(xs[1..], id);
      && (r.None? <==> !HasId(xs, id))
      && (r.Some? ==> exists i :: 0 <= i < |xs| && xs[i] == r.value && r.value.id == id
                        && forall k :: 0 <= k < i ==> xs[k].id != id)
    decreases |xs|, 0
  {
    var r := FindById(xs[1..], id);
    if r.Some? {
      var i :| 0 <= i < |xs[1..]| && xs[1..][i] == r.value && r.value.id == id
               && forall k :: 0 <= k < i ==> xs[1..][k].id != id;
      assert xs[i + 1] == r.value;
      forall k | 0 <= k < i + 1 ensures xs[k].id != id {
        if k > 0 { assert xs[k] == xs[1..][k - 1]; }
      }
    } else {
      forall i | 1 <= i < |xs| ensures xs[i].id != id {
        assert xs[i] == xs[1..][i - 1];
      }
    }
  }

  /** `xs.some(l => l.Id === id)`, the scan both effects run. */
  method ScanForId(xs: seq<Listing>, id: string) returns (found: bool)
    ensures found <==> HasId(xs, id)
  {
    found := false;
    var i := 0;
    while i < |xs| && !found
      invariant 0 <= i <= |xs|
      invariant found <==> exists k :: 0 <= k < i && xs[k].id == id
    {
      found := xs[i].id == id;
      i := i + 1;
    }
  }

  /** The hook's state: the selected Id and the dependencies each effect last ran with. */
  class SelectionHook {
    const variant: Variant
    var selectedListingId: Option<string>
    var fullListDeps: Option<Deps>
    var filteredListDeps: Option<Deps>

    /** The state as a value. */
    function State(): Hook
      reads this
    {
      Hook(selectedListingId, fullListDeps, filteredListDeps)
    }

    /** `useState<string | null>(null)`, before the mount commit. */
    constructor (v: Variant)
      ensures variant == v && State() == MOUNT
    {
      variant := v;
      selectedListingId := None;
      fullListDeps := None;
      filteredListDeps := None;
    }

    /** One commit: each effect runs when its dependencies changed, reading the value this
        render saw. */
    method CommitEffects(r: Inputs)
      modifies this
      ensures State() == Commit(variant, old(State()), r)
    {
      var rendered := selectedListingId;
      // keep selection valid against the full list
      if !(fullListDeps.Some? && fullListDeps.value.ref == r.listingsRef && fullListDeps.value.selected == rendered) {
        if r.listings == [] {
          selectedListingId := None;
        } else if !Truthy(rendered) {
          selectedListingId := Some(r.listings[0].id);
        } else {
          var inFull := ScanForId(r.listings, rendered.value);
          if !inFull {
            selectedListingId := Some(r.listings[0].id);
          }
        }
      }
      // keep selection valid against the filtered list
      if !(filteredListDeps.Some? && filteredListDeps.value.ref == r.filteredRef
           && filteredListDeps.value.selected == rendered) {
        if r.filtered == [] {
          selectedListingId := None;
        } else if Truthy(rendered) {
          var present := ScanForId(r.filtered, rendered.value);
          if !present {
            selectedListingId := Some(r.filtered[0].id);
          }
        } else if variant == Corrected {
          selectedListingId := Some(r.filtered[0].id);
        }
      }
      fullListDeps := Some(Deps(r.listingsRef, r.listings, rendered));
      filteredListDeps := Some(Deps(r.filteredRef, r.filtered, rendered));
    }

    /** A render with inputs `r`, then a re-render while a commit changed the selection (a
        setter call with an equal value does not re-render). */
    method Render(r: Inputs)
      requires Coherent(r.listings, r.filtered) && RefsDenote(State(), r) && Fitted(variant, State())
      modifies this
      ensures State() == Settle(variant, old(State()), r)
      ensures SelectionFits(variant, r.filtered, selectedListingId)
      ensures Fitted(variant, State()) && Idle(State())
    {
      ghost var start := State();
      ghost var h := State();
      ghost var fuel: nat := 3;
      SettleStops(variant, h, r);
      SettledSelection(variant, h, r);
      var before := selectedListingId;
      CommitEffects(r);
      while selectedListingId != before
        invariant State() == Commit(variant, h, r) && before == h.selected
        invariant Stops(variant, h, r, fuel)
        invariant Rerender(variant, h, r, fuel) == Settle(variant, start, r)
        decreases fuel
      {
        h := State();
        fuel := fuel - 1;
        before := selectedListingId;
        CommitEffects(r);
      }
    }

    /** `setSelectedListingId(id)` from outside the effects, such as the keyboard handler.
        Called between renders, it keeps the selection fitted. */
    method SetSelectedListingId(id: Option<string>)
      modifies this`selectedListingId
      ensures selectedListingId == id
      ensures Idle(old(State())) && Fitted(variant, old(State())) ==> Fitted(variant, State())
    {
      selectedListingId := id;
    }
  }
}
