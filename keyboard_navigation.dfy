/** `useKeyboardNavigation` (src/hooks/useKeyboardNavigation.ts): key presses move the
    selection over the filtered list. The DOM is reduced to what the hook reads from it:
    the container's and the first registered item's `clientHeight`. */
module KeyboardNavigation {
  import opened Wrappers
  import opened Listings

  /** A rendered element, as far as the hook looks at it. */
  datatype Element = Element(clientHeight: nat)

  /** The six keys the handler consumes. */
  predicate IsNavigationKey(key: string) {
    key == "ArrowDown" || key == "ArrowUp" || key == "PageUp" || key == "PageDown"
    || key == "Home" || key == "End"
  }

  /** `xs.findIndex(l => l.Id === id)`. */
  function IndexOfId(xs: seq<Listing>, id: string): (r: int)
    ensures -1 <= r < |xs|
    ensures r == -1 <==> !HasId(xs, id)
    ensures r >= 0 ==> xs[r].id == id && forall k :: 0 <= k < r ==> xs[k].id != id
  {
    if xs == [] then -1
    else if xs[0].id == id then 0
    else
      var r := IndexOfId(xs[1..], id);
      assert forall k :: 1 <= k < |xs| ==> xs[k] == xs[1..][k - 1];
      if r == -1 then -1 else r + 1
  }

  /** The position of the selection in the list, or -1 without a selection or a match. */
  function CurrentIndex(filtered: seq<Listing>, selected: Option<string>): (r: int)
    ensures -1 <= r < |filtered|
    ensures r >= 0 <==> Truthy(selected) && HasId(filtered, selected.value)
    ensures r >= 0 ==> filtered[r].id == selected.value
  {
    if Truthy(selected) then IndexOfId(filtered, selected.value) else -1
  }

  /** `Object.values(itemRefs).find(ref => ref !== null)`: the first non-null ref, visiting
      the keys in insertion order (`order`). A `None` value is a `null` ref. */
  function FirstElement(order: seq<string>, refs: map<string, Option<Element>>): (r: Option<Element>)
    requires forall i :: 0 <= i < |order| ==> order[i] in refs
    ensures r.None? <==> forall i :: 0 <= i < |order| ==> refs[order[i]].None?
    ensures r.Some? ==> exists i :: 0 <= i < |order| && refs[order[i]] == r
                          && forall k :: 0 <= k < i ==> refs[order[k]].None?
  {
    if order == [] then None
    else if refs[order[0]].Some? then refs[order[0]]
    else
      var r := FirstElement(order[1..], refs);
      assert r.Some? ==> exists i :: 0 <= i < |order| && refs[order[i]] == r
                           && forall k :: 0 <= k < i ==> refs[order[k]].None? by {
        if r.Some? {
          var i :| 0 <= i < |order[1..]| && refs[order[1..][i]] == r
                   && forall k :: 0 <= k < i ==> refs[order[1..][k]].None?;
          assert refs[order[i + 1]] == r;
          forall k | 0 <= k < i + 1 ensures refs[order[k]].None? {
            if k > 0 {
              assert order[k] == order[1..][k - 1];
            }
          }
        }
      }
      assert r.None? ==> forall i :: 0 <= i < |order| ==> refs[order[i]].None? by {
        if r.None? {
          forall i | 1 <= i < |order| ensures refs[order[i]].None? {
            assert order[i] == order[1..][i - 1];
          }
        }
      }
      r
  }

  /** The page-size estimate: 5 without a container or a rendered item, otherwise how many
      whole items fit in the container (at least one). */
  function PageSize(containerHeight: Option<nat>, sample: Option<Element>): (p: nat)
    ensures p >= 1
    ensures containerHeight.None? || sample.None? ==> p == 5
    ensures containerHeight.Some? && sample.Some? ==>
              var item := if sample.value.clientHeight < 1 then 1 else sample.value.clientHeight;
              (p * item <= containerHeight.value || p == 1)
              && containerHeight.value < (p + 1) * item
  {
    if containerHeight.None? || sample.None? then 5
    else
      var item := if sample.value.clientHeight < 1 then 1 else sample.value.clientHeight;
      var fit := containerHeight.value / item;
      if fit < 1 then 1 else fit
  }

  /** The index a key moves to, or `None` when the key does nothing from `index`.
      Down-moves advance by one step (1 or a page) or stop at the last index; up-moves go
      back by one step or stop at the first; none leaves the list. */
  function TargetIndex(key: string, index: int, len: nat, pageSize: nat): (t: Option<int>)
    requires len > 0 && -1 <= index < len && pageSize >= 1
    ensures t.Some? ==> 0 <= t.value < len
    ensures !IsNavigationKey(key) ==> t.None?
    ensures key == "ArrowDown" || key == "PageDown" ==>
              var step := if key == "ArrowDown" then 1 else pageSize;
              && (t.Some? <==> index < len - 1)
              && (t.Some? ==> index < t.value <= index + step
                               && (t.value == index + step || t.value == len - 1))
    ensures key == "ArrowUp" || key == "PageUp" ==>
              var step := if key == "ArrowUp" then 1 else pageSize;
              && (t.Some? <==> index > 0)
              && (t.Some? ==> index - step <= t.value < index
                               && (t.value == index - step || t.value == 0))
    ensures key == "Home" ==> t == Some(0)
    ensures key == "End" ==> t == Some(len - 1)
  {
    if key == "ArrowDown" then
      if index < len - 1 then Some(index + 1) else None
    else if key == "ArrowUp" then
      if index > 0 then Some(index - 1) else None
    else if key == "PageDown" then
      if index < len - 1 then
        Some(if index + pageSize < len - 1 then index + pageSize else len - 1)
      else None
    else if key == "PageUp" then
      if index > 0 then Some(if index - pageSize > 0 then index - pageSize else 0) else None
    else if key == "Home" then Some(0)
    else if key == "End" then Some(len - 1)
    else None
  }

  /** What a key press does: whether `preventDefault` is called, and the setter call. */
  datatype KeyOutcome = KeyOutcome(consumed: bool, setTo: Option<string>)

  /** The handler's decision for a filtered list, the rendered selection and a page size. */
  function Navigate(filtered: seq<Listing>, selected: Option<string>, key: string, pageSize: nat)
    : (o: KeyOutcome)
    requires pageSize >= 1
    ensures o.consumed <==> |filtered| > 0 && IsNavigationKey(key)
    ensures !o.consumed ==> o.setTo.None?
    ensures o.setTo.Some? ==> HasId(filtered, o.setTo.value)
    ensures o.setTo.Some? <==>
              o.consumed && TargetIndex(key, CurrentIndex(filtered, selected), |filtered|, pageSize).Some?
    ensures o.consumed ==>
              var t := TargetIndex(key, CurrentIndex(filtered, selected), |filtered|, pageSize);
              o.setTo == if t.Some? then Some(filtered[t.value].id) else None
  {
    if |filtered| == 0 then KeyOutcome(false, None)
    else if !IsNavigationKey(key) then KeyOutcome(false, None)
    else
      var index := CurrentIndex(filtered, selected);
      match TargetIndex(key, index, |filtered|, pageSize)
      case Some(t) => KeyOutcome(true, Some(filtered[t].id))
      case None => KeyOutcome(true, None)
  }

  /** ArrowDown at the last listing changes nothing, and from no selection picks the first. */
  lemma ArrowDownEnds(filtered: seq<Listing>, selected: Option<string>, pageSize: nat)
    requires pageSize >= 1 && |filtered| > 0
    ensures CurrentIndex(filtered, selected) == |filtered| - 1 ==>
              Navigate(filtered, selected, "ArrowDown", pageSize) == KeyOutcome(true, None)
    ensures !Truthy(selected) ==>
              Navigate(filtered, selected, "ArrowDown", pageSize) == KeyOutcome(true, Some(filtered[0].id))
  {
  }

  /** Home then End: Home selects the first listing, and End from there the last. */
  lemma HomeThenEnd(filtered: seq<Listing>, selected: Option<string>, pageSize: nat)
    requires pageSize >= 1 && |filtered| > 0
    ensures Navigate(filtered, selected, "Home", pageSize).setTo == Some(filtered[0].id)
    ensures Navigate(filtered, Some(filtered[0].id), "End", pageSize).setTo
              == Some(filtered[|filtered| - 1].id)
  {
  }

  /** PageDown lands on the last listing exactly when fewer than a page of listings follow. */
  lemma PageDownClamps(filtered: seq<Listing>, selected: Option<string>, pageSize: nat)
    requires pageSize >= 1 && |filtered| > 0
    requires CurrentIndex(filtered, selected) < |filtered| - 1
    ensures var i := CurrentIndex(filtered, selected);
      Navigate(filtered, selected, "PageDown", pageSize).setTo ==
        Some(filtered[if i + pageSize >= |filtered| - 1 then |filtered| - 1 else i + pageSize].id)
  {
  }

  /** The element the scroll effect brings into view: the selection's registered, non-null ref. */
  function ScrollTarget(refs: map<string, Option<Element>>, selected: Option<string>): (r: Option<Element>)
    ensures r.Some? <==> Truthy(selected) && selected.value in refs && refs[selected.value].Some?
    ensures r.Some? ==> r == refs[selected.value]
  {
    if Truthy(selected) && selected.value in refs then refs[selected.value] else None
  }

  /** The hook's refs: the filtered list its handler reads, the item refs and the container. */
  class Navigator {
    var filteredRef: seq<Listing>
    var itemRefs: map<string, Option<Element>>
    var order: seq<string>
    var containerHeight: Option<nat>

    /** `order` lists every key of `itemRefs` once, in insertion order. */
    ghost predicate Valid()
      reads this
    {
      && (forall i :: 0 <= i < |order| ==> order[i] in itemRefs)
      && (forall id :: id in itemRefs ==> id in order)
      && (forall i, j :: 0 <= i < j < |order| ==> order[i] != order[j])
    }

    /** `useRef([])`, `useRef({})` and an unattached container ref. */
    constructor ()
      ensures Valid()
      ensures filteredRef == [] && itemRefs == map[] && order == [] && containerHeight == None
    {
      filteredRef := [];
      itemRefs := map[];
      order := [];
      containerHeight := None;
    }

    /** The effect that keeps `filteredRef` fresh. */
    method SyncFiltered(filtered: seq<Listing>)
      modifies this`filteredRef
      ensures filteredRef == filtered
    {
      filteredRef := filtered;
    }

    /** `registerItemRef(id, el)`: only the entry for `id` changes; a new key goes last. */
    method RegisterItemRef(id: string, el: Option<Element>)
      requires Valid()
      modifies this`itemRefs, this`order
      ensures Valid()
      ensures itemRefs == old(itemRefs)[id := el]
      ensures order == if id in old(itemRefs) then old(order) else old(order) + [id]
    {
      if id !in itemRefs {
        order := order + [id];
      }
      itemRefs := itemRefs[id := el];
    }

    /** `onKeyDown`: reads the refs, returns whether the event was consumed and the Id
        handed to the setter. Every such Id is one of the filtered listings. */
    method OnKeyDown(key: string, selected: Option<string>) returns (consumed: bool, setTo: Option<string>)
      requires Valid()
      ensures KeyOutcome(consumed, setTo)
              == Navigate(filteredRef, selected, key, PageSize(containerHeight, FirstElement(order, itemRefs)))
      ensures setTo.Some? ==> HasId(filteredRef, setTo.value)
      ensures consumed <==> |filteredRef| > 0 && IsNavigationKey(key)
    {
      var currentFiltered := filteredRef;
      if |currentFiltered| == 0 {
        return false, None;
      }
      consumed, setTo := false, None;
      if IsNavigationKey(key) {
        consumed := true;
        var currentIndex := CurrentIndex(currentFiltered, selected);
        var pageSize := PageSize(containerHeight, FirstElement(order, itemRefs));
        var target := TargetIndex(key, currentIndex, |currentFiltered|, pageSize);
        if target.Some? {
          setTo := Some(currentFiltered[target.value].id);
        }
      }
    }
  }
}
