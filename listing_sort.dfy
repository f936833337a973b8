/** The due-date comparator of src/utils/listingSort.ts and the sort that uses it.

    `new Date(s).getTime()` is host behaviour; it is a parameter `parse` that gives
    the milliseconds of a date string, or `None` when the engine yields NaN. */
module ListingSort {
  import opened Wrappers
  import opened Listings

  type DateParser = string -> Option<int>

  /** Where a listing's due date places it: a parsed instant, a present but unparsable
      string, or no (or an empty) date string. */
  datatype DueKey = Dated(ms: int) | Unparsable | Undated

  function KeyOf(l: Listing, parse: DateParser): DueKey {
    if !Truthy(l.applicationDueDate) then Undated
    else match parse(l.applicationDueDate.value)
      case Some(t) => Dated(t)
      case None => Unparsable
  }

  /** The intended order, independent of the comparator: dated listings newest first,
      then unparsable dates, then undated listings. `KeyLe(a, b)`: `a` may precede `b`. */
  predicate KeyLe(a: DueKey, b: DueKey) {
    match a
    case Dated(x) => !b.Dated? || x >= b.ms
    case Unparsable => !b.Dated?
    case Undated => b.Undated?
  }

  /** `KeyLe` is a total preorder: reflexive, transitive and total. */
  lemma KeyLeTotalPreorder(a: DueKey, b: DueKey, c: DueKey)
    ensures KeyLe(a, a)
    ensures KeyLe(a, b) || KeyLe(b, a)
    ensures KeyLe(a, b) && KeyLe(b, c) ==> KeyLe(a, c)
  {
  }

  /** `compareDates(a, b)`: negative when `a` sorts first. */
  function CompareDates(a: Listing, b: Listing, parse: DateParser): (r: int)
    ensures r < 0 <==> !KeyLe(KeyOf(b, parse), KeyOf(a, parse))
    ensures r == 0 <==> KeyOf(a, parse).Dated? && KeyOf(a, parse) == KeyOf(b, parse)
    ensures KeyOf(a, parse).Dated? && KeyOf(b, parse).Dated? ==>
              r == KeyOf(b, parse).ms - KeyOf(a, parse).ms
    ensures !Truthy(a.applicationDueDate) ==> r == 1
  {
    if !Truthy(a.applicationDueDate) then 1
    else if !Truthy(b.applicationDueDate) then -1
    else
      var dateA := parse(a.applicationDueDate.value);
      var dateB := parse(b.applicationDueDate.value);
      if dateA.None? then 1
      else if dateB.None? then -1
      else dateB.value - dateA.value
  }

  /** "`b` never compares before `a`" is exactly the intended order on keys. */
  lemma CompareDatesAgreesWithKeys(a: Listing, b: Listing, parse: DateParser)
    ensures CompareDates(b, a, parse) >= 0 <==> KeyLe(KeyOf(a, parse), KeyOf(b, parse))
  {
  }

  /** Two undated listings each compare after the other: the comparator is not antisymmetric,
      and an unparsable pair behaves the same way. */
  lemma UndatedPairsNotAntisymmetric(a: Listing, b: Listing, parse: DateParser)
    requires KeyOf(a, parse) == KeyOf(b, parse) && !KeyOf(a, parse).Dated?
    ensures CompareDates(a, b, parse) == 1 && CompareDates(b, a, parse) == 1
  {
  }

  /** A valid-dated listing compares before an undated or unparsable one, in both argument
      orders; a present-but-unparsable date compares before a missing one. */
  lemma DatedBeforeUndated(a: Listing, b: Listing, parse: DateParser)
    ensures KeyOf(a, parse).Dated? && !KeyOf(b, parse).Dated? ==>
              CompareDates(a, b, parse) == -1 && CompareDates(b, a, parse) == 1
    ensures KeyOf(a, parse).Unparsable? && KeyOf(b, parse).Undated? ==>
              CompareDates(a, b, parse) == -1 && CompareDates(b, a, parse) == 1
  {
  }

  /** Sorted by `compareDates`: no element compares strictly before one that precedes it. */
  ghost predicate SortedByDue(xs: seq<Listing>, parse: DateParser) {
    forall i, j :: 0 <= i < j < |xs| ==> CompareDates(xs[j], xs[i], parse) >= 0
  }

  /** The key form of `SortedByDue`, used inside the proofs. */
  ghost predicate KeyOrdered(xs: seq<Listing>, parse: DateParser) {
    forall i, j :: 0 <= i < j < |xs| ==> KeyLe(KeyOf(xs[i], parse), KeyOf(xs[j], parse))
  }

  lemma SortedIffKeyOrdered(xs: seq<Listing>, parse: DateParser)
    ensures SortedByDue(xs, parse) <==> KeyOrdered(xs, parse)
  {
    forall i, j | 0 <= i < j < |xs| {
      CompareDatesAgreesWithKeys(xs[i], xs[j], parse);
    }
  }

  /** Places `x` before the first element it may precede; an element with an equal key is one,
      so `x` goes before the elements whose key equals its own. */
  function InsertByDue(x: Listing, s: seq<Listing>, parse: DateParser): (r: seq<Listing>)
    ensures multiset(r) == multiset(s) + multiset{x}
    ensures |r| == |s| + 1
  {
    if s == [] then [x]
    else if CompareDates(s[0], x, parse) >= 0 then [x] + s
    else
      assert s == [s[0]] + s[1..];
      [s[0]] + InsertByDue(x, s[1..], parse)
  }

  /** Every element of the insertion result is `x` or an element of `s`. */
  lemma InsertByDueElements(x: Listing, s: seq<Listing>, parse: DateParser, k: int)
    requires 0 <= k < |InsertByDue(x, s, parse)|
    ensures InsertByDue(x, s, parse)[k] == x || InsertByDue(x, s, parse)[k] in s
  {
    var r := InsertByDue(x, s, parse);
    assert r[k] in multiset(r);
  }

  lemma {:induction false} InsertByDueOrdered(x: Listing, s: seq<Listing>, parse: DateParser)
    requires KeyOrdered(s, parse)
    ensures KeyOrdered(InsertByDue(x, s, parse), parse)
  {
    if s == [] {
    } else if CompareDates(s[0], x, parse) >= 0 {
      CompareDatesAgreesWithKeys(x, s[0], parse);
      var r := [x] + s;
      forall i, j | 0 <= i < j < |r|
        ensures KeyLe(KeyOf(r[i], parse), KeyOf(r[j], parse))
      {
        if i == 0 && j > 1 {
          KeyLeTotalPreorder(KeyOf(x, parse), KeyOf(s[0], parse), KeyOf(s[j - 1], parse));
        }
      }
    } else {
      CompareDatesAgreesWithKeys(x, s[0], parse);
      KeyLeTotalPreorder(KeyOf(x, parse), KeyOf(s[0], parse), KeyOf(s[0], parse));
      InsertByDueOrdered(x, s[1..], parse);
      var rest := InsertByDue(x, s[1..], parse);
      var r := [s[0]] + rest;
      forall i, j | 0 <= i < j < |r|
        ensures KeyLe(KeyOf(r[i], parse), KeyOf(r[j], parse))
      {
        if i == 0 {
          InsertByDueElements(x, s[1..], parse, j - 1);
          if rest[j - 1] != x {
            var k :| 0 <= k < |s[1..]| && s[1..][k] == rest[j - 1];
            assert s[k + 1] == rest[j - 1];
          }
        } else {
          assert r[i] == rest[i - 1] && r[j] == rest[j - 1];
        }
      }
    }
  }

  /** `[...xs].sort(compareDates)`, as a stable insertion sort. */
  function SortByDue(xs: seq<Listing>, parse: DateParser): (r: seq<Listing>)
    ensures multiset(r) == multiset(xs)
    ensures SortedByDue(r, parse)
  {
    if xs == [] then []
    else
      assert xs == [xs[0]] + xs[1..];
      var rest := SortByDue(xs[1..], parse);
      SortedIffKeyOrdered(rest, parse);
      InsertByDueOrdered(xs[0], rest, parse);
      SortedIffKeyOrdered(InsertByDue(xs[0], rest, parse), parse);
      InsertByDue(xs[0], rest, parse)
  }

  /** The tail of a sorted list is sorted. */
  lemma SortedTail(xs: seq<Listing>, parse: DateParser)
    requires xs != [] && SortedByDue(xs, parse)
    ensures SortedByDue(xs[1..], parse)
  {
    forall i, j | 0 <= i < j < |xs[1..]|
      ensures CompareDates(xs[1..][j], xs[1..][i], parse) >= 0
    {
      assert xs[1..][j] == xs[j + 1] && xs[1..][i] == xs[i + 1];
    }
  }

  /** Sorting a list that is already sorted gives it back unchanged. */
  lemma {:induction false} SortByDueKeepsSorted(xs: seq<Listing>, parse: DateParser)
    requires SortedByDue(xs, parse)
    ensures SortByDue(xs, parse) == xs
  {
    if xs != [] {
      var rest := xs[1..];
      SortedTail(xs, parse);
      SortByDueKeepsSorted(rest, parse);
      assert SortByDue(xs, parse) == InsertByDue(xs[0], rest, parse);
      if rest != [] {
        assert CompareDates(rest[0], xs[0], parse) >= 0 by {
          assert rest[0] == xs[1];
        }
      }
      assert InsertByDue(xs[0], rest, parse) == [xs[0]] + rest;
      assert [xs[0]] + rest == xs;
    }
  }

  /** In a list sorted by due date every valid-dated listing precedes every undated or
      unparsable one, and the dated ones run newest first. */
  lemma SortedDatedPrefix(xs: seq<Listing>, parse: DateParser, i: int, j: int)
    requires SortedByDue(xs, parse)
    requires 0 <= i < j < |xs|
    ensures KeyOf(xs[j], parse).Dated? ==> KeyOf(xs[i], parse).Dated?
    ensures KeyOf(xs[i], parse).Dated? && KeyOf(xs[j], parse).Dated? ==>
              KeyOf(xs[i], parse).ms >= KeyOf(xs[j], parse).ms
  {
    CompareDatesAgreesWithKeys(xs[i], xs[j], parse);
  }
}
