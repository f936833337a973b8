/** The pure helpers of src/components/ListingDetailFields.tsx: the preference-code summary
    (`sortPreferences`) and the string narrowing of detail values (`createAsyncValue`). */
module ListingDetailFields {
  import opened Wrappers
  import opened Text
  import opened JsValues

  /** `Number.MAX_SAFE_INTEGER`, the order of a preference without `Order`. */
  const MAX_SAFE_INTEGER: int := 9007199254740991

  /** One entry of `Listing_Lottery_Preferences`: its `Order`, and the
      `Lottery_Preference?.Preference_Short_Code` it carries (`None` when either is missing). */
  datatype PreferenceEntry = PreferenceEntry(order: Option<int>, shortCode: Option<string>)

  /** The part of the listing details this helper reads. */
  datatype ListingDetails = ListingDetails(preferences: Option<seq<PreferenceEntry>>)

  /** `a.Order ?? Number.MAX_SAFE_INTEGER`. */
  function OrderKey(p: PreferenceEntry): int {
    p.order.GetOr(MAX_SAFE_INTEGER)
  }

  ghost predicate SortedByOrder(ps: seq<PreferenceEntry>) {
    forall i, j :: 0 <= i < j < |ps| ==> OrderKey(ps[i]) <= OrderKey(ps[j])
  }

  /** The entries with order key `k`, in list order. A sort is stable when it keeps each of
      these subsequences as it was. */
  function WithOrder(ps: seq<PreferenceEntry>, k: int): (r: seq<PreferenceEntry>)
    ensures forall i :: 0 <= i < |r| ==> OrderKey(r[i]) == k
  {
    if ps == [] then []
    else (if OrderKey(ps[0]) == k then [ps[0]] else []) + WithOrder(ps[1..], k)
  }

  /** Places `x` before the first entry whose key is not smaller. */
  function InsertByOrder(x: PreferenceEntry, s: seq<PreferenceEntry>): (r: seq<PreferenceEntry>)
    ensures multiset(r) == multiset(s) + multiset{x}
    ensures |r| == |s| + 1
  {
    if s == [] then [x]
    else if OrderKey(x) <= OrderKey(s[0]) then [x] + s
    else
      assert s == [s[0]] + s[1..];
      [s[0]] + InsertByOrder(x, s[1..])
  }

  lemma {:induction false} InsertByOrderSorted(x: PreferenceEntry, s: seq<PreferenceEntry>)
    requires SortedByOrder(s)
    ensures SortedByOrder(InsertByOrder(x, s))
  {
    if s != [] && OrderKey(x) > OrderKey(s[0]) {
      InsertByOrderSorted(x, s[1..]);
      var rest := InsertByOrder(x, s[1..]);
      forall j | 0 <= j < |rest| ensures OrderKey(s[0]) <= OrderKey(rest[j]) {
        assert rest[j] in multiset(rest);
        if rest[j] != x {
          assert rest[j] in multiset(s[1..]);
          var k :| 0 <= k < |s[1..]| && s[1..][k] == rest[j];
          assert s[k + 1] == rest[j];
        }
      }
    }
  }

  /** The entries with key `k` of a list with one more entry in front. */
  lemma WithOrderCons(p: PreferenceEntry, ps: seq<PreferenceEntry>, k: int)
    ensures WithOrder([p] + ps, k) == (if OrderKey(p) == k then [p] else []) + WithOrder(ps, k)
  {
    assert ([p] + ps)[0] == p && ([p] + ps)[1..] == ps;
  }

  /** Inserting `x` adds it in front of its own key's subsequence and leaves the others alone. */
  lemma {:induction false} InsertByOrderWithOrder(x: PreferenceEntry, s: seq<PreferenceEntry>, k: int)
    ensures WithOrder(InsertByOrder(x, s), k) == (if OrderKey(x) == k then [x] else []) + WithOrder(s, k)
  {
    if s == [] {
      WithOrderCons(x, [], k);
      assert [x] + [] == [x];
    } else if OrderKey(x) <= OrderKey(s[0]) {
      WithOrderCons(x, s, k);
    } else {
      var rest := InsertByOrder(x, s[1..]);
      InsertByOrderWithOrder(x, s[1..], k);
      WithOrderCons(s[0], rest, k);
      WithOrderCons(s[0], s[1..], k);
      assert s == [s[0]] + s[1..];
      assert InsertByOrder(x, s) == [s[0]] + rest;
      var tail := WithOrder(s[1..], k);
      // `x` and `s[0]` have different keys, so at most one of them is kept
      if OrderKey(x) == k {
        assert WithOrder(InsertByOrder(x, s), k) == [x] + tail;
        assert WithOrder(s, k) == tail;
      } else {
        assert WithOrder(InsertByOrder(x, s), k) == WithOrder(s, k);
      }
    }
  }

  /** `list.toSorted((a, b) => orderKey(a) - orderKey(b))`: ascending by order key, a
      permutation of the input, and stable (entries with equal keys keep their order). */
  function SortByOrder(ps: seq<PreferenceEntry>): (r: seq<PreferenceEntry>)
    ensures multiset(r) == multiset(ps)
    ensures SortedByOrder(r)
    ensures forall k :: WithOrder(r, k) == WithOrder(ps, k)
  {
    if ps == [] then []
    else
      assert ps == [ps[0]] + ps[1..];
      var rest := SortByOrder(ps[1..]);
      InsertByOrderSorted(ps[0], rest);
      assert forall k :: WithOrder(InsertByOrder(ps[0], rest), k) == WithOrder(ps, k) by {
        forall k ensures WithOrder(InsertByOrder(ps[0], rest), k) == WithOrder(ps, k) {
          InsertByOrderWithOrder(ps[0], rest, k);
        }
      }
      InsertByOrder(ps[0], rest)
  }

  /** Whether an entry carries a truthy short code equal to `c`. */
  predicate HasCode(p: PreferenceEntry, c: string) {
    p.shortCode == Some(c) && c != ""
  }

  /** Whether some entry of the list carries the truthy short code `c`. */
  ghost predicate CarriesCode(ps: seq<PreferenceEntry>, c: string) {
    exists i :: 0 <= i < |ps| && HasCode(ps[i], c)
  }

  /** `.map(p => p.Lottery_Preference?.Preference_Short_Code).filter(c => !!c)`. */
  function ShortCodes(ps: seq<PreferenceEntry>): (r: seq<string>)
    ensures forall i :: 0 <= i < |r| ==> r[i] != ""
    ensures forall c :: c in r <==> CarriesCode(ps, c)
    ensures |ps| == 1 ==> r == if ps[0].shortCode.Some? && ps[0].shortCode.value != "" then [ps[0].shortCode.value] else []
  {
    if ps == [] then []
    else
      var rest := ShortCodes(ps[1..]);
      assert forall c :: CarriesCode(ps, c) <==> HasCode(ps[0], c) || CarriesCode(ps[1..], c) by {
        forall c | CarriesCode(ps, c) && !HasCode(ps[0], c) ensures CarriesCode(ps[1..], c) {
          var i :| 0 <= i < |ps| && HasCode(ps[i], c);
          assert ps[1..][i - 1] == ps[i];
        }
        forall c | CarriesCode(ps[1..], c) ensures CarriesCode(ps, c) {
          var i :| 0 <= i < |ps[1..]| && HasCode(ps[1..][i], c);
          assert ps[i + 1] == ps[1..][i];
        }
      }
      if ps[0].shortCode.Some? && ps[0].shortCode.value != "" then [ps[0].shortCode.value] + rest
      else rest
  }

  /** Mapping and filtering work entry by entry: the codes of two lists one after the other
      are the codes of the first followed by the codes of the second. */
  lemma {:induction false} ShortCodesAppend(a: seq<PreferenceEntry>, b: seq<PreferenceEntry>)
    ensures ShortCodes(a + b) == ShortCodes(a) + ShortCodes(b)
  {
    if a == [] {
      assert a + b == b;
    } else {
      assert (a + b)[0] == a[0];
      assert (a + b)[1..] == a[1..] + b;
      ShortCodesAppend(a[1..], b);
    }
  }

  /** Some entry carrying `c` comes before every entry carrying `d`. */
  ghost predicate CarriedBefore(ps: seq<PreferenceEntry>, c: string, d: string) {
    exists p :: 0 <= p < |ps| && HasCode(ps[p], c) && forall q :: 0 <= q < |ps| && HasCode(ps[q], d) ==> p < q
  }

  /** A code the first entry does not carry first occurs in the codes of the rest, one place
      earlier when the first entry contributes a code. */
  lemma ShortCodesTailIndex(ps: seq<PreferenceEntry>, c: string)
    requires c in ShortCodes(ps) && !HasCode(ps[0], c)
    ensures c in ShortCodes(ps[1..])
    ensures FirstIndex(ShortCodes(ps), c)
              == FirstIndex(ShortCodes(ps[1..]), c) + (if ps[0].shortCode.Some? && ps[0].shortCode.value != "" then 1 else 0)
  {
    var codes := ShortCodes(ps);
    if ps[0].shortCode.Some? && ps[0].shortCode.value != "" {
      assert codes == [ps[0].shortCode.value] + ShortCodes(ps[1..]);
      assert codes[1..] == ShortCodes(ps[1..]);
    }
  }

  /** An entry in front that does not carry `d` keeps `c` carried before `d`. */
  lemma CarriedBeforeCons(ps: seq<PreferenceEntry>, c: string, d: string)
    requires ps != [] && !HasCode(ps[0], d) && CarriedBefore(ps[1..], c, d)
    ensures CarriedBefore(ps, c, d)
  {
    var p :| 0 <= p < |ps[1..]| && HasCode(ps[1..][p], c)
             && forall q :: 0 <= q < |ps[1..]| && HasCode(ps[1..][q], d) ==> p < q;
    forall q | 0 <= q < |ps| && HasCode(ps[q], d) ensures p + 1 < q {
      assert ps[1..][q - 1] == ps[q];
    }
    assert HasCode(ps[p + 1], c);
  }

  /** The codes keep the entries' order: a code whose first occurrence comes earlier is
      carried by an entry before every entry carrying the later one. */
  lemma {:induction false} ShortCodesKeepOrder(ps: seq<PreferenceEntry>, c: string, d: string)
    requires c in ShortCodes(ps) && d in ShortCodes(ps)
    requires FirstIndex(ShortCodes(ps), c) < FirstIndex(ShortCodes(ps), d)
    ensures CarriedBefore(ps, c, d)
  {
    var codes := ShortCodes(ps);
    if HasCode(ps[0], c) {
      assert codes[0] == c;
      assert forall q :: 0 <= q < |ps| && HasCode(ps[q], d) ==> 0 < q;
    } else {
      // a first entry carrying `d` would put `d` first among the codes
      assert !HasCode(ps[0], d);
      ShortCodesTailIndex(ps, c);
      ShortCodesTailIndex(ps, d);
      ShortCodesKeepOrder(ps[1..], c, d);
      CarriedBeforeCons(ps, c, d);
    }
  }

  /** The position of the first occurrence of `c` in `xs`. */
  function FirstIndex(xs: seq<string>, c: string): (r: nat)
    requires c in xs
    ensures r < |xs| && xs[r] == c && c !in xs[..r]
  {
    if xs[0] == c then 0
    else
      var r := FirstIndex(xs[1..], c);
      assert xs[..r + 1] == [xs[0]] + xs[1..][..r];
      r + 1
  }

  /** A first occurrence inside a prefix is the first occurrence in the whole list. */
  lemma FirstIndexInPrefix(xs: seq<string>, n: nat, c: string)
    requires n <= |xs| && c in xs[..n]
    ensures c in xs && FirstIndex(xs, c) == FirstIndex(xs[..n], c)
  {
    var a := FirstIndex(xs, c);
    var b := FirstIndex(xs[..n], c);
    assert xs[b] == c;
  }

  /** `[...new Set(codes)]`: each code once, at the place it first occurred. */
  function Dedupe(xs: seq<string>): (r: seq<string>)
    ensures forall i, j :: 0 <= i < j < |r| ==> r[i] != r[j]
    ensures forall c :: c in r <==> c in xs
  {
    if xs == [] then []
    else
      var init := xs[..|xs| - 1];
      var last := xs[|xs| - 1];
      assert xs == init + [last];
      var rest := Dedupe(init);
      if last in rest then rest else rest + [last]
  }

  /** The deduplicated codes keep the order of their first occurrences. */
  lemma {:induction false} DedupeKeepsFirstOccurrenceOrder(xs: seq<string>, i: int, j: int)
    requires 0 <= i < j < |Dedupe(xs)|
    ensures FirstIndex(xs, Dedupe(xs)[i]) < FirstIndex(xs, Dedupe(xs)[j])
  {
    var init := xs[..|xs| - 1];
    var last := xs[|xs| - 1];
    assert xs == init + [last];
    assert init == xs[..|xs| - 1];
    var rest := Dedupe(init);
    var r := Dedupe(xs);
    assert r[i] in rest;
    FirstIndexInPrefix(xs, |xs| - 1, r[i]);
    if j < |rest| {
      DedupeKeepsFirstOccurrenceOrder(init, i, j);
      FirstIndexInPrefix(xs, |xs| - 1, r[j]);
    } else {
      assert r[j] == last && last !in init;
      assert FirstIndex(xs, last) == |xs| - 1;
    }
  }

  /** The codes the summary lists, in order. */
  function SummaryCodes(ps: seq<PreferenceEntry>): seq<string> {
    Dedupe(ShortCodes(SortByOrder(ps)))
  }

  /** The summary codes: each listed once, none empty, exactly the truthy short codes of the
      preferences, ordered by where they first appear once the preferences are sorted. */
  lemma SummaryCodesSpec(ps: seq<PreferenceEntry>)
    ensures var r := SummaryCodes(ps);
      && (forall i, j :: 0 <= i < j < |r| ==> r[i] != r[j])
      && (forall i :: 0 <= i < |r| ==> r[i] != "")
      && (forall c :: c in r <==> CarriesCode(ps, c))
      && (forall i, j :: 0 <= i < j < |r| ==>
            var codes := ShortCodes(SortByOrder(ps));
            FirstIndex(codes, r[i]) < FirstIndex(codes, r[j]))
      && (forall i, j :: 0 <= i < j < |r| ==> CarriedBefore(SortByOrder(ps), r[i], r[j]))
  {
    var sorted := SortByOrder(ps);
    var r := SummaryCodes(ps);
    forall c ensures CarriesCode(sorted, c) <==> CarriesCode(ps, c) {
      if CarriesCode(sorted, c) {
        var k :| 0 <= k < |sorted| && HasCode(sorted[k], c);
        assert sorted[k] in multiset(ps);
        var m :| 0 <= m < |ps| && ps[m] == sorted[k];
      }
      if CarriesCode(ps, c) {
        var k :| 0 <= k < |ps| && HasCode(ps[k], c);
        assert ps[k] in multiset(sorted);
        var m :| 0 <= m < |sorted| && sorted[m] == ps[k];
      }
    }
    forall i, j | 0 <= i < j < |r|
      ensures FirstIndex(ShortCodes(sorted), r[i]) < FirstIndex(ShortCodes(sorted), r[j])
    {
      DedupeKeepsFirstOccurrenceOrder(ShortCodes(sorted), i, j);
    }
    forall i, j | 0 <= i < j < |r| ensures CarriedBefore(sorted, r[i], r[j]) {
      assert r[i] in r && r[j] in r;
      DedupeKeepsFirstOccurrenceOrder(ShortCodes(sorted), i, j);
      ShortCodesKeepOrder(sorted, r[i], r[j]);
    }
    forall i | 0 <= i < |r| ensures r[i] != "" {
      assert r[i] in r;
      var k :| 0 <= k < |ShortCodes(sorted)| && ShortCodes(sorted)[k] == r[i];
    }
  }

  /** `sortPreferences(listingDetails)`: the summary codes joined with ", ". It is empty
      exactly when no preference carries a truthy short code, which covers null details and a
      missing or empty preference list. */
  function SortPreferences(details: Option<ListingDetails>): (r: string)
    ensures (details.None? || details.value.preferences.None? || details.value.preferences.value == [])
              ==> r == ""
    ensures details.Some? && details.value.preferences.Some? ==>
              var ps := details.value.preferences.value;
              && (r == "" <==> forall c :: !CarriesCode(ps, c))
              && (ps != [] ==> r == Join(SummaryCodes(ps), ", "))
  {
    if details.None? || details.value.preferences.None? || |details.value.preferences.value| == 0 then ""
    else
      var ps := details.value.preferences.value;
      SummaryCodesSpec(ps);
      var codes := SummaryCodes(ps);
      assert codes != [] ==> codes[0] in codes && CarriesCode(ps, codes[0]);
      Join(codes, ", ")
  }

  /** The loading-aware value a detail row shows (`<AsyncFieldValue … />`). */
  datatype FieldValue = FieldValue(value: Option<string>, isLoading: bool, hasError: bool, errorText: string)

  /** A row of the details list. */
  datatype DetailField = DetailField(fieldLabel: string, value: FieldValue, copyText: Option<string>)

  /** `createAsyncValue(data, isLoading, error)(label, key, createValue)`: the value is
      `createValue(data)` when a producer is given, else `data?.[key]`, and it is kept only
      when it is a string; the copy text is that same narrowed value. */
  function AsyncValue(data: Option<map<string, JsValue>>, isLoading: bool, hasError: bool,
                      fieldLabel: string, key: string,
                      createValue: Option<Option<map<string, JsValue>> -> JsValue>): (f: DetailField)
    ensures f.fieldLabel == fieldLabel && f.copyText == f.value.value
    ensures f.value.isLoading == isLoading && f.value.hasError == hasError
    ensures f.value.errorText == "Error loading \"" + fieldLabel + "\"."
    ensures createValue.Some? ==>
              (f.value.value.Some? <==> createValue.value(data).JsString?)
              && (f.value.value.Some? ==> f.value.value.value == createValue.value(data).s)
    ensures createValue.None? ==>
              (f.value.value.Some? <==> data.Some? && key in data.value && data.value[key].JsString?)
              && (f.value.value.Some? ==> f.value.value.value == data.value[key].s)
  {
    var value := if createValue.Some? then createValue.value(data)
                 else if data.Some? then Get(JsObject(data.value), key)
                 else JsUndefined;
    var typedValue := if value.JsString? then Some(value.s) else None;
    DetailField(fieldLabel, FieldValue(typedValue, isLoading, hasError, "Error loading \"" + fieldLabel + "\"."),
                typedValue)
  }
}
